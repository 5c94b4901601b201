/** What `King.inCheck` and `Board.playersInCheck` compute, stated over the
    board contents rather than over the order of the scan. */
module CheckFacts {
  import opened Geometry
  import opened Pieces
  import opened Rules
  import opened Boards

  /** The piece on `pos` is of the other colour and its rule lets it move onto `kingPos`. */
  ghost predicate Attacks(grid: Grid, pos: Position, color: Color, kingPos: Position)
  {
    pos in grid && grid[pos].color != color && Rule(grid[pos], pos, kingPos, grid) == Ok(true)
  }

  /** The piece on `pos` is of the other colour and its rule raises for `kingPos`. */
  ghost predicate AttackRaises(grid: Grid, pos: Position, color: Color, kingPos: Position)
  {
    pos in grid && grid[pos].color != color && Rule(grid[pos], pos, kingPos, grid).Raised?
  }

  /** The scan answers false exactly when no listed piece is decisive, and
      otherwise answers what the first decisive piece's rule answers. */
  lemma {:induction false} ScanCheckFirstDecisive(pieces: seq<(Piece, Position)>, color: Color, kingPos: Position, grid: Grid)
    ensures ScanCheck(pieces, color, kingPos, grid) == Ok(false) <==>
      forall j :: 0 <= j < |pieces| ==> !Decisive(pieces[j], color, kingPos, grid)
    ensures ScanCheck(pieces, color, kingPos, grid) != Ok(false) ==>
      exists j :: 0 <= j < |pieces| && Decisive(pieces[j], color, kingPos, grid) &&
        ScanCheck(pieces, color, kingPos, grid) == Rule(pieces[j].0, pieces[j].1, kingPos, grid) &&
        forall m :: 0 <= m < j ==> !Decisive(pieces[m], color, kingPos, grid)
  {
    if pieces != [] && !Decisive(pieces[0], color, kingPos, grid) {
      var rest := pieces[1..];
      ScanCheckFirstDecisive(rest, color, kingPos, grid);
      assert forall j :: 0 < j < |pieces| ==> pieces[j] == rest[j - 1];
      if ScanCheck(rest, color, kingPos, grid) != Ok(false) {
        var j :| 0 <= j < |rest| && Decisive(rest[j], color, kingPos, grid) &&
          ScanCheck(rest, color, kingPos, grid) == Rule(rest[j].0, rest[j].1, kingPos, grid) &&
          forall m :: 0 <= m < j ==> !Decisive(rest[m], color, kingPos, grid);
        assert pieces[j + 1] == rest[j];
        assert forall m :: 0 <= m < j + 1 ==> !Decisive(pieces[m], color, kingPos, grid) by {
          forall m | 0 < m < j + 1 ensures !Decisive(pieces[m], color, kingPos, grid) {
            assert pieces[m] == rest[m - 1];
          }
        }
      }
    }
  }

  /** `inCheck` answers true only when a piece of the other colour can move
      onto the king's square; it raises only when such a piece's rule raises;
      and it answers false exactly when every piece of the other colour is
      plainly refused. */
  lemma InCheckMeaning(grid: Grid, order: seq<Position>, color: Color, kingPos: Position)
    requires KeyOrder(grid, order)
    ensures InCheckSpec(grid, order, color, kingPos) == Ok(true) ==>
      exists pos :: Attacks(grid, pos, color, kingPos)
    ensures InCheckSpec(grid, order, color, kingPos).Raised? ==>
      exists pos :: AttackRaises(grid, pos, color, kingPos)
    ensures InCheckSpec(grid, order, color, kingPos) == Ok(false) <==>
      forall pos :: pos in grid && grid[pos].color != color ==> Rule(grid[pos], pos, kingPos, grid) == Ok(false)
  {
    var pieces := Pairs(grid, order);
    ScanCheckFirstDecisive(pieces, color, kingPos, grid);
    var verdict := InCheckSpec(grid, order, color, kingPos);
    if verdict != Ok(false) {
      var j :| 0 <= j < |pieces| && Decisive(pieces[j], color, kingPos, grid) &&
        verdict == Rule(pieces[j].0, pieces[j].1, kingPos, grid);
      var pos := order[j];
      assert pieces[j] == (grid[pos], pos);
      assert verdict == Ok(true) ==> Attacks(grid, pos, color, kingPos);
      assert verdict.Raised? ==> AttackRaises(grid, pos, color, kingPos);
      assert pos in grid && grid[pos].color != color && Rule(grid[pos], pos, kingPos, grid) != Ok(false);
    } else {
      forall pos | pos in grid && grid[pos].color != color
        ensures Rule(grid[pos], pos, kingPos, grid) == Ok(false)
      {
        var j :| 0 <= j < |order| && order[j] == pos;
        assert pieces[j] == (grid[pos], pos);
        assert !Decisive(pieces[j], color, kingPos, grid);
      }
    }
  }

  /** When no piece of the other colour raises for the king's square, `inCheck`
      answers exactly whether some piece of the other colour can move there. */
  lemma InCheckIff(grid: Grid, order: seq<Position>, color: Color, kingPos: Position)
    requires KeyOrder(grid, order)
    requires forall pos :: !AttackRaises(grid, pos, color, kingPos)
    ensures InCheckSpec(grid, order, color, kingPos) == Ok(exists pos :: Attacks(grid, pos, color, kingPos))
  {
    InCheckMeaning(grid, order, color, kingPos);
    var verdict := InCheckSpec(grid, order, color, kingPos);
    var attacked := exists pos :: Attacks(grid, pos, color, kingPos);
    match verdict {
      case Raised(_) =>
      case Ok(b) =>
        if attacked {
          var pos :| Attacks(grid, pos, color, kingPos);
          assert Rule(grid[pos], pos, kingPos, grid) != Ok(false);
          assert b;
        } else {
          assert !b;
        }
    }
    assert verdict == Ok(attacked);
  }

  /** After visiting `keys`, the scan of `playersInCheck` has raised exactly
      when some visited king's check scan raises; otherwise it holds exactly
      the colours of the visited kings found in check. */
  lemma {:induction false} KingsInCheckMeaning(grid: Grid, order: seq<Position>, keys: seq<Position>)
    requires KeyOrder(grid, order)
    requires forall p :: p in keys ==> p in grid
    ensures KingsInCheck(grid, order, keys).Raised? <==>
      exists j :: 0 <= j < |keys| && KingRaises(grid, order, keys[j])
    ensures KingsInCheck(grid, order, keys).Ok? ==>
      forall c :: c in KingsInCheck(grid, order, keys).value <==>
        exists j :: 0 <= j < |keys| && KingChecked(grid, order, keys[j], c)
  {
    if keys != [] {
      var m := |keys| - 1;
      var prev := keys[..m];
      assert forall p :: p in prev ==> p in keys;
      KingsInCheckMeaning(grid, order, prev);
      assert forall j :: 0 <= j < m ==> keys[j] == prev[j];
      var pos := keys[m];
      var piece := grid[pos];
      var prior := KingsInCheck(grid, order, prev);
      var result := KingsInCheck(grid, order, keys);
      if prior.Raised? {
        var j :| 0 <= j < m && KingRaises(grid, order, prev[j]);
        assert KingRaises(grid, order, keys[j]);
      } else if piece.kind != King {
        assert !KingRaises(grid, order, pos);
        assert forall c :: !KingChecked(grid, order, pos, c);
        assert result == prior;
      } else {
        var found := InCheckSpec(grid, order, piece.color, pos);
        if found.Raised? {
          assert KingRaises(grid, order, keys[m]);
        } else {
          assert !KingRaises(grid, order, pos);
          assert forall c :: KingChecked(grid, order, pos, c) <==> found.value && c == piece.color;
        }
      }
    }
  }

  /** `playersInCheck` raises exactly when the check scan of some king on the
      board raises; otherwise it returns exactly the colours of the kings on
      the board that are in check. */
  lemma PlayersInCheckIff(grid: Grid, order: seq<Position>)
    requires KeyOrder(grid, order)
    ensures KingsInCheck(grid, order, order).Raised? <==> exists pos :: KingRaises(grid, order, pos)
    ensures KingsInCheck(grid, order, order).Ok? ==>
      forall c :: c in KingsInCheck(grid, order, order).value <==> exists pos :: KingChecked(grid, order, pos, c)
  {
    KingsInCheckMeaning(grid, order, order);
    if exists pos :: KingRaises(grid, order, pos) {
      var pos :| KingRaises(grid, order, pos);
      var j :| 0 <= j < |order| && order[j] == pos;
    }
    forall c, pos | KingChecked(grid, order, pos, c)
      ensures exists j :: 0 <= j < |order| && KingChecked(grid, order, order[j], c)
    {
      var j :| 0 <= j < |order| && order[j] == pos;
    }
  }
}
