/** The board: a sparse, insertion-ordered dictionary from squares to
    pieces, changed in place, with move application and check detection. */
module Boards {
  import opened Geometry
  import opened Pieces
  import opened Rules

  predicate Distinct(s: seq<Position>)
  {
    forall i, j :: 0 <= i < j < |s| ==> s[i] != s[j]
  }

  /** `order` lists every occupied square exactly once: the key order of
      the dictionary, which is the order in which the present keys were last
      inserted (a square emptied and filled again goes last). */
  ghost predicate KeyOrder(grid: Grid, order: seq<Position>)
  {
    Distinct(order) && forall p :: p in order <==> p in grid
  }

  /** `s` with `p` deleted, the rest kept in their order. */
  function Erase(s: seq<Position>, p: Position): (r: seq<Position>)
    ensures forall q :: q in r <==> q in s && q != p
    ensures p !in s ==> r == s
    ensures |r| <= |s|
  {
    if s == [] then []
    else if s[0] == p then Erase(s[1..], p)
    else [s[0]] + Erase(s[1..], p)
  }

  /** Deleting from a list without repetitions gives one without repetitions. */
  lemma {:induction false} EraseKeepsDistinct(s: seq<Position>, p: Position)
    requires Distinct(s)
    ensures Distinct(Erase(s, p))
  {
    if s != [] {
      assert Distinct(s[1..]) by {
        forall i, j | 0 <= i < j < |s| - 1 ensures s[1..][i] != s[1..][j] {
          assert s[1..][i] == s[i + 1] && s[1..][j] == s[j + 1];
        }
      }
      EraseKeepsDistinct(s[1..], p);
      if s[0] != p {
        var t := Erase(s[1..], p);
        assert s[0] !in s[1..] by {
          forall k | 0 <= k < |s| - 1 ensures s[1..][k] != s[0] {
            assert s[1..][k] == s[k + 1];
          }
        }
        assert s[0] !in t;
        var r := [s[0]] + t;
        forall i, j | 0 <= i < j < |r| ensures r[i] != r[j] {
          if i == 0 {
            assert r[j] == t[j - 1];
            assert t[j - 1] in t;
          } else {
            assert r[i] == t[i - 1] && r[j] == t[j - 1];
          }
        }
      }
    }
  }

  /** The `(piece, square)` pairs of the squares in `order`, in that order. */
  function Pairs(grid: Grid, order: seq<Position>): (r: seq<(Piece, Position)>)
    requires forall p :: p in order ==> p in grid
    ensures |r| == |order|
    ensures forall i :: 0 <= i < |order| ==> r[i] == (grid[order[i]], order[i])
  {
    if order == [] then [] else [(grid[order[0]], order[0])] + Pairs(grid, order[1..])
  }

  /** A listed piece settles the check scan when it is of the other colour
      and its rule does not plainly answer false: it answers true or raises. */
  predicate Decisive(entry: (Piece, Position), color: Color, kingPos: Position, grid: Grid)
  {
    entry.0.color != color && Rule(entry.0, entry.1, kingPos, grid) != Ok(false)
  }

  /** The scan of `King.inCheck` over `pieces`: the first decisive piece
      gives the answer (true, or its exception), and false if there is none. */
  function ScanCheck(pieces: seq<(Piece, Position)>, color: Color, kingPos: Position, grid: Grid): Outcome<bool>
  {
    if pieces == [] then Ok(false)
    else if Decisive(pieces[0], color, kingPos, grid) then Rule(pieces[0].0, pieces[0].1, kingPos, grid)
    else ScanCheck(pieces[1..], color, kingPos, grid)
  }

  /** `King.inCheck(kingPos, board)` for a king of colour `color`, scanning
      the board's pieces in key order. */
  function InCheckSpec(grid: Grid, order: seq<Position>, color: Color, kingPos: Position): Outcome<bool>
    requires KeyOrder(grid, order)
  {
    ScanCheck(Pairs(grid, order), color, kingPos, grid)
  }

  /** The king on `pos`, if `pos` holds one, is of colour `c` and in check. */
  predicate KingChecked(grid: Grid, order: seq<Position>, pos: Position, c: Color)
    requires KeyOrder(grid, order)
  {
    pos in grid && grid[pos] == Piece(King, c) && InCheckSpec(grid, order, c, pos) == Ok(true)
  }

  /** `pos` holds a king whose check scan raises. */
  predicate KingRaises(grid: Grid, order: seq<Position>, pos: Position)
    requires KeyOrder(grid, order)
  {
    pos in grid && grid[pos].kind == King && InCheckSpec(grid, order, grid[pos].color, pos).Raised?
  }

  /** The loop of `playersInCheck` after visiting the squares `keys`: the
      colours of the visited kings found in check, or the first exception. */
  function KingsInCheck(grid: Grid, order: seq<Position>, keys: seq<Position>): Outcome<set<Color>>
    requires KeyOrder(grid, order)
    requires forall p :: p in keys ==> p in grid
  {
    if keys == [] then Ok({})
    else
      var prior := KingsInCheck(grid, order, keys[..|keys| - 1]);
      var pos := keys[|keys| - 1];
      var piece := grid[pos];
      if prior.Raised? || piece.kind != King then prior
      else
        var found := InCheckSpec(grid, order, piece.color, pos);
        if found.Raised? then Raised(found.error)
        else if found.value then Ok(prior.value + {piece.color})
        else prior
  }

  /** The checks `movePiece` makes before moving: false for squares off the
      board, a null move, an empty `start`; otherwise the piece's own rule. */
  function MoveVerdict(grid: Grid, start: Position, end: Position): Outcome<bool>
  {
    if !Board.InBounds(start) || !Board.InBounds(end) || start == end then Ok(false)
    else if start !in grid then Ok(false)
    else Rule(grid[start], start, end, grid)
  }

  class Board {
    /** The occupied squares and what stands on them. */
    var grid: Grid
    /** The dictionary's key order. */
    var order: seq<Position>

    ghost predicate Valid()
      reads this
    {
      KeyOrder(grid, order)
    }

    /** An empty board. */
    constructor ()
      ensures Valid() && grid == map[] && order == []
    {
      grid := map[];
      order := [];
    }

    /** What stands on `position`, `None` if it is empty. */
    function GetPiece(position: Position): (r: Option<Piece>)
      reads this
      ensures r == None <==> position !in grid
      ensures r != None ==> position in grid && r.value == grid[position]
    {
      Lookup(grid, position)
    }

    /** The `(piece, square)` pairs of the board, in key order. */
    method GetPieces() returns (pieces: seq<(Piece, Position)>)
      requires Valid()
      ensures pieces == Pairs(grid, order)
    {
      pieces := [];
      var i := 0;
      while i < |order|
        invariant 0 <= i <= |order|
        invariant |pieces| == i
        invariant forall k :: 0 <= k < i ==> pieces[k] == (grid[order[k]], order[k])
      {
        var pos := order[i];
        pieces := pieces + [(grid[pos], pos)];
        i := i + 1;
      }
    }

    /** Deletes the entry for `position`; deleting an empty square raises. */
    method RemovePiece(position: Position) returns (r: Outcome<()>)
      requires Valid()
      modifies this
      ensures Valid()
      ensures r == if position in old(grid) then Ok(()) else Raised(KeyError)
      ensures grid == old(grid) - {position}
      ensures order == Erase(old(order), position)
    {
      if position !in grid {
        return Raised(KeyError);
      }
      EraseKeepsDistinct(order, position);
      grid := grid - {position};
      order := Erase(order, position);
      r := Ok(());
    }

    /** Puts `piece` on `position`, on or off the board, and returns what stood there. */
    method PlacePiece(piece: Piece, position: Position) returns (previous: Option<Piece>)
      requires Valid()
      modifies this
      ensures Valid()
      ensures previous == Lookup(old(grid), position)
      ensures grid == old(grid)[position := piece]
      ensures order == if position in old(grid) then old(order) else old(order) + [position]
    {
      previous := Lookup(grid, position);
      if position !in grid {
        order := order + [position];
      }
      grid := grid[position := piece];
    }

    static function InBounds(position: Position): bool
    {
      0 <= position.x < 8 && 0 <= position.y < 8
    }

    /** Validates and then makes a move, returning the captured piece. A
        rejected move and a move onto an empty square both return `None`;
        an exception from the piece's rule escapes before anything changes. */
    method MovePiece(start: Position, end: Position) returns (r: Outcome<Option<Piece>>)
      requires Valid()
      modifies this
      ensures Valid()
      ensures MoveVerdict(old(grid), start, end).Raised? ==>
        r == Raised(MoveVerdict(old(grid), start, end).error)
      ensures MoveVerdict(old(grid), start, end) == Ok(false) ==> r == Ok(None)
      ensures MoveVerdict(old(grid), start, end) != Ok(true) ==>
        grid == old(grid) && order == old(order)
      ensures MoveVerdict(old(grid), start, end) == Ok(true) ==>
        r == Ok(Lookup(old(grid), end)) &&
        grid == (old(grid) - {start})[end := old(grid)[start]] &&
        start !in grid && end in grid && grid[end] == old(grid)[start] &&
        (forall q :: q != start && q != end ==> Lookup(grid, q) == Lookup(old(grid), q)) &&
        order == Erase(old(order), start) + (if end in old(grid) then [] else [end])
    {
      if !InBounds(start) || !InBounds(end) || start == end {
        return Ok(None);
      }
      if start !in grid {
        return Ok(None);
      }
      var piece := grid[start];
      var legal := CanMove(piece, start, end, grid);
      if legal.Raised? {
        return Raised(legal.error);
      }
      if !legal.value {
        return Ok(None);
      }
      var _ := RemovePiece(start);
      var captured := PlacePiece(piece, end);
      r := Ok(captured);
    }

    /** The colours whose king stands in check, scanning the kings in key order. */
    method PlayersInCheck() returns (r: Outcome<set<Color>>)
      requires Valid()
      ensures r == KingsInCheck(grid, order, order)
    {
      var colors: set<Color> := {};
      var i := 0;
      while i < |order|
        invariant 0 <= i <= |order|
        invariant KingsInCheck(grid, order, order[..i]) == Ok(colors)
      {
        var pos := order[i];
        var piece := grid[pos];
        KingsInCheckNext(grid, order, i);
        if piece.kind == King {
          var found := InCheck(piece.color, pos, this);
          if found.Raised? {
            RaisedPersists(grid, order, order, i + 1);
            assert order[..|order|] == order;
            return Raised(found.error);
          }
          if found.value {
            colors := colors + {piece.color};
          }
        }
        i := i + 1;
      }
      assert order[..i] == order;
      r := Ok(colors);
    }
  }

  /** `King.inCheck(kingPos, board)` for a king of colour `kingColor`: is
      some piece of the other colour able to move onto `kingPos`? */
  method InCheck(kingColor: Color, kingPos: Position, board: Board) returns (r: Outcome<bool>)
    requires board.Valid()
    ensures r == InCheckSpec(board.grid, board.order, kingColor, kingPos)
  {
    var pieces := board.GetPieces();
    var i := 0;
    while i < |pieces|
      invariant 0 <= i <= |pieces|
      invariant ScanCheck(pieces[i..], kingColor, kingPos, board.grid) == ScanCheck(pieces, kingColor, kingPos, board.grid)
    {
      var (piece, pos) := pieces[i];
      assert pieces[i..][1..] == pieces[i + 1..];
      if piece.color != kingColor {
        var legal := CanMove(piece, pos, kingPos, board.grid);
        if legal.Raised? {
          return legal;
        }
        if legal.value {
          return Ok(true);
        }
      }
      i := i + 1;
    }
    r := Ok(false);
  }

  /** One more step of the `playersInCheck` loop, visiting `order[i]`. */
  lemma KingsInCheckNext(grid: Grid, order: seq<Position>, i: int)
    requires KeyOrder(grid, order) && 0 <= i < |order|
    ensures var prior := KingsInCheck(grid, order, order[..i]);
      var piece := grid[order[i]];
      KingsInCheck(grid, order, order[..i + 1]) ==
        if prior.Raised? || piece.kind != King then prior
        else
          var found := InCheckSpec(grid, order, piece.color, order[i]);
          if found.Raised? then Raised(found.error)
          else if found.value then Ok(prior.value + {piece.color})
          else prior
  {
    var visited := order[..i + 1];
    assert visited[..i] == order[..i] && visited[i] == order[i];
    assert forall p :: p in visited ==> p in order;
  }

  /** Once the scan of `playersInCheck` has raised, the rest of the keys
      leave the exception as it is. */
  lemma {:induction false} RaisedPersists(grid: Grid, order: seq<Position>, keys: seq<Position>, n: nat)
    requires KeyOrder(grid, order)
    requires forall p :: p in keys ==> p in grid
    requires n <= |keys|
    requires KingsInCheck(grid, order, keys[..n]).Raised?
    ensures KingsInCheck(grid, order, keys) == KingsInCheck(grid, order, keys[..n])
    decreases |keys| - n
  {
    if n < |keys| {
      var m := |keys| - 1;
      assert keys[..m][..n] == keys[..n];
      RaisedPersists(grid, order, keys[..m], n);
      assert keys[..|keys|] == keys;
    } else {
      assert keys[..n] == keys;
    }
  }
}
