/** What the movement rules allow, stated independently of how each rule
    is computed. */
module RuleFacts {
  import opened Geometry
  import opened Pieces
  import opened Rules

  /** A pawn moves one rank forward: straight only onto an empty square,
      diagonally only onto a piece of the other colour. */
  lemma PawnRuleIff(color: Color, start: Position, end: Position, grid: Grid)
    ensures PawnRule(color, start, end, grid) <==>
      start in grid &&
      var d, f := Sub(end, start), Forward(color);
      (d == Position(0, f) && end !in grid) ||
      ((d == Position(-1, f) || d == Position(1, f)) && end in grid && grid[end].color != color)
  {
  }

  /** White moves up the ranks and black down, one rank at a time: there
      is no two-square pawn move. */
  lemma PawnNeverDoubleSteps(color: Color, start: Position, end: Position, grid: Grid)
    requires PawnRule(color, start, end, grid)
    ensures end.y - start.y == (if color == White then 1 else -1)
    ensures Abs(end.x - start.x) <= 1
  {
  }

  /** A knight moves one square along one axis and two along the other,
      onto an empty square or a piece of the other colour. */
  lemma KnightRuleIff(color: Color, start: Position, end: Position, grid: Grid)
    ensures KnightRule(color, start, end, grid) <==>
      start in grid &&
      var d := Sub(end, start);
      ((Abs(d.x) == 1 && Abs(d.y) == 2) || (Abs(d.x) == 2 && Abs(d.y) == 1)) &&
      (end !in grid || grid[end].color != color)
  {
    var d := Sub(end, start);
    if (Abs(d.x) == 1 && Abs(d.y) == 2) || (Abs(d.x) == 2 && Abs(d.y) == 1) {
      assert d in KnightVectors by {
        if d.x == -1 && d.y == 2 { assert d == KnightVectors[0]; }
        else if d.x == 1 && d.y == 2 { assert d == KnightVectors[1]; }
        else if d.x == 2 && d.y == 1 { assert d == KnightVectors[2]; }
        else if d.x == 2 && d.y == -1 { assert d == KnightVectors[3]; }
        else if d.x == 1 && d.y == -2 { assert d == KnightVectors[4]; }
        else if d.x == -1 && d.y == -2 { assert d == KnightVectors[5]; }
        else if d.x == -2 && d.y == -1 { assert d == KnightVectors[6]; }
        else { assert d == KnightVectors[7]; }
      }
    }
  }

  /** A king reaches one of the nine squares around and including its own,
      onto an empty square or a piece of the other colour. */
  lemma KingRuleIff(color: Color, start: Position, end: Position, grid: Grid)
    ensures KingRule(color, start, end, grid) <==>
      start in grid &&
      Sub(end, start) in {Position(-1, -1), Position(-1, 0), Position(-1, 1),
                          Position(0, -1), Position(0, 0), Position(0, 1),
                          Position(1, -1), Position(1, 0), Position(1, 1)} &&
      (end !in grid || grid[end].color != color)
  {
  }

  /** No rule lets a piece land on a piece of its own colour. */
  lemma NeverLandsOnOwnColor(piece: Piece, start: Position, end: Position, grid: Grid)
    requires Rule(piece, start, end, grid) == Ok(true)
    ensures end !in grid || grid[end].color != piece.color
  {
  }

  /** Every rule answers false, without raising, when `start` is empty. */
  lemma EmptyStartNeverMoves(piece: Piece, start: Position, end: Position, grid: Grid)
    requires start !in grid
    ensures Rule(piece, start, end, grid) == Ok(false)
  {
  }

  /** A rook does not move when both components of the vector are nonzero. */
  lemma RookOnlyStraight(color: Color, start: Position, end: Position, grid: Grid)
    requires end.x != start.x && end.y != start.y
    ensures !RookRule(color, start, end, grid)
  {
  }

  /** Along a straight or diagonal line, `n` steps in the sign direction of
      the vector reach `end`, where `n` is the larger absolute component. */
  lemma LineReachesEnd(start: Position, end: Position)
    requires var d := Sub(end, start); d.x == 0 || d.y == 0 || Abs(d.x) == Abs(d.y)
    ensures var d := Sub(end, start);
      var n := if Abs(d.x) < Abs(d.y) then Abs(d.y) else Abs(d.x);
      end == Ray(start, Direction(d), n)
  {
    var d := Sub(end, start);
    var n := if Abs(d.x) < Abs(d.y) then Abs(d.y) else Abs(d.x);
    assert n * Sign(d.x) == d.x by {
      if d.x != 0 { assert Abs(d.x) == n; }
    }
    assert n * Sign(d.y) == d.y by {
      if d.y != 0 { assert Abs(d.y) == n; }
    }
  }

  /** A piece on any of the first |d| - 2 squares of a rook's line blocks it. */
  lemma RookBlocked(color: Color, start: Position, end: Position, grid: Grid, k: int)
    requires var d := Sub(end, start); 1 <= k <= Abs(d.x) + Abs(d.y) - 2
    requires Ray(start, Direction(Sub(end, start)), k) in grid
    ensures !RookRule(color, start, end, grid)
  {
  }

  /** The square just before `end` lies strictly between `start` and `end`,
      yet whatever stands there never changes the rook's answer. */
  lemma {:induction false} RookIgnoresSquareBeforeEnd(color: Color, start: Position, end: Position, grid: Grid, blocker: Piece)
    requires var d := Sub(end, start); (d.x == 0 || d.y == 0) && Abs(d.x) + Abs(d.y) >= 2
    ensures var d := Sub(end, start);
      var n := Abs(d.x) + Abs(d.y);
      var before := Sub(end, Direction(d));
      before == Ray(start, Direction(d), n - 1) && before != start && before != end &&
      RookRule(color, start, end, grid[before := blocker]) == RookRule(color, start, end, grid)
  {
    var d := Sub(end, start);
    var n := Abs(d.x) + Abs(d.y);
    var dir := Direction(d);
    var before := Sub(end, dir);
    LineReachesEnd(start, end);
    RayStepBack(start, dir, n);
    assert before == Ray(start, dir, n - 1);
    assert start == Ray(start, dir, 0);
    RayInjective(start, dir, n - 1, 0);
    RayInjective(start, dir, n - 1, n);
    var g := grid[before := blocker];
    forall i | 1 <= i < n - 1
      ensures Ray(start, dir, i) in g <==> Ray(start, dir, i) in grid
    {
      RayInjective(start, dir, i, n - 1);
    }
    assert PathClear(g, start, dir, n - 1) == PathClear(grid, start, dir, n - 1);
  }

  /** The bishop rule raises exactly when `start` is occupied and the move
      stays on the same file component, `end.x == start.x`. */
  lemma BishopRaisesIff(color: Color, start: Position, end: Position, grid: Grid)
    ensures BishopRule(color, start, end, grid).Raised? <==> start in grid && end.x == start.x
    ensures BishopRule(color, start, end, grid).Raised? ==> BishopRule(color, start, end, grid).error == ZeroDivisionError
  {
  }

  /** A bishop moves only along a true diagonal. */
  lemma BishopOnlyDiagonal(color: Color, start: Position, end: Position, grid: Grid)
    requires BishopRule(color, start, end, grid) == Ok(true)
    ensures Abs(end.x - start.x) == Abs(end.y - start.y) > 0
    ensures end !in grid || grid[end].color != color
  {
  }

  /** A piece on any of the first |dx| - 2 squares of a bishop's diagonal blocks it. */
  lemma BishopBlocked(color: Color, start: Position, end: Position, grid: Grid, k: int)
    requires var d := Sub(end, start); Abs(d.x) == Abs(d.y) && 1 <= k <= Abs(d.x) - 2
    requires Ray(start, Direction(Sub(end, start)), k) in grid
    ensures BishopRule(color, start, end, grid) == Ok(false)
  {
  }

  /** The square just before `end` lies strictly between `start` and `end`,
      yet whatever stands there never changes the bishop's answer. */
  lemma {:induction false} BishopIgnoresSquareBeforeEnd(color: Color, start: Position, end: Position, grid: Grid, blocker: Piece)
    requires var d := Sub(end, start); Abs(d.x) == Abs(d.y) >= 2
    ensures var d := Sub(end, start);
      var before := Sub(end, Direction(d));
      before == Ray(start, Direction(d), Abs(d.x) - 1) && before != start && before != end &&
      BishopRule(color, start, end, grid[before := blocker]) == BishopRule(color, start, end, grid)
  {
    var d := Sub(end, start);
    var n := Abs(d.x);
    var dir := Direction(d);
    var before := Sub(end, dir);
    LineReachesEnd(start, end);
    RayStepBack(start, dir, n);
    assert before == Ray(start, dir, n - 1);
    assert start == Ray(start, dir, 0);
    RayInjective(start, dir, n - 1, 0);
    RayInjective(start, dir, n - 1, n);
    var g := grid[before := blocker];
    forall i | 1 <= i < n - 1
      ensures Ray(start, dir, i) in g <==> Ray(start, dir, i) in grid
    {
      RayInjective(start, dir, i, n - 1);
    }
    assert PathClear(g, start, dir, n - 1) == PathClear(grid, start, dir, n - 1);
  }

  /** The queen moves when the rook rule or the bishop rule allows it. */
  lemma QueenIsRookOrBishop(color: Color, start: Position, end: Position, grid: Grid)
    ensures QueenRule(color, start, end, grid) == Ok(true) <==>
      RookRule(color, start, end, grid) || BishopRule(color, start, end, grid) == Ok(true)
  {
  }

  /** Because of the short circuit, the queen raises exactly when the rook
      rule fails on an occupied `start` with `end.x == start.x`. */
  lemma QueenRaisesIff(color: Color, start: Position, end: Position, grid: Grid)
    ensures QueenRule(color, start, end, grid).Raised? <==>
      start in grid && end.x == start.x && !RookRule(color, start, end, grid)
  {
  }

  /** A rook on (0, 0) reaches (0, 3) over a piece on (0, 2). */
  lemma RookJumpsLastSquare()
    ensures RookRule(Black, Position(0, 0), Position(0, 3),
      map[Position(0, 0) := Piece(Rook, Black), Position(0, 2) := Piece(Pawn, White)])
  {
    assert Ray(Position(0, 0), Position(0, 1), 1) == Position(0, 1);
  }

  /** A bishop on (0, 0) reaches (3, 3) over a piece on (2, 2). */
  lemma BishopJumpsLastSquare()
    ensures BishopRule(White, Position(0, 0), Position(3, 3),
      map[Position(0, 0) := Piece(Bishop, White), Position(2, 2) := Piece(Knight, Black)]) == Ok(true)
  {
    assert Ray(Position(0, 0), Position(1, 1), 1) == Position(1, 1);
  }

  /** A queen blocked on its own file raises instead of answering false. */
  lemma QueenVerticalBlockedRaises()
    ensures QueenRule(White, Position(4, 0), Position(4, 1),
      map[Position(4, 0) := Piece(Queen, White), Position(4, 1) := Piece(Pawn, White)]) == Raised(ZeroDivisionError)
  {
  }
}
