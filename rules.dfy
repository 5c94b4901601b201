/** The movement rule of each piece kind: whether a piece of a given colour
    may go from `start` to `end`, judged against the board contents. Every
    rule uses the colour of the piece asking, and only checks that `start`
    holds something. */
module Rules {
  import opened Geometry
  import opened Pieces

  /** `end` is empty or holds a piece of the other colour. */
  predicate Landable(color: Color, end: Position, grid: Grid)
  {
    end !in grid || grid[end].color != color
  }

  /** No piece on the squares 1 .. distance - 1 steps along `dir`: the
      squares the sliding rules' `range(1, distance)` loop looks at. */
  predicate PathClear(grid: Grid, start: Position, dir: Position, distance: int)
  {
    forall i :: 1 <= i < distance ==> Ray(start, dir, i) !in grid
  }

  /** The rank direction a pawn of this colour moves in. */
  function Forward(color: Color): int
  {
    if color == White then 1 else -1
  }

  /** The three vectors a pawn precomputes: forward-left, forward and
      forward-right, that is (-1, 0), (0, 0) and (1, 0) each shifted by the
      forward displacement. They are exactly the vectors one rank forward
      and at most one file aside. */
  function PawnVectors(color: Color): (vs: seq<Position>)
    ensures |vs| == 3
    ensures forall v :: v in vs <==> v.y == Forward(color) && -1 <= v.x <= 1
  {
    var f := Forward(color);
    [Position(-1, f), Position(0, f), Position(1, f)]
  }

  predicate PawnRule(color: Color, start: Position, end: Position, grid: Grid)
  {
    start in grid &&
    var relative := Sub(end, start);
    relative in PawnVectors(color) &&
    if relative.x == 0 then end !in grid
    else end in grid && grid[end].color != color
  }

  const KnightVectors: seq<Position> :=
    [Position(-1, 2), Position(1, 2), Position(2, 1), Position(2, -1),
     Position(1, -2), Position(-1, -2), Position(-2, -1), Position(-2, 1)]

  predicate KnightRule(color: Color, start: Position, end: Position, grid: Grid)
  {
    start in grid && Sub(end, start) in KnightVectors && Landable(color, end, grid)
  }

  /** The vector scanned by a sliding rule: the signs of the relative vector. */
  function Direction(relative: Position): Position
  {
    Position(Sign(relative.x), Sign(relative.y))
  }

  /** The rook rule: straight lines only; the scan covers |dx| + |dy| - 2
      squares, one fewer than lie strictly between `start` and `end`. */
  predicate RookRule(color: Color, start: Position, end: Position, grid: Grid)
  {
    start in grid &&
    var relative := Sub(end, start);
    (relative.x == 0 || relative.y == 0) &&
    PathClear(grid, start, Direction(relative), Abs(relative.x) + Abs(relative.y) - 1) &&
    Landable(color, end, grid)
  }

  /** The bishop rule. It divides by the file component of the relative
      vector, so it raises when that is zero; the scan covers |dx| - 2
      squares, one fewer than lie strictly between `start` and `end`. */
  function BishopRule(color: Color, start: Position, end: Position, grid: Grid): Outcome<bool>
  {
    if start !in grid then Ok(false)
    else
      var relative := Sub(end, start);
      if relative.x == 0 then Raised(ZeroDivisionError)
      else if Abs(relative.y) != Abs(relative.x) then Ok(false)
      else Ok(PathClear(grid, start, Direction(relative), Abs(relative.x) - 1) && Landable(color, end, grid))
  }

  /** The queen rule: the rook rule, and only when it fails, the bishop rule. */
  function QueenRule(color: Color, start: Position, end: Position, grid: Grid): Outcome<bool>
  {
    if RookRule(color, start, end, grid) then Ok(true) else BishopRule(color, start, end, grid)
  }

  predicate KingRule(color: Color, start: Position, end: Position, grid: Grid)
  {
    start in grid &&
    var relative := Sub(end, start);
    !(Abs(relative.x) > 1 || Abs(relative.y) > 1) &&
    Landable(color, end, grid)
  }

  /** The rule of `piece`, dispatched on its kind. */
  function Rule(piece: Piece, start: Position, end: Position, grid: Grid): Outcome<bool>
  {
    match piece.kind
    case Pawn => Ok(PawnRule(piece.color, start, end, grid))
    case Knight => Ok(KnightRule(piece.color, start, end, grid))
    case Bishop => BishopRule(piece.color, start, end, grid)
    case Rook => Ok(RookRule(piece.color, start, end, grid))
    case Queen => QueenRule(piece.color, start, end, grid)
    case King => Ok(KingRule(piece.color, start, end, grid))
  }

  /** The rook's `canMove`, scanning the ray square by square. */
  method RookCanMove(color: Color, start: Position, end: Position, grid: Grid) returns (r: bool)
    ensures r == RookRule(color, start, end, grid)
  {
    if start !in grid {
      return false;
    }
    var relative := Sub(end, start);
    if relative.x != 0 && relative.y != 0 {
      return false;
    }
    var xSign, ySign := 0, 0;
    if Abs(relative.x) > 0 {
      xSign := Sign(relative.x);
    }
    if Abs(relative.y) > 0 {
      ySign := Sign(relative.y);
    }
    var distance := Abs(relative.x) + Abs(relative.y) - 1;
    var i := 1;
    while i < distance
      invariant 1 <= i
      invariant forall k :: 1 <= k < i ==> Ray(start, Position(xSign, ySign), k) !in grid
    {
      if Add(start, Position(i * xSign, i * ySign)) in grid {
        assert Ray(start, Direction(relative), i) in grid;
        return false;
      }
      i := i + 1;
    }
    r := Landable(color, end, grid);
  }

  /** The bishop's `canMove`, scanning the diagonal square by square. */
  method BishopCanMove(color: Color, start: Position, end: Position, grid: Grid) returns (r: Outcome<bool>)
    ensures r == BishopRule(color, start, end, grid)
  {
    if start !in grid {
      return Ok(false);
    }
    var relative := Sub(end, start);
    if relative.x == 0 {
      return Raised(ZeroDivisionError);
    }
    if Abs(relative.y) != Abs(relative.x) {
      return Ok(false);
    }
    var xSign := Sign(relative.x);
    var ySign := Sign(relative.y);
    var distance := Abs(relative.x) - 1;
    var i := 1;
    while i < distance
      invariant 1 <= i
      invariant forall k :: 1 <= k < i ==> Ray(start, Position(xSign, ySign), k) !in grid
    {
      if Add(start, Position(i * xSign, i * ySign)) in grid {
        assert Ray(start, Direction(relative), i) in grid;
        return Ok(false);
      }
      i := i + 1;
    }
    r := Ok(Landable(color, end, grid));
  }

  /** The queen's `canMove`: `Rook(...) or Bishop(...)` with short circuit. */
  method QueenCanMove(color: Color, start: Position, end: Position, grid: Grid) returns (r: Outcome<bool>)
    ensures r == QueenRule(color, start, end, grid)
  {
    var straight := RookCanMove(color, start, end, grid);
    if straight {
      return Ok(true);
    }
    r := BishopCanMove(color, start, end, grid);
  }

  /** `piece.canMove(start, end, board)`: the rule of the piece's own kind and colour. */
  method CanMove(piece: Piece, start: Position, end: Position, grid: Grid) returns (r: Outcome<bool>)
    ensures r == Rule(piece, start, end, grid)
  {
    match piece.kind {
      case Pawn => r := Ok(PawnRule(piece.color, start, end, grid));
      case Knight => r := Ok(KnightRule(piece.color, start, end, grid));
      case Bishop => r := BishopCanMove(piece.color, start, end, grid);
      case Rook =>
        var b := RookCanMove(piece.color, start, end, grid);
        r := Ok(b);
      case Queen => r := QueenCanMove(piece.color, start, end, grid);
      case King => r := Ok(KingRule(piece.color, start, end, grid));
    }
  }
}
