/** What an accepted `movePiece` guarantees about the board, stated without
    the checks that decide it. */
module MoveFacts {
  import opened Geometry
  import opened Pieces
  import opened Rules
  import opened RuleFacts
  import opened Boards

  /** An accepted move goes between two distinct squares of the board, from
      an occupied one, and never onto a piece of the mover's own colour. */
  lemma AcceptedMoveIsLegal(grid: Grid, start: Position, end: Position)
    ensures MoveVerdict(grid, start, end) == Ok(true) ==>
      Board.InBounds(start) && Board.InBounds(end) && start != end && start in grid &&
      (end !in grid || grid[end].color != grid[start].color)
  {
    if MoveVerdict(grid, start, end) == Ok(true) {
      NeverLandsOnOwnColor(grid[start], start, end, grid);
    }
  }

  /** A move with either square off the board is refused without raising,
      whatever stands where. */
  lemma OffBoardNeverMoves(grid: Grid, start: Position, end: Position)
    requires !Board.InBounds(start) || !Board.InBounds(end)
    ensures MoveVerdict(grid, start, end) == Ok(false)
  {
  }

  /** The bounds are not a board invariant: `placePiece` accepts any square.
      Moves alone, though, keep a board that lies on the 8x8 squares there. */
  lemma MoveKeepsPiecesOnBoard(grid: Grid, start: Position, end: Position)
    requires forall p :: p in grid ==> Board.InBounds(p)
    ensures MoveVerdict(grid, start, end) == Ok(true) ==>
      forall p :: p in (grid - {start})[end := grid[start]] ==> Board.InBounds(p)
  {
    AcceptedMoveIsLegal(grid, start, end);
  }

  /** An accepted move keeps the number of pieces, less the one it captures. */
  lemma MoveCountsPieces(grid: Grid, start: Position, end: Position)
    ensures MoveVerdict(grid, start, end) == Ok(true) ==>
      |(grid - {start})[end := grid[start]]| == |grid| - (if end in grid then 1 else 0)
  {
    AcceptedMoveIsLegal(grid, start, end);
    if start !in grid || start == end {
      return;
    }
    var rest := grid - {start};
    assert rest.Keys == grid.Keys - {start};
    assert |rest| == |grid| - 1;
    var after := rest[end := grid[start]];
    if end in grid {
      assert after.Keys == rest.Keys;
    } else {
      assert after.Keys == rest.Keys + {end};
    }
  }
}
