/** Colours, piece kinds, and the outcome of an operation that may raise. */
module Pieces {
  import opened Geometry

  /** The engine only knows the colour strings "w" and "b"; a pawn of any
      other colour cannot even be constructed. */
  datatype Color = White | Black

  datatype Kind = Pawn | Knight | Bishop | Rook | Queen | King

  /** A piece carries its kind and colour; its square is held by the board. */
  datatype Piece = Piece(kind: Kind, color: Color)

  datatype Option<T> = None | Some(value: T)

  /** The exceptions the engine lets escape: a zero divisor in the bishop
      rule, and deleting a square that holds nothing. */
  datatype Exception = ZeroDivisionError | KeyError

  /** The result of an operation that either returns a value or raises. */
  datatype Outcome<T> = Ok(value: T) | Raised(error: Exception)

  /** The sparse board contents: occupied squares only. */
  type Grid = map<Position, Piece>

  /** What a square holds, `None` for an empty (absent) square. */
  function Lookup(grid: Grid, p: Position): Option<Piece>
  {
    if p in grid then Some(grid[p]) else None
  }
}
