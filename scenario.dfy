/** The placements and moves of the script at the end of engine.py, with
    what the model proves about each step. Every board of the game is
    written out as a map display. */
module Scenario {
  import opened Geometry
  import opened Pieces
  import opened Rules
  import opened Boards
  import opened CheckFacts

  /** `movePiece(start, end)` on `before` is accepted, returns `captured`
      and leaves `after`. */
  predicate Takes(before: Grid, start: Position, end: Position, captured: Option<Piece>, after: Grid)
  {
    MoveVerdict(before, start, end) == Ok(true) && Lookup(before, end) == captured &&
    start in before && (before - {start})[end := before[start]] == after
  }

  /** The white pawn takes the black pawn diagonally. */
  lemma Move1()
    ensures Takes(map[
      Position(0, 2) := Piece(Pawn, Black), Position(1, 1) := Piece(Pawn, White),
      Position(1, 4) := Piece(Knight, Black), Position(3, 5) := Piece(Bishop, White),
      Position(0, 5) := Piece(Rook, Black), Position(5, 2) := Piece(Queen, Black),
      Position(2, 0) := Piece(Queen, White), Position(6, 6) := Piece(King, White)],
      Position(1, 1), Position(0, 2), Some(Piece(Pawn, Black)),
      map[
      Position(0, 2) := Piece(Pawn, White),
      Position(1, 4) := Piece(Knight, Black), Position(3, 5) := Piece(Bishop, White),
      Position(0, 5) := Piece(Rook, Black), Position(5, 2) := Piece(Queen, Black),
      Position(2, 0) := Piece(Queen, White), Position(6, 6) := Piece(King, White)])
  {
  }

  /** The black knight takes the white pawn. */
  lemma Move2()
    ensures Takes(map[
      Position(0, 2) := Piece(Pawn, White),
      Position(1, 4) := Piece(Knight, Black), Position(3, 5) := Piece(Bishop, White),
      Position(0, 5) := Piece(Rook, Black), Position(5, 2) := Piece(Queen, Black),
      Position(2, 0) := Piece(Queen, White), Position(6, 6) := Piece(King, White)],
      Position(1, 4), Position(0, 2), Some(Piece(Pawn, White)),
      map[
      Position(0, 2) := Piece(Knight, Black), Position(3, 5) := Piece(Bishop, White),
      Position(0, 5) := Piece(Rook, Black), Position(5, 2) := Piece(Queen, Black),
      Position(2, 0) := Piece(Queen, White), Position(6, 6) := Piece(King, White)])
  {
  }

  /** The white bishop takes the black knight; the one square it scans, (2, 4), is empty. */
  lemma Move3()
    ensures Takes(map[
      Position(0, 2) := Piece(Knight, Black), Position(3, 5) := Piece(Bishop, White),
      Position(0, 5) := Piece(Rook, Black), Position(5, 2) := Piece(Queen, Black),
      Position(2, 0) := Piece(Queen, White), Position(6, 6) := Piece(King, White)],
      Position(3, 5), Position(0, 2), Some(Piece(Knight, Black)),
      map[
      Position(0, 2) := Piece(Bishop, White),
      Position(0, 5) := Piece(Rook, Black), Position(5, 2) := Piece(Queen, Black),
      Position(2, 0) := Piece(Queen, White), Position(6, 6) := Piece(King, White)])
  {
    assert Ray(Position(3, 5), Position(-1, -1), 1) == Position(2, 4);
  }

  /** The black rook takes the white bishop; the one square it scans, (0, 4), is empty. */
  lemma Move4()
    ensures Takes(map[
      Position(0, 2) := Piece(Bishop, White),
      Position(0, 5) := Piece(Rook, Black), Position(5, 2) := Piece(Queen, Black),
      Position(2, 0) := Piece(Queen, White), Position(6, 6) := Piece(King, White)],
      Position(0, 5), Position(0, 2), Some(Piece(Bishop, White)),
      map[
      Position(0, 2) := Piece(Rook, Black), Position(5, 2) := Piece(Queen, Black),
      Position(2, 0) := Piece(Queen, White), Position(6, 6) := Piece(King, White)])
  {
    assert Ray(Position(0, 5), Position(0, -1), 1) == Position(0, 4);
  }

  /** The white queen takes the black rook along a diagonal. The rook rule
      refuses the move; the bishop rule scans no square for |dx| = 2, so
      (1, 1), the square just before `end`, is never looked at. */
  lemma Move5()
    ensures Takes(map[
      Position(0, 2) := Piece(Rook, Black), Position(5, 2) := Piece(Queen, Black),
      Position(2, 0) := Piece(Queen, White), Position(6, 6) := Piece(King, White)],
      Position(2, 0), Position(0, 2), Some(Piece(Rook, Black)),
      map[
      Position(0, 2) := Piece(Queen, White), Position(5, 2) := Piece(Queen, Black),
      Position(6, 6) := Piece(King, White)])
  {
    assert Ray(Position(2, 0), Position(-1, 1), 1) == Position(1, 1);
  }

  /** The black queen takes the white queen along the rank; it scans (4, 2)
      to (2, 2). */
  lemma Move6()
    ensures Takes(map[
      Position(0, 2) := Piece(Queen, White), Position(5, 2) := Piece(Queen, Black),
      Position(6, 6) := Piece(King, White)],
      Position(5, 2), Position(0, 2), Some(Piece(Queen, White)),
      map[
      Position(0, 2) := Piece(Queen, Black), Position(6, 6) := Piece(King, White)])
  {
    assert Ray(Position(5, 2), Position(-1, 0), 1) == Position(4, 2);
    assert Ray(Position(5, 2), Position(-1, 0), 2) == Position(3, 2);
    assert Ray(Position(5, 2), Position(-1, 0), 3) == Position(2, 2);
  }

  /** The black queen moves up the file onto the empty square (0, 6),
      scanning (0, 3) and (0, 4); the move captures nothing. */
  lemma Move7()
    ensures Takes(map[
      Position(0, 2) := Piece(Queen, Black), Position(6, 6) := Piece(King, White)],
      Position(0, 2), Position(0, 6), None,
      map[Position(6, 6) := Piece(King, White), Position(0, 6) := Piece(Queen, Black)])
  {
    assert Ray(Position(0, 2), Position(0, 1), 1) == Position(0, 3);
    assert Ray(Position(0, 2), Position(0, 1), 2) == Position(0, 4);
  }

  /** After the seventh move the black queen on (0, 6) can move onto the
      white king on (6, 6): the rook scan of (1, 6) to (4, 6) finds nothing. */
  lemma QueenReachesKing()
    ensures Rule(Piece(Queen, Black), Position(0, 6), Position(6, 6),
      map[Position(6, 6) := Piece(King, White), Position(0, 6) := Piece(Queen, Black)]) == Ok(true)
  {
    assert Ray(Position(0, 6), Position(1, 0), 1) == Position(1, 6);
    assert Ray(Position(0, 6), Position(1, 0), 2) == Position(2, 6);
    assert Ray(Position(0, 6), Position(1, 0), 3) == Position(3, 6);
    assert Ray(Position(0, 6), Position(1, 0), 4) == Position(4, 6);
  }

  /** On the board after the seventh move `playersInCheck` reports white,
      whatever the key order: the queen is the only black piece and it
      reaches the king without raising. */
  lemma QueenChecksKing(order: seq<Position>)
    requires KeyOrder(map[Position(6, 6) := Piece(King, White), Position(0, 6) := Piece(Queen, Black)], order)
    ensures KingsInCheck(map[Position(6, 6) := Piece(King, White), Position(0, 6) := Piece(Queen, Black)], order, order) == Ok({White})
  {
    var king := Position(6, 6);
    QueenReachesKing();
    assert Attacks(map[Position(6, 6) := Piece(King, White), Position(0, 6) := Piece(Queen, Black)], Position(0, 6), White, king);
    forall pos ensures !AttackRaises(map[Position(6, 6) := Piece(King, White), Position(0, 6) := Piece(Queen, Black)], pos, White, king) {
      if pos in map[Position(6, 6) := Piece(King, White), Position(0, 6) := Piece(Queen, Black)] && pos != king {
        assert pos == Position(0, 6);
      }
    }
    InCheckIff(map[Position(6, 6) := Piece(King, White), Position(0, 6) := Piece(Queen, Black)], order, White, king);
    assert KingChecked(map[Position(6, 6) := Piece(King, White), Position(0, 6) := Piece(Queen, Black)], order, king, White);
    PlayersInCheckIff(map[Position(6, 6) := Piece(King, White), Position(0, 6) := Piece(Queen, Black)], order);
    var found := KingsInCheck(map[Position(6, 6) := Piece(King, White), Position(0, 6) := Piece(Queen, Black)], order, order).value;
    assert White in found;
    assert Black !in found;
    assert found == {White};
  }

  /** With a white pawn on (3, 6) the queen's rook scan stops at the pawn,
      and its bishop rule refuses a move along the rank. */
  lemma PawnStopsQueen()
    ensures Rule(Piece(Queen, Black), Position(0, 6), Position(6, 6),
      map[Position(6, 6) := Piece(King, White), Position(0, 6) := Piece(Queen, Black), Position(3, 6) := Piece(Pawn, White)]) == Ok(false)
  {
    assert Ray(Position(0, 6), Position(1, 0), 3) == Position(3, 6);
  }

  /** Once the white pawn stands on (3, 6), `playersInCheck` reports nobody,
      whatever the key order. */
  lemma PawnBlocksCheck(order: seq<Position>)
    requires KeyOrder(map[Position(6, 6) := Piece(King, White), Position(0, 6) := Piece(Queen, Black), Position(3, 6) := Piece(Pawn, White)], order)
    ensures KingsInCheck(map[Position(6, 6) := Piece(King, White), Position(0, 6) := Piece(Queen, Black), Position(3, 6) := Piece(Pawn, White)], order, order) == Ok({})
  {
    var king := Position(6, 6);
    PawnStopsQueen();
    forall pos ensures !AttackRaises(map[Position(6, 6) := Piece(King, White), Position(0, 6) := Piece(Queen, Black), Position(3, 6) := Piece(Pawn, White)], pos, White, king) && !Attacks(map[Position(6, 6) := Piece(King, White), Position(0, 6) := Piece(Queen, Black), Position(3, 6) := Piece(Pawn, White)], pos, White, king) {
      if pos in map[Position(6, 6) := Piece(King, White), Position(0, 6) := Piece(Queen, Black), Position(3, 6) := Piece(Pawn, White)] && pos != king && pos != Position(3, 6) {
        assert pos == Position(0, 6);
      }
    }
    InCheckIff(map[Position(6, 6) := Piece(King, White), Position(0, 6) := Piece(Queen, Black), Position(3, 6) := Piece(Pawn, White)], order, White, king);
    PlayersInCheckIff(map[Position(6, 6) := Piece(King, White), Position(0, 6) := Piece(Queen, Black), Position(3, 6) := Piece(Pawn, White)], order);
    var found := KingsInCheck(map[Position(6, 6) := Piece(King, White), Position(0, 6) := Piece(Queen, Black), Position(3, 6) := Piece(Pawn, White)], order, order).value;
    assert White !in found;
    assert Black !in found;
    assert found == {};
  }

  /** The eight placements of the script, on a new board. */
  method SetUp() returns (board: Board)
    ensures fresh(board) && board.Valid()
    ensures board.grid == map[
        Position(0, 2) := Piece(Pawn, Black), Position(1, 1) := Piece(Pawn, White),
        Position(1, 4) := Piece(Knight, Black), Position(3, 5) := Piece(Bishop, White),
        Position(0, 5) := Piece(Rook, Black), Position(5, 2) := Piece(Queen, Black),
        Position(2, 0) := Piece(Queen, White), Position(6, 6) := Piece(King, White)]
  {
    board := new Board();
    var displaced := board.PlacePiece(Piece(Pawn, Black), Position(0, 2));
    displaced := board.PlacePiece(Piece(Pawn, White), Position(1, 1));
    displaced := board.PlacePiece(Piece(Knight, Black), Position(1, 4));
    displaced := board.PlacePiece(Piece(Bishop, White), Position(3, 5));
    displaced := board.PlacePiece(Piece(Rook, Black), Position(0, 5));
    displaced := board.PlacePiece(Piece(Queen, Black), Position(5, 2));
    displaced := board.PlacePiece(Piece(Queen, White), Position(2, 0));
    displaced := board.PlacePiece(Piece(King, White), Position(6, 6));
  }

  /** One accepted move of the script: `movePiece` returns the piece that
      stood on `end` and leaves `after`. */
  method Play(board: Board, start: Position, end: Position, ghost captured: Option<Piece>, ghost after: Grid)
      returns (taken: Outcome<Option<Piece>>)
    requires board.Valid() && Takes(board.grid, start, end, captured, after)
    modifies board
    ensures taken == Ok(captured)
    ensures board.Valid() && board.grid == after
  {
    taken := board.MovePiece(start, end);
  }

  /** The seven moves of the script: six captures on (0, 2), then the
      black queen moves up the file. */
  method PlayMoves(board: Board)
    requires board.Valid()
    requires board.grid == map[
        Position(0, 2) := Piece(Pawn, Black), Position(1, 1) := Piece(Pawn, White),
        Position(1, 4) := Piece(Knight, Black), Position(3, 5) := Piece(Bishop, White),
        Position(0, 5) := Piece(Rook, Black), Position(5, 2) := Piece(Queen, Black),
        Position(2, 0) := Piece(Queen, White), Position(6, 6) := Piece(King, White)]
    modifies board
    ensures board.Valid() && board.grid == map[Position(6, 6) := Piece(King, White), Position(0, 6) := Piece(Queen, Black)]
  {
    Move1();
    var taken1 := Play(board, Position(1, 1), Position(0, 2), Some(Piece(Pawn, Black)), map[
        Position(0, 2) := Piece(Pawn, White),
        Position(1, 4) := Piece(Knight, Black), Position(3, 5) := Piece(Bishop, White),
        Position(0, 5) := Piece(Rook, Black), Position(5, 2) := Piece(Queen, Black),
        Position(2, 0) := Piece(Queen, White), Position(6, 6) := Piece(King, White)]);

    Move2();
    var taken2 := Play(board, Position(1, 4), Position(0, 2), Some(Piece(Pawn, White)), map[
        Position(0, 2) := Piece(Knight, Black), Position(3, 5) := Piece(Bishop, White),
        Position(0, 5) := Piece(Rook, Black), Position(5, 2) := Piece(Queen, Black),
        Position(2, 0) := Piece(Queen, White), Position(6, 6) := Piece(King, White)]);

    Move3();
    var taken3 := Play(board, Position(3, 5), Position(0, 2), Some(Piece(Knight, Black)), map[
        Position(0, 2) := Piece(Bishop, White),
        Position(0, 5) := Piece(Rook, Black), Position(5, 2) := Piece(Queen, Black),
        Position(2, 0) := Piece(Queen, White), Position(6, 6) := Piece(King, White)]);

    Move4();
    var taken4 := Play(board, Position(0, 5), Position(0, 2), Some(Piece(Bishop, White)), map[
        Position(0, 2) := Piece(Rook, Black), Position(5, 2) := Piece(Queen, Black),
        Position(2, 0) := Piece(Queen, White), Position(6, 6) := Piece(King, White)]);

    Move5();
    var taken5 := Play(board, Position(2, 0), Position(0, 2), Some(Piece(Rook, Black)), map[
        Position(0, 2) := Piece(Queen, White), Position(5, 2) := Piece(Queen, Black),
        Position(6, 6) := Piece(King, White)]);

    Move6();
    var taken6 := Play(board, Position(5, 2), Position(0, 2), Some(Piece(Queen, White)), map[
        Position(0, 2) := Piece(Queen, Black), Position(6, 6) := Piece(King, White)]);

    Move7();
    var taken7 := Play(board, Position(0, 2), Position(0, 6), None, map[Position(6, 6) := Piece(King, White), Position(0, 6) := Piece(Queen, Black)]);
  }

  /** The script: set up, play the moves, report who is in check, block
      the check with a white pawn and report again. */
  method ScriptedGame()
  {
    var board := SetUp();
    PlayMoves(board);
    var checked := board.PlayersInCheck();
    QueenChecksKing(board.order);
    assert checked == Ok({White});

    var displaced := board.PlacePiece(Piece(Pawn, White), Position(3, 6));
    assert displaced == None;
    assert board.grid == map[Position(6, 6) := Piece(King, White), Position(0, 6) := Piece(Queen, Black), Position(3, 6) := Piece(Pawn, White)];
    checked := board.PlayersInCheck();
    PawnBlocksCheck(board.order);
    assert checked == Ok({});
  }
}
