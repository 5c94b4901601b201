# Chess move engine — a Dafny model

This project models the move-validation core of `engine.py`, a small chess
engine. That core is three things:

- the `Position` value type;
- the `canMove` rule of each piece kind, plus `King.inCheck`;
- the `Board` class, a sparse dictionary from squares to pieces, with its
  accessors, `movePiece` and `playersInCheck`.

The model is split into these modules:

- `Geometry` (`geometry.dfy`): squares and vectors as unbounded integer
  pairs. It also holds the sign and ray arithmetic of the sliding pieces.
- `Pieces` (`pieces.dfy`): colours, piece kinds, pieces, and
  `Outcome<T>`. An `Outcome` is either a returned value or a raised
  exception.
- `Rules` (`rules.dfy`): one specification function per piece kind. The
  rook, bishop and queen `canMove` are also methods that scan the ray
  square by square, as the source's `for` loops do. Each method is proved
  equal to its function.
- `RuleFacts` (`rule_facts.dfy`): what each rule allows, stated without
  reference to how the rule computes it.
- `Boards` (`boards.dfy`): the `Board` class and `King.inCheck`. A board is
  a `grid` map plus the dictionary's key `order`. The key order matters
  because `inCheck` returns at the first piece that answers, and a bishop
  or queen rule can raise. So which answer, or which exception, comes out
  depends on the order of the scan.
- `CheckFacts` (`check_facts.dfy`): what `inCheck` and `playersInCheck`
  answer, stated over the board contents rather than over the scan order.
- `MoveFacts` (`move_facts.dfy`): what an accepted move guarantees.
- `Scenario` (`scenario.dfy`): the configuration script at the end of
  `engine.py`. It runs through the eight placements, the seven moves and
  the final pawn placement, with the captured piece and the board after
  each step. It proves that the white king is in check after the last
  move and that the pawn on (3, 6) removes the check.

Behaviour of the code that differs from the usual rules of chess, and that
the model keeps as written:

- **The path scans check one square too few.** The bishop counts
  `distance = |dx| - 1` and the rook `|dx| + |dy| - 1`. Both then loop over
  `range(1, distance)`, so the square just before `end` is never looked at.
  A sliding piece therefore jumps a piece that stands directly in front of
  its destination. See `RookIgnoresSquareBeforeEnd`,
  `BishopIgnoresSquareBeforeEnd`, `RookJumpsLastSquare` and
  `BishopJumpsLastSquare`.
- **After checking that `start` is occupied, the bishop divides by `dx`.**
  A bishop asked, from an occupied `start`, about a move along its own
  file raises `ZeroDivisionError`.
- **The queen tries the rook rule first, then the bishop rule.** So a
  queen whose straight file move from an occupied `start` is refused also
  raises.
- **`inCheck` and `playersInCheck` pass such exceptions on**, as does
  `movePiece`.
- **Pawns only ever step one rank forward.** There is no double step and
  no first-move flag.
- **Nothing keeps pieces on the board.** `placePiece` accepts any square:
  bounds are checked only by `movePiece`.
- **There is no protection of the mover's own king.** `movePiece` does not
  refuse a move that leaves the mover's own king in check, and it never
  rolls a move back.

Usual chess rules, and a complete engine, also have the following; this
code has none of them, and the model follows the code:

- a first-move pawn double step;
- every square strictly between `start` and `end` being examined;
- an on-board invariant;
- turn handling, checkmate and promotion;
- a rollback that refuses a move leaving the mover's own king in check.

## Model

| member | source | states |
|---|---|---|
| Geometry.AddThenSub | engine.py:44-48 | subtracting the vector that was added gives the square back |
| Geometry.SubThenAdd | engine.py:44-48 | adding back the vector that was subtracted gives the square back |
| Geometry.EqualIffComponents | engine.py:35-36 | two positions are equal exactly when both components are equal |
| Geometry.Sign | engine.py:172-177 | for a nonzero component the quotient `n / abs(n)` is 1 or -1, and multiplying it by `abs(n)` gives `n` back; a zero component keeps the sign 0 |
| Rules.PawnVectors | engine.py:63-76 | the pawn's three vectors are exactly the vectors one rank forward for its colour and at most one file aside |
| Rules.RookCanMove | engine.py:161-190 | the square-by-square scan answers exactly the rook rule: straight lines only, first `abs(dx)+abs(dy)-2` squares empty, destination empty or of the other colour |
| Rules.BishopCanMove | engine.py:131-155 | the scan answers exactly the bishop rule, raising ZeroDivisionError when `dx` is 0 |
| Rules.QueenCanMove | engine.py:196-197 | the queen answers true when the rook rule does, and otherwise gives the bishop rule's answer or exception |
| Rules.CanMove | engine.py:293 | dispatching on the piece kind gives the rule of that kind and colour |
| RuleFacts.PawnRuleIff | engine.py:78-94 | a pawn moves one rank forward, straight only onto an empty square and diagonally only onto a piece of the other colour |
| RuleFacts.PawnNeverDoubleSteps | engine.py:72-76 | every pawn move changes the rank by exactly one in the colour's direction and the file by at most one |
| RuleFacts.KnightRuleIff | engine.py:101-125 | a knight moves exactly by (±1, ±2) or (±2, ±1), onto an empty square or a piece of the other colour |
| RuleFacts.KingRuleIff | engine.py:203-216 | a king moves by a vector with both components in -1..1, including the null vector, onto an empty square or a piece of the other colour |
| RuleFacts.NeverLandsOnOwnColor | engine.py:125 | no rule that answers true lets a piece land on a piece of its own colour |
| RuleFacts.EmptyStartNeverMoves | engine.py:79-82 | every rule answers false, without raising, when `start` is empty |
| RuleFacts.RookOnlyStraight | engine.py:169-170 | the rook refuses a vector with both components nonzero |
| RuleFacts.LineReachesEnd | engine.py:179-183 | along a straight line or a diagonal, as many sign steps as the longer component reach `end` |
| RuleFacts.RookBlocked | engine.py:181-186 | a piece on any of the squares the rook scans blocks it |
| RuleFacts.RookIgnoresSquareBeforeEnd | engine.py:179-181 | the square just before `end` lies strictly between `start` and `end`, yet what stands there never changes the rook's answer |
| RuleFacts.BishopRaisesIff | engine.py:139 | the bishop rule raises, and then only ZeroDivisionError, exactly when `start` is occupied and `end.x == start.x` |
| RuleFacts.BishopOnlyDiagonal | engine.py:139-155 | an accepted bishop move has equal nonzero absolute components and lands on an empty square or a piece of the other colour |
| RuleFacts.BishopBlocked | engine.py:146-151 | a piece on any of the squares the bishop scans blocks it |
| RuleFacts.BishopIgnoresSquareBeforeEnd | engine.py:144-146 | the square just before `end` lies strictly between `start` and `end`, yet what stands there never changes the bishop's answer |
| RuleFacts.QueenIsRookOrBishop | engine.py:197 | the queen answers true exactly when the rook rule or the bishop rule does |
| RuleFacts.QueenRaisesIff | engine.py:197 | the queen raises exactly when the rook rule fails on an occupied `start` with `end.x == start.x` |
| RuleFacts.RookJumpsLastSquare | engine.py:179-186 | a rook on (0, 0) reaches (0, 3) over a piece on (0, 2) |
| RuleFacts.BishopJumpsLastSquare | engine.py:144-151 | a bishop on (0, 0) reaches (3, 3) over a piece on (2, 2) |
| RuleFacts.QueenVerticalBlockedRaises | engine.py:197 | on the board with a white queen on (4, 0) and a white pawn on (4, 1), the queen's rule for (4, 0) to (4, 1) raises ZeroDivisionError |
| Boards.Erase | engine.py:266-267 | deleting a key keeps exactly the other keys |
| Boards.Pairs | engine.py:257-264 | the listed pairs are the pieces and squares of the board, one per key, in key order |
| Boards.Board.constructor | engine.py:229-230 | a new board is empty |
| Boards.Board.GetPiece | engine.py:251-255 | the answer is `None` exactly when the square is empty, and otherwise the piece on it |
| Boards.Board.GetPieces | engine.py:257-264 | the loop builds the pairs of the board in key order |
| Boards.Board.RemovePiece | engine.py:266-267 | deleting an occupied square removes just that key; deleting an empty one raises KeyError and changes nothing |
| Boards.Board.PlacePiece | engine.py:269-279 | returns what stood on the square; afterwards the square holds the piece; a new key goes last and an existing key keeps its place |
| Boards.Board.MovePiece | engine.py:284-297 | a refused move returns `None` and changes nothing; a rule that raises passes its exception on and changes nothing; an accepted move returns the captured piece, empties `start`, puts the piece on `end`, leaves every other square alone and keeps the key order |
| Boards.Board.PlayersInCheck | engine.py:299-309 | the loop over the keys gives the set of colours of the kings in check, or the first exception |
| Boards.InCheck | engine.py:218-226 | the loop answers with the first piece of the other colour whose rule answers true or raises, and false when there is none |
| Boards.RaisedPersists | engine.py:302-306 | once the scan of `playersInCheck` has raised, the remaining keys leave the exception as it is |
| CheckFacts.ScanCheckFirstDecisive | engine.py:219-226 | the scan answers false exactly when no piece of the other colour answers true or raises; otherwise it gives the answer of the first one that does |
| CheckFacts.InCheckMeaning | engine.py:218-226 | `inCheck` answers true only when some piece of the other colour can move onto the king and raises only when some such piece's rule raises; it answers false exactly when every piece of the other colour is refused |
| CheckFacts.InCheckIff | engine.py:218-226 | when no rule of the other colour raises, `inCheck` answers exactly whether some piece of the other colour can move onto the king |
| CheckFacts.KingsInCheckMeaning | engine.py:299-307 | after any prefix of the keys, the scan has raised exactly when a visited king's check raises; otherwise it holds exactly the colours of the visited kings in check |
| CheckFacts.PlayersInCheckIff | engine.py:299-309 | `playersInCheck` raises exactly when some king's check raises; otherwise a colour is returned exactly when a king of that colour on the board is in check |
| MoveFacts.AcceptedMoveIsLegal | engine.py:281-297 | an accepted move goes between two distinct on-board squares, from an occupied one, and never onto a piece of the mover's colour |
| MoveFacts.OffBoardNeverMoves | engine.py:281-286 | a move with either square off the 8x8 board is refused without raising |
| MoveFacts.MoveKeepsPiecesOnBoard | engine.py:284-297 | when every piece lies on the 8x8 board, it still does after an accepted move |
| MoveFacts.MoveCountsPieces | engine.py:296-297 | an accepted move keeps the number of pieces, less one when it captures |
| Scenario.Move1 | engine.py:328 | the white pawn on (1, 1) takes the black pawn on (0, 2) diagonally |
| Scenario.Move2 | engine.py:332 | the black knight on (1, 4) takes the white pawn on (0, 2) |
| Scenario.Move3 | engine.py:336 | the white bishop on (3, 5) takes the black knight on (0, 2) |
| Scenario.Move4 | engine.py:340 | the black rook on (0, 5) takes the white bishop on (0, 2) |
| Scenario.Move5 | engine.py:344 | the white queen on (2, 0) takes the black rook on (0, 2) along the diagonal |
| Scenario.Move6 | engine.py:348 | the black queen on (5, 2) takes the white queen on (0, 2) along the rank |
| Scenario.Move7 | engine.py:352 | the black queen moves from (0, 2) to the empty square (0, 6), capturing nothing |
| Scenario.QueenReachesKing | engine.py:352-354 | on the final board the black queen on (0, 6) can move onto the white king on (6, 6) |
| Scenario.QueenChecksKing | engine.py:354 | on the final board `playersInCheck` reports exactly White, whatever the key order |
| Scenario.PawnStopsQueen | engine.py:356-358 | with a white pawn on (3, 6) the queen can no longer reach the king |
| Scenario.PawnBlocksCheck | engine.py:358 | after the pawn is placed `playersInCheck` reports no colour |
| Scenario.SetUp | engine.py:315-323 | the eight placements give the start board of the script |
| Scenario.Play | engine.py:296-297 | a move that the rules accept returns its captured piece and leaves the expected board |
| Scenario.PlayMoves | engine.py:328-352 | the seven moves of the script lead from the start board to the final board |

`Scenario.ScriptedGame` chains `SetUp`, `PlayMoves`, both `playersInCheck`
calls and the last placement. Its assertions restate the facts above on
the board object.

## Left out

- Printing: `Position.__str__`, `Board.__str__` and the `print` calls of the script are output only.
- `Position.__hash__`: it is what makes positions dictionary keys. The model uses positions as map keys directly.
- `Position.__eq__` against an object that is not a `Position`: every comparison in the core is between positions.
- The base `Piece.canMove`, which answers `False`: every piece on a board is one of the six kinds.
- The piece's display prefix, which is only used by printing.
- Colour strings other than "w" and "b": with another string a pawn's forward displacement is `None` and its constructor fails. The model has exactly two colours.
- Piece identity: a piece is a value. `Queen.canMove` builds a fresh rook and bishop of its colour, and the model just applies their rules with that colour.
- Floating point: the sign quotients and `relative.y/relative.x` are float divisions in the source. The model uses exact integer signs and compares `abs(dy)` with `abs(dx)`. Rounding for components above 2^53 is not captured.
- `placePiece` with `None` as the piece: the script never does it, and the model's boards hold pieces only.
- The `playersInCheck` calls of the script after the placements and after moves one to six: the model proves only the two after the last move and after the last placement.
- Boards.Board.PlayersInCheck: returns a set of colours, while the source returns the keys of a dictionary, ordered by which king was found first; only printing sees that order.
- Turns, checkmate, resignation, draws, promotion and the rollback of a move that leaves the own king in check: none of them exists in this code.
