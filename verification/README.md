# Console chess: the move-legality engine in Dafny

This project models the rules engine of a two-player console chess game.
It covers the `ChessBoard` class: building the starting position, deciding
whether a move is legal (`isValidMove`), and executing a move (`movePiece`).
A move either fails, wins the game by landing on a king, or relocates the piece.
A pawn that reaches row 0 or row 7 is promoted to a queen.

The engine has no check, checkmate, castling or en passant. Capturing a king
ends the game at once, and the board is left as it was before that move.
Whether a pawn may double-step is a per-colour flag. The caller owns that flag
and passes it in as `firstMove`.

Layout:

- `pieces.dfy` (module `Pieces`): the piece kinds, the two colours, a piece, and each colour's pawn direction.
- `boards.dfy` (module `Boards`): the 8×8 board as `seq<seq<Option<Piece>>>`, with square lookup and update.
  It also defines a census: the number of copies of a given piece on the board.
- `legality.dfy` (module `Legality`): `IsValidMove`, written branch for branch like the source.
  Its obstruction scan is the recursive `ClearFrom`.
- `rules.dfy` (module `Rules`): a square-by-square statement of the movement rules (`Legal`).
  It proves that `IsValidMove` decides exactly `Legal`, plus the per-piece properties.
- `moves.dfy` (module `Moves`): `MovePiece`, its error messages, and the census facts about a completed move.
- `setup.dfy` (module `Setup`): the constructor's initialisation loop and the starting position with its properties.
- `scenarios.dfy` (module `Scenarios`): the repository's unit tests, stated as lemmas.

Coordinates are unbounded `int`s, so an off-board destination can be written down and rejected.
Row 0 is rank 8 (Black's back rank) and row 7 is rank 1.
If a test omits the `firstMove` argument, JavaScript passes `undefined`, which behaves as `false`. The model passes `false`.

A zero-length move (start equals end) is rejected only by the own-colour check (js/index.js:74): the destination holds the mover itself.
The king, rook, bishop and queen branches accept a zero displacement, because `Math.sign(0) == 0` ends their loops at once.
`Rules.ZeroLengthIllegal` and `Rules.ZeroDisplacementPassesKindRules` state both facts.

## Model

| member | source | states |
|---|---|---|
| Legality.IsValidMove | js/index.js:71-159 | A legal move has its destination on the board and not held by the mover's colour; a legal rook, bishop or queen move has every square strictly between start and end empty |
| Legality.ClearFrom | js/index.js:94-153 | The step-by-step obstruction scan, shared by the rook scans (lines 96-98, 104-106), the bishop scan (lines 118-122) and the queen scans (lines 132-134, 140-142, 149-151), succeeds exactly when every square from the k-th step up to (not including) the destination is empty |
| Rules.IsValidMoveMatchesRules | js/index.js:71-159 | The legality predicate holds exactly when the declarative rules of movement hold: bounds, no own-colour capture, and the per-kind pawn, knight, king and line-with-clear-path rules |
| Rules.ZeroLengthIllegal | js/index.js:73-74 | A piece standing on its start square can never move to that same square |
| Rules.ZeroDisplacementPassesKindRules | js/index.js:92-156 | The king, rook, bishop and queen rules accept a zero displacement whenever the start square holds no piece of the mover's colour, so only the colour check rejects it |
| Rules.PawnSingleStep | js/index.js:83-85 | A pawn's single step in its colour's direction is legal if and only if the square ahead is on the board and empty |
| Rules.PawnDiagonalCapture | js/index.js:88-89 | A pawn's diagonal step forward is legal if and only if the destination holds an enemy piece |
| Rules.PawnDoubleStep | js/index.js:86-87 | A pawn's two-square advance is legal if and only if the first-move flag is set and both the destination and the square passed over are empty |
| Rules.PawnOtherwiseIllegal | js/index.js:82-91 | Every pawn displacement other than the single step, double step and forward diagonal is illegal |
| Rules.PawnReachesOnlyItsFarRank | js/index.js:63-66 | A legal pawn move ending on row 0 or row 7 is a White move to row 0 or a Black move to row 7, so the colour-blind promotion test never fires on a pawn's own back rank |
| Rules.KnightRule | js/index.js:114 | A knight move is legal if and only if the destination is on the board, not held by the mover's colour, and one coordinate changes by one and the other by two |
| Rules.KingRule | js/index.js:111-113 | A king move is legal if and only if the destination is on the board, not held by the mover's colour, and at most one square away in each direction |
| Rules.LeapersIgnoreOtherSquares | js/index.js:111-114 | For knights and kings, two boards with the same destination occupant give the same verdict; intermediate squares never matter |
| Rules.SliderRule | js/index.js:92-156 | A rook, bishop or queen move is legal if and only if the destination is on the board and not held by the mover's colour, the move runs along the piece's lines (rank or file, diagonal, or either), and every square strictly between is empty |
| Rules.BlockerBlocks | js/index.js:118-122 | Putting a piece of either colour on any square strictly between start and end makes a rook, bishop or queen move illegal |
| Rules.ClearingRestores | js/index.js:128-153 | Emptying every square strictly between start and end makes a rook, bishop or queen move legal again whenever it runs along the piece's lines onto a square not held by its own colour |
| Moves.MovePiece | js/index.js:45-69 | It fails with "no piece" exactly when the start square is empty, and with "illegal move" exactly when the piece's move is invalid. It returns 'win' exactly when a valid move's destination holds a king, and then the board is unchanged. Otherwise it returns 'ok' with the start emptied, the destination holding the mover (a queen of its colour for a pawn landing on row 0 or 7), and every other square unchanged |
| Moves.Landed | js/index.js:63-66 | A pawn landing on row 0 or row 7, of either colour, becomes a queen of its own colour; any other piece, or a pawn on any other row, stays as it is |
| Moves.OkMovePromotes | js/index.js:60-66 | After every 'ok' move of a pawn onto row 0 or row 7, the destination holds a queen of the pawn's colour |
| Moves.OkMoveWithoutPromotionRelocates | js/index.js:60-61 | After every other 'ok' move, the destination holds the moving piece itself |
| Moves.OkMoveCensus | js/index.js:57-68 | An 'ok' move removes the mover and any captured piece and adds the landed piece; no other piece appears or disappears |
| Moves.OkMoveKeepsKings | js/index.js:57-61 | An 'ok' move leaves the number of kings of each colour unchanged, because a king capture returns before the board is touched |
| Setup.InitializeBoard | js/index.js:20-28 | The constructor's loop over the eight files produces exactly the standard starting position |
| Setup.StartInventory | js/index.js:21-28 | The starting position holds, for each colour, eight pawns, two rooks, two knights, two bishops, one queen and one king |
| Setup.StartPositionIsMirrored | js/index.js:21-28 | Reflecting the starting position top to bottom and swapping the colours gives the same position |
| Setup.StartPositionRows | js/index.js:23-28 | In the starting position, pieces stand exactly on rows 0, 1, 6 and 7: White on rows 6 and 7, pawns on rows 1 and 6 |
| Scenarios.PawnsStepForwardFromTheStart | js/console_chess_game.test.js:10-16 | From the start, the a-pawns of both colours may step one square forward |
| Scenarios.KnightLeapsFromTheStart | js/console_chess_game.test.js:18-58 | From the start, the white knight's L-move is legal, while a move onto its own pawn or off the board is illegal |
| Scenarios.SlidersBlockedAtTheStart | js/console_chess_game.test.js:22-44 | From the start, the white rook, bishop and queen are blocked by their own pawns |
| Scenarios.QueenSlidesOverClearedFile | js/console_chess_game.test.js:30-34 | With the d-pawn and the square ahead of it cleared, the white queen may advance two squares |
| Scenarios.KingStepsOnceItsPawnIsGone | js/console_chess_game.test.js:36-40 | The white king cannot step onto its own pawn, but may once that pawn is removed |
| Scenarios.PawnCapturesDiagonally | js/console_chess_game.test.js:50-54 | A white pawn may capture a black pawn diagonally forward |
| Scenarios.CapturingTheKingWins | js/console_chess_game.test.js:71-75 | Moving the white king onto the black king returns 'win' with the board unchanged |
| Scenarios.MoveErrors | js/console_chess_game.test.js:77-83 | Moving from an empty square fails with "No piece at start position."; an over-long king move fails with "Illegal move." |
| Scenarios.PawnsDoubleStepOnFirstMove | js/console_chess_game.test.js:85-97 | With the first-move flag set, white and black pawns may advance two squares |
| Scenarios.NoDoubleStepAfterFirstMove | js/console_chess_game.test.js:99-106 | After a pawn's single step, its two-square advance with the flag cleared is illegal |
| Scenarios.PawnsPromoteOnTheLastRank | js/console_chess_game.test.js:108-136 | A pawn of either colour reaching its last rank returns 'ok' and becomes a queen of its own colour |

## Left out

- `ChessPiece.toString` and `printBoard` (js/index.js:9-11, 31-43): console output only.
- `parseInput` (js/index.js:162-178): text parsing that relies on JavaScript `Number`, `parseInt` and `charCodeAt` coercions. The engine receives coordinates already parsed.
- The interactive loop `main` (js/index.js:180-217) is I/O glue. It covers turn alternation, the "Invalid piece selection" check, the per-colour first-move flags and the win announcement. The first-move flag is a plain `bool` parameter of the engine.
- The module export and the top-level `main()` call (js/index.js:219-221).
- Legality.IsValidMove: requires the start square to be on the board, which the source does not check. With an off-board start, the king and knight rules and the pawn single step and capture still give a verdict from the displacement alone. The slider scans and the pawn double step read squares relative to the start, which may not exist. Its only caller, `movePiece`, passes a start square that holds a piece.
- Moves.MovePiece: a start square off the board reads as empty, so the result is the "no piece" failure. In the source, an off-board start column gives that same error. An off-board start row gives a JavaScript `TypeError` instead.
- Object identity: the source moves one `ChessPiece` object from cell to cell and mutates the board in place. Here pieces are values, and a move returns a new board.
- Piece names other than the six letters, and colours other than 'W' and 'B', cannot occur: kind and colour are closed datatypes. The source would reject an unknown name and give any non-'W' colour Black's direction.
- Check, checkmate, castling, en passant and stalemate are absent from the source and are not modelled.
