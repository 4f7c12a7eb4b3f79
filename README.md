# Alice Chess engine — a Dafny model

This project models the rules engine of an Alice Chess player. Alice Chess is played on two
boards. A piece moves with its usual chess geometry on its own board, the square at the same
index on the other board must be empty, and the piece then stands on that other board.

Three generations of the engine are modelled:

- **The two-board engine** (aliceengine.py). Its parts are:
  - positions (board "1"/"2" plus index 0..63) and algebraic notation;
  - the board masks;
  - the piece-square tables;
  - the per-piece move generators with their column guards;
  - the three kinds of move and how executing them rebuilds a board through a `BoardBuilder`;
  - the players' legality test, check, checkmate, stalemate and `make_move`, including the probe
    that plays the move on the piece's own board first.

  Modules: `Coordinates`, `Pieces`, `Moves`, `Generators`, `MoveRules`, `Boards`, `Execution`,
  `StandardBoard`, `Players` and `MoveEquality`.
- **The single-board predecessor** (alice5500.py). It has its own generators, builder,
  `execute_move`, players and `find_move`. Modules: `SingleBoardMoves`, `SingleBoardRules`,
  `SingleBoard` and `SingleBoardPlayers`.
- **The first prototype** (piece.py, pawn.py, queen.py, player.py). It generates move tuples
  over a map `game_rep[row][board][column]`, in which `""` means an empty square. Modules:
  `PrototypePiece`, `PrototypePawn`, `PrototypeQueen` and `PrototypePlayer`.

**How the model is built**

- A `Board` is immutable once built, so it is a datatype. Its cached piece and move lists are
  functions of its tiles.
- `BoardBuilder` mutates its configuration, so it is a class. Each of its methods is proved
  against a function on a `Staging` value.
- Every loop of the source is a method with a `while` loop. Its postcondition equates the result
  with a recursive specification function, and the rules the source promises are proved as
  lemmas about those functions.
- The prototype's `Piece` and `Player` change their fields in place, so they are classes.
- An exception is an `Err` of a `Result`:
  - a missing king while a board is built;
  - a `KeyError` of the prototype's `game_rep`;
  - `list.remove` of an absent piece;
  - `int()` of a non-digit.

## Model

| member | source | states |
|---|---|---|
| Coordinates.NextBoard | aliceengine.py:99-105 | the next board always differs from the given one |
| Coordinates.FlipBoard | aliceengine.py:59-64 | flipping keeps the index and changes the board |
| Coordinates.FlipBoardInvolution | aliceengine.py:59-64 | flipping twice returns the original position |
| Coordinates.IntToAlg | aliceengine.py:67-77 | the notation has two characters and `alg_to_int` maps it back to the same index, for every index 0..63 |
| Coordinates.AlgToInt | aliceengine.py:80-87 | a result exists exactly when the notation has two characters, a known file letter and a digit rank (otherwise IndexError/KeyError/ValueError); the result's file is the letter's file |
| Coordinates.AlgRoundTrip | aliceengine.py:67-87 | every two-character notation on files a..h and ranks 1..8 maps to an index in 0..63, which `int_to_alg` maps back to the same notation |
| Coordinates.InitColumn | aliceengine.py:148-159 | the 64-entry mask is true exactly on the tiles of the given file |
| Coordinates.InitRow | aliceengine.py:162-173 | the 64-entry mask is true exactly on the eight tiles of the given row |
| Pieces.Opponent | aliceengine.py:117-125 | the opponent of a colour is the other colour |
| Pieces.MovePiece | aliceengine.py:616-622 | `move_piece` rebuilds a piece of the same kind and colour at the destination; a rebuilt pawn loses its first-move right |
| Pieces.PromotedPiece | aliceengine.py:1347-1354 | a promoted pawn becomes a Queen of the pawn's colour at the destination |
| Pieces.ValueMirror | aliceengine.py:580-591 | Black's value on tile i equals White's value on tile 63 - i |
| Pieces.GuardedOffsetMoves | aliceengine.py:654-675 | an offset the column guards let through, landing on the board, changes file and row by exactly the offset's deltas, so nothing wraps around an edge |
| Pieces.PawnCaptureMoves | aliceengine.py:1325-1345 | a pawn capture that the kill exceptions allow moves one row forward and one file sideways |
| Moves.CaptureOrdering | aliceengine.py:1424-1541 | moves of one piece are ordered by what they capture: the destination does not matter, a capture ranks above the quiet move iff the captured piece is worth more than 0, two captures rank as the captured pieces' values, and doubling for a promotion keeps that ranking |
| Moves.ProbeMove | aliceengine.py:1748-1749 | the probed copy flips only the destination back to the other board and moves the same piece |
| Generators.StepValidMoves | aliceengine.py:624-651 | the king's and the knight's offset loops return exactly the specification's moves |
| Generators.SliderValidMoves | aliceengine.py:745-774 | the queen's, bishop's and rook's ray loops return exactly the specification's moves |
| Generators.PawnValidMoves | aliceengine.py:1264-1312 | the pawn's offset loop returns exactly the specification's moves |
| Generators.StepOffset | aliceengine.py:633-650 | one pass of the king's or knight's offset loop yields exactly that offset's moves |
| Generators.SliderOffset | aliceengine.py:753-774 | the inner scan along one direction yields exactly that direction's ray |
| Generators.PawnOffset | aliceengine.py:1272-1312 | one pass of the pawn's offset loop yields exactly that offset's moves |
| Generators.ValidMoves | aliceengine.py:517-518 | dispatch on the piece's kind returns that kind's moves |
| Generators.CalculateMoves | aliceengine.py:418-427 | the arsenal's moves, concatenated piece by piece in order |
| MoveRules.OffsetsMovesMembership | aliceengine.py:753-774 | a move belongs to the scan of a list of offsets iff it belongs to the moves of one of them |
| MoveRules.ArsenalMovesMembership | aliceengine.py:418-427 | `calculate_moves` yields exactly the moves of the arsenal's pieces |
| MoveRules.OffsetMovesAreAliceMoves | aliceengine.py:633-650 | each offset's moves obey the Alice rule |
| MoveRules.PieceMovesAreAliceMoves | aliceengine.py:760-772 | every generated move moves the piece itself and obeys the Alice rule: the destination is on the opposite board and in 0..63, the arrival tile is empty, the same-board tile is empty for a SimpleMove and holds the captured enemy for an AttackMove, and a pawn move is a promotion exactly on its last row |
| MoveRules.ArsenalMovesAreAliceMoves | aliceengine.py:418-427 | every move of an arsenal belongs to one of its pieces and obeys the Alice rule |
| MoveRules.ClassifyIsLands | aliceengine.py:642-650 | the classification of a destination yields a move iff the move lands by the Alice rule: a SimpleMove on an empty same-board tile, an AttackMove carrying an enemy, nothing on an own piece |
| MoveRules.StepMovesExactly | aliceengine.py:997-1018 | king and knight moves are exactly the Alice moves to the squares a king step or a knight jump reaches (knight: file by 1 and row by 2, or file by 2 and row by 1), with no wrap-around |
| MoveRules.StepMovesShaped | aliceengine.py:997-1018 | every king or knight move lands by the Alice rule on a square of a king step or knight jump |
| MoveRules.StepMovesComplete | aliceengine.py:997-1018 | every Alice landing on a square a king step or knight jump reaches is generated |
| MoveRules.StepShapeIsOffset | aliceengine.py:654-675 | a king step or knight jump between two tiles is one of the kind's offsets, and the column guards let it through |
| MoveRules.SliderMovesAligned | aliceengine.py:753-773 | a queen, bishop or rook move goes j >= 1 steps along one of the piece's directions, changing file and row by j times the direction; no tile before it ended the ray |
| MoveRules.SliderMovesComplete | aliceengine.py:753-773 | every Alice landing j steps along a direction is generated when the column guards let the scan through and no earlier tile is free on the arrival board but occupied on the piece's own; a tile occupied on the arrival board only is passed over |
| MoveRules.SliderMovesExactly | aliceengine.py:745-774 | queen, bishop and rook moves are exactly the Alice landings along their directions over unguarded tiles none of which ends the scan |
| MoveRules.RayMovesUnguarded | aliceengine.py:755-758 | the column guards let the scan through every tile before a move it finds |
| MoveRules.RaySimpleBeforeLast | aliceengine.py:755-773 | along each direction every move but the last is a SimpleMove: a ray ends after its first capture |
| MoveRules.PromoteIsAliceMove | aliceengine.py:128-138 | a pawn move is wrapped in PawnPromotion exactly when it reaches the last row of its colour |
| MoveRules.PawnOffsetRule | aliceengine.py:1264-1312 | each pawn offset's moves are exactly the Alice moves of that offset's shape |
| MoveRules.PawnCaptureGeometry | aliceengine.py:1325-1345 | the two pawn capture offsets, once guarded, are exactly the diagonal steps forward |
| MoveRules.PawnMovesExactly | aliceengine.py:1264-1323 | the pawn generates exactly the moves of the pawn rule: a single step onto two empty tiles, a double step from the start row with the first-move right over empty tiles, a diagonal onto an enemy, and promotion on the last row |
| Boards.EmptyStaging | aliceengine.py:468-475 | a fresh builder holds None at every key and no next move maker |
| Boards.WithPiece | aliceengine.py:477-485 | `set_piece` stores the piece under its own position and changes no other tile |
| Boards.SetPieces | aliceengine.py:477-485 | a list of `set_piece` calls keeps the configuration valid and leaves the next move maker alone |
| Boards.TilesOf | aliceengine.py:330-342 | `create_game_board` produces 64 tiles |
| Boards.FindKing | aliceengine.py:1771-1780 | the king found is a King of the list; none is found exactly when the list holds no King |
| Boards.CurrentColor | aliceengine.py:325-327 | the player to move is the opponent of the next move maker, and White when there is none |
| Boards.ActivePiecesMembership | aliceengine.py:402-416 | `calculate_active_piece` collects exactly the pieces of the colour on occupied tiles |
| Boards.PiecesOfMembership | aliceengine.py:307-310 | a board's piece list of a colour holds exactly that colour's pieces standing on their own tile |
| Boards.ConsistentAt | aliceengine.py:330-342 | on a consistent board, the piece on a tile stands at that tile's position |
| Boards.StagedBoards | aliceengine.py:299-306 | the two tile rows built from a configuration are valid and consistent and hold exactly its pieces |
| Boards.BuildBoardOutcome | aliceengine.py:299-327 | building fails exactly when a colour has no king (White is checked first); a built board is well formed, holds the configuration's pieces, and the player to move is the opponent of the next move maker |
| Boards.SetPiecesAbsent | aliceengine.py:477-485 | pieces set elsewhere leave a position as it was |
| Boards.SetPiecesUnique | aliceengine.py:477-485 | a position holds the piece set there when every piece set there is that piece |
| Boards.SetPiecesAppend | aliceengine.py:477-485 | setting two lists one after the other is setting their concatenation |
| Boards.CreateGameBoard | aliceengine.py:330-342 | the tile loop returns exactly the specification's tiles |
| Boards.CalculateActivePiece | aliceengine.py:402-416 | the collecting loop returns exactly the specification's pieces |
| Boards.EstablishKing | aliceengine.py:1817-1826 | it succeeds iff a King is present, returns the first one, and otherwise raises naming the colour |
| Boards.NewBoard | aliceengine.py:299-327 | `Board.__init__` yields exactly the specification's board or error |
| Boards.BoardBuilder.constructor | aliceengine.py:468-475 | a new builder holds the empty configuration |
| Boards.BoardBuilder.SetPiece | aliceengine.py:477-485 | the builder's state becomes WithPiece of the old state |
| Boards.BoardBuilder.SetNextMoveMaker | aliceengine.py:487-492 | only the next move maker changes |
| Boards.BoardBuilder.Build | aliceengine.py:494-500 | `build` returns the board the configuration specifies, or the missing-king error |
| Execution.Without | aliceengine.py:1396-1398 | the kept pieces are exactly those not equal to the mover |
| Execution.ExecuteSwitchesTurn | aliceengine.py:1402 | after any execution the other colour is to move |
| Execution.KeptMembership | aliceengine.py:1396-1400 | the pieces set before the moved one are every piece of both colours except the mover (and, for an attack, except the captured piece) |
| Execution.PromotionStaging | aliceengine.py:1596-1604 | the promotion builder's configuration is valid |
| Execution.ExecuteTiles | aliceengine.py:1389-1403 | a simple or attack move builds a well-formed board whose every tile is the one TileAfter describes |
| Execution.ExecuteWellFormed | aliceengine.py:1389-1403 | whatever is executed, a board that gets built is well formed |
| Execution.ExecuteLandingMove | aliceengine.py:1498-1513 | the moved piece appears at the destination on the other board, its old tile is emptied, a captured piece disappears from the mover's own board, and nothing else changes |
| Execution.ExecuteGeneratedMove | aliceengine.py:1389-1403 | executing any generated move of the player to move, promotions included, has that Alice effect |
| Execution.PromotionTiles | aliceengine.py:1590-1605 | a promotion puts a Queen of the pawn's colour at the destination, drops the original pawn and keeps every other tile |
| Execution.ExecutePromotion | aliceengine.py:1590-1605 | a promotion that builds first executes the wrapped move, then rebuilds that board with the pawn replaced by the Queen |
| Execution.ExecuteProbeMove | aliceengine.py:1748-1750 | for a simple or attack move, the probe lands the piece below the destination on its own board, replacing any piece there, and changes nothing else |
| Execution.ExecuteProbePromotion | aliceengine.py:1590-1605 | for a promotion the probe flips only the outer destination: the pawn still lands at the wrapped move's destination on the other board, a Queen of its colour is set below it on its own board (replacing any piece there), its old tile is emptied, and nothing else changes |
| Execution.ExecuteGeneratedProbe | aliceengine.py:1748-1750 | for every generated move of the player to move, the probe's tiles are the landing of a simple or attack move, or the promotion's pawn plus Queen, and nothing else changes |
| Execution.ExcludingMembers | aliceengine.py:1505-1510 | the builder loop keeps exactly the pieces other than the skipped one |
| Execution.ExcludingWithout | aliceengine.py:1505-1510 | skipping a piece sets the same pieces, in the same order, as the list without the moved piece; skipping nothing sets the whole list |
| Execution.SetPiecesExcept | aliceengine.py:1504-1510 | the loop of `set_piece` calls leaves the builder holding the old state with the kept pieces set in order |
| Execution.ExecuteMove | aliceengine.py:1389-1403 | `execute_move` of all three kinds returns exactly the specification's board or error |
| StandardBoard.StandardPiece | aliceengine.py:357-399 | the k-th piece placed stands on the k-th index of the first board; Black comes first; only pawns keep the first-move right |
| StandardBoard.StandardAt | aliceengine.py:357-399 | the opening position occupies exactly indices 0..15 and 48..63 of the first board |
| StandardBoard.StandardStaging | aliceengine.py:357-399 | the builder holds the opening position, and Black is the next move maker |
| StandardBoard.StandardArsenalAt | aliceengine.py:357-397 | setting the arsenal leaves each tile holding the opening position's piece |
| StandardBoard.StandardPlacementComplete | aliceengine.py:357-399 | the `set_piece` calls produce exactly the opening configuration |
| StandardBoard.CreateStandardBoard | aliceengine.py:357-399 | `create_standard_board` returns the board of the opening configuration |
| StandardBoard.StandardBoardOutcome | aliceengine.py:398 | the standard board builds, White moves first, and the kings stand on e1 (tile 60) and e8 (tile 4) |
| StandardBoard.StandardKing | aliceengine.py:361 | the only king of a colour in the opening position is the one on file e |
| Players.CurrentPlayer | aliceengine.py:325-327 | the current player plays on the board with the board's colour to move |
| Players.AttacksOnTile | aliceengine.py:1661-1673 | the attacks are exactly the moves whose destination, flipped to the other board, is the tile; never more than the moves |
| Players.CalculateAttacksOnTile | aliceengine.py:1669-1673 | the loop returns exactly the specified attacks |
| Players.IsInCheck | aliceengine.py:1700-1706 | in check iff some opponent move lands over the player's king |
| Players.KingLeftInCheck | aliceengine.py:1731-1734 | the mover's king is left attacked iff some legal move of the new player to move lands over it |
| Players.MakeMoveWithoutChangingBoard | aliceengine.py:1740-1756 | ILLEGAL_MOVE iff the move is not legal; LEAVES_KING_IN_CHECK iff it is legal and the probe's board leaves the king attacked; DONE iff legal and the probe leaves the king safe; the board is unchanged unless DONE; an error is the probe's missing king |
| Players.MakeMove | aliceengine.py:1722-1738 | ILLEGAL_MOVE iff the move is not legal; DONE iff it is legal and both the probe and the real move leave the king safe; LEAVES_KING_IN_CHECK iff it is legal and the probe, or the real move after a safe probe, leaves the king attacked; the board is unchanged unless DONE; an error comes from the probe or the real move |
| Players.DoneMoveKeepsKingSafe | aliceengine.py:1722-1756 | after a DONE move the board is well formed, the other colour is to move, and no legal move of it attacks the mover's king, in the probe position too |
| Players.HasEscapeIn | aliceengine.py:1675-1684 | true means some move completes with DONE, false means none does, and an error is the error make_move raises for one of the moves |
| Players.HasEscapeMoves | aliceengine.py:1675-1684 | the early-return loop computes exactly HasEscapeIn over the legal moves |
| Players.EscapeMovesIn | aliceengine.py:1686-1698 | the escape list holds exactly the moves both the probe and the real move complete |
| Players.GetEscapeMoves | aliceengine.py:1686-1698 | the loop computes exactly EscapeMovesIn over the legal moves |
| Players.EscapeMovesErrorStops | aliceengine.py:1692-1697 | an error raised during the loop is the loop's result |
| Players.EscapesIffMakeMoveDone | aliceengine.py:1693-1697 | the probe test in `get_escape_moves` is redundant: `make_move` completes only after the probe has |
| Players.EscapeAgreement | aliceengine.py:1675-1698 | `has_escape_moves` is true iff `get_escape_moves` is non-empty |
| Players.IsInCheckMate | aliceengine.py:1708-1713 | checkmate iff in check and no escape; never when not in check |
| Players.IsInStaleMate | aliceengine.py:1715-1720 | stalemate iff not in check and no escape; never when in check |
| Players.MateMeansNoMove | aliceengine.py:1708-1720 | checkmate and stalemate exclude each other, and under either no legal move completes |
| MoveEquality.QuietMoveEqualsAsWritten | aliceengine.py:1380-1387 | as written, a quiet move equals any move with the same destination |
| MoveEquality.AsWrittenAcceptsUnlistedMove | aliceengine.py:1380-1387 | as written, a rook move is accepted as legal because a knight move to the same square is listed |
| MoveEquality.MoveEquals | aliceengine.py:1566-1574 | under the corrected equality, two non-promotion moves are equal iff they are the same move, and a promotion compares the moves it wraps |
| MoveEquality.CorrectedLegalityIsMembership | aliceengine.py:1653-1659 | under the corrected equality, legality is plain list membership: always for a move that is not a promotion, and for a promotion when it and the listed promotions carry their wrapped move's destination |
| MoveEquality.ArsenalMovesShaped | aliceengine.py:1264-1323 | every generated promotion wraps a non-promotion move and carries its destination, so the membership result covers every listed move |
| SingleBoardMoves.MovePiece | alice5500.py:307-308 | the rebuilt piece has the same kind and colour, stands at the destination, and has no first-move right |
| SingleBoardMoves.MoveOffsets | alice5500.py:312 | no offset of any class is 0; king and queen use the bishop's diagonal offsets |
| SingleBoardMoves.StepValidMoves | alice5500.py:310-330 | the king's and the knight's loops, with the king's `break`, return exactly the scan's moves |
| SingleBoardMoves.SliderValidMoves | alice5500.py:366-388 | the queen's, bishop's and rook's ray loops return exactly the scan's moves |
| SingleBoardMoves.PawnValidMoves | alice5500.py:613-655 | the pawn's offset loop returns exactly the scan's moves |
| SingleBoardMoves.StepOffset | alice5500.py:313-329 | one pass of the king's or knight's loop yields exactly that offset's moves, and reports the king's `break` exactly when the scan stops |
| SingleBoardMoves.SliderOffset | alice5500.py:368-388 | the inner scan along one offset yields exactly that offset's ray |
| SingleBoardMoves.PawnOffset | alice5500.py:615-655 | one pass of the pawn's loop yields exactly that offset's moves |
| SingleBoardMoves.ValidMoves | alice5500.py:272-273 | dispatch over the class's offsets returns that piece's moves |
| SingleBoardMoves.CalculateMoves | alice5500.py:88-92 | the arsenal's moves, concatenated piece by piece |
| SingleBoardRules.PieceMovesSound | alice5500.py:313-328 | every generated destination is in 0..63; MajorMoves and PawnMoves land on empty tiles; an AttackMove carries the enemy piece on its tile |
| SingleBoardRules.ArsenalMovesSound | alice5500.py:88-92 | every move of `calculate_moves` belongs to an arsenal piece and is sound for it |
| SingleBoardRules.KnightJumpsNeverWrap | alice5500.py:484-488 | a knight jump changes the file by 1 and the row by 2, or the file by 2 and the row by 1 |
| SingleBoardRules.KingStepsDiagonally | alice5500.py:312 | every king move changes both file and row by exactly one |
| SingleBoardRules.KingScanStopsAtOccupied | alice5500.py:318-329 | the king's `break` ends all remaining offsets, so every king move but the last is a MajorMove |
| SingleBoardRules.KingBreakEndsScan | alice5500.py:318-329 | the `break` at the first occupied tile ends the whole loop: later offsets add nothing, and a friendly piece there leaves just the moves of the earlier offsets |
| SingleBoardRules.RayMajorBeforeLast | alice5500.py:425-444 | along each direction every move but the last is a MajorMove: a ray ends at the first occupied square |
| SingleBoardRules.SliderMovesAligned | alice5500.py:552-571 | a queen, bishop or rook move goes j >= 1 steps along one of its offsets over empty tiles |
| SingleBoardRules.QueenMovesDiagonally | alice5500.py:368 | a queen moves only diagonally: file and row change by the same nonzero amount |
| SingleBoardRules.PawnMovesExactly | alice5500.py:619-655 | the pawn generates exactly the pawn rule's moves: a single step to an empty square, a double step from the start row with the first-move right over empty squares, a diagonal onto an enemy |
| SingleBoardRules.PawnCaptureGeometry | alice5500.py:632-654 | a pawn capture moves one row forward and one file sideways |
| SingleBoard.EmptyStaging | alice5500.py:153-156 | a fresh builder holds None under every key and no next move maker |
| SingleBoard.WithPiece | alice5500.py:158-159 | the piece is stored under its own index and nothing else changes |
| SingleBoard.SetPieces | alice5500.py:158-159 | a list of `set_piece` calls keeps the configuration valid and leaves the next move maker alone |
| SingleBoard.TilesOf | alice5500.py:65-72 | `create_game_board` produces 64 valid tiles |
| SingleBoard.FindKing | alice5500.py:224-229 | the king found is a King of the list; none is found exactly when there is no King |
| SingleBoard.ActivePiecesMembership | alice5500.py:77-86 | `calculate_active_piece` collects exactly the pieces of the colour on occupied tiles |
| SingleBoard.PiecesOnBoard | alice5500.py:52-53 | every collected piece stands on a tile 0..63 |
| SingleBoard.BuildBoardOutcome | alice5500.py:50-62 | building fails exactly when a colour has no king (White first); otherwise the player to move is the opponent of the next move maker |
| SingleBoard.SetPiecesUnique | alice5500.py:158-159 | an index holds the piece set there when every piece set there is that piece |
| SingleBoard.SetPiecesAppend | alice5500.py:158-159 | setting two lists one after the other is setting their concatenation |
| SingleBoard.CreateGameBoard | alice5500.py:65-72 | the tile loop returns exactly the specification's tiles |
| SingleBoard.CalculateActivePiece | alice5500.py:77-86 | the collecting loop returns exactly the specification's pieces |
| SingleBoard.EstablishKing | alice5500.py:224-251 | it succeeds iff a King is present and returns the first one; otherwise it raises, and the error records which player's establish_king raised (the source message is the same for both colours) |
| SingleBoard.NewBoard | alice5500.py:50-62 | `Board.__init__` yields exactly the specification's board or error |
| SingleBoard.BoardBuilder.constructor | alice5500.py:153-156 | a new builder holds the empty configuration |
| SingleBoard.BoardBuilder.SetPiece | alice5500.py:158-159 | the builder's state becomes WithPiece of the old state |
| SingleBoard.BoardBuilder.SetNextMoveMaker | alice5500.py:161-162 | only the next move maker changes |
| SingleBoard.BoardBuilder.Build | alice5500.py:164-165 | `build` returns the specified board or error |
| SingleBoard.Without | alice5500.py:669-671 | the kept pieces are exactly those not equal to the mover |
| SingleBoard.ExecuteStaging | alice5500.py:667-675 | the builder of `execute_move` holds a valid configuration, with the mover's colour as the next move maker |
| SingleBoard.ExecuteSwitchesTurn | alice5500.py:675 | after an execution the other colour is to move |
| SingleBoard.KeptMembership | alice5500.py:669-673 | the pieces set before the moved one are every piece on the board except the mover, the captured piece included |
| SingleBoard.ExecuteTiles | alice5500.py:667-676 | the moved piece overwrites the destination, its source tile is emptied, and no other tile changes |
| SingleBoard.ExecuteStagingTiles | alice5500.py:667-676 | the builder of `execute_move` holds, at every index, the tile that TileAfter describes |
| SingleBoard.ExecuteGeneratedMove | alice5500.py:667-676 | for a generated move the source is emptied, the destination holds the moved piece (removing a captured piece), and nothing else changes |
| SingleBoard.KingCaptureFails | alice5500.py:245-251 | capturing the opponent's only king makes the rebuilt board raise for that colour's missing king |
| SingleBoard.NoOpponentKingAfterCapture | alice5500.py:672-674 | after capturing the only opposing king, no key holds a king of that colour |
| SingleBoard.MoverKeepsKing | alice5500.py:669-674 | the mover still has a king after any move it generated |
| SingleBoard.StandardPiece | alice5500.py:110-142 | the k-th piece placed stands on the k-th index; Black comes first; only pawns have the first-move right |
| SingleBoard.StandardAt | alice5500.py:110-142 | the opening position occupies exactly indices 0..15 and 48..63 |
| SingleBoard.StandardStaging | alice5500.py:107-146 | the builder holds the opening position, and Black is the next move maker |
| SingleBoard.StandardPlacementComplete | alice5500.py:110-144 | the `set_piece` calls produce exactly the opening configuration |
| SingleBoard.CreateStandardBoard | alice5500.py:107-146 | `create_standard_board` returns the board of the opening configuration |
| SingleBoard.StandardBoardOutcome | alice5500.py:107-146 | the board builds, White moves first, and the kings stand on tiles 60 and 4 |
| SingleBoard.StandardKing | alice5500.py:114 | the only king of a colour in the opening position is the one on file e |
| SingleBoardPlayers.CurrentPlayer | alice5500.py:60-62 | the current player plays on the board with the board's colour to move |
| SingleBoardPlayers.AttacksOnTile | alice5500.py:182-187 | the attacks are exactly the moves whose destination is the tile (no flip on one board) |
| SingleBoardPlayers.CalculateAttacksOnTile | alice5500.py:182-187 | the loop returns exactly the specified attacks |
| SingleBoardPlayers.IsInCheck | alice5500.py:196-198 | in check iff some opponent move has the king's index as destination |
| SingleBoardPlayers.KingLeftInCheck | alice5500.py:211-214 | the mover's king is left attacked iff some move of the new player to move targets it |
| SingleBoardPlayers.MakeMove | alice5500.py:206-217 | ILLEGAL_MOVE iff the move is not legal; LEAVES_KING_IN_CHECK iff it is legal and the executed board leaves the king attacked; DONE iff legal and the king is safe; the board is unchanged unless DONE; an error is the execution's missing king |
| SingleBoardPlayers.DoneMoveKeepsKingSafe | alice5500.py:206-217 | a DONE move was generated by one of the mover's pieces and leaves its king unattacked |
| SingleBoardPlayers.HasEscapeIn | alice5500.py:189-194 | true means some move completes with DONE, false means none does, and an error comes from one of the moves |
| SingleBoardPlayers.HasEscapeMoves | alice5500.py:189-194 | the early-return loop computes exactly HasEscapeIn over the legal moves |
| SingleBoardPlayers.IsInCheckMate | alice5500.py:200-201 | checkmate iff in check and no escape; never when not in check |
| SingleBoardPlayers.CheckMateMeansNoMove | alice5500.py:200-201 | checkmate implies in check and that no legal move completes |
| SingleBoardPlayers.IsInStaleMate | alice5500.py:203-204 | stalemate is never reported |
| SingleBoardPlayers.FindMoveIn | alice5500.py:818-823 | a found move is in the list and matches letter, source and destination; none means no move matches; an unreadable square raises only once some move has the letter |
| SingleBoardPlayers.FindMoveFirstMatch | alice5500.py:818-823 | with readable squares the lookup returns the first matching move |
| SingleBoardPlayers.FindMove | alice5500.py:818-823 | the linear scan returns exactly FindMoveIn |
| PrototypePiece.OtherBoardNumber | piece.py:14 | the new board is 1 or 2, and differs from the old one when that was 1 or 2 |
| PrototypePiece.OtherBoardNumberInvolution | piece.py:14 | on boards 1 and 2, switching twice returns to the first board |
| PrototypePiece.Piece.constructor | piece.py:3-7 | the fields hold the given board, row and column |
| PrototypePiece.Piece.MakeMove | piece.py:12-16 | the board always switches; row and column become the destination's rank and file; a short destination (IndexError) or a non-digit rank (ValueError) leaves row and column unchanged |
| PrototypePiece.MakeMoveTwice | piece.py:12-16 | two moves to the same readable destination restore the board and leave the piece on the destination |
| PrototypePawn.PawnMovesAsWritten | pawn.py:10-34 | at most two moves, each tagged "P" with the pawn's board and start square; none for a colour other than White/Black; a KeyError only for White below row 8 with the square ahead missing |
| PrototypePawn.ValidMoves | pawn.py:15-34 | the method's conditional appends compute exactly PawnMovesAsWritten of the pawn's fields |
| PrototypePawn.AsWrittenPawnNeedsOccupiedSquare | pawn.py:18-24 | as written, a White pawn on e2 gets no move when e3 is empty and gets e3 and e4 when e3 is occupied |
| PrototypePawn.PawnMoves | pawn.py:18-32 | with the corrected test, every move is tagged "P" and keeps the pawn's board and start square |
| PrototypePawn.CorrectedPawnStepsOntoEmptySquare | pawn.py:18-20 | the corrected White pawn steps forward iff the square ahead is empty; the as-written one iff it is not |
| PrototypePawn.BlackPawnIgnoresBoard | pawn.py:26-32 | a Black pawn above row 1 steps down one row, and two from row 7 of board 1, whatever the board holds |
| PrototypeQueen.QueenAtReadable | queen.py:27-30 | every candidate's destination is a file letter a..h followed by the digit of a row 1..8 |
| PrototypeQueen.RayReadable | queen.py:79-82 | every move of a ray is readable and tagged "Q" with the queen's board |
| PrototypeQueen.RaySound | queen.py:73-82 | every move of a ray lies k < 8 steps along the direction, with every square before it empty on the queen's board |
| PrototypeQueen.RayComplete | queen.py:21-30 | every reachable square with an empty path up to and including it is in the ray |
| PrototypeQueen.ScanRay | queen.py:21-30 | a ray loop with its `break` appends exactly the ray's moves to the list it extends |
| PrototypeQueen.AllRays | queen.py:123 | the candidates in order: up, down, right, left (all in `u`), then ur, ul, dr, dl, all readable |
| PrototypeQueen.KeepMembership | queen.py:125-132 | the filter keeps exactly the candidates whose destination is "" on the other board (2 for board 1, else 1) |
| PrototypeQueen.FilterOtherBoard | queen.py:125-134 | the filter loop preserves order and returns exactly Keep of the candidates |
| PrototypeQueen.ValidMoves | queen.py:11-134 | the method returns exactly QueenMoves of the queen's origin |
| PrototypeQueen.QueenMoveSound | queen.py:19-134 | every returned move lies along one of the eight directions within 7 steps, with a clear path on the queen's board and an empty square on the other board |
| PrototypeQueen.QueenMoveComplete | queen.py:19-134 | every such square is returned |
| PrototypeQueen.OriginOfValid | queen.py:48 | a queen on rows 1..8 with a file letter has a valid origin |
| PrototypeQueen.QueenNeverStays | queen.py:21 | no candidate's destination is the queen's own square, since every step uses i >= 1 |
| PrototypeQueen.QueenMovesShape | queen.py:27-30 | every returned move is ("Q", board, own square, destination), readable, with destination different from the start |
| PrototypePlayer.Pawns | player.py:21-25 | the pawn loop places n pawns on board 1 in the given row, in columns 0..n-1 |
| PrototypePlayer.CountAppend | player.py:18-61 | counting pieces of a tag distributes over concatenation |
| PrototypePlayer.PawnsCount | player.py:21-25 | the pawn loop adds n pawns and nothing else |
| PrototypePlayer.OfficersCount | player.py:27-61 | the officers are 2 rooks, 2 knights, 2 bishops, 1 queen and 1 king |
| PrototypePlayer.SetupComposition | player.py:18-61 | the arsenal holds 16 pieces, all on board 1: 8 pawns, 2 rooks, 2 knights, 2 bishops, 1 queen, 1 king, nothing else |
| PrototypePlayer.OfficersColumns | player.py:27-61 | the officers stand in one row on eight distinct columns 0..7 |
| PrototypePlayer.SetupSquares | player.py:18-61 | the 16 pieces stand on distinct squares; White uses rows 0 and 1, Black rows 6 and 7 |
| PrototypePlayer.RemoveFirstSpec | player.py:67-69 | removing one occurrence shortens the list by one, removes exactly one copy from the multiset, and keeps the entries before it |
| PrototypePlayer.Player.constructor | player.py:10-16 | martyrs is empty and the arsenal holds distinct new pieces placed as the setup plan says |
| PrototypePlayer.Player.InitializePlayer | player.py:18-61 | the arsenal grows from empty to the 16 distinct pieces of the setup plan |
| PrototypePlayer.Player.AddPiece | player.py:63-65 | the piece is appended at the end; earlier entries and martyrs are unchanged |
| PrototypePlayer.Player.RemovePiece | player.py:67-69 | it succeeds iff the piece was in the arsenal, then removes its first occurrence; otherwise it raises and changes nothing |
| PrototypePlayer.Player.MakeMove | player.py:71-73 | nothing changes |

## Left out

- The stdin/stdout protocol loop of alice5500.py (lines 829-897) is left out: it chooses moves
  with `random.randrange`. Parser.py and game.py are not part of this model: the first reads a
  grammar file and picks at random, the second renders the board as text. `game.py`'s
  `receive_move` calls a `kill_peice` that player.py never defines.
- `__repr__` and `__str__` everywhere (debug rendering) are left out. `generate_move_sentence` is
  also left out: it formats protocol text.
- Piece arithmetic through `__add__`, `__radd__`, `__mul__` and `__rmul__` (Python 2 `long` and
  float) is left out. Values are modelled by named integer functions instead.
- `Board.get_all_legal_moves` (aliceengine.py:454-459) is left out: it reads attributes the board
  never sets. `MoveFactory` and `NullMove` of alice5500.py are left out: neither can be
  instantiated usefully.
- `AttackMove.__eq__` (aliceengine.py:1480, alice5500.py:708) calls the unbound `super.__eq__`.
  It is not modelled, and legality uses the corrected equality of `MoveEquality`.
- The `board` field of a move is not kept. Execution uses the board that is passed in, which is
  the board the move was generated on.
- `deepcopy` and the reassignment `piece.__class__ = King` are value copies and a kind tag.
- `BoardBuilder`'s configuration dictionaries are class-level attributes in the source, shared by
  all builders and reset by every constructor. Each builder here has its own copy. Builders are
  used one at a time, so this makes no observable difference.
- StandardBoard.CreateStandardBoard: the 32 straight-line `set_piece` calls are made by the
  `set_piece` loop of `execute_move` (Execution.SetPiecesExcept, skipping nothing), over the same
  pieces in the same order.
- SingleBoard.CreateStandardBoard: the 32 straight-line `set_piece` calls are a loop over the same
  pieces in the same order.
- SingleBoard.EstablishKing: both players of alice5500.py raise `Exception("Should not reach here now!")`.
  The model's `Err(color)` records which player raised, which the source's message does not say.
- The single-board `int_to_alg` and `alg_to_int` (alice5500.py:808-816) compute the same function
  as the two-board engine's, so both use `Coordinates`.
- The prototype's key types are not modelled. queen.py indexes `game_rep` with string rows and
  boards while pawn.py uses integers; both become one `Square`.
- player.py passes the column as a number, and the prototype generators would then fail on it.
  `Piece.column` records either form. The prototype's player is built with numeric columns.
- PrototypePawn.ValidMoves requires a file-letter column, because the move notation is built from
  it.
- PrototypeQueen.ValidMoves requires the following, so the KeyError and ValueError paths of a
  malformed `game_rep` are not modelled:
  - a complete `game_rep`;
  - board 1 or 2;
  - a row in 1..8;
  - a column among a..h.
- PrototypePlayer.Player.InitializePlayer writes the per-colour `if/else` blocks as one row choice
  per colour. The pieces and their order are the same.
- The prototype's type tags are kept as plain strings: "P" and "Q" for pawn and queen, and
  "Rook", "Knight", "Bishop", "K" for the stub classes. The stub files' `moves` methods return
  None and are not modelled.

## Findings

| source | as written | input that shows it | evidently intended | confidence | as-written member | corrected member |
|---|---|---|---|---|---|---|
| aliceengine.py:1380-1387, alice5500.py:678-679 | `Move.__eq__` (in both files) compares `self.piece == self.piece`, so a quiet move equals every move with the same destination, and `is_legal_move` accepts it; the single-board `is_legal_move` (alice5500.py:178-179) is modelled with the corrected equality, as plain membership in SingleBoardPlayers.MakeMove | a White rook move to c3 on board 2, with only a White knight move to c3 listed | compare the other move's piece, which makes legality plain membership | not executed | MoveEquality.AsWrittenAcceptsUnlistedMove | MoveEquality.CorrectedLegalityIsMembership |
| pawn.py:18 | the White step requires the square ahead to be non-empty (`!= ""`) | a White pawn on e2 with e3 empty gets no move; with e3 occupied it gets e3 and e4 | step only onto an empty square (`== ""`) | not executed | PrototypePawn.AsWrittenPawnNeedsOccupiedSquare | PrototypePawn.CorrectedPawnStepsOntoEmptySquare |
