# Wordfish, modelled and proved in Dafny

Wordfish is a chess engine descended from Stockfish. Much of its code keeps a fast, incrementally
updated form of something that has an obvious slow definition. This project models those places
and proves that the fast form always agrees with the slow one. `dafny verify dfyconfig.toml`
checks everything.

| files | what they model |
|---|---|
| `Types`, `Geometry`, `Board`, `Options` | squares, pieces, moves; rays and betweenness; a board as 64 pieces and what each piece attacks |
| `Threats`, `Position` | the threat relation and the dirty-threat lists; the position object: board, bitboards, counts, the chain of states, making and taking back moves |
| `Checks`, `Legality`, `See` | pins and check masks; `legal` and `gives_check` against the board after the move; static exchange evaluation against plain minimax |
| `EnPassant`, `Rules`, `Castling` | the same questions for en passant, promotions and castling; the quick test that records an en passant square against the slow one |
| `Playing`, `Runs` | the list of legal moves against the rules of the game; any run of generated moves, passes and take-backs from a string stays playable |
| `Keys`, `Making`, `Repetition`, `States` | hash keys and sums over a move; the repetition field; what every recorded state satisfies |
| `Placement`, `Fen`, `Loading` | FEN strings read and written; a parsed string becomes a valid position |
| `Attacks`, `Words`, `Hyperbola`, `Magics`, `Tables` | the ray walk, and the two table-free and table-driven forms that must equal it; the sizes of the tables |
| `MoveGen`, `MovePick`, `Picking` | the move generators, the staged move picker, and both together |
| `Features`, `Indices`, `Accumulator` | network features of a board, the changed-index lists, the lazily updated accumulator stack with its refresh cache |
| `Searching` | the search thread's board side: position, accumulator stack and cache moved together |
| `HandOff`, `Numa` | handing jobs to a worker thread; distributing threads and bundling processors over nodes |
| `Numerals`, `Experience`, `Book` | numbers as text; the experience store and its text file; the opening book drawn from it |
| `Mcts` | the Monte-Carlo tree search |

How the model speaks. A bitboard is a finite set of squares and a hash key a finite set of bit
numbers, so exclusive or is the symmetric difference; 64-bit arithmetic appears where it matters
(`Words`, `Hyperbola`, `Magics`), as numbers formed from such sets, subtraction and multiplication
wrapping. Lanes of an accumulator wrap modulo 2^16 or 2^32; other integers do not wrap. Objects
whose methods update fields are classes; each method is proved against a function of the old state
or against the property itself. Errors are values (`Placement.Result`, `Options.Option`).

The statements that join the parts are these. `Playing.LegalMovesExact`: what the generator lists and
`legal` lets pass is exactly what a piece may do by the rules leaving its king safe, for moves of every
type, and the castlings `legal` does not see through (below) besides; `Playing.GenerateLegal` lists each such
move once. `Runs.Play` plays any move the rules allow: nothing do_move asserts can fail, the report describes
the change, and the position is ready for the next one, so by `Runs.LegalMoves`, `Runs.Play`, `Runs.Pass` and
`Runs.TakeBack` the whole of a game tree below any accepted string (`Loading.SetFrom`) keeps every invariant.
`Searching.Begin`, and `DoMove`, `UndoMove`, `DoNullMove`, `UndoNullMove` and `Evaluate` of `Searching.Worker`, say
that along any line searched from such a string an evaluation finds the sums a full computation would give.
`EnPassant.RecordedExactly`: the en passant square do_move records by a quick test on masks is the one a string
of the same position would record by trying every capture.

Some statements a reader might expect turned out to need a condition:

* `gives_check` does not report a pseudo-legal king step next to the enemy king, because the
  check squares of a king are empty. `Legality.GivesCheckOrKingsTouch` gives the exact condition,
  `Legality.KingsTouchUnreported` shows that it happens, and `Legality.LegalGivesCheckExact` that
  it never happens for legal moves.
* `legal` tests whether the castling rook shields its king only in Chess960 mode. In standard mode a
  string may still name a rook that is not in its corner, and castling with it can leave the king in
  check: `Castling.InnerRookMissed` is such a position, and `Loading.AcceptedMissesCastling` a string that is
  accepted and leads to it. `Castling.CastlingLegalExact` gives the exact condition: the mode is standard, the
  rook alone shields its king, and the king's way is safe. `Playing.LegalMovesExact`, `Playing.GenerateLegal` and
  `Runs.LegalMoves` are stated for all accepted strings with that one exception, and `Playing.NothingMissed`
  and `Castling.CornerIsExact` say that a rook in its corner never is one.
* A wakeup can be lost exactly when there are two callers or more (`HandOff.StallsExactly`): one
  notification reaches another caller instead of the worker, and all threads sleep with a job posted.
  `HandOff.ManyCallersCanStall` is such a run for every number from two on. Callers that take turns,
  one starting only when no other is inside a call, never stall (`HandOff.TakingTurnsNeverStalls`), and all
  their calls and jobs get done (`HandOff.TurnFinishes`).
* A table of the experience store comes back from its file exactly when it holds no null move
  (`Experience.ComesBackExactly`, `Experience.NullMoveIsLost`); `Experience.SavedAndLoaded` says what comes back of any.
* A FEN written in standard notation (letters K and Q) comes back unchanged exactly when every rook
  with a castling right is the outermost on its wing (`Fen.StandardRoundTrip`, `Fen.StandardMayDiffer`);
  in Chess960 notation it always does.

In the exchange evaluation a king may take last only if no enemy piece attacks the square; the code
asks with an occupancy that still holds that king, so a slider that would see the square through the
capturing king is not counted as a defender. The minimax of `See` has the same rule.

## Model

| member | source | states |
|---|---|---|
| `Threats.EmptySquare` | src/position.cpp:1208-1232 | emptying a square loses exactly the threats by or at its piece and gains exactly the threats that piece was shielding |
| `Threats.ThreatenedMaskMeaning` | src/position.cpp:1247-1266 | the type-filtered attack mask holds exactly the squares the piece threatens in the threat relation |
| `Threats.Assembled` | src/position.cpp:1279-1316 | the emission loops together list every entry to be reported once |
| `Threats.ReportIsChange` | src/position.cpp:1194-1316 | for placing or lifting a piece, the signed report about any threat equals its appearance or disappearance in the full relation |
| `Threats.ExchangeIsChange` | src/position.h:423-435 | exchanging the piece on a square reports exactly the change, without discovered threats |
| `Threats.SkippedCarriesOver` | src/position.cpp:1217-1227 | a discovered threat left out because its ray holds both ends of the move was shielded before and is shielded after |
| `Threats.MoveIsChange` | src/position.h:406-421 | moving along an empty path, the two shortened reports sum to exactly the change of the relation |
| `Position.Position.UpdatePieceThreats` | src/position.cpp:1194-1316 | appends each direct, incoming and discovered threat of the square once and nothing else |
| `Position.Position.PutPiece` | src/position.h:381-390 | board, bitboards and counts stay in step; the dirty list grows by the exact change of the threat relation |
| `Position.Position.RemovePiece` | src/position.h:392-404 | likewise for taking a piece away |
| `Position.Position.MovePiece` | src/position.h:406-421 | likewise for moving a piece over empty squares |
| `Position.Position.SwapPiece` | src/position.h:423-435 | likewise for exchanging the piece on a square |
| `Checks.AttackersToMeaning` | src/position.cpp:643-650 | looking outwards from a square finds exactly the pieces that attack it under any occupancy |
| `Checks.AttackersToExistMeaning` | src/position.cpp:653-659 | holds exactly when some piece of the colour attacks the square |
| `Checks.KingUnique` | src/position.h:274-277 | with one king a side, the king square is the only one holding that king |
| `Checks.BlockersComplete` | src/position.cpp:613-638 | once all snipers have been looked at, blockers and pinners are those of the definition |
| `Legality.BehindBlocker` | src/position.cpp:613-638 | behind every blocker is a sniper that it alone holds off, or one already giving check |
| `Legality.LegalKingMove` | src/position.cpp:691-694 | the king branch of `legal` holds exactly when the destination is unattacked after the move |
| `Legality.KingAfter` | src/position.cpp:662-699 | where the mover's king stands on the board after the move |
| `Legality.PinBroken` | src/position.cpp:696-698 | a pinned piece leaving the line exposes its king |
| `Legality.LegalExact` | src/position.cpp:662-699 | a pseudo-legal NORMAL move is legal exactly when the mover's king is unattacked on the board after it |
| `Legality.DiscoveredCheck` | src/position.cpp:766-785 | every piece that attacks the king only after the move is announced by the blocker test |
| `Legality.GivesCheckExact` | src/position.cpp:766-785 | `gives_check` holds exactly when a piece other than a king attacks the enemy king after the move |
| `Legality.GivesCheckOrKingsTouch` | src/position.cpp:766-785 | the enemy king is attacked after the move exactly when `gives_check` says so or the king stepped next to it |
| `Legality.LegalGivesCheckExact` | src/position.cpp:766-785 | for legal moves `gives_check` holds exactly when the enemy king is attacked after the move |
| `Legality.KingsTouchUnreported` | src/position.cpp:467-482 | a position and a pseudo-legal king move whose attack on the other king is not reported |
| `Position.Position.UpdateSliderBlockers` | src/position.cpp:613-638 | the recorded blockers and pinners are those of the definition, the other side's untouched |
| `Position.Position.SetCheckInfo` | src/position.cpp:467-482 | all masks are those computed from the board |
| `See.XRay` | src/position.cpp:1462-1508 | after a capture, attackers plus the sliders uncovered on that kind of line are the attackers under the smaller occupancy |
| `See.WindowStep` | src/position.cpp:1460-1503 | one recapture narrows the window of the other side, or decides the answer |
| `See.LastWord` | src/position.cpp:1446-1514 | with no captor, or only a king, left the answer is decided as the code decides it |
| `See.Entry` | src/position.cpp:1426-1439 | the two early exits are right, and the loop starts with the right window and attackers |
| `See.Exchange` | src/position.cpp:1441-1517 | the loop with its incremental attacker set gives the minimax answer; its queen assertion holds and the occupancy shrinks |
| `See.SeeGe` | src/position.cpp:1414-1517 | for NORMAL moves true exactly when the recursive swap-off is worth at least the threshold; for others, when the threshold is not positive |
| `Keys.KeyUpdate` | src/position.cpp:495-520 | changing one square toggles the old piece's and the new piece's contribution, for every key |
| `Keys.MaterialFill` | src/position.cpp:531-537 | a new piece adds the key of its count |
| `Keys.MaterialTake` | src/position.cpp:531-537 | a piece gone takes the key of the last count away |
| `Keys.MaterialMove` | src/position.cpp:531-537 | moving changes no count and no material key |
| `Keys.ScanSquareOk` | src/position.cpp:499-520 | one turn of the scan extends all totals to the squares seen |
| `Position.Position.ComputeMaterialKey` | src/position.cpp:531-537 | the nested loops give the material key of the board |
| `Position.Position.SetState` | src/position.cpp:487-529 | every key, sum, checker set and mask is the one the board determines |
| `Position.Position.SetUp` | src/position.cpp:260-266 | a position with one king a side and no king to capture becomes a valid run of one state |
| `Making.PartAdvances` | src/position.cpp:876-1005 | pawn, minor and non-pawn keys after the step equal those recomputed from the new board |
| `Making.KeyAdvances` | src/position.cpp:827-1010 | the key after the step equals that of the new position with its side, en passant file and castling rights |
| `Making.SumAdvances` | src/position.cpp:901-990 | non-pawn material after the step equals that of the new board |
| `Making.MaterialAdvances` | src/position.cpp:913-983 | the count-indexed material key after the step equals that of the new board |
| `Making.AdvanceCorrect` | src/position.cpp:817-1010 | every carried key and sum after any move, captures, en passant, promotions and Chess960 castling included, equals its recomputation |
| `Making.AdvanceCounters` | src/position.cpp:838-935 | the counters step or restart, rights and en passant square change as the move demands |
| `Making.AdvanceAll` | src/position.cpp:827-1010 | for whatever the asserts of the code let through, all carried fields are right for the new position and the counters, rights and en passant square are those of the move |
| `States.KingsStay` | src/position.cpp:817-1010 | no move adds or removes a king |
| `States.NullKeys` | src/position.cpp:1379-1391 | passing keeps every key and sum correct for the other side |
| `Position.Position.DoCastling` | src/position.cpp:1335-1364 | king and rook end on their squares even when the squares overlap, and the inverse call puts them back; threats tracked |
| `Position.Position.WritePiece` | src/position.cpp:851-921 | the dirty piece written branch by branch is the one that describes the move |
| `Position.Position.DoMove` | src/position.cpp:817-1081 | the board becomes the one after the move, every recorded state stays, the new state is sound, repetition included, its captured piece, rights, en passant square and clocks are those of the move, and the dirty list is the exact change; the report, begun empty, describes exactly what changed, and its squares are filled in as the closing asserts say |
| `Position.UndoReady` | src/position.cpp:1086-1143 | on the board after any move, the undo steps rebuild the board before it |
| `Position.Position.UndoMove` | src/position.cpp:1086-1143 | board, side, ply and state are those before the last move, the run one shorter and still sound |
| `Position.Position.DoNullMove` | src/position.cpp:1369-1398 | out of check, a pass adds a sound state and leaves the board alone |
| `Position.Position.UndoNullMove` | src/position.cpp:1402-1409 | a pass is taken back exactly |
| `Position.Position.MakeAndTakeBack` | src/position.cpp:817-1143 | a move made and taken back leaves board, bitboards, counts, side, ply and state as they were |
| `Position.Position.Unwind` | src/position.cpp:1086-1143 | taking back everything played since any earlier state restores that position, whatever moves and passes were played |
| `Position.SameBitboards` | src/position.h:381-435 | bitboards and counts are determined by the board |
| `Position.Position.FindRepetition` | src/position.cpp:1053-1070 | the walk finds the nearest equal key at even distance in the window, negative if that state was itself a repeat, and never leaves the chain |
| `Repetition.WindowShift` | src/position.cpp:838-840 | inside the window all counters run back without a break |
| `Repetition.RepeatedOnce` | src/position.cpp:1053-1070 | the field is non-zero exactly when the position occurred before within the window |
| `Repetition.RepeatedTwice` | src/position.cpp:1053-1070 | the field is negative exactly when there is an earlier occurrence beyond the nearest |
| `Repetition.HistoryExtend` | src/position.cpp:1053-1070 | adding a state that satisfies its own condition keeps the whole history right |
| `Repetition.SeenBack` | src/position.cpp:1535-1547 | a state back in the window has a non-zero field exactly when its position repeats inside the window |
| `Position.Position.HasRepeated` | src/position.cpp:1535-1547 | true exactly when two positions inside the window are equal; the walk never leaves the chain |
| `Placement.PlacementBack` | src/position.cpp:219-271 | any board of at most 32 pieces is read back from its text, whatever follows |
| `Placement.RowBack` | src/position.cpp:563-585 | a written rank, gaps and pieces, is read back from any cursor position |
| `Placement.ReadFewMen` | src/position.cpp:260-261 | a field that is accepted has at most 32 pieces |
| `Placement.PlacePieces` | src/position.cpp:219-271 | the loop reads the field character by character with the errors of the code |
| `Placement.PrintPlacement` | src/position.cpp:568-585 | the nested loops write the ranks, runs of empty squares counted |
| `Fen.KingsThere` | src/position.cpp:273-290 | a board that passes the checks has one king a side |
| `Fen.FoundIsRook` | src/position.cpp:336-357 | the search from the corner names a rook of the side with its king at home |
| `Fen.CastlingWellPlaced` | src/position.cpp:310-381 | every right accepted belongs to a rook on its first rank, the king at home on the proper side |
| `Fen.OuterFound` | src/position.cpp:336-357 | where a rook may castle, the letter K or Q finds a rook that may castle too |
| `Fen.LetterNames` | src/position.cpp:589-599 | a written letter names the rook itself in Chess960 notation, the outermost otherwise |
| `Fen.CastlingBack` | src/position.cpp:310-381 | written rights are read back |
| `Fen.EpBack` | src/position.cpp:383-418 | a recorded en passant square is read back and recorded again |
| `Fen.CountersBack` | src/position.cpp:420-433 | half-move clock and ply are read back from clock and full-move number |
| `Fen.AcceptedIsProper` | src/position.cpp:169-444 | everything accepted has a legal piece count, well-placed rights, a capturable en passant square, counters in range and no king to capture |
| `Fen.AcceptedExactly` | src/position.cpp:169-444 | the positions accepted in Chess960 mode are exactly the proper ones |
| `Fen.ProperBack` | src/position.cpp:563-608 | what is read back from a proper position: itself, its castling letters as they are read |
| `Fen.RoundTrip` | src/position.cpp:563-608 | in Chess960 mode, setting the FEN of an accepted position gives it back whole |
| `Fen.StandardRoundTrip` | src/position.cpp:589-602 | with the letters K and Q it comes back exactly when every castling rook is the outermost |
| `Fen.StandardMayDiffer` | src/position.cpp:589-602 | an accepted string whose position does not come back from standard notation |
| `Fen.SearchRook` | src/position.cpp:336-357 | the loop for K and Q |
| `Fen.SearchKing` | src/position.cpp:364-370 | the loop for a file letter finds the king between the b-file and the g-file |
| `Fen.ReadRights` | src/position.cpp:310-381 | the castling loop, its limits and errors |
| `Fen.RecordEnPassant` | src/position.cpp:395-418 | recorded exactly when some pawn can capture without exposing its king and the square was really passed |
| `Fen.SetPosition` | src/position.cpp:169-444 | the whole parser, stage by stage with its errors |
| `Fen.WriteFen` | src/position.cpp:563-608 | the six fields |
| `EnPassant.RefusedIsUnsafe` | src/position.cpp:954-964 | a capture the quick test objects to would leave the king attacked |
| `EnPassant.PassedIsSafe` | src/position.cpp:954-964 | a capture it lets pass leaves the king safe |
| `EnPassant.TakenSafe` | src/position.cpp:411-415 | the king is safe on the board after the capture exactly when nothing but the pawn taken reaches it |
| `EnPassant.CountsMeans` | src/position.cpp:396-418 | a string records a square exactly when an enemy pawn has just passed it and some capture is safe |
| `EnPassant.RecordedExactly` | src/position.cpp:941-964 | the square do_move records, or leaves, after a double step is the one a string of the new position would record |
| `EnPassant.CaptureLegalExact` | src/position.cpp:662-699 | wherever a square is recorded, the pin test lets an en passant capture pass exactly when the king is unattacked with both pawns gone |
| `Rules.PromotionLegalExact` | src/position.cpp:662-699 | `legal` is exact for promotions |
| `Rules.LeavesItsLine` | src/position.cpp:777-781 | a promoting pawn never stays on the line on which it shields the enemy king |
| `Rules.PromotionCheckExact` | src/position.cpp:766-788 | `gives_check` is exact for promotions, with the piece the pawn becomes |
| `Rules.PinnedTake` | src/position.cpp:777-781 | for a shielding pawn that takes en passant, the line test alone is right although a second pawn vanishes |
| `Rules.CaptureCheckExact` | src/position.cpp:766-804 | `gives_check` is exact for en passant, lines over either pawn included |
| `Castling.CastlingWellFormed` | src/position.cpp:449-463 | with nothing on the castling path, both destinations are free as do_move needs them |
| `Castling.ShieldDecides` | src/position.cpp:673-690 | on a safe way the castled king is attacked exactly when the rook was its only shield |
| `Castling.CastlingLegalExact` | src/position.cpp:673-690 | `legal` agrees with the rules of castling if and only if the mode is Chess960, or the rook is no shield, or the way is not safe |
| `Castling.CornerIsExact` | src/position.cpp:673-690 | with the rook in its corner it agrees in both modes |
| `Castling.InnerRookMissed` | src/position.cpp:673-690 | a position in standard mode in which castling passes `legal` and leaves the king attacked |
| `Castling.IsCastlingLegal` | src/position.cpp:673-690 | the walk back from the destination tests exactly the squares passed |
| `Castling.CastlingCheckExact` | src/position.cpp:766-812 | `gives_check` is exact for castling on a safe way, king and rook anywhere on their rank |
| `Playing.LegalIsByRules` | src/position.cpp:662-699 | of the generated moves of every type `legal` lets pass exactly those that leave the king safe, in castling on its way too, and, in standard mode, castlings over a safe way with a rook that alone shields the king |
| `Playing.NothingMissed` | src/position.cpp:673-690 | in Chess960 mode or with a rook in its corner no castling of that kind is generated |
| `Playing.GeneratedWellFormed` | src/position.cpp:817-875 | every generated move meets the assertions of do_move |
| `Playing.CheckersAnswered` | src/movegen.cpp:207-221 | a move that leaves the king safe answers every check: there is one checker, and it is taken or cut off |
| `Playing.TakeAnswers` | src/movegen.cpp:167-181 | a safe en passant capture answers the only checks there can be, and the generator's exclusion loses none |
| `Playing.AllowedIsGenerated` | src/movegen.cpp:196-260 | nothing the rules allow is missing from the generated list |
| `Playing.LegalMovesExact` | src/movegen.cpp:269-290 | generated and passing `legal` is exactly moving as the piece may and leaving the king safe, or being one of the castlings missed, never both |
| `Playing.TakersFound` | src/movegen.cpp:167-181 | with an en passant square recorded the generator's bitboard of takers is not empty, as it asserts, and holds all pawns that may take |
| `Playing.SomeTakeIsLegal` | src/movegen.cpp:167-181 | and one of the captures is generated, in check too, and passes `legal` |
| `Playing.SparedIsLegal` | src/movegen.cpp:281-288 | the moves the filter does not look at are legal, of every type |
| `Playing.GenerateLegal` | src/movegen.cpp:269-290 | the final list holds each move the rules allow once, the castlings missed, and no other |
| `Playing.ChecksRight` | src/position.cpp:766-812 | for generated legal moves of every type `gives_check` holds exactly when the other side is in check after the move |
| `Runs.RightStays` | src/position.cpp:933-936 | a castling right the mask does not take away still has king and rook at home after the move |
| `Runs.EpFollows` | src/position.cpp:939-964 | the en passant square of the new state is one a string would record |
| `Runs.StateFollows` | src/position.cpp:817-1010 | rights and en passant square of the new state are in order after any generated legal move |
| `Runs.Play` | src/position.cpp:817-1081 | any generated legal move the rules allow can be played: flag, path and shape are as do_move needs them, the report describes what changed, and the position is ready again |
| `Runs.Pass` | src/position.cpp:1369-1398 | a pass leaves the position ready |
| `Runs.TakeBack` | src/position.cpp:1086-1143 | taking back everything since an earlier state gives that position, ready as it was |
| `Runs.LegalMoves` | src/movegen.cpp:269-290 | of any ready position the moves that may be played, each once, and besides only castlings missed, of which there are none where the rooks are outer ones |
| `Runs.RightOfString` | src/position.cpp:449-463 | mask, rook square and path of a right read from a string are in order |
| `Loading.AcceptedIsPlayable` | src/position.cpp:435-441 | every accepted string meets what making moves relies on |
| `Loading.SetFrom` | src/position.cpp:168-463 | every accepted string becomes a valid position with its rights, mask, rook squares and paths, ready to be played on; in Chess960 mode, and with all rooks that may castle in their corners, no castling can be missed |
| `Loading.AcceptedMissesCastling` | src/position.cpp:330-381 | a string accepted in standard mode in whose position `legal` passes a castling that leaves the king in check |
| `Attacks.NoWrap` | src/attacks.h:190-195 | a step that changes the file by at most two did not wrap round the edge |
| `Attacks.SlidingAttack` | src/attacks.h:197-217 | the four walks give exactly what a rook or bishop sees |
| `Attacks.LeaperAttack` | src/attacks.h:219-231 | the step lists give exactly the knight's and king's attacks |
| `Attacks.LineFormula` | src/attacks.cpp:180 | the intersection of two empty-board attacks is the line through the squares |
| `Attacks.BetweenFormula` | src/attacks.cpp:181-182 | the intersection of two blocked attacks is what lies between |
| `Attacks.RayFormula` | src/attacks.cpp:183-184 | the third formula is the ray out of one square through the other |
| `Attacks.InitTables` | src/attacks.cpp:173-188 | the three tables hold lines, gaps and rays for every pair of squares |
| `Words.MinusBit` | src/attacks.h:75-84 | subtracting a single bit flips from it up to the first set bit |
| `Words.MinusBitReversed` | src/attacks.h:75-84 | the mirrored subtraction flips downwards |
| `Hyperbola.SeesByNumber` | src/attacks.h:75-84 | on a line, being visible is a matter of square numbers alone |
| `Hyperbola.HyperbolaSees` | src/attacks.h:75-84 | o^(o-2r) and its mirror image give what a slider sees along the line |
| `Hyperbola.LineMask` | src/attacks.cpp:39-51 | the mask is the line without its square |
| `Hyperbola.AttacksBB` | src/attacks.h:75-84 | for every square and occupancy, the hyperbola form equals the ray walk's result |
| `Magics.RippleStep` | src/attacks.cpp:130 | (b - mask) & mask sets the lowest missing bit of the mask and clears those below |
| `Magics.RippleCounts` | src/attacks.cpp:123-131 | it adds one to the subset's number |
| `Magics.PackedInjective` | src/attacks.cpp:123-131 | different subsets have different numbers |
| `Magics.Enumerate` | src/attacks.cpp:123-131 | the loop lists every subset of the mask exactly once |
| `Magics.MaskDecides` | src/attacks.cpp:114-118 | squares outside the mask never matter |
| `Magics.TryMagic` | src/attacks.cpp:140-151 | if an attempt reaches the end, every listed occupancy looks up its own attacks, stale entries notwithstanding |
| `Magics.FilledIsRight` | src/attacks.h:152-163 | then so does every occupancy whatever |
| `Magics.RegionsDisjoint` | src/attacks.cpp:119-121 | the table parts of two squares never overlap |
| `Magics.InitSquare` | src/attacks.cpp:112-153 | one square's search writes only its own part, and when it ends its lookups are right |
| `Magics.InitMagics` | src/attacks.cpp:102-154 | when the search ends on all squares, all 64 lookups are right for all occupancies, and each magic number has passed the bit-count test |
| `Tables.SizeIs` | src/attacks.cpp:116-133 | the number of relevant occupancies of every square, for rook and bishop |
| `Tables.TablesFit` | src/attacks.cpp:156-159 | the parts of the squares fill tables of 0x19000 and 0x1480 entries exactly, and one square's subsets fit 4096 |
| `Tables.InitAll` | src/attacks.cpp:101-159 | with tables of these sizes, if the searches end every lookup of both tables is right |
| `Magics.AttacksBB` | src/attacks.h:152-163 | the lookup gives the slider's attacks |
| `MoveGen.MakePromotions` | src/movegen.cpp:86-103 | lists each promotion of the generator's kind once |
| `MoveGen.GeneratePawnMoves` | src/movegen.cpp:106-185 | lists each pawn move of the generator's kind once and no other |
| `MoveGen.GenerateMoves` | src/movegen.cpp:188-204 | lists each move of one piece type to the target once |
| `MoveGen.GenerateAll` | src/movegen.cpp:207-240 | lists every move of the generator's definition exactly once, castling over an empty path included |
| `MoveGen.EvasionSquares` | src/movegen.cpp:216-219 | between king and single checker all squares are empty but the checker's |
| `MoveGen.ListedIsPseudoLegal` | src/position.cpp:705-762 | for a NORMAL move without promotion bits, being generated is being `pseudo_legal` |
| `MoveGen.IsPseudoLegal` | src/position.cpp:705-762 | for any move, the test agrees with the generated list |
| `MoveGen.StagesSplit` | src/position.h:362-377 | captures are the generated moves of the capture stage, quiets the others |
| `MoveGen.ListsAddUp` | src/movegen.cpp:245-261 | captures and quiets together are a permutation of the whole list |
| `MoveGen.FilterLegal` | src/movegen.cpp:281-288 | the swap-with-last loop keeps exactly the moves to be kept, each as often as before |
| `MoveGen.UnlookedIsLegal` | src/movegen.cpp:281-286 | a move the filter does not look at is legal |
| `MoveGen.KeptIsSafe` | src/movegen.cpp:271-289 | a plain move is kept exactly when it leaves the king safe |
| `MovePick.PartialInsertionSort` | src/movepick.cpp:111-143 | a permutation with all values at or above the limit first, in descending order |
| `MovePick.MovePicker.constructor` | src/movepick.cpp:153-177 | the picker starts with the table move if it is pseudo-legal, with nothing given |
| `MovePick.MovePicker.ProbCut` | src/movepick.cpp:181-189 | likewise for ProbCut, the table move being a capture |
| `MovePick.MovePicker.SelectGoodCapture` | src/movepick.cpp:266-312 | a losing capture is put in front of the array and no capture is lost or doubled |
| `MovePick.MovePicker.SkipQuietMoves` | src/movepick.cpp:381 | allowed at any time, all accounts kept |
| `MovePick.MovePicker.NextMove` | src/movepick.cpp:278-379 | every call keeps the account of given and remaining moves; none means that in a main search all captures, and all quiets unless skipped, and in the others all moves of the list that pass the rule were given |
| `MovePick.MovePicker.RunMain` | src/movepick.cpp:278-379 | over a full run, quiets dropped at any turns: the table move first, every other capture exactly once, every quiet exactly once unless dropped |
| `MovePick.MovePicker.RunOther` | src/movepick.cpp:278-379 | over a full evasion, ProbCut or quiescence run: the table move first, every other move of the list exactly once, in ProbCut those whose exchange reaches the threshold |
| `Picking.PickAll` | src/movepick.cpp:145-379 | a whole node, in or out of check: whatever the table move, scores and exchange tests, the moves given are those generated, each once |
| `Features.BalanceDecides` | src/nnue/nnue_accumulator.cpp:326-484 | lists with the same net count of each feature add the same amount, in whatever order |
| `Features.MoveDescribed` | src/position.cpp:856-977 | the dirty piece of `do_move` describes the move on the board |
| `Features.ReportDescribes` | src/position.cpp:817-1081 | the whole report left by `do_move` describes exactly what changed; something leaves in captures and castling only, something arrives in promotions and castling only |
| `Features.SideChangesBalance` | src/nnue/features/pp_3wide.cpp:95-169 | threat and pawn-pair changes are the signed difference of the two boards' features |
| `Features.SumsAdvance` | src/nnue/nnue_accumulator.cpp:486-532 | the sum over the new board is the sum over the old one plus the changes |
| `Features.HalfDecides` | src/nnue/nnue_accumulator.cpp:676-724 | threat and pawn-pair sums depend on the king's half only |
| `Indices.AppendPsqChanges` | src/nnue/features/half_ka_v2_hm.cpp:94-105 | the index lists weigh what the dirty piece changes |
| `Indices.AppendThreatChanges` | src/nnue/features/full_threats.cpp:269-293 | the index lists grow by the weight of the dirty threats, indices that are no features dropped |
| `Indices.AppendPairChanges` | src/nnue/features/pp_3wide.cpp:95-169 | each new and each lost pawn pair is listed once |
| `Indices.AppendActive` | src/nnue/features/full_threats.cpp:209-265 | every threat and pawn pair of the position is listed once |
| `Indices.AppendActivePairs` | src/nnue/features/pp_3wide.cpp:69-93 | every pawn pair of the position is listed once |
| `Indices.GetChangedPieces` | src/nnue/nnue_accumulator.cpp:571-672 | the squares where two boards differ |
| `Indices.PsqDifference` | src/nnue/nnue_accumulator.cpp:938-955 | removing what differs in one board and adding what differs in the other leads from one sum to the other |
| `Accumulator.AccumulatorCaches.constructor` | src/nnue/nnue_accumulator.h:72-84 | every entry is the biases beside an empty board, the sum of that board |
| `Accumulator.ApplyCombined` | src/nnue/nnue_accumulator.cpp:326-484 | every lane is the old one plus added minus removed weights, reduced to its width |
| `Accumulator.UpdateIncremental` | src/nnue/nnue_accumulator.cpp:486-532 | forwards or backwards, a right sum of one board becomes the right sum of its neighbour |
| `Accumulator.RefreshCache` | src/nnue/nnue_accumulator.cpp:928-1112 | the entry again holds the sum of the board beside it, and the accumulator is right from scratch |
| `Accumulator.SideAdvance` | src/nnue/nnue_accumulator.cpp:676-724 | the threat and pawn-pair part survives a king move within its half |
| `Accumulator.HybridRight` | src/nnue/nnue_accumulator.cpp:848-924 | the lanes the hybrid form combines are those of a full refresh |
| `Accumulator.UpdateHybrid` | src/nnue/nnue_accumulator.cpp:676-924 | the new square's entry is right and the accumulator equals a full refresh |
| `Accumulator.AccumulatorStack.Reset` | src/nnue/nnue_accumulator.cpp:71-77 | one slot for the root, nothing computed |
| `Accumulator.AccumulatorStack.Push` | src/nnue/nnue_accumulator.cpp:79-87 | a slot is added, nothing in it computed, its threat list empty; the slots below unchanged |
| `Accumulator.AccumulatorStack.Report` | src/position.cpp:842-1075 | with a true report written into it the new slot is linked to the one below, and the stack is in order again |
| `Accumulator.AccumulatorStack.Pop` | src/nnue/nnue_accumulator.cpp:89-92 | the stack of before |
| `Accumulator.AccumulatorStack.FindLastUsable` | src/nnue/nnue_accumulator.cpp:144-158 | the last computed slot or refresh boundary of the side |
| `Accumulator.AccumulatorStack.ForwardUpdate` | src/nnue/nnue_accumulator.cpp:160-175 | replay up to the end, only that side's slots touched |
| `Accumulator.AccumulatorStack.BackwardUpdate` | src/nnue/nnue_accumulator.cpp:177-193 | replay down to the boundary, only that side's slots touched |
| `Accumulator.AccumulatorStack.ForwardUpdateBoth` | src/nnue/nnue_accumulator.cpp:195-223 | both sides computed at the top |
| `Accumulator.AccumulatorStack.EvaluateSide` | src/nnue/nnue_accumulator.cpp:110-140 | by replay, hybrid or refresh, the side's top slot is computed and the other side untouched |
| `Accumulator.AccumulatorStack.Evaluate` | src/nnue/nnue_accumulator.cpp:94-108 | the top slot holds both sides' sums from scratch; every computed slot still does, and so does the cache |
| `Searching.FineStays` | src/nnue/nnue_accumulator.cpp:94-108 | no generated move leaves a pawn on the first or last rank or changes the number of kings, so the feature sets apply to every board of a line |
| `Searching.TopSlot` | src/search.cpp:741-753 | whatever moves and passes were made, the top slot belongs to the board of the position |
| `Searching.Begin` | src/search.cpp:207-212 | a search on any accepted string starts with position, stack and cache in step |
| `Searching.Worker.DoMove` | src/search.cpp:718-739 | slot pushed, move made, report written: the three are in step, on the board after the move |
| `Searching.Worker.UndoMove` | src/search.cpp:748-751 | position and stack are those before the move |
| `Searching.Worker.DoNullMove` | src/search.cpp:741-746 | a pass leaves board and stack alone and the three in step |
| `Searching.Worker.UndoNullMove` | src/search.cpp:753 | the position before the pass, with the same stack |
| `Searching.Worker.Restart` | src/search.cpp:207-212 | from any point of a line a new search may start |
| `Searching.Worker.Evaluate` | src/search.cpp:1953-1955 | after any moves, passes and take-backs both sides' sums are those computed from scratch for the board |
| `HandOff.ExactlyOnce` | src/thread.cpp:106-141 | at every moment of every run, executed, running and pending jobs are together the posted ones, in order |
| `HandOff.NeverOverlap` | src/thread.cpp:106-141 | a running job goes on or ends counted as executed, so a job starts only when none runs; no pending job is overwritten |
| `HandOff.WaitMeansDone` | src/thread.cpp:99-104 | waiting returns only when all posted jobs have run |
| `HandOff.OneInitial` | src/thread.cpp:55-73 | a freshly launched thread with one caller satisfies it |
| `HandOff.OneStep` | src/thread.cpp:78-141 | with one caller, a sleeper is always about to be woken, at every step |
| `HandOff.RankDrops` | src/thread.cpp:78-141 | every step of the protocol brings the call nearer its end |
| `HandOff.NeverStuck` | src/thread.cpp:78-141 | while something is left to do, some thread can do it |
| `HandOff.RankZero` | src/thread.cpp:78-141 | with nothing left to do, every call has returned and every job has run |
| `HandOff.Finishes` | src/thread.cpp:78-141 | from every state with one caller the protocol finishes all calls and jobs |
| `HandOff.ManyCallersCanStall` | src/thread.cpp:78-141 | for every number of callers from two on, a run that ends with a posted job and everybody asleep |
| `HandOff.PadStep` | src/thread.cpp:78-141 | callers that never call change nothing about a step of the others |
| `HandOff.BusyStep` | src/thread.cpp:78-141 | while one caller at a time is inside a call, no wakeup is lost, at every step |
| `HandOff.TakingTurnsNeverStalls` | src/thread.cpp:78-141 | any number of callers, one at a time: at every moment some thread can go on or all work is done |
| `HandOff.TurnRankDrops` | src/thread.cpp:78-141 | with any number of callers taking turns, every step but the start of a call brings what is under way nearer its end |
| `HandOff.TurnNeverStuck` | src/thread.cpp:78-141 | while a caller is inside a call or a job is left, some thread can go on |
| `HandOff.TurnFinishes` | src/thread.cpp:78-141 | however many callers take turns, every call returns and every job runs |
| `HandOff.StallsExactly` | src/thread.cpp:78-141 | a run with n callers can stall if and only if n is at least two |
| `Numa.NumaConfig.constructor` | src/numa.h:975-981 | the empty configuration is valid |
| `Numa.NumaConfig.AddCpuToNode` | src/numa.h:994-1008 | succeeds exactly for an unassigned processor; nodes and map stay each other's inverse |
| `Numa.NumaConfig.AddCpuRangeToNode` | src/numa.h:1013-1031 | all of a free range or nothing |
| `Numa.KeepsBalance` | src/numa.h:806-826 | giving a thread to the node left least full keeps every pair of nodes balanced |
| `Numa.NotOverfull` | src/numa.h:796-833 | balanced nodes are not oversubscribed while threads do not exceed processors |
| `Numa.NumaConfig.DistributeThreads` | src/numa.h:796-833 | occ[n]/size[n] <= (occ[m]+1)/size[m] for all nodes, empty ones included, and no oversubscription |
| `Numa.Bundle` | src/numa.h:1254-1277 | groups are runs of neighbours, none merged above the bundle size, no two neighbours that still fit, processors disjoint |
| `Numa.GroupsConserve` | src/numa.h:1254-1277 | the groups hold exactly the processors of the domains |
| `Numa.FromL3Info` | src/numa.h:1246-1284 | the nodes are the groups of each system node, in ascending order of these, and nothing else; every processor lands in one |
| `Numerals.ScanDecimal` | src/experience.cpp:280-282 | digits printed are scanned back |
| `Numerals.ReadUnsignedBack` | src/experience.cpp:298-303 | a printed unsigned number is read back, with or without a space before it |
| `Numerals.ReadIntBack` | src/experience.cpp:298-303 | a printed signed number is read back |
| `Experience.TouchedKeys` | src/experience.cpp:123-135 | using a key keeps the list free of duplicates and puts the key last |
| `Experience.TotalTouched` | src/experience.cpp:159-195 | how replacing one position's entries changes the total number of entries |
| `Experience.Replaced` | src/experience.cpp:159-195 | list, index and table stay linked, the total changes by the entries, the key is last |
| `Experience.DropFirst` | src/experience.cpp:224-242 | dropping the oldest key keeps everything linked and the total right |
| `Experience.LastKept` | src/experience.cpp:224-242 | the key used last survives the limit |
| `Experience.Store.constructor` | src/experience.cpp:66-75 | the empty store is valid |
| `Experience.Store.TouchLru` | src/experience.cpp:123-135 | the key moves to the end of the list |
| `Experience.Store.MergeEntryForLoad` | src/experience.cpp:159-197 | the deeper, or of equals the later, entry survives with visits added up to the maximum |
| `Experience.Store.EnforceLimit` | src/experience.cpp:219-243 | exactly the oldest surplus positions go, the others keep their entries and order; the counts stay right |
| `Experience.Store.SaveTable` | src/experience.cpp:259-285 | the header, then every entry with a move in the order of use |
| `Experience.LineBack` | src/experience.cpp:280-316 | a line that was written is read back |
| `Experience.ReadPosition` | src/experience.cpp:287-324 | reading one position's lines rebuilds its entries in order |
| `Experience.ReadWritten` | src/experience.cpp:287-324 | reading a written table adds its positions in the order of use |
| `Experience.RoundTrip` | src/experience.cpp:259-324 | for tables without null moves, saving then loading restores entries, order of use and statistics |
| `Experience.SavedAndLoaded` | src/experience.cpp:259-324 | for any table whose numbers fit: null moves are dropped, positions left empty vanish, everything else comes back in the order of use |
| `Experience.ComesBackExactly` | src/experience.cpp:259-324 | table and order of use come back if and only if no entry is a null move |
| `Experience.NullMoveIsLost` | src/experience.cpp:274-278 | a table that does not come back |
| `Experience.ReadCounts` | src/experience.cpp:287-324 | loading counts every new move, whatever the file holds |
| `Experience.Store.LoadTextFormat` | src/experience.cpp:287-324 | the loop merges each readable line and skips the others |
| `Experience.Store.LoadTable` | src/experience.cpp:424-516 | whatever the lines hold, the store is valid and holds exactly the newest positions of what was read, entries, order and counts |
| `Experience.Store.Flush` | src/experience.cpp:518-534 | a dirty store is written, a clean or read-only one is not |
| `Experience.Store.PutEntries` | src/experience.cpp:732-767 | the position's entries are replaced and counted, its key last |
| `Experience.Store.OnSearchComplete` | src/experience.cpp:697-783 | a finished search is recorded under its key, which is last and survives the limit; of the other positions exactly the oldest surplus goes, the rest is untouched; the file is what the store holds; otherwise nothing changes |
| `Experience.Store.UsePosition` | src/experience.cpp:618-625 | the lookup: a position found becomes the one used last |
| `Book.RankedSorts` | src/experience.cpp:657-659 | the candidates sorted are the candidates, by falling quality |
| `Book.RankedStable` | src/experience.cpp:657-659 | candidates of the same quality keep their order |
| `Book.BestRanked` | src/experience.cpp:627-662 | the entry ranked first is a usable one that none is better than, the first of these; there is none only if no entry is usable |
| `Book.BookedOrder` | src/experience.cpp:664-672 | the best entry's move, if it is a root move, goes to the front, all other root moves keep their order; otherwise nothing changes |
| `Book.BookedScores` | src/experience.cpp:674-694 | the best entry is applied to the move in front, the next ones as far as the width goes each to the root move they name, no root move gets two, and the others keep their scores |
| `Book.OnNewPosition` | src/experience.cpp:608-695 | when the book is on and the game young, a position found becomes the one used last and the root moves are those of the definition; otherwise nothing changes |
| `Mcts.ParentOwes` | src/mcts.cpp:378-384 | once a node is paid, its parent owes a visit and the opposite value |
| `Mcts.BackupSettles` | src/mcts.cpp:378-384 | backing up from the one node that owes settles every account of the tree |
| `Mcts.BackupCounts` | src/mcts.cpp:378-384 | a backup visits the nodes of the path once and no others |
| `Mcts.GrowShape` | src/mcts.cpp:290-313 | expanding keeps children's and unexpanded moves a partition of the legal moves at every node |
| `Mcts.GrowSettled` | src/mcts.cpp:290-313 | expanding leaves every account settled |
| `Mcts.NotChildOf` | src/mcts.cpp:301-311 | a node is the child of one node only |
| `Mcts.SomewhereToGo` | src/mcts.cpp:287-316 | a node that is not terminal has a move to expand or a child to go to |
| `Mcts.TerminalOwes` | src/mcts.cpp:353-354 | a terminal leaf owes its value for one more visit |
| `Mcts.NewLeafOwes` | src/mcts.cpp:355-369 | a leaf evaluated for the first time owes that value |
| `Mcts.Search.constructor` | src/mcts.cpp:244-250 | the root alone, every move still to expand, in shape and settled |
| `Mcts.Search.FollowLine` | src/mcts.cpp:424-437 | the line of best replies is legal and within the depth |
| `Mcts.Search.GenerateMoves` | src/mcts.cpp:33-47 | the shuffle is a permutation of the legal moves |
| `Mcts.Search.Rollout` | src/mcts.cpp:139-201 | the position is restored on every exit; a value is that of the end of a legal line |
| `Mcts.Search.Select` | src/mcts.cpp:318-336 | the first child of best score |
| `Mcts.Search.Expand` | src/mcts.cpp:290-313 | one more node for the last unexpanded move |
| `Mcts.Search.Descend` | src/mcts.cpp:273-347 | a path of children from the root along a legal line, ending in a terminal or a new node |
| `Mcts.Search.BackUp` | src/mcts.cpp:378-384 | the loop with its sign changes is the backup |
| `Mcts.Search.TakeBack` | src/mcts.cpp:386-387 | undoing a legal line in reverse restores the position |
| `Mcts.Search.Iterate` | src/mcts.cpp:273-389 | tree in shape, accounts settled, position restored, first evaluations of old nodes unchanged; the root gains a visit exactly when completed |
| `Mcts.Search.Analyze` | src/mcts.cpp:244-390 | root visits equal the iterations and the sum of the children's visits; the limit is kept; the position is restored |
| `Mcts.Search.BestChildForPlayer` | src/mcts.cpp:203-224 | the first visited child of lowest mean, none when no child was visited |
| `Mcts.Search.Report` | src/mcts.cpp:392-443 | the evaluation is the root's mean as a value of the engine; one statistic for each root child; the best move is that of the first root child of lowest mean, and the principal variation is a legal line from it within the depth |
| `Mcts.ValueBack` | src/mcts.cpp:56-64 | a value of the engine taken into the tree and back is the same |
| `Mcts.ValueOrdered` | src/mcts.cpp:60-64 | the conversion keeps order and sign and stays within the mate values |
| `Mcts.ValueNear` | src/mcts.cpp:60-64 | within them it is off by half a unit at most |

## Left out

- Vector and platform paths (AVX2, AVX-512, NEON, LSX, RVV, dual hyperbola): the scalar branch each one refines is modelled. In `partial_insertion_sort` that is the plain loop.
- Prefetching, the transposition table, the search and evaluation themselves, time management, UCI, options, tablebases, shared memory and operating-system calls.
- `upcoming_repetition` and the cuckoo tables, `flip`, and the endgame-code overload of `set`.
- MoveGen.GenerateAll: rook squares and paths are functions the position record carries; `Runs.HomeOf` and `Runs.MaskOf` fill them and the rights mask from a string, and the position object keeps the mask as a constant.
- Move lists are sequences without the fixed capacity of 256; dirty-threat lists have no capacity of 96; index lists none.
- Position.Position.DoMove: takes a legal move, the right `givesCheck` flag and an open path, as its assertions and callers have it; `Runs.Play` shows that every generated legal move comes with them.
- Position.Position.DoNullMove: the copy of the whole state record is the copy of its modelled fields.
- Feature index arithmetic of the network: an index is a number for each feature, and weights are tables; piece-square weights depend on the king's square, the others on its half. `Indices.AppendThreatChanges` keeps the test against the number of features.
- Searching.Worker: move ordering, histories, node counts and the transposition table beside the board are not part of it, and the stack's capacity is a requirement of each move, as its assertion has it.
- Accumulator.AccumulatorStack.EvaluateSide: the same network is used throughout; switching networks between evaluations is not modelled.
- Magics.InitMagics: the candidates of the random generator are a finite list a square, so the claim is partial: it holds whenever the search ends.
- MovePick.MovePicker.NextMove: history scores are arbitrary numbers and exchange tests arbitrary answers, so the order among moves above the limit is claimed of the sorting routine only.
- HandOff.ExactlyOnce: jobs are numbers, a job's work is one step, and spurious wakeups are steps that may happen at any time.
- Numa.NumaConfig.DistributeThreads: fills are compared exactly, not in floating point; the infinite fill of a node without processors is a value of its own that the scan skips.
- Numa.FromL3Info: domains come with processors and without overlap, as the callers build them.
- Removing empty nodes, which does not renumber the map.
- The experience store's binary formats, gzip, directories, and a lock around each operation: operations are atomic.
- Experience.Store.OnSearchComplete: the key is a parameter, its mixing with side, ply and clock is not modelled; scores are integers without the width of the C++ types except where a file is written.
- Experience.Store.LoadTable: the text format only, not the compressed and binary ones.
- Book.OnNewPosition: the library's stable sort is a function, proved to be one; of a root move only the fields the book touches are kept, its key is a parameter.
- Loading.SetFrom: when a string names the same right twice, the code's mask keeps the first rook's square beside the last one's; the model's holds the last only.
- Fen.SetPosition: characters are those of the C locale; error texts are constructors.
- Mcts.Search.Iterate: nodes live in one growing list and are named by their place in it instead of objects owned by their parents; the game is given by functions for its moves, for making and unmaking one (shown to be inverse for real positions by `Position.Position.MakeAndTakeBack`) and for its values; scores are real numbers, the exploration term an arbitrary function of the two visit counts.
- Mcts.Search.Descend: the two exits for a childless or unselectable node cannot happen, by `Mcts.SomewhereToGo` and because real scores are comparable, and are not written out. The size of the state array is not modelled, so the tree's depth is not bounded.
- Mcts.Search.Analyze: the clock and the stop request are one bound on the iterations plus an arbitrary answer each time.
- Mcts.ToValue: reals stand for doubles, so the conversion is exact up to its own rounding.
