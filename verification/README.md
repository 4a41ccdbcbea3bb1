# Verification of the chess core and the tournament output

This project models the parts of the program that decide what happens in a game and what reaches the output
files, and proves that they do what they are for. It is written in Dafny 4.11; `dafny verify dfyconfig.toml`
checks all of it.

Three kinds of objects meet here:

* the meaning: `Rules` is the FIDE Laws on a one-board picture of the position (a man or nothing on each of 64
  squares), with castling encoded as king takes own rook (Chess960), and nothing about bitboards;
* the program: mutable bitboards with derived sets and an incremental key (`PositionClass`, `Finish`), the
  generator (`MoveGen`), the game loop (`Games`), the ordered writer and the job queue (`SeqWriter`, `Jobs`),
  the text and binary encodings (`Fen`, `FenReader`, `Lan`, `San`, `Pack`, `Uci`, `Text`) and the tables under
  them (`Words`, `Subsets`, `BoardTables`, `Magic`, `MoveCode`);
* the theorems that join the two.

How the files build on each other:

| files | content |
|---|---|
| `Geometry`, `Rules`, `Legality` | squares and lines in polar form (direction and distance), the Laws, and why checks and pins decide legality |
| `Bitboards`, `Words`, `Subsets`, `BoardTables`, `Magic`, `MoveCode` | bitboards as sets of squares; 64-bit words and bit tricks that compute those sets; the tables |
| `Zobrist`, `Positions`, `Finish`, `PositionClass` | keys for arbitrary random tables, the position record, its derived sets, and playing a move |
| `MoveGen`, `MoveGenExact` | what each generator loop appends, and that this is exactly the legal moves |
| `Preservation`, `CheckCount`, `Runs`, `Progress`, `MoveEffects` | what every legal move and every run of legal moves keeps, the measure that runs down, and what a move does square by square |
| `Repetition`, `LawRepetition`, `Games`, `Endings` | game histories, threefold repetition as kept and by the Laws, the game loop and its outcomes |
| `SeqWriter`, `Jobs`, `Tournament` | ordered output, the schedule, and every interleaving of the workers |
| `Text`, `Lan`, `San`, `SanUnique`, `FenSpec`, `FenRoundTrip`, `Fen`, `FenReader`, `Uci`, `Pack` | encodings and their round trips |
| `Notation`, `CastlingField`, `FenFields` | what the texts say letter by letter, whoever reads or writes them |
| `SoundPositions`, `StartPosition`, `Examples`, `UnseenThird` | the sound position of any well-formed state; the initial position and its text; texts and a game that do not come back |
| `Sequences` | sequences without repeats |

The main results, hardest first:

* **The generator is exact.** For every well-formed position `gen_all_moves` returns exactly the legal moves,
  each once (`MoveGenExact.GenAllMoves`), although it never plays a move to test it.
* **A move on bitboards is a move on the board.** `pos_move` refines the one-board move for every kind of move,
  overlapping Chess960 castling included, keeps the key equal to the key computed from scratch for arbitrary
  tables, and leaves a well-formed position with fresh derived sets and at most two checkers
  (`PositionClass.Position.Play`, `CheckCount.AtMostTwoCheckers`, `Runs.RunKeepsWellFormed`).
* **Every game ends**, after at most 13100 plies whatever the engines reply, and its three reported outcomes
  agree (`Games.Game.Play`, `Games.DecodeAgrees`); which of the nine endings it is, and for whom, is decided exactly
  as the replies and the position say (`Endings.EndsByReply`, `Endings.EndsByRules`, `Games.EndingResults`).
* **Threefold repetition is never missed** for positions as the program keeps them (men, turn, castling rooks and
  en-passant square), whatever the scan leaves out: the third occurrence gets the verdict, and no game goes on past
  it (`Repetition.ThreefoldFound`, `Games.ThirdOccurrence`, `Games.NoThirdOccurrenceBefore`). For positions as the
  Laws compare them there is one exact exception (`LawRepetition.ThirdByLaw`), explained below.
* **Every interleaving of the workers** writes the games in order, loses none, counts each once under its own outcome,
  and ends after at most four steps a job and one a worker (`Tournament.AllGamesAccounted`,
  `Tournament.CountsAreOutcomes`, `Tournament.RunsAreBounded`).
* **Texts say what they should**, letter by letter and apart from any reader: moves by the boards before and after
  them, FEN fields by their characters (`Notation.LanText`, `Notation.SanText`, `Notation.FirstThatTells`,
  `FenFields.PlacementMeans`, `CastlingField.CastlingNamedMeans`).
* **Texts are undone by their readers**: LAN and the binary packing always; SAN is the text the PGN standard asks for
  and never ambiguous. FEN and the pruned UCI command have exact exceptions:
  * the FEN text of a sound position is refused exactly when rule50 is at least 100 or the full-move number is 0, and
    runs into an assertion exactly when there are more than two checkers (`FenRoundTrip.FenIsLossless`; each case has
    a position in `Examples`);
  * in a game whose first position the FEN reader accepts, the UCI command is refused exactly when the 16-bit
    full-move number has wrapped to 0 at the last reset of rule50 (`Uci.SendPositionOfGame`; `Examples.WrappedGame`
    is such a game). This needs a first full-move number above 58985 (`Uci.CommandNeverRefused`).
* **The magic look-up is ray walking** for all 2^64 occupancies if and only if no entry is overwritten with a
  different value (`Magic.InitSliderAttacks`), the Carry-Rippler loop visits each subset once
  (`Subsets.VisitNth`), and the slices fill the two data bases exactly.

What is assumed of positions. `Rules.WellFormed` says: one king a side; the piece counts of
src/position.c:281-289; no pawn on the first or last rank; the side that is not to move is not in check; castling
rooks are own rooks on the home rank of their king, at most one on each side; an en-passant square has just been
passed by a pawn, and before that push the king now to move was not attacked. The reader of FEN does not check
all of this: it does not look at the check of the side not to move, at the undone double push, or at the rank of
a king that has castling rooks. These three are all that it leaves out: an accepted text loads a position that the
theorems start from if and only if they hold (`FenReader.AcceptedIsSoundIff`). Well-formedness is therefore assumed
of the first position of a game and proved of every later one.

Where the code decides against its surroundings, the code is followed:

* src/position.c:36 fills only part of the tables, so most castling and en-passant keys are zero. Keys are
  treated for arbitrary tables: equal positions have equal keys, and nothing is claimed in the other direction.
* src/position.c:435-441 sets the en-passant square whenever an enemy pawn attacks it, although the capture may be
  illegal, and src/game.c:90-97 compares keys that include this square. Article 9.2 of the Laws counts it only if the
  capture is possible. So a third occurrence by the Laws can be missed when the first one has such a square
  (`UnseenThird.UnseenRepetition` is a game), and only then (`LawRepetition.ThirdByLaw`,
  `Games.ThirdOccurrenceByLaw`); the fourth is always found.
* src/position.c:409-412 counts castling (king takes own rook) as a capture and resets `rule50`, which the
  fifty-move rule of the Laws does not. Castling is one of the resets everywhere in this project.
* src/str.c:337 tests overflow by comparing with the previous value only, which misses some overflows
  (`Text.OverflowMissed`, `Text.AcceptedIsRightIff`). The callers that read rule50 and the full-move number have
  limits so small that it does them no harm (`Text.SmallNumbersAreExact`).
* src/bitboard.c:147-150 fills `Ray[a][a]` with whatever direction comes last; `Bitboards.Ray` says the same.

## Model

| member | source | states |
|---|---|---|
| `MoveGenExact.GenAllMoves` | src/gen.c:204-216 | main result: for every well-formed position the generator returns, without duplicates, exactly the legal moves (pseudo-legal by the Laws and own king not attacked on the board after the move), in no check, single check or double check, with en passant, promotions and Chess960 castling |
| `MoveGenExact.GenCheckEscapes` | src/gen.c:172-202 | in check, the result holds exactly the legal moves, each once: king steps off the attacked squares, and for a single checker capturing it or standing in its way, en passant included |
| `MoveGenExact.GenUnchecked` | src/gen.c:210-214 | without check, the result holds exactly the legal moves, each once |
| `MoveGenExact.LegalKinds` | src/gen.c:204-216 | legality of any move, split by kind, in terms of checkers, pins and attacked squares only: no board after the move is needed |
| `MoveGenExact.PieceLegal` | src/gen.c:19-28 | a knight, bishop, rook or queen move is legal iff it answers every check and a pinned man stays on its ray |
| `MoveGenExact.PawnLegal` | src/gen.c:30-40 | the same for pushes, captures and promotions of pawns |
| `MoveGenExact.KingLegal` | src/gen.c:118-123 | a king step is legal iff its target is not attacked once the king is lifted off the board |
| `MoveGenExact.EnPassantLegal` | src/gen.c:70-86 | an en-passant capture is legal iff no slider sees the king over the occupancy after it; rests on what the double push before it left unattacked |
| `MoveGenExact.CastleLegal` | src/gen.c:154-170 | a castling move is legal iff the castling rook is not pinned, and castling is only possible out of check |
| `Legality.QuietLegal` | src/gen.c:19-40 | board form of the checks-and-pins argument: after an ordinary move of another man the king is unattacked iff the move answers all checks and keeps the pin |
| `Legality.KingStepLegal` | src/position.c:136-146 | why attacks are computed with the king lifted off: the new square is safe iff it is unattacked on the board without the king |
| `Legality.EpLegal` | src/gen.c:71-85 | board form of the en-passant test: only sliders can attack the king after the capture |
| `Legality.EpNoDoubleCheck` | src/gen.c:193-196 | with an en-passant square there is never a double check |
| `Legality.CastlingLegal` | src/gen.c:164-166 | clear ways, unattacked king way and an unpinned rook are necessary and sufficient for the castled king to be safe (Chess960 geometry) |
| `Legality.WaySafeIffUnattacked` | src/gen.c:164-166 | testing the king way with the king lifted off is the same as testing it on the board, together with not being in check |
| `MoveGen.SerializePieceMoves` | src/gen.c:19-28 | appends exactly the moves from one square to the targets that its pin allows, each once |
| `MoveGen.GenPieceMoves` | src/gen.c:113-152 | appends exactly the king, knight, rook-like and bishop-like moves into the filter, each once although queens belong to two groups |
| `MoveGen.SerializePawnMoves` | src/gen.c:30-40 | appends exactly the shifted pawn moves that pins allow, each once |
| `MoveGen.GenPawnMoves` | src/gen.c:42-111 | appends exactly the captures, pushes, en-passant captures and promotions, each once; no assert of bb_set or bb_clear fails |
| `MoveGen.GenEnPassant` | src/gen.c:70-86 | appends exactly the en-passant captures after which no slider sees the king |
| `MoveGen.GenPromotions` | src/gen.c:88-108 | appends exactly the four promotions for each capture or push of a pawn on the last rank but one |
| `MoveGen.GenCastlingMoves` | src/gen.c:154-170 | appends exactly the castling moves whose ways are clear, unattacked and whose rook is not pinned |
| `Finish.ComputePins` | src/position.c:106-120 | pins is exactly the set of our men that are the only man between our king and an aligned enemy slider |
| `Finish.ComputeAttacked` | src/position.c:122-146 | attacked is exactly the set of squares the enemy attacks with our king lifted off the board |
| `Finish.ComputeCheckers` | src/position.c:148-164 | checkers is exactly the set of enemy men that attack our king, although it is only computed when the king is in the attacked set |
| `Finish.AttackedKingIffCheckers` | src/position.c:150-162 | our king is in the attacked set iff there is a checker: the assertion that checkers is not empty holds |
| `PositionClass.Position.Finish` | src/position.c:102-165 | the three derived sets of the position are the declared ones |
| `CheckCount.AtMostTwoCheckers` | src/position.c:157-162 | after any legal move from a well-formed position there are at most two checkers, en passant and Chess960 castling included |
| `CheckCount.KingsApart` | src/position.c:157-158 | after any legal move the kings do not touch: the assertion that the enemy king gives no check holds |
| `PositionClass.Position.Play` | src/position.c:397-475 | main result: playing a legal move on the bitboards is playing it on the one-board picture, for every kind of move; bitboards stay consistent, the position stays well-formed, key and derived sets are those computed from scratch, counters advance as the Laws say |
| `PositionClass.Position.PlayMen` | src/position.c:397-465 | men, castling rooks, en-passant square and rule50 after the move, and the change of the key |
| `PositionClass.Position.MoveMan` | src/position.c:408-431 | capture (own rook when castling) and move, with the castling rights of a captured or moved rook |
| `PositionClass.Position.SetEpSquare` | src/position.c:435-441 | the en-passant square is set iff a double push can be answered by an enemy pawn |
| `PositionClass.Position.CaptureOrPromote` | src/position.c:443-449 | en-passant capture and promotion complete the board of the move |
| `PositionClass.Position.KingExtras` | src/position.c:450-464 | castling rights of the king, and castling with overlapping king and rook squares |
| `PositionClass.Position.TurnOver` | src/position.c:467-472 | turn, full-move number, last move and the three key updates |
| `PositionClass.Position.ClearSquare` | src/position.c:81-89 | takes the man off the board that the bitboards describe; the difference between key and men key stays the same |
| `PositionClass.Position.SetSquare` | src/position.c:92-100 | puts a man on the board that the bitboards describe; the difference between key and men key stays the same |
| `PositionClass.ZobristCastling` | src/position.c:45-52 | the exclusive or over the castling rooks, in any order, is the castling part of the key |
| `Zobrist.KeyUpdate` | src/position.c:467-470 | for arbitrary random tables, the incrementally updated key is the key computed from scratch |
| `Zobrist.KeysTellApart` | src/position.c:28-52 | every feature goes into the key: any two different states (men, turn, castling rooks or en-passant square) are told apart by some tables |
| `Preservation.WellFormedAfter` | src/position.c:397-475 | well-formedness is an invariant of legal moves: one king a side, side not to move not in check, counts, pawn ranks, castling rooks and en-passant square |
| `Preservation.KingsAfter` | src/position.c:408-465 | after a legal move each side has exactly one king, on a known square |
| `Preservation.CountsAfter` | src/position.c:281-289 | the piece-count limits of the reader are kept by every legal move, promotions included |
| `Preservation.PawnRanksAfter` | src/position.c:291-293 | no legal move leaves a pawn on the first or last rank |
| `Preservation.CastleAfter` | src/position.c:417-452 | castling rooks stay own rooks on the home rank of their king, at most one on each side |
| `Preservation.EpAfter` | src/position.c:435-441 | the en-passant square after a move has the shape the reader checks, and undoing the double push leaves the king of the side to move unattacked |
| `Preservation.OrthodoxAfter` | src/position.c:245-255 | in an orthodox game the castling king stays on the e-file and its rooks on the a- and h-files |
| `MoveEffects.CastlingMoves` | src/position.c:450-464 | every square of the board after castling, in square numbers: king and rook on the g- and f-files or the c- and d-files of their home rank, wherever they came from |
| `MoveEffects.OtherMoves` | src/position.c:408-449 | every square of the board after any other legal move: the man is on its target, promoted if the move says so, a pawn passed en passant is gone, and nothing else has changed |
| `MoveEffects.CastlingMeans` | src/gen.c:154-170 | castling is possible iff the ways of king and rook are empty but for these two and no square of the way of the king is attacked, in square numbers |
| `MoveEffects.PromotionsInFours` | src/gen.c:88-108 | a pawn that reaches the last rank must promote and may become each of knight, bishop, rook and queen, or none of them if the move is illegal; nothing else promotes |
| `MoveEffects.EpAppears` | src/position.c:435-441 | the en-passant square appears exactly when a pawn has gone two ranks and an enemy pawn stands beside it |
| `MoveEffects.ResetsIff` | src/position.c:403-436 | rule50 starts again with exactly the pawn moves, the moves that take a man, and castling |
| `MoveEffects.RightsOverRun` | src/position.c:417-452 | over every finite run a castling rook keeps its right exactly as long as no move was made with it or its king or to its square |
| `Runs.LegalTarget` | src/position.c:408-411 | no legal move of any kind lands on the enemy king |
| `Runs.RunKeepsWellFormed` | src/position.c:397-475 | over every finite run of legal moves the position stays well-formed and never has more than two checkers after the first move |
| `Runs.RunKeepsOrthodox` | src/position.c:245-255 | over every finite run an orthodox game stays orthodox |
| `Runs.NoKingEverTaken` | src/position.c:409-411 | over every finite run no move takes a king |
| `Runs.ResetsAreBounded` | src/position.c:412-436 | over every finite run at most 130 moves reset rule50 (captures, pawn moves and castling), however long the run |
| `Progress.MoveProgress` | src/position.c:400-464 | men + pawn steps + castling rooks never grows, and drops with every move that resets rule50, castling included |
| `Progress.MeasureBound` | src/position.c:281-315 | that measure is at most 130 in every well-formed position |
| `Repetition.ThreefoldFound` | src/game.c:90-97 | a position that occurred twice before (men, turn, castling rooks, en-passant square as the program keeps them) is always found by the scan limited to rule50, even distances and distance 4 or more |
| `Repetition.ScanRepetitions` | src/game.c:90-97 | the scan answers yes iff two scanned earlier positions have the same key |
| `Repetition.RepeatDistance` | src/game.c:93-94 | two occurrences of the same men, turn and castling rooks are an even number of plies apart, at least four, all of them counted by rule50, and the later one has no en-passant square |
| `Repetition.RepeatMeansNoReset` | src/game.c:93-94 | between two occurrences nothing resets rule50: every reset is irreversible |
| `Repetition.NoRepeatAfterTwo` | src/game.c:93 | one quiet move by each side never restores the position |
| `LawRepetition.LegalWithoutEp` | src/position.c:435-441 | a move that is no en-passant capture is legal with the en-passant square iff it is legal without it |
| `LawRepetition.SameByLawIff` | src/position.c:435-441 | two states with the same men, turn and castling rooks have the same legal moves iff their en-passant squares are equal or neither square can be used: this is when the Laws see the same position |
| `LawRepetition.ThirdByLaw` | src/game.c:90-97 | main result: of a third occurrence by the Laws the scan always counts the second, and the first iff the key of its en-passant square is the key of the missing square; a first occurrence with an en-passant square that cannot be used is the only one that can be missed |
| `LawRepetition.FourthByLaw` | src/game.c:90-97 | a fourth occurrence by the Laws is always found |
| `Games.ApplyChessRules` | src/game.c:76-100 | the verdict of the rules: checkmate and stalemate by the absence of legal moves, then fifty moves, insufficient material and repetition in this order; and the legal moves |
| `Games.InsufficientMeans` | src/position.c:499-502 | the material test says bare kings, or the two kings and a single knight or bishop, and nothing else |
| `Games.ThirdOccurrence` | src/game.c:76-100 | a position with two earlier occurrences in the game gets the verdict threefold unless there is no legal move, the fifty-move limit is reached or the material is insufficient |
| `Games.ThirdOccurrenceByLaw` | src/game.c:76-100 | a third occurrence by the Laws gets the verdict threefold, unless an earlier rule fires or the first occurrence has an unusable en-passant square with another key than the missing square; then the game goes on unless another position matches |
| `Games.NoThirdOccurrenceBefore` | src/game.c:213-218 | in a game that has ended no position before the last one was a third occurrence: the game stops at the first |
| `Games.Game.Play` | src/game.c:182-319 | main result: whatever the engines reply and whatever the clocks show, the game ends after at most 13100 plies, for a stated reason; the value returned is 0, 1 or 2 for a loss, draw or win of engine 0, lost by the engine to move exactly after checkmate, time loss, illegal move or resignation, and each sample carries the result of its own side to move |
| `Games.Game.Loop` | src/game.c:206-302 | the loop ends; every earlier ply went on by the rules and by the reply, and the engine to move alternates |
| `Games.Game.OnePly` | src/game.c:213-302 | one pass: either the game has ended for the reason the rules and the reply give, or the next position follows by the legal move replied; the two counters are the lengths of the qualifying score suffixes |
| `Games.Game.Answer` | src/game.c:242-301 | order and meaning of the endings a reply can cause: time, illegal move, draw and resign adjudication |
| `Endings.EndsByReply` | src/game.c:242-284 | main result: from the replies alone, a game that ends with a reply ends by time loss, illegal move, draw adjudication or resignation, each exactly under its condition on the reply, the clock and the last scores of both engines or of the one that answered |
| `Endings.EndsByRules` | src/game.c:76-100 | a game that ends before a reply ends by checkmate, stalemate, fifty moves, insufficient material or repetition, each exactly under its condition on the position |
| `Endings.WentOn` | src/game.c:242-284 | at every earlier ply the reply came, was legal and in time, and called for no adjudication |
| `Games.EndingResults` | src/game.c:304-352 | result for engine 0, result for the side to move and PGN result of every ending |
| `Games.Game.Advance` | src/game.c:213-215 | the next entry of the position list is the last one with the reply played |
| `Games.Game.RecordSample` | src/game.c:286-299 | exactly when a sample is recorded, and its position, pending result and score; the sign of the score follows the turn that the initializer at line 291 reads from the sample before it is initialized, an arbitrary value here |
| `Games.Game.ScoreSamples` | src/game.c:308-314 | each sample gets the result of the side to move in its own position |
| `Games.PotentialDrops` | src/game.c:213-302 | 100 times the measure plus the plies left to the fifty-move limit drops with every ply |
| `Games.PotentialBound` | src/game.c:213-302 | that potential is at most 13100 |
| `Games.RunLengthAtLeast` | src/game.c:265-284 | a counter of n means that the last n scores all qualify, and conversely |
| `Games.EngineToMovePlaysItsColor` | src/game.c:189-190 | at every ply of every game that has ended, the engine whose turn it is is the one that names[] gives for the colour to move in the position of that ply |
| `Games.DecodeAgrees` | src/game.c:321-352 | the PGN result agrees with the result for white and for black |
| `Games.LegalNotNull` | src/game.c:214 | the test for a played move never mistakes a legal move for none |
| `SeqWriters.SeqWriter.Push` | src/seqwriter.c:38-80 | after any sequence of pushes in any order the file is the concatenation of the texts 0..idxNext-1, idxNext is the first missing index, and the queue holds the rest strictly sorted |
| `SeqWriters.SeqWriter.Insert` | src/seqwriter.c:41-52 | the new text is put in its sorted place |
| `SeqWriters.SeqWriter.LongestChunk` | src/seqwriter.c:54-60 | the longest run of consecutive indices from idxNext on, with the assertion of the loop |
| `SeqWriters.SeqWriter.WriteOut` | src/seqwriter.c:63-68 | writes exactly the next n texts in order |
| `SeqWriters.SeqWriter.Flush` | src/seqwriter.c:62-77 | drops what was written and advances idxNext to the first missing index |
| `Jobs.JobQueue.constructor` | src/jobs.c:29-72 | the schedule is all rounds of all pairs of all games, with one zeroed result per pair |
| `Jobs.InitRound` | src/jobs.c:47-68 | one round, in the order of the loops |
| `Jobs.InitResults` | src/jobs.c:40-59 | results hold the engines of pair p at index p |
| `Jobs.JobClosedForm` | src/jobs.c:20-69 | job i is round i/(P*G), pair (i mod P*G)/G, game i mod G of its pair |
| `Jobs.JobFields` | src/jobs.c:7-15 | every job names the two engines of its pair, its round and its number within the round, and has the first move exchanged in every other game of its pair |
| `Jobs.PairsHas` | src/jobs.c:41-58 | every pair e1 < e2 (every pair (0, e2) in a gauntlet) is scheduled and no other |
| `Jobs.PairsNoRepeats` | src/jobs.c:41-58 | no pair is scheduled twice in a round |
| `Jobs.PairsInOrder` | src/jobs.c:41-58 | pairs come in the order of their first engine, then of their second |
| `Jobs.JobsComeInReversedPairs` | src/main.c:115 | for an even number of games per pair, jobs 2k and 2k+1 are the same engines with the first move exchanged and the same opening number |
| `Jobs.JobQueue.Pop` | src/jobs.c:81-93 | hands out the next job and its index, or nothing at the end |
| `Jobs.JobQueue.AddResult` | src/jobs.c:96-105 | the count of that pair and outcome goes up by one, every other count of every pair stays, and the new totals of the pair are returned |
| `Jobs.JobQueue.Done` | src/jobs.c:107-113 | true iff no job is left; the assertion that the index is within the jobs holds in every valid queue |
| `Jobs.JobQueue.Stop` | src/jobs.c:115-119 | no further job is handed out |
| `Tournament.StepKeeps` | src/main.c:94-162 | every mutex-protected step of every worker keeps the invariant: jobs popped once, none lost, counts add up, file in order |
| `Tournament.RunInv` | src/main.c:94-169 | the invariant holds in every state of every interleaving |
| `Tournament.FileInOrder` | src/main.c:134-138 | at all times the file is the concatenation of games 0..idxNext-1 in order, all of them popped |
| `Tournament.FileAppends` | src/seqwriter.c:62-77 | no step ever changes what is already in the file |
| `Tournament.AllGamesAccounted` | src/main.c:94-174 | once all workers have finished, with any stop, the file holds exactly the games 0..k-1 in order, the result counts of all pairs sum to completed = k, and those of each pair to the number of its games |
| `Tournament.ResultsSumToCompleted` | src/jobs.c:96-105 | in every state of every interleaving the result counts of all pairs sum to the number of completed games |
| `Tournament.CountsAreOutcomes` | src/jobs.c:96-105 | in every state of every interleaving the count kept for a pair and an outcome is the number of its games that ended so: wins, draws and losses are never exchanged |
| `Tournament.RunsAreBounded` | src/main.c:94-174 | every interleaving has at most four steps for each job and one for each worker |
| `Tournament.MaximalRunFinishes` | src/main.c:94-174 | an interleaving that no step can prolong has all workers finished: no worker waits for good |
| `Tournament.NoGameAfterStop` | src/jobs.c:115-119 | in every interleaving no game is started after the tournament has been stopped |
| `Text.StrTok` | src/str.c:223-243 | the next token and the rest of the text, with the empty tail and the missing tail kept apart |
| `Text.TokensSpaced` | src/str.c:223-243 | words followed by spaces are read back as those words |
| `Text.FmtU` | src/str.c:134-142 | writes the decimal digits, last one first |
| `Text.DigitsAre` | src/str.c:134-142 | the digits written are the decimal ones, in order |
| `Text.StrToUintmax` | src/str.c:328-346 | reads digits in wrapping 64-bit arithmetic, with the inexact overflow test as written |
| `Text.ScannedDigits` | src/str.c:328-366 | every number printed is read back, for any limit it respects |
| `Text.AcceptedIsRightIff` | src/str.c:334-343 | the overflow test is not exact: an accepted string of digits is read rightly iff its value is below 2^64 |
| `Text.OverflowMissed` | src/str.c:337 | a string of digits above 2^64 that is accepted and read as another number |
| `Text.SmallNumbersAreExact` | src/str.c:348-366 | with a limit of at most 65535 every string of digits is read exactly: its value if within the limit, refused otherwise, although the overflow test is not exact |
| `Lan.SquareNameRoundTrip` | src/position.c:54-78 | square names are read back, the missing square included |
| `Lan.LanRoundTrip` | src/position.c:540-577 | for every legal move of every position the text written is read back as that move, with the e1g1/e1h1 rewriting of orthodox castling that no other move can trigger |
| `Notation.LanText` | src/position.c:540-561 | the text names, letter by letter, the squares where the man stands before the move and after it (the rook for castling in Chess960), and the promotion |
| `Notation.CastlingTexts` | src/position.c:551-552 | orthodox castling is written e1g1, e1c1, e8g8 or e8c8 |
| `Notation.SquareNameIs` | src/position.c:54-65 | squares are named a1 to h8 |
| `San.MoveToSan` | src/position.c:579-675 | for every legal move the text is the one that section 8.2.3 of the PGN standard prescribes, with disambiguation by legal rivals |
| `Notation.SanText` | src/position.c:579-675 | the whole text letter by letter: piece letter, x exactly when a man is lost, target square, promotion, O-O or O-O-O by where the king stands afterwards |
| `Notation.FirstThatTells` | src/position.c:652-666 | of nothing, file, rank and both, in this order, the disambiguation is the first that no rival shares (section 8.2.3.4 of the PGN standard) |
| `San.FindContesters` | src/position.c:615-650 | the contesters are exactly the other men of the kind that could legally go to the same square |
| `San.Disambiguate` | src/position.c:652-666 | nothing, file, rank or both, in the order of section 8.2.3.4 of the PGN standard |
| `San.RivalIff` | src/position.c:623-649 | a man that reaches the square is a legal rival iff its pin lets it go: the checks to be answered are the same |
| `SanUnique.SanUnambiguous` | src/position.c:579-675 | two different legal moves of a position never have the same text |
| `SanUnique.DisambiguationTells` | src/position.c:652-666 | the disambiguation separates all legal movers of one kind to one square |
| `Fen.PosGet` | src/position.c:334-394 | writes the six fields of the position separated by single spaces, K and Q letters or file letters for castling |
| `FenReader.PosSet` | src/position.c:173-331 | for any text: accepted, refused or run into an assertion exactly as the field-by-field meaning of its tokens says; an accepted text leaves consistent bitboards, fresh derived sets and the key computed from scratch |
| `FenFields.PlacementMeans` | src/position.c:180-204 | for any text, character by character: it is read iff counts and men stay within eight files and eight ranks are given; then exactly the men named stand on the squares counted out; otherwise the first character that does not fit decides between refusal and assertion |
| `FenFields.EpNamedMeans` | src/position.c:257-269 | a square name gives that square, one or two characters that begin with a dash give none, and nothing else is read |
| `FenFields.CountersMean` | src/position.c:271-279 | the counters are strings of digits with a value below 100 and from 1 to 65535 |
| `FenReader.MissingFields` | src/position.c:222-279 | a text that stops after the turn or later means the same as with no castling rights, no en-passant square, 0 and 1 added |
| `FenReader.CountsMean` | src/position.c:281-289 | the piece counts accepted are those that promotions of the missing pawns can explain |
| `CastlingField.CastlingNamedMeans` | src/position.c:222-241 | for any board and field: accepted iff it is a dash or at most four letters that each name a square, no two the same; K and Q name the own rook of the home rank with none further out on that side, a file letter its file |
| `CastlingField.KQRoundTrip` | src/position.c:222-241 | in Chess960 too, K and Q letters in any order are read back to the castling rooks if each is the outermost own rook on its side of the king |
| `CastlingField.LettersWritten` | src/position.c:363-388 | the letters written are K and Q, or file letters in Chess960, upper case for white |
| `FenReader.AcceptedIsSoundIff` | src/position.c:173-331 | for every accepted text: the position loaded is one that the theorems start from iff the side not to move is not in check, kings with castling rooks are on their home rank, and before the double push the king was not attacked |
| `FenReader.VerifiedIsWellFormedIff` | src/position.c:281-327 | the verification of the reader and those three conditions together are well-formedness |
| `FenReader.NotDetectedIsOrthodox` | src/position.c:245-255 | what is not taken for Chess960 has its castling kings on the e-file and its castling rooks in the corners |
| `FenRoundTrip.FenIsLossless` | src/position.c:173-394 | the text of a position is refused iff rule50 >= 100 or the full-move number is 0, runs into the checker assertion iff there are more than two checkers, and otherwise is read back to every field |
| `FenReader.WriteThenRead` | src/position.c:173-394 | the same for the two procedures run one after the other: all fields but lastMove are restored, key, bitboards and derived sets included |
| `FenRoundTrip.PlacementRoundTrip` | src/position.c:337-358 | every board is read back from its placement text |
| `FenRoundTrip.CastlingRoundTrip` | src/position.c:222-241 | the castling field names the same rooks again, by outermost rook or by file |
| `FenRoundTrip.OrthodoxDetected` | src/position.c:245-255 | orthodox castling rooks are not taken for Chess960 |
| `FenRoundTrip.CastleFitsIff` | src/position.c:295-315 | what the reader verifies about castling rooks is what the generator needs, except that it does not look at the rank of a king with castling rooks |
| `FenReader.ReadCastling` | src/position.c:222-241 | the rooks named by the letters of any castling field, with every refusal and assertion |
| `FenReader.ReadPlacement` | src/position.c:180-204 | the board described by any placement text, with every refusal and assertion |
| `FenReader.DetectChess960` | src/position.c:245-255 | the mode detected, with the assertions on rooks and kings |
| `FenReader.Verify` | src/position.c:281-327 | counts, kings, pawn ranks, castling rooks and en-passant square as verified |
| `Uci.UciPositionCommand` | src/game.c:28-49 | the command is the FEN of the last reset position and the moves since, separated by single spaces |
| `Uci.CommandText` | src/game.c:28-49 | the command character by character: position fen, the FEN text, and if there are moves, moves and each of them behind a space |
| `Uci.ParsePosition` | test/engine.c:58-90 | for startpos and for any FEN text: the outcome is that of reading the position; without moves the position read is loaded whatever it is, with moves the position is the last one of the legal run that they name |
| `StartPosition.StartIsWellFormed` | test/engine.c:63-65 | the initial position of chess meets every condition the theorems ask of a first position |
| `StartPosition.StartIsAccepted` | test/engine.c:63-65 | the text of the initial position, character by character, is accepted and read as that position, with or without Chess960 forced |
| `Uci.SendPosition` | test/engine.c:58-90 | for every prefix of every game the pruned command rebuilds the position in every field but lastMove, exactly when the position it starts from passes the FEN reader |
| `Uci.SendPositionOfGame` | src/game.c:28-49 | main result: in a game whose first position the FEN reader accepts, the command rebuilds the position unless the first full-move number plus the moves of black up to the last reset is a multiple of 65536, and is refused then; never within 13100 plies of a full-move number of at most 58985 |
| `Uci.StartOfCommand` | src/game.c:29-35 | in such a game the position the command starts from has rule50 below 100 and at most two checkers: only its full-move number can be refused |
| `Uci.FullMoveAt` | src/position.c:471 | over every game the full-move number is the first one plus the moves of black so far, modulo 65536 |
| `Uci.CommandNeverRefused` | src/game.c:28-49 | in every game that has ended, from a first position that the FEN reader accepts with a full-move number of at most 58985, the text of the command of every ply is accepted |
| `Uci.PruningKeepsRepetitions` | src/game.c:29-35 | every earlier occurrence of the position is inside the pruned command |
| `Uci.StartIsLastReset` | src/game.c:29-35 | the command starts where rule50 was last reset, or with the game: no shorter list of moves would do |
| `Pack.PosPack` | src/position.c:702-726 | nibble i of the stream is the code of the i-th occupied square, no byte past 16 is written, the size is 9 + ceil(n/2), at most 25 |
| `Pack.PackingIsLossless` | src/position.c:702-726 | a decoder of the nibble stream recovers men, castling rooks and en-passant square of every position |
| `Pack.NibbleTable` | README.md:91-99 | the code of a man: 0 to 5 from knight to pawn, 6 for a rook with castling right, 7 for a pawn that can be taken en passant, doubled, plus 1 for black |
| `Pack.BytesLayout` | src/position.c:705-724 | the code of a man is in the half byte whose number is the number of men on lower squares, low half first |
| `Words.SetOperators` | src/bitboard.c:240-280 | and, or, exclusive or and complement of words are the set operators |
| `Words.TestSetClear` | src/bitboard.c:240-255 | bb_test, bb_set and bb_clear by the bit 1 << s are membership, insertion and removal |
| `Words.PopAndSeveral` | src/bitboard.c:272-278 | b & (b - 1) removes exactly the lowest square, and is not zero iff there are several |
| `Words.ShiftIs` | src/bitboard.c:257-260 | shifting a word by i, left or right, moves the set by i squares and loses what leaves the board |
| `Words.AndWrap` | src/bitboard.c:114 | 64-bit wrap-around of a difference does not change what a mask sees |
| `Words.WordOfSetOf` | src/bitboard.c:240-260 | words and sets of squares correspond one to one |
| `Subsets.CarryRippler` | src/bitboard.c:108-115 | the step gives the next larger subset of the mask, and zero exactly after the mask itself |
| `Subsets.VisitNth` | src/bitboard.c:108-115 | the loop visits the k-th subset at step k, for 2^popcount steps, and is then back at zero |
| `Subsets.PextOrder` | src/bitboard.c:108-115 | the packed number identifies and orders the subsets: each is visited once, in increasing order |
| `Subsets.PextPdep` | src/bitboard.c:108-115 | every number below 2^popcount is the packed number of a subset: all are visited |
| `BoardTables.WalkLine` | src/bitboard.c:74-88 | walking in one direction collects exactly the visible squares, stopping at the first occupied one |
| `BoardTables.SliderAttacks` | src/bitboard.c:71-91 | the four walks collect what is seen in the four directions |
| `BoardTables.WalksAreAttacks` | src/bitboard.c:71-91 | for the rook and bishop directions that is the geometric attack set over any occupancy |
| `BoardTables.InitRays` | src/bitboard.c:133-152 | the rows Segment[square] and Ray[square] are the geometric segments and rays |
| `BoardTables.InitLeaper` | src/bitboard.c:154-166 | the squares reached by a list of distinct steps, none of them set twice |
| `BoardTables.LeaperTables` | src/bitboard.c:118-166 | for the lists of the program these are the attacks of knight, king and pawns |
| `Magic.EdgesIrrelevant` | src/bitboard.c:100-102 | slider attacks depend only on the occupancy within the edge-trimmed mask |
| `Magic.IndexInSlice` | src/bitboard.c:93-95 | the index of every occupancy stays in the slice of its square, for any magic number |
| `Magic.MaskSizes` | src/bitboard.c:102-103 | every mask has between 5 and 12 squares, so the shift is defined on 64-bit words |
| `Magic.InitSliderAttacks` | src/bitboard.c:97-116 | after filling one slice the look-up agrees with ray walking for all 2^64 occupancies if and only if the magic number has no destructive collision; nothing outside the slice is touched |
| `Magic.InitSliders` | src/bitboard.c:168-176 | the same for all 64 squares in one table |
| `Magic.DatabaseSizes` | src/bitboard.c:63-64 | the 64 slices fill 0x19000 rook entries and 0x1480 bishop entries exactly |
| `MoveCode.MoveCodeOnto` | src/bitboard.c:211-226 | every 16-bit code with a valid promotion field is the code of its own three fields |
| `MoveCode.MoveBuild` | src/bitboard.c:211-226 | the three fields of a 16-bit move are read back |
| `MoveCode.MoveLayout` | src/bitboard.c:211-216 | six bits for the origin, six for the target, the promotion above them |
| `SoundPositions.PositionIsSound` | src/position.c:280-329 | every well-formed orthodox state, with any counters that fit, has a sound position: what the theorems ask of positions can be met by all of them |
| `Examples.BareKingsAreSound` | src/position.c:280-329 | an instance: kings on e1 and e8, with a legal move |
| `Examples.FenRefusesCounters` | src/position.c:271-279 | two sound positions whose FEN text is refused: rule50 at 100 and a full-move number of 0 |
| `Examples.FenAssertsCheckers` | src/position.c:157-162 | a sound position, never played, whose FEN text runs into the assertion on the number of checkers: rook, knight and bishop give check |
| `Examples.WrappedGame` | src/game.c:28-49 | a game of one legal move, from a start the FEN reader accepts, whose command is refused: the full-move number goes from 65535 to 0 |
| `UnseenThird.UnseenRepetition` | src/game.c:90-97 | a game with a third occurrence by the Laws that the scan does not find, unless two keys collide: a pinned pawn could not use the en-passant square of the first occurrence |

## Left out

- Engine processes, pipes, logging, deadlines and wall-clock time (src/engine.c, src/workers.c): the reply, the
  score, the remaining time and the sampling decision at each ply are arbitrary inputs of the game loop.
- The 128 magic constants: whether they have no destructive collision is the hypothesis of the look-up theorem,
  not a result.
- Hash collisions: different positions may have equal keys, so a game may also be declared drawn by a collision.
- Rank[] and File[] (src/bitboard.c:127-131), `opposite`, `relative_rank` and the builtins for counting and for the
  lowest and highest bit are taken as what they are named for; bit counts and `1 << n` are written as `Count` and `Pow2`.
- Games.Game.RecordSample: the initializer of the sample at src/game.c:289-293 reads `sample.pos.turn` of the
  variable it is initializing; what it reads is an arbitrary input of the model (`turnRead`), so the sign of the
  score is only tied to the stored position when the two are equal.
- Games.Game.Loop: `pos_move` at the top of a pass (src/game.c:214-215) is modelled at the end of the pass before it,
  where the new entry is pushed; the replies of a game are one function of the ply.
- Games.Game.Answer: the position resolved from the principal variation (src/game.c:110-152) is part of the reply;
  `pos_lan_to_move` on arbitrary engine text is not modelled, the move replied is any 16-bit move value.
- MoveGen.GenPieceMoves: the loops for knights, rook movers and bishop movers are one method called three times; the
  generator reads a position value, as the source reads a `const Position *`.
- FenReader.PosSet: a text is a sequence of characters without the terminating zero; undefined behaviour behind a
  failed assertion is the outcome AssertFails and nothing more is said about it.
- Uci.ParsePosition: moves named must be legal in turn from a sound position, as `pos_move` demands of its callers, and
  the first word must be one of the two that the source asserts; a text refused by the FEN reader ends the reader.
- Lan.LanToMove, Lan.MoveToLan: a promotion letter that is not in the table and texts shorter than four characters have
  no value, where the source computes with pointers outside its table.
- Pack.PosPack: the 7-bit field for rule50 keeps rule50 modulo 128; the score and result bytes behind the packed
  position are not modelled.
- Tournament.RunInv: a worker's step is one mutex-protected section; the choice of the opening, engine start and stop,
  and the texts and outcomes of games are arbitrary; only the order and number of games are claimed.
- Jobs.JobQueue.constructor: names of engines and memory growth of the vectors are not modelled, and job counts are unbounded.
- The counters have their widths: rule50 wraps at 256 and fullMove at 65536; other integers are unbounded.
- SPRT (src/sprt.c) and the sampling probability: floating point; the decision to stop is an arbitrary step.
- Option parsing, PGN headers and comments, printing, opening files, `vec` and `str` memory: plumbing.
