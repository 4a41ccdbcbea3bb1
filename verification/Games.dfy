/** The game loop of src/game.c: chess rules, adjudication, and the outcomes reported.  Engine replies, their
    scores, the clock and the sampling dice are arbitrary inputs. */
module Games {
  import opened Geometry
  import opened Rules
  import opened Legality
  import opened Zobrist
  import opened Positions
  import opened MoveGenExact
  import opened PositionClass
  import opened Progress
  import opened Repetition
  import opened LawRepetition

  datatype GameState =
    | Unterminated
    | Checkmate | TimeLoss | IllegalMove | Resign
    | Stalemate | Threefold | FiftyMoves | InsufficientMaterial | DrawAdjudication

  // The states below STATE_SEPARATOR: lost by the side to move.
  predicate Lost(s: GameState) { s.Checkmate? || s.TimeLoss? || s.IllegalMove? || s.Resign? }

  // ---- Chess rules ---------------------------------------------------------------------------------------

  ghost predicate HasLegalMove(st: State) { exists m: Move :: Legal(st, m) }

  // Bare kings, or kings and one knight or bishop.
  predicate Insufficient(b: Board)
  {
    |Occupied(b)| <= 3 && forall s: Square :: b[s].Man? ==> b[s].piece == KING || b[s].piece == KNIGHT || b[s].piece == BISHOP
  }

  // src/position.c:499-502
  function InsufficientTest(p: Pos): bool
  {
    |p.Pieces()| <= 3 && p.byPiece[PAWN] == {} && p.byPiece[ROOK] == {} && p.byPiece[QUEEN] == {}
  }

  lemma PieceSetEmpty(p: Pos, q: Piece)
    requires Represents(p.byColor, p.byPiece, BoardOf(p))
    ensures p.byPiece[q] == {} <==> forall s: Square :: !(BoardOf(p)[s].Man? && BoardOf(p)[s].piece == q)
  {
    hide BoardOf;
    NonEmpty(p.byPiece[q]);
    assert forall s: Square :: s in p.byPiece[q] <==> BoardOf(p)[s].Man? && BoardOf(p)[s].piece == q;
  }

  lemma InsufficientIs(p: Pos)
    requires Represents(p.byColor, p.byPiece, BoardOf(p))
    ensures InsufficientTest(p) <==> Insufficient(BoardOf(p))
  {
    BoardOfIs(p, BoardOf(p));
    PieceSetEmpty(p, PAWN);
    PieceSetEmpty(p, ROOK);
    PieceSetEmpty(p, QUEEN);
    hide BoardOf, Represents;
  }

  // With one king a side, that is bare kings, or one knight or bishop besides them.
  lemma InsufficientMeans(b: Board, k: Square, k2: Square)
    requires KingAt(b, WHITE, k) && KingAt(b, BLACK, k2)
    ensures Insufficient(b) <==>
            Occupied(b) == {k, k2} || exists s: Square :: Occupied(b) == {k, k2, s} && LoneMinor(b, s)
  {
    hide Insufficient, Occupied, LoneMinor;
    KingsOccupied(b, k, k2);
    var others := Occupied(b) - {k, k2};
    assert Occupied(b) == {k, k2} + others;
    if others == {} {
      OnlyKings(b, k, k2);
    } else {
      var s :| s in others;
      if t: Square :| Occupied(b) == {k, k2, t} && LoneMinor(b, t) { assert s == t; }
      if others == {s} {
        OneOther(b, k, k2, s);
      } else {
        TooMany(b, others, k, k2, s);
        assert !exists t: Square :: Occupied(b) == {k, k2, t} && LoneMinor(b, t);
      }
    }
  }

  lemma KingsOccupied(b: Board, k: Square, k2: Square)
    requires KingAt(b, WHITE, k) && KingAt(b, BLACK, k2)
    ensures {k, k2} <= Occupied(b) && k != k2
  {}

  lemma OnlyKings(b: Board, k: Square, k2: Square)
    requires KingAt(b, WHITE, k) && KingAt(b, BLACK, k2) && k != k2 && Occupied(b) == {k, k2}
    ensures Insufficient(b)
  {
    forall t: Square | b[t].Man? ensures t == k || t == k2 { assert t in Occupied(b); }
  }

  lemma TooMany(b: Board, others: set<Square>, k: Square, k2: Square, s: Square)
    requires k != k2 && k !in others && k2 !in others && Occupied(b) == {k, k2} + others && s in others && others != {s}
    ensures !Insufficient(b)
  {
    assert |others - {s}| == |others| - 1;
    assert others - {s} != {};
    assert {k, k2} !! others;
    assert |{k, k2} + others| == 2 + |others|;
  }

  predicate LoneMinor(b: Board, s: Square) { b[s].Man? && (b[s].piece == KNIGHT || b[s].piece == BISHOP) }

  lemma OneOther(b: Board, k: Square, k2: Square, s: Square)
    requires KingAt(b, WHITE, k) && KingAt(b, BLACK, k2) && s != k && s != k2 && Occupied(b) == {k, k2, s}
    ensures Insufficient(b) <==> LoneMinor(b, s)
  {
    assert |{k, k2, s}| == 3;
    assert s in Occupied(b);
    assert b[s].Man? && (b[s].color == WHITE || b[s].color == BLACK);
    forall t: Square | b[t].Man? ensures t == k || t == k2 || t == s { assert t in Occupied(b); }
  }

  // What the chess rules say about the position reached (checkmate before everything, then stalemate, the
  // fifty-move rule, insufficient material and repetition).
  ghost predicate Verdict(ps: seq<Pos>, ply: int, s: GameState)
    requires 0 <= ply < |ps|
  {
    var p := ps[ply];
    var st := StateOf(p);
    if !HasLegalMove(st) then s == if InCheck(st.board, st.turn) then Checkmate else Stalemate
    else if p.rule50 >= 100 then s == FiftyMoves
    else if Insufficient(st.board) then s == InsufficientMaterial
    else if TwoMatches(ps, ply) then s == Threefold
    else s == Unterminated
  }

  lemma CheckersIffInCheck(p: Pos)
    requires Ready(p)
    ensures p.checkers != {} <==> InCheck(BoardOf(p), p.turn)
  {
    hide Ready, BoardOf, Hits, KingAt, OurKing;
    ReadyKing(p);
    InCheckKing(BoardOf(p), p.turn, OurKing(p));
    DerivedCheckerSet(p);
    if e: Square :| Owned(BoardOf(p), Opposite(p.turn), e) && Hits(BoardOf(p), e, OurKing(p)) {
      assert e in CheckerSet(BoardOf(p), p.turn, OurKing(p));
    }
    NonEmpty(p.checkers);
  }

  // The third occurrence of a position is declared a draw unless an earlier rule fires.
  lemma ThirdOccurrence(z: Tables, ps: seq<Pos>, i: int, j: int, s: GameState)
    requires History(z, ps) && BelowLimit(ps) && 0 <= i < j < |ps| - 1
    requires StateOf(ps[i]) == StateOf(ps[j]) == StateOf(ps[|ps| - 1])
    requires Verdict(ps, |ps| - 1, s)
    requires HasLegalMove(StateOf(ps[|ps| - 1])) && ps[|ps| - 1].rule50 < 100 && !Insufficient(BoardOf(ps[|ps| - 1]))
    ensures s == Threefold
  {
    hide History, HasLegalMove, Insufficient, BoardOf, TwoMatches, InCheck;
    ThreefoldFound(z, ps, i, j);
  }

  // For a third occurrence by the Laws, that is so unless the first occurrence has an en-passant square that
  // nobody can use, with another key than the missing square; then, unless something else matches, play goes on.
  lemma ThirdOccurrenceByLaw(z: Tables, ps: seq<Pos>, i: int, j: int, s: GameState)
    requires History(z, ps) && BelowLimit(ps) && 0 <= i < j < |ps| - 1
    requires SameByLaw(StateOf(ps[i]), StateOf(ps[|ps| - 1])) && SameByLaw(StateOf(ps[j]), StateOf(ps[|ps| - 1]))
    requires Verdict(ps, |ps| - 1, s)
    requires HasLegalMove(StateOf(ps[|ps| - 1])) && ps[|ps| - 1].rule50 < 100 && !Insufficient(BoardOf(ps[|ps| - 1]))
    ensures z.enPassant(ps[i].epSquare) == z.enPassant(NO_SQUARE) ==> s == Threefold
    ensures z.enPassant(ps[i].epSquare) != z.enPassant(NO_SQUARE) && OnlyMatch(ps, |ps| - 1, |ps| - 1 - j) ==> s == Unterminated
  {
    hide History, HasLegalMove, Insufficient, BoardOf, Matches, InCheck, SameByLaw, EpPlayable;
    ThirdByLaw(z, ps, i, j);
  }

  // What the code tests is what the rules speak of.
  lemma VerdictIs(ps: seq<Pos>, ply: int, moves: seq<Move>, s: GameState)
    requires 0 <= ply < |ps| && Ready(ps[ply])
    requires forall m: Move :: m in moves <==> Legal(StateOf(ps[ply]), m)
    requires s == if moves == [] then (if ps[ply].checkers != {} then Checkmate else Stalemate)
                  else if ps[ply].rule50 >= 100 then FiftyMoves
                  else if InsufficientTest(ps[ply]) then InsufficientMaterial
                  else if TwoMatches(ps, ply) then Threefold
                  else Unterminated
    ensures Verdict(ps, ply, s)
  {
    var p := ps[ply];
    CheckersIffInCheck(p);
    ReadyParts(p);
    InsufficientIs(p);
    hide Ready, BoardOf, Represents, Legal, InCheck, InsufficientTest, Insufficient, TwoMatches, WellFormed;
    if moves != [] { assert Legal(StateOf(p), moves[0]); }
  }

  // src/game.c:76-100
  method ApplyChessRules(ps: seq<Pos>, ply: int) returns (s: GameState, moves: seq<Move>)
    requires 0 <= ply < |ps| && Ready(ps[ply])
    ensures Verdict(ps, ply, s)
    ensures forall m: Move :: m in moves <==> Legal(StateOf(ps[ply]), m)
  {
    hide *;
    var p := ps[ply];
    moves := GenAllMoves(p);
    if moves == [] {
      s := if p.checkers != {} then Checkmate else Stalemate;
    } else if p.rule50 >= 100 {
      s := FiftyMoves;
    } else if InsufficientTest(p) {
      s := InsufficientMaterial;
    } else {
      var threefold := ScanRepetitions(ps, ply);
      s := if threefold then Threefold else Unterminated;
    }
    VerdictIs(ps, ply, moves, s);
  }

  // ---- Adjudication --------------------------------------------------------------------------------------

  datatype Options = Options(
    drawNumber: int, drawCount: int, drawScore: int,
    resignNumber: int, resignCount: int, resignScore: int,
    sampling: bool, resolve: bool)

  // Length of the longest suffix of s all of whose elements pass the test.
  function RunLength(test: int -> bool, s: seq<int>): nat
  {
    if s == [] || !test(s[|s| - 1]) then 0 else 1 + RunLength(test, s[..|s| - 1])
  }

  lemma {:induction false} RunLengthAtLeast(test: int -> bool, s: seq<int>, n: nat)
    ensures RunLength(test, s) >= n <==> n <= |s| && forall i: int :: |s| - n <= i < |s| ==> test(s[i])
  {
    if n > 0 && s != [] {
      var t := s[..|s| - 1];
      RunLengthAtLeast(test, t, n - 1);
      if n <= |s| && test(s[|s| - 1]) && forall i: int :: |t| - (n - 1) <= i < |t| ==> test(t[i]) {
        forall i: int | |s| - n <= i < |s| ensures test(s[i]) { assert i < |t| ==> t[i] == s[i]; }
      }
      if n <= |s| && forall i: int :: |s| - n <= i < |s| ==> test(s[i]) {
        forall i: int | |t| - (n - 1) <= i < |t| ensures test(t[i]) { assert t[i] == s[i]; }
      }
    }
  }

  // Scores of engine e, which plays the plies of its parity (the engine `first` plays ply 0).
  function OwnScores(s: seq<int>, first: int, e: int): seq<int>
  {
    if s == [] then []
    else OwnScores(s[..|s| - 1], first, e) + (if (first + |s| - 1) % 2 == e then [s[|s| - 1]] else [])
  }

  function DrawTest(o: Options): int -> bool { score => Abs(score) <= o.drawScore }

  function ResignTest(o: Options): int -> bool { score => score <= -o.resignScore }

  function DrawRun(o: Options, s: seq<int>): nat { if o.drawCount == 0 then 0 else RunLength(DrawTest(o), s) }

  function ResignRun(o: Options, s: seq<int>, first: int, e: int): nat
  {
    if o.resignCount == 0 then 0 else RunLength(ResignTest(o), OwnScores(s, first, e))
  }

  // With the scores s of plies 0..|s|-1, the last ply is adjudicated a draw: both engines have called the
  // game level for drawCount moves each, and drawNumber moves have been played.
  predicate DrawDue(o: Options, s: seq<int>)
  {
    s != [] && o.drawCount != 0 && DrawTest(o)(s[|s| - 1]) && RunLength(DrawTest(o), s) >= 2 * o.drawCount && (|s| - 1) / 2 + 1 >= o.drawNumber
  }

  // The engine that has just answered has given itself up on its last resignCount moves.
  predicate ResignDue(o: Options, s: seq<int>, first: int)
  {
    s != [] && o.resignCount != 0 && ResignTest(o)(s[|s| - 1]) &&
    RunLength(ResignTest(o), OwnScores(s, first, (first + |s| - 1) % 2)) >= o.resignCount && (|s| - 1) / 2 + 1 >= o.resignNumber
  }

  lemma OwnScoresPush(s: seq<int>, x: int, first: int)
    ensures OwnScores(s + [x], first, (first + |s|) % 2) == OwnScores(s, first, (first + |s|) % 2) + [x]
    ensures forall e: int :: e != (first + |s|) % 2 ==> OwnScores(s + [x], first, e) == OwnScores(s, first, e)
  {
    assert (s + [x])[..|s|] == s;
  }

  lemma RunLengthPush(test: int -> bool, s: seq<int>, x: int)
    ensures RunLength(test, s + [x]) == if test(x) then 1 + RunLength(test, s) else 0
  {
    assert (s + [x])[..|s|] == s;
  }

  // ---- The game ------------------------------------------------------------------------------------------

  // What engine_bestmove delivers at one ply, the sampling decision, and the turn that the initializer of a sample
  // finds in it (src/game.c:291 reads it before it is set): all arbitrary.
  datatype Reply = Reply(ok: bool, best: Move, score: int, timeLeft: int, sampled: bool, resolved: Pos, turnRead: int)

  datatype Sample = Sample(pos: Pos, score: int, result: int)

  const RESULT_LOSS := 0
  const RESULT_DRAW := 1
  const RESULT_WIN := 2
  const NB_RESULT := 3

  predicate IsMate(score: int) { score > 32767 - 1024 || score < -32768 + 1024 }

  const BLANK: Pos := Pos.Pos([{}, {}], [{}, {}, {}, {}, {}, {}], {}, 0, {}, {}, {}, NULL_MOVE, 0, WHITE, 0, 0, false)

  const NULL_MOVE: Move := Move.Move(0, 0, KNIGHT)

  // 100 plies for each unit of the measure, less those already counted by rule50: every ply uses up one.
  function Potential(p: Pos): int { 100 * Measure(StateOf(p)) + 100 - p.rule50 }

  lemma PotentialDrops(z: Tables, p: Pos, q: Pos)
    requires Sound(p, z) && p.rule50 < 100 && Follows(z, p, q.lastMove, q)
    ensures Potential(q) < Potential(p) && q.rule50 <= 100
  {
    hide Sound, WellFormed, KeyOf, StateOf, Measure, Resets, NextState, Legal;
    SoundParts(p, z);
    MoveProgress(StateOf(p), q.lastMove);
  }

  lemma PotentialBound(z: Tables, p: Pos)
    requires Sound(p, z) && p.rule50 <= 100
    ensures 0 <= Potential(p) <= 13100
  {
    hide Sound, WellFormed, StateOf, Measure;
    SoundParts(p, z);
    MeasureBound(StateOf(p));
  }

  // The test `if (played)` of src/game.c:214: a legal move is never encoded as 0.
  lemma LegalNotNull(st: State, m: Move)
    requires WellFormed(st) && Legal(st, m)
    ensures m != NULL_MOVE
  {
    hide WellFormed, Legal;
    LegalMover(st, m);
  }

  // The engine that answers at ply i when `first` answers at ply 0.
  function Mover(first: int, i: int): (e: int)
    ensures 0 <= e < 2
  {
    (first + i) % 2
  }

  lemma MoverStep(first: int, i: int)
    ensures Mover(first, i + 1) == 1 - Mover(first, i)
    ensures 0 <= first <= 1 ==> Mover(first, 0) == first
  {}

  // The colour to move at ply i, and the engine to move at ply i (`reverse` plays ply 0).
  function ColorAt(first: Color, i: int): Color { (first + i) % 2 }

  function EngineAt(reverse: bool, i: int): int { ((if reverse then 1 else 0) + i) % 2 }

  // names[c] = engines[c ^ turn ^ reverse] (src/game.c:189-190): the engine that plays colour c.
  function EngineOf(c: Color, first: Color, reverse: bool): int { (c + first + (if reverse then 1 else 0)) % 2 }

  // Result of a finished game for the player of colour c.
  function ResultFor(c: Color, s: GameState, toMove: Color): int
  {
    if !Lost(s) then RESULT_DRAW else if c == toMove then RESULT_LOSS else RESULT_WIN
  }

  // src/game.c:321-352: the PGN result.
  function DecodeResult(s: GameState, toMove: Color): string
  {
    match s
    case Unterminated => "*"
    case Checkmate => if toMove == WHITE then "0-1" else "1-0"
    case IllegalMove => if toMove == WHITE then "0-1" else "1-0"
    case Resign => if toMove == WHITE then "0-1" else "1-0"
    case TimeLoss => if toMove == WHITE then "0-1" else "1-0"
    case _ => "1/2-1/2"
  }

  lemma DecodeAgrees(s: GameState, toMove: Color)
    requires !s.Unterminated?
    ensures DecodeResult(s, toMove) == "1-0" <==> ResultFor(WHITE, s, toMove) == RESULT_WIN
    ensures DecodeResult(s, toMove) == "0-1" <==> ResultFor(WHITE, s, toMove) == RESULT_LOSS
    ensures DecodeResult(s, toMove) == "1/2-1/2" <==> ResultFor(WHITE, s, toMove) == RESULT_DRAW
    ensures ResultFor(BLACK, s, toMove) == 2 - ResultFor(WHITE, s, toMove)
  {
    assert "1-0"[0] != "0-1"[0] && "1/2-1/2"[1] != "1-0"[1] && |"1/2-1/2"| != |"1-0"|;
  }

  // The loop has reached ply: the positions and scores so far, and why every earlier ply went on.
  ghost predicate Reached(z: Tables, o: Options, timed: seq<bool>, replies: nat -> Reply, first: int, start: Pos,
                          ps: seq<Pos>, scores: seq<int>, ply: int)
    requires |timed| == 2
  {
    0 <= ply && |ps| == ply + 1 && |scores| == ply && ps[0] == start &&
    History(z, ps) && BelowLimit(ps) && ps[ply].rule50 <= 100 && Potential(ps[ply]) + ply <= Potential(start) &&
    (forall q: nat :: q < |scores| ==> scores[q] == replies(q).score) &&
    (forall q: nat :: q < ply ==> PlyContinues(o, timed, replies, first, ps, scores, q))
  }

  // How and why the game has ended at ply: by the rules of chess, or by the reply given there.
  ghost predicate Ended(z: Tables, o: Options, timed: seq<bool>, replies: nat -> Reply, first: int, start: Pos,
                        ps: seq<Pos>, scores: seq<int>, ply: int, state: GameState)
    requires |timed| == 2
  {
    0 <= ply && |ps| == ply + 1 && ps[0] == start && History(z, ps) && BelowLimit(ps) && ps[ply].rule50 <= 100 &&
    Potential(ps[ply]) + ply <= Potential(start) &&
    (forall q: nat :: q < |scores| ==> scores[q] == replies(q).score) &&
    (forall q: nat :: q < ply ==> PlyContinues(o, timed, replies, first, ps, scores, q)) &&
    state != Unterminated &&
    if |scores| == ply then Verdict(ps, ply, state)
    else |scores| == ply + 1 && Verdict(ps, ply, Unterminated) &&
         state == ReplyState(o, timed[Mover(first, ply)], replies(ply), Legal(StateOf(ps[ply]), replies(ply).best), scores, first)
  }

  lemma NextReached(z: Tables, o: Options, timed: seq<bool>, replies: nat -> Reply, first: int, start: Pos,
                    ps: seq<Pos>, scores: seq<int>, ply: int, q: Pos)
    requires |timed| == 2 && Reached(z, o, timed, replies, first, start, ps, scores, ply)
    requires Verdict(ps, ply, Unterminated) && Follows(z, ps[ply], replies(ply).best, q)
    requires ReplyState(o, timed[Mover(first, ply)], replies(ply), true, scores + [replies(ply).score], first) == Unterminated
    ensures Reached(z, o, timed, replies, first, start, ps + [q], scores + [replies(ply).score], ply + 1)
  {
    hide Verdict, Potential, ReplyState, StateOf, Legal, Sound, History, Follows, PlyContinues, Mover, NextState, Resets, WellFormed, KeyOf;
    var qs, ss := ps + [q], scores + [replies(ply).score];
    HistorySound(z, ps, ply);
    VerdictBelowLimit(ps, ply);
    FollowsMove(z, ps[ply], replies(ply).best, q);
    HistoryPush(z, ps, q, replies(ply).best);
    PotentialDrops(z, ps[ply], q);
    ScoresKept(replies, scores, ss);
    forall i: nat | i < ply + 1 ensures PlyContinues(o, timed, replies, first, qs, ss, i) {
      if i < ply {
        PlyStable(o, timed, replies, first, ps, scores, qs, ss, i);
      } else {
        LastPlyContinues(o, timed, replies, first, ps, scores, ply, q);
      }
    }
  }

  lemma FollowsMove(z: Tables, p: Pos, m: Move, q: Pos)
    requires Follows(z, p, m, q)
    ensures q.lastMove == m
  {}

  lemma LastPlyContinues(o: Options, timed: seq<bool>, replies: nat -> Reply, first: int, ps: seq<Pos>, scores: seq<int>, ply: nat, q: Pos)
    requires |timed| == 2 && |ps| == ply + 1 && |scores| == ply && Verdict(ps, ply, Unterminated) && q.lastMove == replies(ply).best
    requires ReplyState(o, timed[Mover(first, ply)], replies(ply), true, scores + [replies(ply).score], first) == Unterminated
    ensures PlyContinues(o, timed, replies, first, ps + [q], scores + [replies(ply).score], ply)
  {
    hide Verdict, ReplyState;
    var qs, ss := ps + [q], scores + [replies(ply).score];
    assert qs[..ply + 1] == ps && ss[..ply + 1] == ss;
  }

  lemma StartReached(z: Tables, o: Options, timed: seq<bool>, replies: nat -> Reply, first: int, start: Pos)
    requires |timed| == 2 && Sound(start, z) && start.rule50 < 100
    ensures Reached(z, o, timed, replies, first, start, [start], [], 0)
  {
    hide Sound, Potential;
    StartHistory(z, [start]);
  }

  lemma EndByRules(z: Tables, o: Options, timed: seq<bool>, replies: nat -> Reply, first: int, start: Pos,
                   ps: seq<Pos>, scores: seq<int>, ply: int, state: GameState)
    requires |timed| == 2 && Reached(z, o, timed, replies, first, start, ps, scores, ply)
    requires Verdict(ps, ply, state) && state != Unterminated
    ensures Ended(z, o, timed, replies, first, start, ps, scores, ply, state)
  {
    hide Verdict, History, PlyContinues, Potential, ReplyState, StateOf, Legal;
  }

  lemma EndByReply(z: Tables, o: Options, timed: seq<bool>, replies: nat -> Reply, first: int, start: Pos,
                   ps: seq<Pos>, scores: seq<int>, ply: int, state: GameState)
    requires |timed| == 2 && Reached(z, o, timed, replies, first, start, ps, scores, ply)
    requires Verdict(ps, ply, Unterminated) && state != Unterminated
    requires state == ReplyState(o, timed[Mover(first, ply)], replies(ply), Legal(StateOf(ps[ply]), replies(ply).best),
                                 scores + [replies(ply).score], first)
    ensures Ended(z, o, timed, replies, first, start, ps, scores + [replies(ply).score], ply, state)
  {
    hide Verdict, History, PlyContinues, Potential, ReplyState, StateOf, Legal;
    ScoresKept(replies, scores, scores + [replies(ply).score]);
    forall q: nat | q < ply ensures PlyContinues(o, timed, replies, first, ps, scores + [replies(ply).score], q) {
      PlyStable(o, timed, replies, first, ps, scores, ps, scores + [replies(ply).score], q);
    }
  }

  lemma ReachedFacts(z: Tables, o: Options, timed: seq<bool>, replies: nat -> Reply, first: int, start: Pos,
                     ps: seq<Pos>, scores: seq<int>, ply: int)
    requires |timed| == 2 && Reached(z, o, timed, replies, first, start, ps, scores, ply)
    ensures 0 <= ply && |ps| == ply + 1 && |scores| == ply && Sound(ps[ply], z) && Ready(ps[ply])
    ensures 0 <= Potential(ps[ply]) && ply <= Potential(start) - Potential(ps[ply])
    ensures ps[ply].rule50 <= 100
  {
    hide Sound, Ready, History, PlyContinues, Potential;
    HistorySound(z, ps, ply);
    SoundReady(z, ps[ply]);
    PotentialBound(z, ps[ply]);
  }

  lemma EndedFacts(z: Tables, o: Options, timed: seq<bool>, replies: nat -> Reply, first: int, start: Pos,
                   ps: seq<Pos>, scores: seq<int>, ply: int, state: GameState)
    requires |timed| == 2 && Ended(z, o, timed, replies, first, start, ps, scores, ply, state)
    ensures 0 <= ply < |ps| && ps[0] == start && ply <= Potential(start) && ps[ply].turn == ColorAt(start.turn, ply)
    ensures state != Unterminated
  {
    hide Sound, History, PlyContinues, Potential, Verdict, ReplyState, Legal, StateOf;
    HistorySound(z, ps, ply);
    PotentialBound(z, ps[ply]);
    TurnAt(z, ps, ply);
  }

  // Until the end nothing occurs for the third time: the game stops at the first third occurrence.
  lemma NoThirdOccurrenceBefore(z: Tables, o: Options, timed: seq<bool>, replies: nat -> Reply, first: int, start: Pos,
                                ps: seq<Pos>, scores: seq<int>, ply: int, state: GameState, i: int, j: int, q: int)
    requires |timed| == 2 && Ended(z, o, timed, replies, first, start, ps, scores, ply, state) && 0 <= i < j < q < ply
    ensures !(StateOf(ps[i]) == StateOf(ps[j]) == StateOf(ps[q]))
  {
    hide Sound, Potential, ReplyState, StateOf, Legal, Follows, Verdict, TwoMatches, History;
    var prefix := ps[..q + 1];
    assert PlyContinues(o, timed, replies, first, ps, scores, q);
    HistoryPrefix(z, ps, prefix);
    OpenMeansNoMatches(prefix, q);
    if StateOf(ps[i]) == StateOf(ps[j]) == StateOf(ps[q]) { ThreefoldFound(z, prefix, i, j); }
  }

  lemma HistoryPrefix(z: Tables, ps: seq<Pos>, prefix: seq<Pos>)
    requires History(z, ps) && 0 < |prefix| && prefix <= ps
    ensures History(z, prefix)
  {
    hide Sound, Follows;
    forall i: int | 0 < i < |prefix| ensures Follows(z, prefix[i - 1], prefix[i].lastMove, prefix[i]) {
      assert Follows(z, ps[i - 1], ps[i].lastMove, ps[i]);
    }
  }

  lemma OpenMeansNoMatches(ps: seq<Pos>, ply: int)
    requires 0 <= ply < |ps| && Verdict(ps, ply, Unterminated)
    ensures !TwoMatches(ps, ply)
  {
    hide HasLegalMove, Insufficient, TwoMatches, InCheck;
  }

  // names[c] = engines[c ^ turn ^ reverse] (src/game.c:189-190): at every ply of a game, the engine that is asked
  // for a move is the one named for the colour to move there.
  lemma EngineToMovePlaysItsColor(z: Tables, o: Options, timed: seq<bool>, replies: nat -> Reply, reverse: bool, start: Pos,
                                  ps: seq<Pos>, scores: seq<int>, ply: int, state: GameState, q: int)
    requires |timed| == 2 && Ended(z, o, timed, replies, if reverse then 1 else 0, start, ps, scores, ply, state) && 0 <= q <= ply
    ensures EngineOf(ps[q].turn, ps[0].turn, reverse) == Mover(if reverse then 1 else 0, q)
  {
    hide Sound, Potential, ReplyState, StateOf, Legal, Verdict, History, PlyContinues;
    TurnAt(z, ps, q);
  }

  class Game {
    var vecPos: seq<Pos>
    var vecInfo: seq<int>
    var vecSamples: seq<Sample>
    var ply: int
    var state: GameState

    constructor (start: Pos)
      ensures vecPos == [start] && vecInfo == [] && vecSamples == []
    {
      vecPos, vecInfo, vecSamples, ply, state := [start], [], [], 0, Unterminated;
    }

    // src/game.c:213-215: on to the next ply, with the move of the last reply played into the new entry.
    method Advance(z: Tables, played: Move, ghost before: seq<Pos>)
      requires 0 <= ply && |before| == ply + 1 && |vecPos| == ply + 2 && vecPos[..ply + 1] == before
      requires Sound(before[ply], z) && Legal(StateOf(before[ply]), played)
      modifies `vecPos, `ply
      ensures ply == old(ply) + 1 && |vecPos| == ply + 1 && vecPos == before + [vecPos[ply]]
      ensures Follows(z, before[ply - 1], played, vecPos[ply])
    {
      hide Sound, Legal, StateOf, NextState, WellFormed, Resets;
      SoundParts(before[ply], z);
      LegalNotNull(StateOf(before[ply]), played);
      ply := ply + 1;
      var pos := new Position();
      pos.Play(z, vecPos[ply - 1], played);
      vecPos := vecPos[ply := pos.View()];
      pos.ViewFields();
      pos.ViewLastMove();
    }

    // src/game.c:242-301: what one reply of engine ei leads to.
    method Answer(o: Options, timed: bool, r: Reply, first: int, ei: int, legal: seq<Move>, drawCount: int, resignCount: seq<int>)
      returns (stop: bool, drawCount': int, resignCount': seq<int>)
      requires |vecPos| == ply + 1 && 0 <= ply && |vecInfo| == ply && state == Unterminated
      requires 0 <= first <= 1 && ei == Mover(first, ply) && |resignCount| == 2
      requires drawCount == DrawRun(o, vecInfo) && (forall e: int :: 0 <= e < 2 ==> resignCount[e] == ResignRun(o, vecInfo, first, e))
      modifies `vecPos, `vecInfo, `vecSamples, `state
      ensures vecInfo == old(vecInfo) + [r.score]
      ensures state == ReplyState(o, timed, r, r.best in legal, vecInfo, first) && (stop <==> state != Unterminated)
      ensures if stop then vecPos == old(vecPos) else |vecPos| == |old(vecPos)| + 1 && vecPos[..ply + 1] == old(vecPos)
      ensures |resignCount'| == 2
      ensures !stop ==> drawCount' == DrawRun(o, vecInfo)
      ensures !stop ==> forall e: int :: 0 <= e < 2 ==> resignCount'[e] == ResignRun(o, vecInfo, first, e)
    {
      vecInfo := vecInfo + [r.score];
      DrawPush(o, old(vecInfo), r.score, drawCount);
      ResignPush(o, old(vecInfo), r.score, first, ei, resignCount);
      hide RunLength, OwnScores, DrawRun, ResignRun, DrawDue, ResignDue;
      drawCount', resignCount' := drawCount, resignCount;
      if !r.ok {
        state := TimeLoss;
        return true, drawCount', resignCount';
      }
      if r.best !in legal {
        state := IllegalMove;
        return true, drawCount', resignCount';
      }
      if timed && r.timeLeft < 0 {
        state := TimeLoss;
        return true, drawCount', resignCount';
      }
      if o.drawCount != 0 && Abs(r.score) <= o.drawScore {
        drawCount' := drawCount' + 1;
        if drawCount' >= 2 * o.drawCount && ply / 2 + 1 >= o.drawNumber {
          state := DrawAdjudication;
          return true, drawCount', resignCount';
        }
      } else {
        drawCount' := 0;
      }
      if o.resignCount != 0 && r.score <= -o.resignScore {
        resignCount' := resignCount'[ei := resignCount'[ei] + 1];
        if resignCount'[ei] >= o.resignCount && ply / 2 + 1 >= o.resignNumber {
          state := Resign;
          return true, drawCount', resignCount';
        }
      } else {
        resignCount' := resignCount'[ei := 0];
      }
      RecordSample(o, r);
      vecPos := vecPos + [BLANK];
      stop := false;
    }

    // src/game.c:286-299: the position (or the one resolved from the PV) with the score; it is from the side of that
    // position when the turn read is the one stored.
    method RecordSample(o: Options, r: Reply)
      requires 0 <= ply < |vecPos|
      modifies `vecSamples
      ensures |old(vecSamples)| <= |vecSamples| <= |old(vecSamples)| + 1 && vecSamples[..|old(vecSamples)|] == old(vecSamples)
      ensures |vecSamples| > |old(vecSamples)| <==>
              o.sampling && r.sampled && (o.resolve ==> -32768 + 1024 <= r.score <= 32767 - 1024 && r.resolved.checkers == {})
      ensures |vecSamples| > |old(vecSamples)| ==>
              var x := vecSamples[|old(vecSamples)|];
              x.pos == (if o.resolve then r.resolved else vecPos[ply]) && x.result == NB_RESULT &&
              x.score == (if r.turnRead == vecPos[ply].turn then r.score else -r.score)
    {
      if o.sampling && !(o.resolve && IsMate(r.score)) && r.sampled {
        var pos := if o.resolve then r.resolved else vecPos[ply];
        var sample := Sample.Sample(pos, if r.turnRead == vecPos[ply].turn then r.score else -r.score, NB_RESULT);
        if !o.resolve || sample.pos.checkers == {} {
          vecSamples := vecSamples + [sample];
        }
      }
    }

    // src/game.c:214-301: one pass through the loop.
    method OnePly(z: Tables, o: Options, timed: seq<bool>, replies: nat -> Reply, first: int, ei: int,
                  drawCount: int, resignCount: seq<int>, ghost start: Pos)
      returns (stop: bool, drawCount': int, resignCount': seq<int>)
      requires |timed| == 2 && 0 <= first <= 1 && Reached(z, o, timed, replies, first, start, vecPos, vecInfo, ply)
      requires state == Unterminated && ei == Mover(first, ply) && |resignCount| == 2
      requires drawCount == DrawRun(o, vecInfo) && forall e: int :: 0 <= e < 2 ==> resignCount[e] == ResignRun(o, vecInfo, first, e)
      modifies this
      ensures if stop then ply == old(ply) && Ended(z, o, timed, replies, first, start, vecPos, vecInfo, ply, state)
              else ply == old(ply) + 1 && state == Unterminated && Reached(z, o, timed, replies, first, start, vecPos, vecInfo, ply)
      ensures |resignCount'| == 2
      ensures !stop ==> drawCount' == DrawRun(o, vecInfo)
      ensures !stop ==> forall e: int :: 0 <= e < 2 ==> resignCount'[e] == ResignRun(o, vecInfo, first, e)
    {
      hide *;
      drawCount', resignCount' := drawCount, resignCount;
      ReachedFacts(z, o, timed, replies, first, start, vecPos, vecInfo, ply);
      var legal;
      state, legal := ApplyChessRules(vecPos, ply);
      if state != Unterminated {
        EndByRules(z, o, timed, replies, first, start, vecPos, vecInfo, ply, state);
        return true, drawCount', resignCount';
      }
      ghost var before, scores := vecPos, vecInfo;
      stop, drawCount', resignCount' := Answer(o, timed[ei], replies(ply), first, ei, legal, drawCount, resignCount);
      if stop {
        EndByReply(z, o, timed, replies, first, start, before, scores, ply, state);
      } else {
        ReplyLegal(o, timed[ei], replies(ply), replies(ply).best in legal, vecInfo, first);
        Advance(z, replies(ply).best, before);
        NextReached(z, o, timed, replies, first, start, before, scores, ply - 1, vecPos[ply]);
      }
    }

    // src/game.c:206-302: the loop, which ends whatever the engines reply.
    method Loop(z: Tables, o: Options, timed: seq<bool>, replies: nat -> Reply, first: int) returns (ei: int)
      requires |timed| == 2 && |vecPos| == 1 && vecInfo == [] && 0 <= first <= 1
      requires Sound(vecPos[0], z) && vecPos[0].rule50 < 100
      modifies this
      ensures Ended(z, o, timed, replies, first, old(vecPos[0]), vecPos, vecInfo, ply, state)
      ensures ei == Mover(first, ply)
    {
      hide *;
      ghost var start := vecPos[0];
      ei := first;
      var drawCount, resignCount := 0, [0, 0];
      ply, state := 0, Unterminated;
      StartReached(z, o, timed, replies, first, start);
      NoScores(o, first);
      MoverStep(first, 0);
      assert vecPos == [start];
      var stop := false;
      while !stop
        invariant !stop ==> Reached(z, o, timed, replies, first, start, vecPos, vecInfo, ply) && state == Unterminated
        invariant stop ==> Ended(z, o, timed, replies, first, start, vecPos, vecInfo, ply, state)
        invariant ei == Mover(first, ply) && |resignCount| == 2
        invariant !stop ==> drawCount == DrawRun(o, vecInfo)
        invariant !stop ==> forall e: int :: 0 <= e < 2 ==> resignCount[e] == ResignRun(o, vecInfo, first, e)
        decreases !stop, Potential(start) - ply
      {
        ReachedFacts(z, o, timed, replies, first, start, vecPos, vecInfo, ply);
        stop, drawCount, resignCount := OnePly(z, o, timed, replies, first, ei, drawCount, resignCount, start);
        if !stop {
          MoverStep(first, ply - 1);
          ei := 1 - ei;
        }
      }
    }

    // src/game.c:308-314
    method ScoreSamples()
      requires 0 <= ply < |vecPos|
      modifies `vecSamples
      ensures |vecSamples| == |old(vecSamples)|
      ensures forall i: int :: 0 <= i < |vecSamples| ==>
                vecSamples[i] == old(vecSamples)[i].(result := ResultFor(vecSamples[i].pos.turn, state, vecPos[ply].turn))
    {
      var wpov := if Lost(state) then (if vecPos[ply].turn == WHITE then RESULT_LOSS else RESULT_WIN) else RESULT_DRAW;
      var i := 0;
      while i < |vecSamples|
        invariant 0 <= i <= |vecSamples| == |old(vecSamples)|
        invariant forall j: int :: 0 <= j < i ==>
                    vecSamples[j] == old(vecSamples)[j].(result := ResultFor(vecSamples[j].pos.turn, state, vecPos[ply].turn))
        invariant forall j: int :: i <= j < |vecSamples| ==> vecSamples[j] == old(vecSamples)[j]
      {
        SampleResult(vecSamples[i].pos.turn, state, vecPos[ply].turn);
        vecSamples := vecSamples[i := vecSamples[i].(result := if vecSamples[i].pos.turn == WHITE then wpov else 2 - wpov)];
        i := i + 1;
      }
    }

    // src/game.c:182-319
    method Play(z: Tables, o: Options, timed: seq<bool>, replies: nat -> Reply, reverse: bool) returns (wld: int)
      requires |timed| == 2 && |vecPos| == 1 && vecInfo == [] && vecSamples == []
      requires Sound(vecPos[0], z) && vecPos[0].rule50 < 100
      modifies this
      ensures Ended(z, o, timed, replies, if reverse then 1 else 0, old(vecPos[0]), vecPos, vecInfo, ply, state)
      ensures 0 <= ply <= 13100 && ply < |vecPos|
      // the value returned is the result of engine 0, and each sample carries the result of its own side to move
      ensures wld == ResultFor(ColorOf(0, vecPos[0].turn, reverse), state, vecPos[ply].turn)
      ensures forall i: int :: 0 <= i < |vecSamples| ==> vecSamples[i].result == ResultFor(vecSamples[i].pos.turn, state, vecPos[ply].turn)
      // 0 for a loss of engine 0, 2 for a win, 1 for a draw
      ensures var lost := state == Checkmate || state == TimeLoss || state == IllegalMove || state == Resign;
              wld == (if !lost then 1 else if ((if reverse then 1 else 0) + ply) % 2 == 0 then 0 else 2) &&
              forall i: int :: 0 <= i < |vecSamples| ==>
                vecSamples[i].result == if !lost then 1 else if vecSamples[i].pos.turn == vecPos[ply].turn then 0 else 2
    {
      hide Sound, Ended, Potential, ReplyState, History, ResultFor, ColorOf, ColorAt, Mover, Lost;
      ghost var start := vecPos[0];
      var first := if reverse then 1 else 0;
      PotentialBound(z, start);
      var ei := Loop(z, o, timed, replies, first);
      EndedFacts(z, o, timed, replies, first, start, vecPos, vecInfo, ply, state);
      ScoreSamples();
      EndingResults(start.turn, reverse, ply, state);
      MoverIs(first, ply);
      LostIs(state);
      forall c: Color ensures ResultFor(c, state, vecPos[ply].turn) == if !Lost(state) then 1 else if c == vecPos[ply].turn then 0 else 2 {
        ResultForIs(c, state, vecPos[ply].turn);
      }
      wld := if Lost(state) then (if ei == 0 then RESULT_LOSS else RESULT_WIN) else RESULT_DRAW;
    }
  }

  lemma SampleResult(c: Color, s: GameState, toMove: Color)
    ensures var wpov := if Lost(s) then (if toMove == WHITE then RESULT_LOSS else RESULT_WIN) else RESULT_DRAW;
            ResultFor(c, s, toMove) == if c == WHITE then wpov else 2 - wpov
  {
    assert (c == WHITE || c == BLACK) && (toMove == WHITE || toMove == BLACK);
  }

  // Checkmate, loss on time, illegal move and resignation are lost by the side to move; everything else is drawn.
  // The engine to move at ply is number (first + ply) % 2, and results are told for engine 0.
  lemma EndingResults(first: Color, reverse: bool, ply: nat, state: GameState)
    ensures DecodeResult(Unterminated, ColorAt(first, ply)) == "*"
    ensures state != Unterminated ==>
            var lost := state == Checkmate || state == TimeLoss || state == IllegalMove || state == Resign;
            var turn, mover := ColorAt(first, ply), ((if reverse then 1 else 0) + ply) % 2;
            ResultFor(ColorOf(0, first, reverse), state, turn) == (if !lost then 1 else if mover == 0 then 0 else 2) &&
            ResultFor(turn, state, turn) == (if lost then 0 else 1) &&
            DecodeResult(state, turn) == (if !lost then "1/2-1/2" else if turn == WHITE then "0-1" else "1-0")
  {}

  lemma ResultForIs(c: Color, s: GameState, toMove: Color)
    ensures ResultFor(c, s, toMove) == if !Lost(s) then 1 else if c == toMove then 0 else 2
  {}

  lemma MoverIs(first: int, i: nat)
    ensures Mover(first, i) == (first + i) % 2
  {}

  lemma LostIs(s: GameState)
    ensures Lost(s) <==> s == Checkmate || s == TimeLoss || s == IllegalMove || s == Resign
  {}

  lemma ScoresKept(replies: nat -> Reply, scores: seq<int>, now: seq<int>)
    requires |now| == |scores| + 1 && now[..|scores|] == scores && now[|scores|] == replies(|scores|).score
    requires forall q: nat :: q < |scores| ==> scores[q] == replies(q).score
    ensures forall q: nat :: q < |now| ==> now[q] == replies(q).score
  {
    forall q: nat | q < |now| ensures now[q] == replies(q).score { assert q < |scores| ==> now[q] == now[..|scores|][q]; }
  }

  lemma TurnAt(z: Tables, ps: seq<Pos>, ply: int)
    requires History(z, ps) && 0 <= ply < |ps|
    ensures ps[ply].turn == ColorAt(ps[0].turn, ply)
  {
    hide History;
    TurnParity(z, ps, 0, ply);
  }

  lemma StartHistory(z: Tables, ps: seq<Pos>)
    requires |ps| == 1 && Sound(ps[0], z)
    ensures History(z, ps)
  {}

  lemma NoScores(o: Options, first: int)
    ensures DrawRun(o, []) == 0 && ResignRun(o, [], first, 0) == 0 && ResignRun(o, [], first, 1) == 0
  {}

  lemma SoundReady(z: Tables, p: Pos)
    requires Sound(p, z)
    ensures Ready(p)
  {}

  lemma VerdictBelowLimit(ps: seq<Pos>, ply: int)
    requires 0 <= ply < |ps| && Verdict(ps, ply, Unterminated)
    ensures ps[ply].rule50 < 100
  {
    hide HasLegalMove, Insufficient, TwoMatches, InCheck;
  }

  lemma ReplyLegal(o: Options, timed: bool, r: Reply, legal: bool, s: seq<int>, first: int)
    requires ReplyState(o, timed, r, legal, s, first) == Unterminated
    ensures legal
  {}

  // The colour that engine e plays.
  function ColorOf(e: int, first: Color, reverse: bool): Color { (e + first + (if reverse then 1 else 0)) % 2 }

  // At ply q the rules let the game go on, and so did the reply.
  ghost predicate PlyContinues(o: Options, timed: seq<bool>, replies: nat -> Reply, first: int, ps: seq<Pos>, s: seq<int>, q: nat)
    requires |timed| == 2
  {
    q + 1 < |ps| && q < |s| && Verdict(ps[..q + 1], q, Unterminated) && ps[q + 1].lastMove == replies(q).best &&
    ReplyState(o, timed[Mover(first, q)], replies(q), true, s[..q + 1], first) == Unterminated
  }

  lemma PlyStable(o: Options, timed: seq<bool>, replies: nat -> Reply, first: int, ps: seq<Pos>, s: seq<int>, ps2: seq<Pos>, s2: seq<int>, q: nat)
    requires |timed| == 2 && PlyContinues(o, timed, replies, first, ps, s, q)
    requires q + 1 < |ps2| && ps2[..q + 2] == ps[..q + 2] && q < |s2| && s2[..q + 1] == s[..q + 1]
    ensures PlyContinues(o, timed, replies, first, ps2, s2, q)
  {
    hide Verdict, ReplyState;
    assert ps2[..q + 1] == ps2[..q + 2][..q + 1] && ps[..q + 1] == ps[..q + 2][..q + 1];
    assert ps2[..q + 2][q + 1] == ps[..q + 2][q + 1];
  }

  // How a reply ends the game, if it does.
  function ReplyState(o: Options, timed: bool, r: Reply, legal: bool, s: seq<int>, first: int): GameState
  {
    if !r.ok then TimeLoss
    else if !legal then IllegalMove
    else if timed && r.timeLeft < 0 then TimeLoss
    else if DrawDue(o, s) then DrawAdjudication
    else if ResignDue(o, s, first) then Resign
    else Unterminated
  }

  // The two counters of the loop after a score x at ply |s|.
  function NextDrawCount(o: Options, x: int, drawCount: int): int
  {
    if o.drawCount != 0 && Abs(x) <= o.drawScore then drawCount + 1 else 0
  }

  function NextResignCount(o: Options, x: int, resignCount: int): int
  {
    if o.resignCount != 0 && x <= -o.resignScore then resignCount + 1 else 0
  }

  lemma DrawPush(o: Options, s: seq<int>, x: int, drawCount: int)
    requires drawCount == DrawRun(o, s)
    ensures DrawRun(o, s + [x]) == NextDrawCount(o, x, drawCount)
    ensures DrawDue(o, s + [x]) <==> o.drawCount != 0 && Abs(x) <= o.drawScore &&
                                     NextDrawCount(o, x, drawCount) >= 2 * o.drawCount && |s| / 2 + 1 >= o.drawNumber
  {
    RunLengthPush(DrawTest(o), s, x);
    hide RunLength;
  }

  lemma ResignPush(o: Options, s: seq<int>, x: int, first: int, ei: int, resignCount: seq<int>)
    requires 0 <= first <= 1 && ei == (first + |s|) % 2 && |resignCount| == 2
    requires forall e: int :: 0 <= e < 2 ==> resignCount[e] == ResignRun(o, s, first, e)
    ensures var now := NextResignCount(o, x, resignCount[ei]);
            (forall e: int :: 0 <= e < 2 ==> resignCount[ei := now][e] == ResignRun(o, s + [x], first, e)) &&
            (ResignDue(o, s + [x], first) <==> o.resignCount != 0 && x <= -o.resignScore &&
                                               now >= o.resignCount && |s| / 2 + 1 >= o.resignNumber)
  {
    OwnScoresPush(s, x, first);
    RunLengthPush(ResignTest(o), OwnScores(s, first, ei), x);
    hide RunLength, OwnScores;
    assert resignCount[ei] == ResignRun(o, s, first, ei);
    assert resignCount[1 - ei] == ResignRun(o, s, first, 1 - ei);
  }

  lemma HistoryPush(z: Tables, ps: seq<Pos>, q: Pos, m: Move)
    requires History(z, ps) && Follows(z, ps[|ps| - 1], m, q) && q.lastMove == m
    ensures History(z, ps + [q])
  {
    hide Follows, Sound;
  }
}
