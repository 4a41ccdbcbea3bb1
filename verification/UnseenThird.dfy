/** A game with a third occurrence by the Laws that the scan of src/game.c:90-97 does not count: after e2-e4 the
    en-passant capture would expose the king, and then both kings go to and fro. */
module UnseenThird {
  import opened Geometry
  import opened Rules
  import opened Legality
  import opened Zobrist
  import opened Positions
  import opened PositionClass
  import opened Repetition
  import opened LawRepetition
  import opened SoundPositions
  import opened FenSpec
  import opened Examples

  // 3k4/8/8/8/3pP3/8/8/3R2K1 b - e3 0 1, and the kings elsewhere: the black pawn is pinned by the rook.
  function PinnedBoard(wk: Square, bk: Square): Board
  {
    NoMen()[3 := Man(WHITE, ROOK)][28 := Man(WHITE, PAWN)][27 := Man(BLACK, PAWN)][wk := Man(WHITE, KING)][bk := Man(BLACK, KING)]
  }

  predicate KingsThere(wk: Square, bk: Square) { 6 <= wk <= 7 && 59 <= bk <= 60 }

  function Shuffled(wk: Square, bk: Square, turn: Color, ep: OptSquare): State { State(PinnedBoard(wk, bk), turn, {}, ep) }

  lemma PinnedMen(wk: Square, bk: Square)
    requires KingsThere(wk, bk)
    ensures KingAt(PinnedBoard(wk, bk), WHITE, wk) && KingAt(PinnedBoard(wk, bk), BLACK, bk) && PawnRanksOk(PinnedBoard(wk, bk))
    ensures forall s: Square :: Owned(PinnedBoard(wk, bk), WHITE, s) <==> s == 3 || s == 28 || s == wk
    ensures forall s: Square :: Owned(PinnedBoard(wk, bk), BLACK, s) <==> s == 27 || s == bk
  {}

  lemma PinnedCounts(wk: Square, bk: Square)
    requires KingsThere(wk, bk)
    ensures CountsOk(PinnedBoard(wk, bk), WHITE) && CountsOk(PinnedBoard(wk, bk), BLACK)
  {
    var b := PinnedBoard(wk, bk);
    assert Men(b, WHITE, ROOK) == {3} && Men(b, WHITE, PAWN) == {28} && Men(b, BLACK, PAWN) == {27};
    forall p: Piece | p != KING && p != PAWN ensures Men(b, BLACK, p) == {} {}
    forall p: Piece | p != KING && p != PAWN && p != ROOK ensures Men(b, WHITE, p) == {} {}
    assert Army(b, WHITE) == {3, 28, wk} && Army(b, BLACK) == {27, bk};
    hide Army, Men, PinnedBoard;
  }

  lemma RookIsBlocked(b: Board, t: Square)
    requires 59 <= t <= 60 && b[3] == Man(WHITE, ROOK) && b[27] != Empty
    ensures !Hits(b, 3, t)
  {
    assert Between(3, 27, 59);
  }

  lemma PinnedIsQuiet(wk: Square, bk: Square)
    requires KingsThere(wk, bk)
    ensures !InCheck(PinnedBoard(wk, bk), WHITE) && !InCheck(PinnedBoard(wk, bk), BLACK)
  {
    var b := PinnedBoard(wk, bk);
    PinnedMen(wk, bk);
    assert b[28] == Man(WHITE, PAWN) && b[27] == Man(BLACK, PAWN) && b[3] == Man(WHITE, ROOK);
    hide PinnedBoard;
    RookIsBlocked(b, bk);
    InCheckKing(b, WHITE, wk);
    InCheckKing(b, BLACK, bk);
    hide InCheck;
    assert !Hits(b, 28, bk) && !Hits(b, wk, bk) && !Hits(b, 27, wk) && !Hits(b, bk, wk);
  }

  lemma ShuffledIsWellFormed(wk: Square, bk: Square, turn: Color)
    requires KingsThere(wk, bk)
    ensures WellFormed(Shuffled(wk, bk, turn, NO_SQUARE)) && Orthodox(Shuffled(wk, bk, turn, NO_SQUARE))
  {
    hide PinnedBoard, InCheck, CountsOk, PawnRanksOk, KingAt, WellFormed, Orthodox;
    PinnedMen(wk, bk);
    PinnedCounts(wk, bk);
    PinnedIsQuiet(wk, bk);
    assert turn == WHITE || turn == BLACK;
    PlainWellFormed(PinnedBoard(wk, bk), turn, wk, bk);
  }

  // One king goes next door.
  lemma WhiteSteps(wk: Square, bk: Square)
    requires KingsThere(wk, bk)
    ensures var st, m := Shuffled(wk, bk, WHITE, NO_SQUARE), Move.Move(wk, 13 - wk, NO_PIECE);
            KingsThere(13 - wk, bk) && Legal(st, m) && !Resets(st, m) && NextState(st, m) == Shuffled(13 - wk, bk, BLACK, NO_SQUARE)
  {
    hide InCheck, Attacked, Castling;
    var st, m := Shuffled(wk, bk, WHITE, NO_SQUARE), Move.Move(wk, 13 - wk, NO_PIECE);
    assert PieceMove(st, m);
    assert PlayBoard(st, m) == PinnedBoard(13 - wk, bk);
    PinnedIsQuiet(13 - wk, bk);
  }

  lemma BlackSteps(wk: Square, bk: Square, ep: OptSquare)
    requires KingsThere(wk, bk)
    ensures var st, m := Shuffled(wk, bk, BLACK, ep), Move.Move(bk, 119 - bk, NO_PIECE);
            KingsThere(wk, 119 - bk) && Legal(st, m) && !Resets(st, m) && NextState(st, m) == Shuffled(wk, 119 - bk, WHITE, NO_SQUARE)
  {
    hide InCheck, Attacked, Castling;
    var st, m := Shuffled(wk, bk, BLACK, ep), Move.Move(bk, 119 - bk, NO_PIECE);
    assert PieceMove(st, m);
    assert PlayBoard(st, m) == PinnedBoard(wk, 119 - bk);
    PinnedIsQuiet(wk, 119 - bk);
  }

  // Right after e2-e4: d4xe3 would expose the king on d8.
  function AfterPush(): State { Shuffled(6, 59, BLACK, 20) }

  lemma CaptureExposes()
    ensures !EpPlayable(AfterPush())
  {
    var b := PinnedBoard(6, 59);
    var after := b[27 := Empty][20 := Man(BLACK, PAWN)][28 := Empty];
    forall m: Move | EnPassant(AfterPush(), m) ensures !Legal(AfterPush(), m) {
      assert m.from == 27 && m.to == 20;
      assert PlayBoard(AfterPush(), m) == after;
      FileOpens(after);
    }
  }

  lemma FileOpens(after: Board)
    requires after == PinnedBoard(6, 59)[27 := Empty][20 := Man(BLACK, PAWN)][28 := Empty]
    ensures InCheck(after, BLACK)
  {
    forall x: Square | Between(3, x, 59) ensures after[x] == Empty { assert FileOf(x) == 3; }
    assert Hits(after, 3, 59) && Owned(after, WHITE, 3);
    assert Attacked(after, WHITE, 59) && after[59] == Man(BLACK, KING);
    hide Attacked;
  }

  lemma AfterPushCells()
    ensures var b := PinnedBoard(6, 59); b[20] == Empty && b[28] == Man(WHITE, PAWN) && b[12] == Empty
    ensures AfterPush() == State(PinnedBoard(6, 59), BLACK, {}, 20) && WithoutEp(AfterPush()) == Shuffled(6, 59, BLACK, NO_SQUARE)
  {}

  lemma AfterPushEp()
    ensures EpOk(AfterPush())
  {
    hide PinnedBoard, InCheck, AfterPush, UndoDoublePush;
    AfterPushCells();
    BeforePushQuiet(PinnedBoard(6, 59), UndoDoublePush(PinnedBoard(6, 59), WHITE, 20));
  }

  lemma AfterPushIsWellFormed()
    ensures WellFormed(AfterPush()) && Orthodox(AfterPush()) && AfterPush().turn == BLACK
  {
    hide WellFormed, Orthodox, EpOk, AfterPush, Shuffled, WithoutEp;
    AfterPushCells();
    AfterPushEp();
    ShuffledIsWellFormed(6, 59, BLACK);
    EpIsLast(AfterPush());
  }

  lemma EpIsLast(st: State)
    requires WellFormed(WithoutEp(st)) && Orthodox(WithoutEp(st)) && EpOk(st)
    ensures WellFormed(st) && Orthodox(st)
  {
    hide InCheck, CountsOk, PawnRanksOk, KingAt;
  }

  lemma BeforePushQuiet(b: Board, before: Board)
    requires b == PinnedBoard(6, 59) && before == UndoDoublePush(b, WHITE, 20)
    ensures !InCheck(before, BLACK)
  {
    assert KingAt(before, BLACK, 59);
    assert forall s: Square :: Owned(before, WHITE, s) <==> s == 3 || s == 12 || s == 6;
    assert before[12] == Man(WHITE, PAWN) && before[6] == Man(WHITE, KING) && before[3] == Man(WHITE, ROOK) && before[27] != Empty;
    hide PinnedBoard, UndoDoublePush;
    RookIsBlocked(before, 59);
    InCheckKing(before, BLACK, 59);
  }

  // The kings go to and fro: e8, h1, d8, g1 and again.  After four plies only the en-passant square has changed.
  function Phase(f: nat): State
  {
    if f == 0 then Shuffled(6, 59, BLACK, NO_SQUARE) else if f == 1 then Shuffled(6, 60, WHITE, NO_SQUARE)
    else if f == 2 then Shuffled(7, 60, BLACK, NO_SQUARE) else Shuffled(7, 59, WHITE, NO_SQUARE)
  }

  function PhaseMove(f: nat): Move
  {
    if f == 0 then Move.Move(59, 60, NO_PIECE) else if f == 1 then Move.Move(6, 7, NO_PIECE)
    else if f == 2 then Move.Move(60, 59, NO_PIECE) else Move.Move(7, 6, NO_PIECE)
  }

  function NextPhase(f: nat): nat { if f == 3 then 0 else f + 1 }

  lemma PhaseStep(f: nat)
    requires f < 4
    ensures Legal(Phase(f), PhaseMove(f)) && !Resets(Phase(f), PhaseMove(f)) && NextState(Phase(f), PhaseMove(f)) == Phase(NextPhase(f))
  {
    hide Shuffled, Legal, Resets, NextState, KingsThere;
    SquaresThere();
    if f == 0 {
      BlackSteps(6, 59, NO_SQUARE);
    } else if f == 1 {
      WhiteSteps(6, 60);
    } else if f == 2 {
      BlackSteps(7, 60, NO_SQUARE);
    } else {
      WhiteSteps(7, 59);
    }
  }

  lemma SquaresThere()
    ensures KingsThere(6, 59) && KingsThere(6, 60) && KingsThere(7, 60) && KingsThere(7, 59)
  {}

  function PhaseAt(k: nat): (f: nat)
    ensures f < 4
  {
    if k == 0 then 0 else NextPhase(PhaseAt(k - 1))
  }

  lemma EveryFour(k: nat)
    ensures PhaseAt(k + 4) == PhaseAt(k)
  {
    assert PhaseAt(k + 1) == NextPhase(PhaseAt(k)) && PhaseAt(k + 2) == NextPhase(PhaseAt(k + 1));
    assert PhaseAt(k + 3) == NextPhase(PhaseAt(k + 2)) && PhaseAt(k + 4) == NextPhase(PhaseAt(k + 3));
  }

  function ShuffledAfter(k: nat): State { if k == 0 then AfterPush() else Phase(PhaseAt(k)) }

  function ShuffleMove(k: nat): Move { if k == 0 then Move.Move(12, 28, NO_PIECE) else PhaseMove(PhaseAt(k - 1)) }

  lemma ShuffleStep(k: nat)
    ensures Legal(ShuffledAfter(k), ShuffleMove(k + 1)) && !Resets(ShuffledAfter(k), ShuffleMove(k + 1))
    ensures NextState(ShuffledAfter(k), ShuffleMove(k + 1)) == ShuffledAfter(k + 1)
  {
    hide Shuffled, Legal, Resets, NextState, Phase, PhaseMove, KingsThere;
    assert PhaseAt(k + 1) == NextPhase(PhaseAt(k));
    if k == 0 { FirstStep(); } else { PhaseStep(PhaseAt(k)); }
  }

  lemma FirstStep()
    ensures Legal(AfterPush(), PhaseMove(0)) && !Resets(AfterPush(), PhaseMove(0)) && NextState(AfterPush(), PhaseMove(0)) == Phase(1)
  {
    hide Legal, Resets, NextState, Shuffled;
    BlackSteps(6, 59, 20);
  }

  predicate BlackToMove(f: nat) { f == 0 || f == 2 }

  lemma PhaseIsWellFormed(f: nat)
    requires f < 4
    ensures WellFormed(Phase(f)) && Orthodox(Phase(f)) && (Phase(f).turn == BLACK <==> BlackToMove(f))
  {
    hide WellFormed, Orthodox, PinnedBoard, KingsThere;
    SquaresThere();
    ShuffledIsWellFormed(6, 59, BLACK);
    ShuffledIsWellFormed(6, 60, WHITE);
    ShuffledIsWellFormed(7, 60, BLACK);
    ShuffledIsWellFormed(7, 59, WHITE);
  }

  lemma ShuffledAfterIsWellFormed(k: nat)
    ensures WellFormed(ShuffledAfter(k)) && Orthodox(ShuffledAfter(k))
    ensures ShuffledAfter(k).turn == BLACK <==> BlackToMove(PhaseAt(k))
  {
    hide WellFormed, Orthodox, AfterPush, Phase;
    AfterPushIsWellFormed();
    PhaseIsWellFormed(PhaseAt(k));
  }

  function FullMoveAfter(k: nat): (n: nat)
    ensures 1 <= n <= k + 1
  {
    if k == 0 then 1 else FullMoveAfter(k - 1) + (if BlackToMove(PhaseAt(k - 1)) then 1 else 0)
  }

  ghost function ShuffledPosition(z: Tables, k: nat): Pos { PositionOf(z, ShuffledAfter(k), k, FullMoveAfter(k), ShuffleMove(k)) }

  lemma ShuffleFollows(z: Tables, k: nat)
    requires k < 100
    ensures Sound(ShuffledPosition(z, k), z)
    ensures Follows(z, ShuffledPosition(z, k), ShuffleMove(k + 1), ShuffledPosition(z, k + 1))
  {
    hide ShuffledAfter, ShuffleMove, Sound, Follows, Legal, Resets, NextState, PositionOf, WellFormed, Orthodox, BlackToMove, PhaseAt;
    ShuffledAfterIsWellFormed(k);
    ShuffleStep(k);
    PositionIsSound(z, ShuffledAfter(k), k, FullMoveAfter(k), ShuffleMove(k));
    PositionFollows(z, ShuffledAfter(k), ShuffleMove(k + 1), k, FullMoveAfter(k), ShuffleMove(k));
  }

  // The position after the push, and every second one after four plies.
  lemma OnlyEpDiffers(k: nat)
    requires k == 4 || k == 8
    ensures ShuffledAfter(k) == WithoutEp(AfterPush()) && AfterPush().ep == 20
    ensures SameByLaw(AfterPush(), ShuffledAfter(k)) && AfterPush() != ShuffledAfter(k)
  {
    hide WellFormed, Orthodox, SameByLaw, EpPlayable, PinnedBoard;
    EveryFour(0);
    EveryFour(4);
    AfterPushCells();
    AfterPushIsWellFormed();
    CaptureExposes();
    ShuffledAfterIsWellFormed(k);
    NobodyCaptures(ShuffledAfter(k));
    SameByLawIff(AfterPush(), ShuffledAfter(k));
  }

  lemma NobodyCaptures(st: State)
    requires st.ep == NO_SQUARE
    ensures !EpPlayable(st)
  {}

  ghost function ShuffledGame(z: Tables): seq<Pos> { seq(9, k requires 0 <= k < 9 => ShuffledPosition(z, k)) }

  lemma ShuffledHistory(z: Tables)
    ensures History(z, ShuffledGame(z)) && BelowLimit(ShuffledGame(z))
  {
    hide Sound, Follows, ShuffledAfter, ShuffleMove, PositionOf;
    ShuffleFollows(z, 0);
    forall i: int | 0 < i < 9 ensures Follows(z, ShuffledGame(z)[i - 1], ShuffledGame(z)[i].lastMove, ShuffledGame(z)[i]) {
      ShuffleFollows(z, i - 1);
      ShuffledFields(z, i);
    }
    forall i: int | 0 <= i < 8 ensures ShuffledGame(z)[i].rule50 < 100 { ShuffledFields(z, i); }
  }

  lemma ShuffledFields(z: Tables, k: nat)
    requires k < 100
    ensures var p := ShuffledPosition(z, k); p.rule50 == k && p.lastMove == ShuffleMove(k) && StateOf(p) == ShuffledAfter(k)
  {
    hide ShuffledAfter, ShuffleMove, Follows, Sound, WellFormed, Orthodox, PositionOf;
    ShuffledAfterIsWellFormed(k);
    PositionIsSound(z, ShuffledAfter(k), k, FullMoveAfter(k), ShuffleMove(k));
    PositionCounters(z, ShuffledAfter(k), k, FullMoveAfter(k), ShuffleMove(k));
  }

  lemma PositionCounters(z: Tables, st: State, rule50: int, fullMove: int, m: Move)
    ensures var p := PositionOf(z, st, rule50, fullMove, m); p.rule50 == rule50 && p.lastMove == m && p.epSquare == st.ep
  {}

  lemma NinePositions(z: Tables, k: nat)
    requires k < 9
    ensures |ShuffledGame(z)| == 9 && ShuffledGame(z)[k] == ShuffledPosition(z, k)
  {}

  lemma SameAsItselfByLaw(st: State)
    ensures SameByLaw(st, st)
  {}

  // Eight plies after the last reset only three distances are looked at.
  lemma ThreeDistances(ps: seq<Pos>)
    requires |ps| == 9 && ps[8].rule50 == 8 && Matches(ps, 8, 4)
    ensures TwoMatches(ps, 8) <==> Matches(ps, 8, 8) || ps[2].key == ps[8].key
  {
    assert Matches(ps, 8, 6) <==> ps[2].key == ps[8].key;
    if TwoMatches(ps, 8) {
      var i: int, j: int :| i < j && Matches(ps, 8, i) && Matches(ps, 8, j);
      assert j == 6 || j == 8;
    }
  }

  lemma StartsAfterPush()
    ensures ShuffledAfter(0) == AfterPush()
  {}

  lemma EpOf(p: Pos)
    ensures StateOf(p).ep == p.epSquare
  {}

  // A third occurrence by the Laws that the scan does not count, unless the key of e3 is that of the missing
  // square or another position has the key of the last one.
  lemma UnseenRepetition(z: Tables) returns (ps: seq<Pos>)
    ensures |ps| == 9 && History(z, ps) && BelowLimit(ps) && ps[0].epSquare == 20
    ensures SameByLaw(StateOf(ps[0]), StateOf(ps[8])) && SameByLaw(StateOf(ps[4]), StateOf(ps[8])) && StateOf(ps[0]) != StateOf(ps[8])
    ensures TwoMatches(ps, 8) <==> z.enPassant(20) == z.enPassant(NO_SQUARE) || ps[2].key == ps[8].key
  {
    hide *;
    ps := ShuffledGame(z);
    ShuffledHistory(z);
    NinePositions(z, 0);
    NinePositions(z, 4);
    NinePositions(z, 8);
    ShuffledFields(z, 0);
    ShuffledFields(z, 4);
    ShuffledFields(z, 8);
    StartsAfterPush();
    OnlyEpDiffers(4);
    OnlyEpDiffers(8);
    EpOf(ps[0]);
    SameAsItselfByLaw(ShuffledAfter(8));
    ThirdByLaw(z, ps, 0, 4);
    ThreeDistances(ps);
  }
}
