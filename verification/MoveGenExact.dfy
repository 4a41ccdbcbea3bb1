/** The generator of src/gen.c returns exactly the legal moves. */
module MoveGenExact {
  import opened Geometry
  import opened Rules
  import opened Legality
  import opened Bitboards
  import opened Positions
  import opened Sequences
  import opened Finish
  import opened MoveGen

  // What the generator relies on: consistent bitboards of a well-formed position and fresh derived sets.
  ghost predicate Ready(p: Pos)
  {
    Consistent(p) && WellFormed(StateOf(p)) && Derived(p)
  }

  ghost function OurKing(p: Pos): Square { KingSquare(BoardOf(p), p.turn) }

  lemma ReadyKing(p: Pos)
    requires Ready(p)
    ensures KingAt(BoardOf(p), p.turn, OurKing(p)) && Owned(BoardOf(p), p.turn, OurKing(p))
    ensures forall s: Square :: s in p.PiecesCP(p.turn, KING) <==> s == OurKing(p)
  {
    hide InCheck, CastleOk, EpOk, CountsOk, PawnRanksOk, Consistent;
    var b := BoardOf(p);
    assert p.turn == WHITE || p.turn == BLACK;
    forall s: Square ensures s in p.PiecesCP(p.turn, KING) <==> s == OurKing(p) {
      ConsistentIs(p);
      CellFacts(p, b, s, p.turn, KING);
    }
  }

  lemma KingLsb(p: Pos)
    requires Ready(p)
    ensures p.PiecesCP(p.turn, KING) != {} && Lsb(p.PiecesCP(p.turn, KING)) == OurKing(p)
  {
    hide *;
    ReadyKing(p);
    assert OurKing(p) in p.PiecesCP(p.turn, KING);
  }

  lemma ConsistentIs(p: Pos)
    requires Consistent(p)
    ensures Represents(p.byColor, p.byPiece, BoardOf(p))
  {}

  lemma DerivedPins(p: Pos, s: Square)
    requires Ready(p)
    ensures s in p.pins <==> Pinned(BoardOf(p), p.turn, OurKing(p), s)
  {
    hide Pinned, Consistent, WellFormed, AttackedSet, CheckerSet;
  }

  lemma DerivedCheckers(p: Pos, e: Square)
    requires Ready(p)
    ensures e in p.checkers <==> Checks(BoardOf(p), p.turn, OurKing(p), e)
  {
    hide Checks, Consistent, WellFormed, AttackedSet, PinSet;
  }

  lemma DerivedAttacked(p: Pos, t: Square)
    requires Ready(p)
    ensures t in p.attacked <==> AttackedThrough(BoardOf(p), p.turn, OurKing(p), t)
  {
    hide AttackedThrough, Consistent, WellFormed, CheckerSet, PinSet;
  }

  // The ray test of the code is the ray condition of the legality theorem.
  lemma PinTestIs(p: Pos, from: Square, to: Square)
    requires Ready(p)
    ensures PinTest(p.pins, OurKing(p), from, to) <==> StaysPinned(BoardOf(p), p.turn, OurKing(p), from, to)
  {
    hide Ready, PinnedBy, Dir, Dist;
    DerivedPins(p, from);
    if Pinned(BoardOf(p), p.turn, OurKing(p), from) {
      var e: Square :| PinnedBy(BoardOf(p), p.turn, OurKing(p), from, e);
      PinnedSlider(BoardOf(p), p.turn, OurKing(p), from, e);
      DirReverse(OurKing(p), from);
    }
  }

  // ---- Pieces --------------------------------------------------------------------------------------------

  lemma PieceGenIs(p: Pos, filter: Bitboard, m: Move)
    requires Ready(p) && forall s: Square :: s in filter ==> !Owned(BoardOf(p), p.turn, s)
    ensures KnightGen(p, OurKing(p), filter, m) || RookGen(p, OurKing(p), filter, m) || BishopGen(p, OurKing(p), filter, m) <==>
            PieceMove(StateOf(p), m) && BoardOf(p)[m.from].piece != KING && m.to in filter &&
            StaysPinned(BoardOf(p), p.turn, OurKing(p), m.from, m.to)
  {
    hide Ready, PinTest, StaysPinned, Dir, KnightHit, KingHit, Consistent, Represents, BoardOf, Between, RookDir, BishopDir, ClearPath, Visible;
    ReadyParts(p);
    var b := BoardOf(p);
    PinTestIs(p, m.from, m.to);
    CellFacts(p, b, m.from, p.turn, KNIGHT);
    CellFacts2(p, b, m.from, p.turn, ROOK, QUEEN);
    CellFacts2(p, b, m.from, p.turn, BISHOP, QUEEN);
    OccIsPieces(p, b);
    VisibleIff(b, p.Pieces(), m.from, m.to);
  }

  lemma ReadyParts(p: Pos)
    requires Ready(p)
    ensures Represents(p.byColor, p.byPiece, BoardOf(p)) && WellFormed(StateOf(p))
  {}

  // ---- Pawns ---------------------------------------------------------------------------------------------

  predicate InLastButOne(c: Color, s: Square) { RankOf(s) == (if c == WHITE then 6 else 1) }

  lemma PawnGeometry(c: Color, from: Square, to: Square)
    ensures PawnHit(Up(c), from, to) <==> (to == from + (PushInc(c) - 1) && FileOf(from) != 0) || (to == from + (PushInc(c) + 1) && FileOf(from) != 7)
    ensures PawnHit(Up(c), from, to) || to == from + PushInc(c) ==> (RelativeRank(c, to) == 7 <==> InLastButOne(c, from))
    ensures to == from + 2 * PushInc(c) && RelativeRank(c, from) == 1 ==> !InLastButOne(c, from)
    ensures RelativeRank(c, from) == 1 <==> RankOf(from) == (if c == WHITE then 1 else 6)
    ensures RelativeRank(c, from) == 1 ==> 0 <= from + 2 * PushInc(c) < 64 && 0 <= from + PushInc(c) < 64
  {}

  lemma PawnSets(p: Pos, b: Board, s: Square)
    requires Represents(p.byColor, p.byPiece, b)
    ensures s in PawnsOf(p) <==> b[s] == Man(p.turn, PAWN)
    ensures s in NonPromoting(p) <==> b[s] == Man(p.turn, PAWN) && !InLastButOne(p.turn, s)
    ensures s in Promoting(p) <==> b[s] == Man(p.turn, PAWN) && InLastButOne(p.turn, s)
    ensures s in Complement(p.Pieces()) <==> b[s] == Empty
    ensures s in p.Pieces() <==> b[s] != Empty
    ensures s in p.byColor[Opposite(p.turn)] <==> Owned(b, Opposite(p.turn), s)
  {
    hide RankOf;
    CellFacts(p, b, s, p.turn, PAWN);
    CellFacts(p, b, s, Opposite(p.turn), PAWN);
  }

  lemma CaptureGenIs(p: Pos, filter: Bitboard, m: Move)
    requires Ready(p)
    ensures PawnShiftMove(m, LeftCaptures(p, filter), p.pins, OurKing(p), PushInc(p.turn) - 1) ||
            PawnShiftMove(m, RightCaptures(p, filter), p.pins, OurKing(p), PushInc(p.turn) + 1) <==>
            PawnCapture(StateOf(p), m) && !InLastButOne(p.turn, m.from) && m.to in filter &&
            StaysPinned(BoardOf(p), p.turn, OurKing(p), m.from, m.to)
  {
    hide Ready, PinTest, StaysPinned, PawnHit, RankOf, FileOf, BoardOf, Represents, NonPromoting, Complement, PushInc, InLastButOne, RelativeRank;
    ReadyParts(p);
    PinTestIs(p, m.from, m.to);
    PawnSets(p, BoardOf(p), m.from);
    PawnSets(p, BoardOf(p), m.to);
    PawnGeometry(p.turn, m.from, m.to);
  }

  lemma SinglePushGenIs(p: Pos, filter: Bitboard, m: Move)
    requires Ready(p)
    ensures PawnShiftMove(m, SinglePushes(p, filter), p.pins, OurKing(p), PushInc(p.turn)) <==>
            SinglePush(StateOf(p), m) && !InLastButOne(p.turn, m.from) && m.to in filter &&
            StaysPinned(BoardOf(p), p.turn, OurKing(p), m.from, m.to)
  {
    hide Ready, PinTest, StaysPinned, PawnHit, FileOf, RankOf, BoardOf, Represents, NonPromoting, Complement, PushInc, InLastButOne, RelativeRank;
    ReadyParts(p);
    PinTestIs(p, m.from, m.to);
    PawnSets(p, BoardOf(p), m.from);
    PawnSets(p, BoardOf(p), m.to);
    PawnGeometry(p.turn, m.from, m.to);
  }

  lemma DoublePushGenIs(p: Pos, filter: Bitboard, m: Move)
    requires Ready(p)
    ensures PawnShiftMove(m, DoublePushes(p, filter), p.pins, OurKing(p), 2 * PushInc(p.turn)) <==>
            DoublePush(StateOf(p), m) && m.to in filter && StaysPinned(BoardOf(p), p.turn, OurKing(p), m.from, m.to)
  {
    hide Ready, PinTest, StaysPinned, PawnHit, BoardOf, Represents, DoublePushes, PushInc, InLastButOne, RelativeRank, RankOf, FileOf;
    ReadyParts(p);
    PinTestIs(p, m.from, m.to);
    PawnGeometry(p.turn, m.from, m.to);
    DoublePushSet(p, BoardOf(p), filter, m.from);
  }

  lemma DoublePushSet(p: Pos, b: Board, filter: Bitboard, s: Square)
    requires Represents(p.byColor, p.byPiece, b)
    ensures s in DoublePushes(p, filter) <==>
            b[s] == Man(p.turn, PAWN) && RelativeRank(p.turn, s) == 1 && 0 <= s + PushInc(p.turn) < 64 &&
            0 <= s + 2 * PushInc(p.turn) < 64 && b[s + PushInc(p.turn)] == Empty &&
            b[s + 2 * PushInc(p.turn)] == Empty && s + 2 * PushInc(p.turn) in filter
  {
    hide RankOf, FileOf, Represents, Complement, NonPromoting, PushInc, InLastButOne, PawnHit;
    PawnGeometry(p.turn, s, s);
    PawnSets(p, b, s);
    var i := PushInc(p.turn);
    if 0 <= s + i < 64 { PawnSets(p, b, s + i); }
    if 0 <= s + 2 * i < 64 {
      PawnSets(p, b, s + 2 * i);
      PawnGeometry(p.turn, s, s + 2 * i);
    }
  }

  lemma PromotionGenIs(p: Pos, filter: Bitboard, m: Move)
    requires Ready(p)
    ensures PromotionGen(p, OurKing(p), filter, m) <==>
            (SinglePush(StateOf(p), m) || PawnCapture(StateOf(p), m)) && InLastButOne(p.turn, m.from) && m.to in filter &&
            StaysPinned(BoardOf(p), p.turn, OurKing(p), m.from, m.to)
  {
    hide Ready, PinTest, StaysPinned, PawnHit, FileOf, RankOf, BoardOf, Represents, Promoting, Complement, PushInc, InLastButOne, RelativeRank;
    ReadyParts(p);
    PinTestIs(p, m.from, m.to);
    PawnSets(p, BoardOf(p), m.from);
    PawnSets(p, BoardOf(p), m.to);
    PawnGeometry(p.turn, m.from, m.to);
  }

  predicate OrdinaryPawnMove(st: State, m: Move) { SinglePush(st, m) || DoublePush(st, m) || PawnCapture(st, m) }

  lemma OrdinaryPawnGenIs(p: Pos, filter: Bitboard, m: Move)
    requires Ready(p)
    ensures QuietPawnGen(p, OurKing(p), filter, m) || PromotionGen(p, OurKing(p), filter, m) <==>
            OrdinaryPawnMove(StateOf(p), m) && m.to in filter && StaysPinned(BoardOf(p), p.turn, OurKing(p), m.from, m.to)
  {
    hide Ready, StaysPinned, PawnShiftMove, LeftCaptures, RightCaptures, SinglePushes, DoublePushes, PromotionGen, SinglePush, PawnCapture, InLastButOne;
    CaptureGenIs(p, filter, m);
    SinglePushGenIs(p, filter, m);
    DoublePushGenIs(p, filter, m);
    PromotionGenIs(p, filter, m);
    if DoublePush(StateOf(p), m) { PawnGeometry(p.turn, m.from, m.to); }
  }

  // ---- En passant ----------------------------------------------------------------------------------------

  lemma ReadyEp(p: Pos)
    requires Ready(p)
    ensures EpReady(p) && EpOk(StateOf(p))
    ensures forall s :: s in p.byColor[p.turn] ==> s !in p.byColor[Opposite(p.turn)]
  {
    hide InCheck, BoardOf, Represents, UndoDoublePush, Ready, RankOf;
    ReadyParts(p);
    WellFormedEp(StateOf(p));
    if p.epSquare != NO_SQUARE {
      CellFacts(p, BoardOf(p), p.epSquare, p.turn, PAWN);
      CellFacts(p, BoardOf(p), p.epSquare + PushInc(Opposite(p.turn)), Opposite(p.turn), PAWN);
    }
    forall s | s in p.byColor[p.turn] ensures s !in p.byColor[Opposite(p.turn)] {
      CellFacts(p, BoardOf(p), s, p.turn, PAWN);
      CellFacts(p, BoardOf(p), s, Opposite(p.turn), PAWN);
    }
  }

  lemma WellFormedEp(st: State)
    requires WellFormed(st)
    ensures EpOk(st)
    ensures st.ep != NO_SQUARE ==> 16 <= st.ep < 48 && st.board[st.ep] == Empty &&
                                   st.board[st.ep + PushInc(Opposite(st.turn))] == Man(Opposite(st.turn), PAWN)
  {
    hide InCheck, CastleOk, CountsOk, PawnRanksOk;
  }

  lemma SliderFreeIs(p: Pos, b: Board, occBoard: Board, occ: Bitboard, us: Color, k: Square)
    requires Represents(p.byColor, p.byPiece, b) && us == p.turn
    requires forall x: Square :: x in occ <==> occBoard[x] != Empty
    ensures SliderFree(p, k, occ) <==> !SliderSees(b, occBoard, us, k)
  {
    hide Dir, RookDir, BishopDir, Represents, Visible, ClearPath;
    forall e: Square
      ensures e in RookAttacks(k, occ) * p.PiecesCPP(Opposite(us), ROOK, QUEEN) + BishopAttacks(k, occ) * p.PiecesCPP(Opposite(us), BISHOP, QUEEN)
              <==> EnemySlider(b, us, k, e) && ClearPath(occBoard, k, e)
    {
      CellFacts2(p, b, e, Opposite(us), ROOK, QUEEN);
      CellFacts2(p, b, e, Opposite(us), BISHOP, QUEEN);
      VisibleIff(occBoard, occ, k, e);
    }
    SliderFreeEmpty(p, k, occ);
  }

  lemma SliderFreeEmpty(p: Pos, k: Square, occ: Bitboard)
    ensures SliderFree(p, k, occ) <==> forall e: Square ::
              e !in RookAttacks(k, occ) * p.PiecesCPP(Opposite(p.turn), ROOK, QUEEN) + BishopAttacks(k, occ) * p.PiecesCPP(Opposite(p.turn), BISHOP, QUEEN)
  {
    hide RookAttacks, BishopAttacks;
    var x := RookAttacks(k, occ) * p.PiecesCPP(Opposite(p.turn), ROOK, QUEEN);
    var y := BishopAttacks(k, occ) * p.PiecesCPP(Opposite(p.turn), BISHOP, QUEEN);
    if e :| e in x { assert e in x + y; }
    if e :| e in y { assert e in x + y; }
  }

  lemma EpOccupancyIs(p: Pos, b: Board, m: Move)
    requires Represents(p.byColor, p.byPiece, b) && EpReady(p) && p.epSquare != NO_SQUARE && m.to == p.epSquare && b[m.from] != Empty
    requires m.from != p.epSquare + PushInc(Opposite(p.turn)) && m.from != m.to
    ensures forall x: Square :: x in EpOccupancy(p, m.from) <==>
              b[m.from := Empty][m.to := b[m.from]][p.epSquare + PushInc(Opposite(p.turn)) := Empty][x] != Empty
  {
    hide PushInc;
    OccIsPieces(p, b);
  }

  lemma EpGenIs(p: Pos, m: Move)
    requires Ready(p) && EpReady(p)
    ensures EpGen(p, OurKing(p), m) <==>
            EnPassant(StateOf(p), m) && !SliderSees(BoardOf(p), PlayBoard(StateOf(p), m), p.turn, OurKing(p))
  {
    hide Ready, SliderSees, SliderFree, BoardOf, Represents, PawnHit, NonPromoting, InLastButOne, EpOk;
    ReadyParts(p);
    ReadyEp(p);
    var b, st := BoardOf(p), StateOf(p);
    PawnSets(p, b, m.from);
    if p.epSquare != NO_SQUARE {
      UpOpposite(p.turn, p.epSquare, m.from);
      EpNotLastButOne(st, m);
      if EnPassant(st, m) {
        EpSquares(st, m);
        EpOccupancyIs(p, b, m);
        SliderFreeIs(p, b, PlayBoard(st, m), EpOccupancy(p, m.from), p.turn, OurKing(p));
      }
    }
  }

  lemma EpNotLastButOne(st: State, m: Move)
    requires EpOk(st) && st.ep != NO_SQUARE
    ensures PawnHit(Up(st.turn), m.from, st.ep) ==> !InLastButOne(st.turn, m.from)
  {
    hide InCheck;
  }

  // ---- King ----------------------------------------------------------------------------------------------

  function KingTargets(p: Pos, king: Square): Bitboard
  {
    KingAttacks(king) * Complement(p.byColor[p.turn]) - p.attacked
  }

  lemma KingGenIs(p: Pos, m: Move)
    requires Ready(p)
    ensures KingGen(p, OurKing(p), KingTargets(p, OurKing(p)), m) <==>
            PieceMove(StateOf(p), m) && m.from == OurKing(p) && !AttackedThrough(BoardOf(p), p.turn, OurKing(p), m.to)
  {
    hide Ready, BoardOf, Represents, KingHit, AttackedThrough, PinnedBy, Between;
    ReadyParts(p);
    ReadyKing(p);
    var b, k := BoardOf(p), OurKing(p);
    DerivedPins(p, k);
    if e: Square :| PinnedBy(b, p.turn, k, k, e) { PinnedSlider(b, p.turn, k, k, e); BetweenEnds(k, e); }
    DerivedAttacked(p, m.to);
    CellFacts(p, b, m.to, p.turn, KING);
  }

  // ---- Castling ------------------------------------------------------------------------------------------

  lemma ReadyCastle(p: Pos, r: Square)
    requires Ready(p) && r in p.castleRooks && Owned(BoardOf(p), p.turn, r)
    ensures CastlingSetup(BoardOf(p), p.turn, OurKing(p), r) && r != OurKing(p) && RankOf(r) == HomeRank(p.turn)
  {
    hide BoardOf, InCheck, CountsOk, PawnRanksOk, EpOk, RankOf, FileOf, Ready;
    ReadyParts(p);
    ReadyKing(p);
  }

  lemma SegmentIsWay(a: Square, c: Square)
    requires RankOf(a) == RankOf(c)
    ensures forall x: Square :: x in Segment(a, c) <==> OnWay(a, x, c)
  {
    hide Dir, Dist, RankOf, FileOf, Between;
    if a == c {
      forall x: Square ensures OnWay(a, x, c) <==> x == a { BetweenOnRank(a, x, c); }
    } else {
      DirOnRank(a, c);
    }
  }

  lemma PairCard(w: Bitboard, k: Square, r: Square)
    requires k in w && r in w && k != r
    ensures |w| == 2 <==> forall x :: x in w ==> x == k || x == r
  {
    var rest := w - {k} - {r};
    assert |rest| == |w| - 2;
    if |w| == 2 {
      assert rest == {};
      forall x | x in w ensures x == k || x == r { assert x !in rest; }
    } else {
      assert rest != {};
      var x :| x in rest;
    }
  }

  lemma WaysAre(p: Pos, b: Board, k: Square, r: Square, kto: Square, rto: Square)
    requires Represents(p.byColor, p.byPiece, b) && b[k] != Empty && b[r] != Empty && k != r
    requires RankOf(k) == RankOf(kto) && RankOf(r) == RankOf(rto) && kto == KingDest(k, r) && rto == RookDest(k, r)
    ensures |(Segment(k, kto) + Segment(r, rto)) * p.Pieces()| == 2 <==> WaysClear(b, k, r)
  {
    hide RankOf, Segment, KingDest, RookDest, Between;
    OccIsPieces(p, b);
    SegmentIsWay(k, kto);
    SegmentIsWay(r, rto);
    var w := (Segment(k, kto) + Segment(r, rto)) * p.Pieces();
    assert forall x: Square :: x in w <==> (OnWay(k, x, kto) || OnWay(r, x, rto)) && b[x] != Empty;
    PairCard(w, k, r);
  }

  lemma SafeIs(p: Pos, k: Square, r: Square, kto: Square)
    requires Ready(p) && k == OurKing(p) && kto == KingDest(k, r) && RankOf(k) == RankOf(kto)
    ensures p.attacked * Segment(k, kto) == {} <==> WaySafe(BoardOf(p), p.turn, k, r)
  {
    hide Ready, OurKing, Segment, KingDest, OnWay, RankOf, Attacked;
    SegmentIsWay(k, kto);
    forall x: Square ensures x in p.attacked <==> Attacked(BoardOf(p)[k := Empty], Opposite(p.turn), x) {
      DerivedAttacked(p, x);
    }
    if x :| x in p.attacked * Segment(k, kto) {
      assert OnWay(k, x, kto) && Attacked(BoardOf(p)[k := Empty], Opposite(p.turn), x);
    }
    if x: Square :| OnWay(k, x, kto) && Attacked(BoardOf(p)[k := Empty], Opposite(p.turn), x) {
      assert x in p.attacked * Segment(k, kto);
    }
  }

  lemma CastleGenIs(p: Pos, m: Move)
    requires Ready(p)
    ensures CastleGen(p, OurKing(p), m) <==>
            Castling(StateOf(p), m) && !Pinned(BoardOf(p), p.turn, OurKing(p), m.to)
  {
    hide Ready, BoardOf, Represents, Segment, RankOf, FileOf, Attacked, WaysClear, WaySafe, Pinned, KingDest, RookDest;
    ReadyParts(p);
    ReadyKing(p);
    var b, k, r := BoardOf(p), OurKing(p), m.to;
    CellFacts(p, b, r, p.turn, ROOK);
    CellFacts(p, b, m.from, p.turn, KING);
    if r in p.castleRooks && Owned(b, p.turn, r) {
      ReadyCastle(p, r);
      CastlingGeometry(k, r);
      DestsAgree(k, r);
      DerivedPins(p, r);
      WaysAre(p, b, k, r, KingDest(k, r), RookDest(k, r));
      SafeIs(p, k, r, KingDest(k, r));
      WaySafeIffUnattacked(b, p.turn, k, r);
      CastlingUnfold(StateOf(p), m);
    }
  }

  lemma DestsAgree(k: Square, r: Square)
    requires RankOf(k) == RankOf(r)
    ensures SquareFrom(RankOf(r), if r > k then 6 else 2) == KingDest(k, r)
    ensures SquareFrom(RankOf(r), if r > k then 5 else 3) == RookDest(k, r)
  {
    CoordsRange(k);
  }

  lemma CastlingUnfold(st: State, m: Move)
    ensures Castling(st, m) <==>
            st.board[m.from] == Man(st.turn, KING) && m.to in st.castle && Owned(st.board, st.turn, m.to) && m.prom == NO_PIECE &&
            WaysClear(st.board, m.from, m.to) &&
            (forall x: Square :: OnWay(m.from, x, KingDest(m.from, m.to)) ==> !Attacked(st.board, Opposite(st.turn), x))
  {
    hide OnWay, KingDest, RookDest, Attacked;
  }

  // ---- When each kind of pseudo-legal move is legal ------------------------------------------------------

  lemma PieceReach(b: Board, from: Square, to: Square)
    requires Hits(b, from, to) && b[from].piece != PAWN && b[from].piece != KING
    ensures (Dir(from, to) != 0 && ClearPath(b, from, to)) || KnightHit(from, to)
    ensures from != to
  {
    hide Dir, ClearPath;
    DirReverse(from, to);
    LeapersOffLine(from, to);
  }

  lemma PieceLegal(p: Pos, m: Move)
    requires Ready(p) && PieceMove(StateOf(p), m) && BoardOf(p)[m.from].piece != KING
    ensures Legal(StateOf(p), m) <==> AnswersChecks(BoardOf(p), p.turn, OurKing(p), m.to) &&
                                      StaysPinned(BoardOf(p), p.turn, OurKing(p), m.from, m.to)
  {
    hide Ready, BoardOf, Hits, ClearPath, Dir, KnightHit, InCheck, AnswersChecks, StaysPinned, KingAt, SinglePush, DoublePush, PawnCapture, EnPassant, Castling;
    ReadyKing(p);
    KingAtFact(BoardOf(p), p.turn, OurKing(p), m.from);
    PieceReach(BoardOf(p), m.from, m.to);
    QuietLegal(BoardOf(p), PlayBoard(StateOf(p), m), p.turn, OurKing(p), m.from, m.to);
  }

  lemma KingAtFact(b: Board, c: Color, k: Square, s: Square)
    requires KingAt(b, c, k)
    ensures b[k] == Man(c, KING) && (b[s] == Man(c, KING) ==> s == k)
  {}

  lemma PawnReach(st: State, m: Move)
    requires OrdinaryPawnMove(st, m)
    ensures Dir(m.from, m.to) != 0 && ClearPath(st.board, m.from, m.to) && m.from != m.to
    ensures !Owned(st.board, st.turn, m.to) && st.board[m.from] == Man(st.turn, PAWN)
  {
    hide RankOf, FileOf, Dir, Dist;
    PawnLine(st.turn, m.from, m.to);
    if DoublePush(st, m) {
      forall x: Square | Between(m.from, x, m.to) ensures x == m.from + PushInc(st.turn) {
        DoublePushMiddle(st.turn, m.from, m.to, x);
      }
    } else {
      forall x: Square | Between(m.from, x, m.to) ensures false { PawnStepAdjacent(st.turn, m.from, m.to, x); }
    }
  }

  lemma PawnLine(c: Color, from: Square, to: Square)
    requires to == from + PushInc(c) || to == from + 2 * PushInc(c) || PawnHit(Up(c), from, to)
    ensures Dir(from, to) != 0 && from != to
  {}

  lemma DoublePushMiddle(c: Color, from: Square, to: Square, x: Square)
    requires to == from + 2 * PushInc(c) && Between(from, x, to)
    ensures x == from + PushInc(c)
  {}

  lemma PawnStepAdjacent(c: Color, from: Square, to: Square, x: Square)
    requires to == from + PushInc(c) || PawnHit(Up(c), from, to)
    ensures !Between(from, x, to)
  {}

  // No ordinary pawn move goes to the en-passant square.
  lemma PawnNotEp(st: State, m: Move)
    requires EpOk(st) && OrdinaryPawnMove(st, m)
    ensures m.to != st.ep
  {
    hide InCheck;
  }

  lemma PawnLegal(p: Pos, m: Move)
    requires Ready(p) && OrdinaryPawnMove(StateOf(p), m)
    ensures Legal(StateOf(p), m) <==> AnswersChecks(BoardOf(p), p.turn, OurKing(p), m.to) &&
                                      StaysPinned(BoardOf(p), p.turn, OurKing(p), m.from, m.to)
  {
    hide Ready, BoardOf, ClearPath, Dir, KnightHit, InCheck, AnswersChecks, StaysPinned, KingAt, EpOk, Castling, EpReady;
    ReadyKing(p);
    ReadyEp(p);
    PawnReach(StateOf(p), m);
    PawnNotEp(StateOf(p), m);
    KingAtFact(BoardOf(p), p.turn, OurKing(p), m.from);
    PlayOrdinaryPawn(StateOf(p), m);
    QuietLegal(BoardOf(p), PlayBoard(StateOf(p), m), p.turn, OurKing(p), m.from, m.to);
    LegalUnfold(StateOf(p), m);
  }

  lemma PlayOrdinaryPawn(st: State, m: Move)
    requires OrdinaryPawnMove(st, m) && m.to != st.ep
    ensures var b' := PlayBoard(st, m);
            b'[m.to].Man? && b'[m.to].color == st.turn && b'[m.to].piece != KING && b' == st.board[m.from := Empty][m.to := b'[m.to]]
  {
    hide RelativeRank, PawnHit;
  }

  lemma LegalUnfold(st: State, m: Move)
    ensures Legal(st, m) <==> PseudoLegal(st, m) && !InCheck(PlayBoard(st, m), st.turn)
    ensures PseudoLegal(st, m) <==> PieceMove(st, m) || OrdinaryPawnMove(st, m) || EnPassant(st, m) || Castling(st, m)
  {
    hide InCheck, PlayBoard, PieceMove, SinglePush, DoublePush, PawnCapture, EnPassant, Castling;
  }

  lemma KingLegal(p: Pos, m: Move)
    requires Ready(p) && PieceMove(StateOf(p), m) && BoardOf(p)[m.from].piece == KING
    ensures m.from == OurKing(p)
    ensures Legal(StateOf(p), m) <==> !AttackedThrough(BoardOf(p), p.turn, OurKing(p), m.to)
  {
    hide Ready, BoardOf, Hits, InCheck, Castling, EnPassant, SinglePush, DoublePush, PawnCapture, KingAt, Attacked;
    ReadyKing(p);
    KingAtFact(BoardOf(p), p.turn, OurKing(p), m.from);
    KingStepLegal(BoardOf(p), PlayBoard(StateOf(p), m), p.turn, OurKing(p), m.to);
    LegalUnfold(StateOf(p), m);
  }

  lemma EnPassantLegal(p: Pos, m: Move)
    requires Ready(p) && EnPassant(StateOf(p), m)
    ensures Legal(StateOf(p), m) <==> !SliderSees(BoardOf(p), PlayBoard(StateOf(p), m), p.turn, OurKing(p))
  {
    hide Ready, BoardOf, InCheck, Castling, SinglePush, DoublePush, PawnCapture, KingAt, EpOk, SliderSees, EpReady, PlayBoard, PawnHit;
    ReadyKing(p);
    ReadyEp(p);
    EpLegal(StateOf(p), OurKing(p), m);
    LegalUnfold(StateOf(p), m);
  }

  lemma CastleLegal(p: Pos, m: Move)
    requires Ready(p) && Castling(StateOf(p), m)
    ensures Legal(StateOf(p), m) <==> !Pinned(BoardOf(p), p.turn, OurKing(p), m.to)
    ensures CheckerSet(BoardOf(p), p.turn, OurKing(p)) == {}
  {
    hide Ready, BoardOf, InCheck, KingAt, WaysClear, WaySafe, Pinned, KingDest, RookDest, Attacked, Represents, Castling, Checks, RankOf, FileOf;
    var st, k, r := StateOf(p), m.from, m.to;
    ReadyKing(p);
    CastlingUnfold(st, m);
    KingAtFact(BoardOf(p), p.turn, OurKing(p), m.from);
    ReadyCastle(p, r);
    WaySafeIffUnattacked(BoardOf(p), p.turn, k, r);
    CastlingLegal(BoardOf(p), p.turn, k, r);
    CastlingBoard(st, m);
    LegalUnfold(st, m);
    assert OnWay(k, k, KingDest(k, r));
    UnattackedNoCheckers(BoardOf(p), p.turn, k);
  }

  lemma CastlingBoard(st: State, m: Move)
    requires Castling(st, m)
    ensures PlayBoard(st, m) == AfterCastling(st.board, st.turn, m.from, m.to)
  {
    hide KingDest, RookDest, Attacked;
  }

  lemma UnattackedNoCheckers(b: Board, us: Color, k: Square)
    requires !Attacked(b, Opposite(us), k)
    ensures CheckerSet(b, us, k) == {}
  {
    hide Hits;
    assert forall e: Square :: !Checks(b, us, k, e);
  }

  // ---- Answering checks ----------------------------------------------------------------------------------

  // Squares that answer a single check by the man on e (src/gen.c:187-189).
  function EscapeTargets(p: Pos, king: Square, e: Square): Bitboard
  {
    if BISHOP <= p.PieceOn(e) <= QUEEN then Segment(king, e) else p.checkers
  }

  lemma NoChecksAnswered(p: Pos, to: Square)
    requires Ready(p) && p.checkers == {}
    ensures AnswersChecks(BoardOf(p), p.turn, OurKing(p), to)
  {
    hide Ready, BoardOf, Checks;
    forall e: Square ensures !Checks(BoardOf(p), p.turn, OurKing(p), e) { DerivedCheckers(p, e); }
  }

  lemma PieceOnBoard(p: Pos, b: Board, s: Square)
    requires Represents(p.byColor, p.byPiece, b)
    ensures p.PieceOn(s) == (if b[s].Man? then b[s].piece else NO_PIECE)
  {
    PieceOnIs(p, s, KNIGHT, b[s]);
  }

  lemma SingleCheckAnswered(p: Pos, e: Square, to: Square)
    requires Ready(p) && p.checkers == {e} && to != OurKing(p)
    ensures AnswersChecks(BoardOf(p), p.turn, OurKing(p), to) <==> to in EscapeTargets(p, OurKing(p), e)
  {
    hide Ready, BoardOf, OurKing, Checks, Between, Segment, Represents;
    var b, k := BoardOf(p), OurKing(p);
    ReadyParts(p);
    PieceOnBoard(p, b, e);
    forall x: Square ensures Checks(b, p.turn, k, x) <==> x == e { DerivedCheckers(p, x); }
    CheckingLine(b, p.turn, k, e, to);
  }

  // The segment from the king to a checking slider, without the king.
  lemma CheckingLine(b: Board, us: Color, k: Square, e: Square, to: Square)
    requires Checks(b, us, k, e)
    ensures b[e].Man?
    ensures IsSlider(b[e].piece) && to != k ==> (to in Segment(k, e) <==> to == e || Between(k, to, e))
  {
    hide Dir, Dist, Between, KnightHit, KingHit, PawnHit;
    if IsSlider(b[e].piece) {
      SliderHits(b, e, k);
      DirReverse(k, e);
      assert EnemySlider(b, us, k, e);
      EnemySliderLine(b, us, k, e);
    }
  }

  lemma DoubleCheckUnanswered(b: Board, us: Color, k: Square, e: Square, e2: Square, to: Square)
    requires Checks(b, us, k, e) && Checks(b, us, k, e2) && e != e2
    ensures !AnswersChecks(b, us, k, to)
  {
    hide Dir, Dist, Between, KnightHit, KingHit, PawnHit, RankOf, FileOf;
    if AnswersChecks(b, us, k, to) {
      if to == e {
        SliderHits(b, e2, k);
      } else if to == e2 {
        SliderHits(b, e, k);
      } else {
        OneSliderPerRay(b, k, to, e, e2);
      }
    }
  }

  // ---- The generator -------------------------------------------------------------------------------------

  ghost predicate InNoCheckGen(p: Pos, king: Square, m: Move)
    requires EpReady(p)
  {
    PawnGen(p, king, Complement(p.byColor[p.turn]), m) ||
    PieceGen(p, king, Complement(p.byColor[p.turn]), true, m) || CastleGen(p, king, m)
  }

  predicate NonKingPieceMove(st: State, m: Move) { PieceMove(st, m) && st.board[m.from].piece != KING }

  predicate KingMove(st: State, m: Move) { PieceMove(st, m) && st.board[m.from].piece == KING }

  // Legal moves, kind by kind.
  lemma LegalKinds(p: Pos, m: Move)
    requires Ready(p)
    ensures Legal(StateOf(p), m) <==>
            ((NonKingPieceMove(StateOf(p), m) || OrdinaryPawnMove(StateOf(p), m)) &&
             AnswersChecks(BoardOf(p), p.turn, OurKing(p), m.to) && StaysPinned(BoardOf(p), p.turn, OurKing(p), m.from, m.to)) ||
            (KingMove(StateOf(p), m) && !AttackedThrough(BoardOf(p), p.turn, OurKing(p), m.to)) ||
            (EnPassant(StateOf(p), m) && !SliderSees(BoardOf(p), PlayBoard(StateOf(p), m), p.turn, OurKing(p))) ||
            (Castling(StateOf(p), m) && !Pinned(BoardOf(p), p.turn, OurKing(p), m.to))
  {
    hide Legal, AnswersChecks, StaysPinned, AttackedThrough, SliderSees, Pinned, PieceMove, OrdinaryPawnMove, EnPassant, Castling, Ready, BoardOf;
    LegalUnfold(StateOf(p), m);
    if NonKingPieceMove(StateOf(p), m) { PieceLegal(p, m); }
    if KingMove(StateOf(p), m) { KingLegal(p, m); }
    if OrdinaryPawnMove(StateOf(p), m) { PawnLegal(p, m); }
    if EnPassant(StateOf(p), m) { EnPassantLegal(p, m); }
    if Castling(StateOf(p), m) { CastleLegal(p, m); }
  }

  lemma FilterFacts(p: Pos, to: Square)
    requires Ready(p)
    ensures to in Complement(p.byColor[p.turn]) <==> !Owned(BoardOf(p), p.turn, to)
    ensures to in p.byColor[p.turn] <==> Owned(BoardOf(p), p.turn, to)
  {
    hide Ready, BoardOf, Represents;
    ReadyParts(p);
    CellFacts(p, BoardOf(p), to, p.turn, KING);
  }

  lemma NotOwnTarget(st: State, m: Move)
    requires PieceMove(st, m) || OrdinaryPawnMove(st, m)
    ensures !Owned(st.board, st.turn, m.to)
  {
    hide Hits, PawnHit, RelativeRank;
  }

  lemma NoCheckExact(p: Pos, m: Move)
    requires Ready(p) && EpReady(p) && p.checkers == {}
    ensures InNoCheckGen(p, OurKing(p), m) <==> Legal(StateOf(p), m)
  {
    hide Legal, AnswersChecks, StaysPinned, AttackedThrough, SliderSees, Pinned, PieceMove, OrdinaryPawnMove, EnPassant, Castling, Ready, BoardOf, OurKing;
    hide QuietPawnGen, EpGen, PromotionGen, KingGen, KnightGen, RookGen, BishopGen, CastleGen, Complement, Owned, PlayBoard, EpReady;
    var filter := Complement(p.byColor[p.turn]);
    forall s: Square ensures s in filter <==> !Owned(BoardOf(p), p.turn, s) { FilterFacts(p, s); }
    LegalKinds(p, m);
    NoChecksAnswered(p, m.to);
    OrdinaryPawnGenIs(p, filter, m);
    EpGenIs(p, m);
    PieceGenIs(p, filter, m);
    KingGenIs(p, m);
    CastleGenIs(p, m);
    if PieceMove(StateOf(p), m) || OrdinaryPawnMove(StateOf(p), m) { NotOwnTarget(StateOf(p), m); }
    if KingMove(StateOf(p), m) { KingLegal(p, m); }
    KingTargetsFilter(p, OurKing(p));
    if PieceMove(StateOf(p), m) && m.from == OurKing(p) { KingFrom(p, m); }
  }

  lemma KingTargetsFilter(p: Pos, king: Square)
    ensures KingAttacks(king) * Complement(p.byColor[p.turn]) - p.attacked == KingTargets(p, king)
  {}

  lemma KingFrom(p: Pos, m: Move)
    requires Ready(p) && PieceMove(StateOf(p), m) && m.from == OurKing(p)
    ensures BoardOf(p)[m.from].piece == KING
  {
    hide Ready, BoardOf, Hits;
    ReadyKing(p);
  }

  // src/gen.c:193-196: the en-passant square joins the targets of pawns when a pawn gives check.
  function PawnEscapeTargets(p: Pos, king: Square, e: Square): Bitboard
  {
    if p.PieceOn(e) == PAWN && p.epSquare != NO_SQUARE then EscapeTargets(p, king, e) + {p.epSquare}
    else EscapeTargets(p, king, e)
  }

  ghost predicate InEscapeGen(p: Pos, king: Square, m: Move)
    requires EpReady(p) && p.checkers != {}
  {
    KingGen(p, king, KingTargets(p, king), m) ||
    (!Several(p.checkers) &&
     (PieceGen(p, king, EscapeTargets(p, king, Lsb(p.checkers)) - p.byColor[p.turn], false, m) ||
      PawnGen(p, king, PawnEscapeTargets(p, king, Lsb(p.checkers)), m)))
  }

  lemma DoubleCheckKingOnly(p: Pos, m: Move)
    requires Ready(p) && Several(p.checkers)
    ensures !AnswersChecks(BoardOf(p), p.turn, OurKing(p), m.to)
    ensures p.epSquare == NO_SQUARE
  {
    hide Ready, BoardOf, Checks, AnswersChecks, EpReady, EpOk;
    ReadyParts(p);
    ReadyKing(p);
    ReadyEp(p);
    SeveralIff(p.checkers);
    var x, y :| x in p.checkers && y in p.checkers && x != y;
    DerivedCheckers(p, x);
    DerivedCheckers(p, y);
    DoubleCheckUnanswered(BoardOf(p), p.turn, OurKing(p), x, y, m.to);
    if p.epSquare != NO_SQUARE { EpNoDoubleCheck(StateOf(p), OurKing(p), x, y); }
  }

  lemma NoCastlingInCheck(p: Pos, m: Move)
    requires Ready(p) && p.checkers != {}
    ensures !Castling(StateOf(p), m)
  {
    hide *;
    if Castling(StateOf(p), m) {
      CastleLegal(p, m);
      DerivedCheckerSet(p);
    }
  }

  lemma DerivedCheckerSet(p: Pos)
    requires Ready(p)
    ensures p.checkers == CheckerSet(BoardOf(p), p.turn, OurKing(p))
  {
    hide Consistent, WellFormed, AttackedSet, CheckerSet, PinSet;
  }

  lemma SingleCheckExact(p: Pos, m: Move, e: Square)
    requires Ready(p) && EpReady(p) && p.checkers == {e}
    ensures var k := OurKing(p);
            (KingGen(p, k, KingTargets(p, k), m) ||
             PieceGen(p, k, EscapeTargets(p, k, e) - p.byColor[p.turn], false, m) ||
             PawnGen(p, k, PawnEscapeTargets(p, k, e), m))
            <==> Legal(StateOf(p), m)
  {
    hide Legal, AnswersChecks, StaysPinned, AttackedThrough, SliderSees, Pinned, PieceMove, OrdinaryPawnMove, EnPassant, Castling, Ready, BoardOf, OurKing;
    hide QuietPawnGen, EpGen, PromotionGen, KingGen, KnightGen, RookGen, BishopGen, CastleGen, Complement, Owned, PlayBoard, EpReady, EscapeTargets, EpOk;
    var k := OurKing(p);
    var filter, pawnFilter := EscapeTargets(p, k, e) - p.byColor[p.turn], PawnEscapeTargets(p, k, e);
    forall s: Square ensures s in p.byColor[p.turn] <==> Owned(BoardOf(p), p.turn, s) { FilterFacts(p, s); }
    ReadyKing(p);
    ReadyEp(p);
    LegalKinds(p, m);
    NoCastlingInCheck(p, m);
    OrdinaryPawnGenIs(p, pawnFilter, m);
    EpGenIs(p, m);
    PieceGenIs(p, filter, m);
    KingGenIs(p, m);
    if m.to != k { SingleCheckAnswered(p, e, m.to); }
    if PieceMove(StateOf(p), m) || OrdinaryPawnMove(StateOf(p), m) { NotOwnTarget(StateOf(p), m); }
    if OrdinaryPawnMove(StateOf(p), m) { PawnNotEp(StateOf(p), m); }
    if KingMove(StateOf(p), m) { KingLegal(p, m); }
    if PieceMove(StateOf(p), m) && m.from == k { KingFrom(p, m); }
  }

  lemma DoubleCheckExact(p: Pos, m: Move)
    requires Ready(p) && Several(p.checkers)
    ensures KingGen(p, OurKing(p), KingTargets(p, OurKing(p)), m) <==> Legal(StateOf(p), m)
  {
    hide Legal, AnswersChecks, StaysPinned, AttackedThrough, SliderSees, Pinned, PieceMove, OrdinaryPawnMove, Castling, Ready, BoardOf, OurKing;
    hide KingGen, PlayBoard;
    LegalKinds(p, m);
    NoCastlingInCheck(p, m);
    KingGenIs(p, m);
    DoubleCheckKingOnly(p, m);
    if KingMove(StateOf(p), m) { KingLegal(p, m); }
    if PieceMove(StateOf(p), m) && m.from == OurKing(p) { KingFrom(p, m); }
  }

  lemma EscapesExact(p: Pos, m: Move)
    requires Ready(p) && EpReady(p) && p.checkers != {}
    ensures InEscapeGen(p, OurKing(p), m) <==> Legal(StateOf(p), m)
  {
    hide Legal, Ready, BoardOf, OurKing, KingGen, PieceGen, PawnGen, EscapeTargets, PawnEscapeTargets, EpReady;
    if Several(p.checkers) {
      DoubleCheckExact(p, m);
    } else {
      SingletonLsb(p.checkers);
      SingleCheckExact(p, m, Lsb(p.checkers));
    }
  }

  // Pieces, pawns and king: no generator repeats what another one has pushed.
  lemma KindsDisjoint(p: Pos, king: Square, f: Bitboard, g: Bitboard, t: Bitboard, kingMoves: bool, m: Move)
    requires Ready(p) && EpReady(p) && king == OurKing(p)
    ensures PieceGen(p, king, f, kingMoves, m) || KingGen(p, king, t, m) || CastleGen(p, king, m) ==> m.from !in PawnsOf(p)
    ensures KingGen(p, king, t, m) ==> !PieceGen(p, king, f, false, m)
    ensures CastleGen(p, king, m) ==> m.from == king && m.to in p.byColor[p.turn]
    ensures PieceGen(p, king, f, kingMoves, m) ==> m.to in f
    ensures PawnGen(p, king, g, m) ==> m.from in PawnsOf(p)
  {
    hide Ready, PinTest, KingAttacks, KnightAttacks, RookAttacks, BishopAttacks, BoardOf, OurKing, EpReady, QuietPawnGen, EpGen, PromotionGen, SquareFrom, RankOf, Segment;
    ReadyParts(p);
    ReadyKing(p);
    CellFacts(p, BoardOf(p), m.from, p.turn, KING);
    CellFacts(p, BoardOf(p), m.from, p.turn, PAWN);
    CellFacts(p, BoardOf(p), m.from, p.turn, KNIGHT);
    CellFacts2(p, BoardOf(p), m.from, p.turn, ROOK, QUEEN);
    CellFacts2(p, BoardOf(p), m.from, p.turn, BISHOP, QUEEN);
    PawnGensDisjoint(p, king, g, m);
  }

  // src/gen.c:172-202
  method GenCheckEscapes(p: Pos, king: Square) returns (r: seq<Move>)
    requires Ready(p) && EpReady(p) && king == OurKing(p) && p.checkers != {}
    ensures NoRepeats(r)
    ensures forall m: Move :: m in r <==> Legal(StateOf(p), m)
  {
    ReadyKing(p);
    ReadyParts(p);
    ReadyEp(p);
    var targets0 := KingTargets(p, king);
    r := [];
    hide Ready, BoardOf, OurKing, KingGen, PieceGen, PawnGen, EscapeTargets, KingTargets, Represents, PieceTarget, EpOk, EpReady, Ray, PinTest;
    KingTargetIs(p, king, targets0);
    r := SerializePieceMoves(king, p.pins, king, targets0, r);
    assert forall m: Move :: m in r <==> KingGen(p, king, targets0, m);
    if !Several(p.checkers) {
      var checkerSquare := Lsb(p.checkers);
      var checkerPiece := p.PieceOn(checkerSquare);
      var targets := EscapeTargets(p, king, checkerSquare);
      EscapeTargetsIs(p, king, checkerSquare);
      forall m: Move
        ensures KingGen(p, king, targets0, m) ==> !PieceGen(p, king, targets - p.byColor[p.turn], false, m) && m.from !in PawnsOf(p)
        ensures PieceGen(p, king, targets - p.byColor[p.turn], false, m) ==> m.from !in PawnsOf(p)
      {
        KindsDisjoint(p, king, targets - p.byColor[p.turn], {}, targets0, false, m);
      }
      r := GenPieceMoves(p, king, r, targets - p.byColor[p.turn], false);
      if checkerPiece == PAWN && p.epSquare < NO_SQUARE {
        EpNotTarget(p, checkerSquare);
        targets := BbSet(targets, p.epSquare);
      }
      r := GenPawnMoves(p, king, r, targets);
    }
    EscapesAreLegal(p, king, r);
  }

  lemma EscapesAreLegal(p: Pos, king: Square, r: seq<Move>)
    requires Ready(p) && EpReady(p) && king == OurKing(p) && p.checkers != {}
    requires forall m: Move :: m in r <==> InEscapeGen(p, king, m)
    ensures forall m: Move :: m in r <==> Legal(StateOf(p), m)
  {
    hide *;
    forall m: Move ensures InEscapeGen(p, king, m) <==> Legal(StateOf(p), m) { EscapesExact(p, m); }
  }

  lemma KingTargetIs(p: Pos, king: Square, targets: Bitboard)
    ensures forall m: Move :: PieceTarget(m, king, p.pins, king, targets) <==> KingGen(p, king, targets, m)
  {}

  lemma EscapeTargetsIs(p: Pos, king: Square, e: Square)
    ensures EscapeTargets(p, king, e) == if BISHOP <= p.PieceOn(e) <= QUEEN then Segment(king, e) else p.checkers
  {}

  // The assert of bb_set at src/gen.c:196.
  lemma EpNotTarget(p: Pos, e: Square)
    requires Ready(p) && EpReady(p) && p.epSquare != NO_SQUARE && p.PieceOn(e) == PAWN
    ensures p.epSquare !in EscapeTargets(p, OurKing(p), e)
  {
    hide Ready, BoardOf, OurKing, Segment, Hits;
    ReadyParts(p);
    DerivedCheckers(p, p.epSquare);
    OccIsPieces(p, BoardOf(p));
  }

  // src/gen.c:210-214
  method GenUnchecked(p: Pos, king: Square) returns (moves: seq<Move>)
    requires Ready(p) && EpReady(p) && king == OurKing(p) && p.checkers == {}
    ensures NoRepeats(moves)
    ensures forall m: Move :: m in moves <==> Legal(StateOf(p), m)
  {
    ReadyKing(p);
    ReadyEp(p);
    ReadyConsistent(p);
    var filter := Complement(p.byColor[p.turn]);
    hide *;
    hide Ready, BoardOf, OurKing, PieceGen, PawnGen, CastleGen, EpOk, EpReady, Complement;
    forall m: Move
      ensures PieceGen(p, king, filter, true, m) ==> !CastleGen(p, king, m) && m.from !in PawnsOf(p)
      ensures PawnGen(p, king, filter, m) ==> !CastleGen(p, king, m) && m.from in PawnsOf(p)
    {
      UncheckedDisjoint(p, king, m);
    }
    NoMoves();
    moves := GenPawnMoves(p, king, [], filter);
    assert forall m: Move :: m in moves <==> PawnGen(p, king, filter, m);
    moves := GenPieceMoves(p, king, moves, filter, true);
    moves := GenCastlingMoves(p, king, moves);
    NoCheckGenIs(p, king);
    forall m: Move ensures InNoCheckGen(p, king, m) <==> Legal(StateOf(p), m) { NoCheckExact(p, m); }
  }

  lemma NoMoves()
    ensures NoRepeats<Move>([])
  {}

  lemma ReadyConsistent(p: Pos)
    requires Ready(p)
    ensures Consistent(p)
  {}

  lemma NoCheckGenIs(p: Pos, king: Square)
    requires EpReady(p)
    ensures forall m: Move :: InNoCheckGen(p, king, m) <==>
              PawnGen(p, king, Complement(p.byColor[p.turn]), m) ||
              PieceGen(p, king, Complement(p.byColor[p.turn]), true, m) || CastleGen(p, king, m)
  {
    hide PawnGen, PieceGen, CastleGen, EpReady;
  }

  lemma UncheckedDisjoint(p: Pos, king: Square, m: Move)
    requires Ready(p) && EpReady(p) && king == OurKing(p)
    ensures var filter := Complement(p.byColor[p.turn]);
            (PieceGen(p, king, filter, true, m) ==> !CastleGen(p, king, m) && m.from !in PawnsOf(p)) &&
            (PawnGen(p, king, filter, m) ==> !CastleGen(p, king, m) && m.from in PawnsOf(p))
  {
    hide Ready, OurKing, PieceGen, PawnGen, CastleGen, EpReady;
    var filter := Complement(p.byColor[p.turn]);
    KindsDisjoint(p, king, filter, filter, {}, true, m);
  }

  // src/gen.c:204-216: the moves returned are the legal moves of the position, each of them once.
  method GenAllMoves(p: Pos) returns (moves: seq<Move>)
    requires Ready(p)
    ensures NoRepeats(moves)
    ensures forall m: Move :: m in moves <==> Legal(StateOf(p), m)
  {
    hide *;
    ReadyEp(p);
    KingLsb(p);
    var king := Lsb(p.PiecesCP(p.turn, KING));
    if p.checkers != {} {
      moves := GenCheckEscapes(p, king);
    } else {
      moves := GenUnchecked(p, king);
    }
  }
}
