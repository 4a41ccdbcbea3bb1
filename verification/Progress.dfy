/** A measure of positions that no legal move increases and that every move resetting the fifty-move counter
    decreases: men that can still be captured, steps the pawns have left, and castling rights.  It bounds the
    length of every game and makes every reset irreversible. */
module Progress {
  import opened Geometry
  import opened Rules
  import opened Legality
  import opened MoveGenExact
  import opened Preservation
  import opened PositionClass

  function PawnStepsOn(cell: Cell, s: Square): nat
  {
    if cell.Man? && cell.piece == PAWN && 0 <= RelativeRank(cell.color, s) <= 7 then 7 - RelativeRank(cell.color, s) else 0
  }

  function PawnSteps(b: Board, n: nat): nat
    requires n <= 64
  {
    if n == 0 then 0 else PawnSteps(b, n - 1) + PawnStepsOn(b[n - 1], n - 1)
  }

  function Measure(st: State): int
  {
    |Army(st.board, WHITE)| + |Army(st.board, BLACK)| - 2 + PawnSteps(st.board, 64) + |st.castle|
  }

  lemma {:induction false} PawnStepsUpdate(b: Board, s: Square, cell: Cell, n: nat)
    requires n <= 64
    ensures PawnSteps(b[s := cell], n) == PawnSteps(b, n) + (if s < n then PawnStepsOn(cell, s) - PawnStepsOn(b[s], s) else 0)
  {
    hide PawnStepsOn;
    if n > 0 { PawnStepsUpdate(b, s, cell, n - 1); }
  }

  lemma PawnStepsAfter(b: Board, from: Square, to: Square, cell: Cell)
    requires from != to
    ensures PawnSteps(b[from := Empty][to := cell], 64) ==
            PawnSteps(b, 64) - PawnStepsOn(b[from], from) - PawnStepsOn(b[to], to) + PawnStepsOn(cell, to)
  {
    hide PawnSteps, PawnStepsOn;
    PawnStepsUpdate(b, from, Empty, 64);
    PawnStepsUpdate(b[from := Empty], to, cell, 64);
    NoSteps(from);
  }

  lemma NoSteps(s: Square)
    ensures PawnStepsOn(Empty, s) == 0
    ensures forall c: Color, p: Piece :: p != PAWN ==> PawnStepsOn(Man(c, p), s) == 0
  {}

  lemma ArmySum(b: Board, from: Square, to: Square, cell: Cell, us: Color)
    requires from != to && Owned(b, us, from) && !Owned(b, us, to) && cell.Man? && cell.color == us
    ensures var b' := b[from := Empty][to := cell];
            |Army(b', WHITE)| + |Army(b', BLACK)| == |Army(b, WHITE)| + |Army(b, BLACK)| - One(b[to] != Empty)
  {
    hide Army;
    ArmyAfter(b, from, to, cell, WHITE);
    ArmyAfter(b, from, to, cell, BLACK);
    assert us == WHITE || us == BLACK;
    assert b[to].Man? ==> b[to].color == WHITE || b[to].color == BLACK;
  }

  lemma CastleShrinks(st: State, m: Move)
    ensures |NextCastle(st, m)| <= |st.castle|
    ensures m.to in st.castle ==> |NextCastle(st, m)| < |st.castle|
  {
    assert NextCastle(st, m) <= st.castle;
    SubsetCard(NextCastle(st, m), st.castle);
    if m.to in st.castle { SubsetCard(NextCastle(st, m), st.castle - {m.to}); }
  }

  lemma SubsetCard(a: set<Square>, b: set<Square>)
    requires a <= b
    ensures |a| <= |b|
  {
    assert b == a + (b - a);
    assert |b| == |a| + |b - a|;
  }

  // A pawn move uses up steps of the pawn; a promotion uses up the last one.
  lemma PawnMoveSteps(st: State, m: Move)
    requires OrdinaryPawnMove(st, m) && PawnRanksOk(st.board)
    ensures PawnStepsOn(Placed(st, m), m.to) < PawnStepsOn(st.board[m.from], m.from)
  {
    hide Dir;
    assert st.board[m.from].piece == PAWN;
  }

  lemma EpSteps(c: Color, from: Square, to: Square)
    requires PawnHit(Up(c), from, to) && 0 <= RelativeRank(c, from) && RelativeRank(c, to) <= 7
    ensures PawnStepsOn(Man(c, PAWN), to) < PawnStepsOn(Man(c, PAWN), from)
  {}

  lemma RelativeRankRange(c: Color, s: Square)
    ensures 0 <= RelativeRank(c, s) <= 7
  {}

  lemma OrdinaryProgress(st: State, m: Move)
    requires WellFormed(st) && Ordinary(st, m)
    ensures Measure(NextState(st, m)) <= Measure(st) - One(Resets(st, m))
  {
    hide WellFormed, Ordinary, PlayBoard, Army, PawnSteps, PawnStepsOn, OrdinaryPawnMove, Hits, NextCastle, NextEp;
    WellFormedEp(st);
    OrdinaryFacts(st, m);
    CastleShrinks(st, m);
    ArmySum(st.board, m.from, m.to, Placed(st, m), st.turn);
    PawnStepsAfter(st.board, m.from, m.to, Placed(st, m));
    PawnRanksBefore(st);
    NoSteps(m.from);
    NoSteps(m.to);
    if st.board[m.from].piece == PAWN { PawnMoveSteps(st, m); }
  }

  lemma EpProgress(st: State, m: Move)
    requires WellFormed(st) && EnPassant(st, m)
    ensures Measure(NextState(st, m)) < Measure(st)
  {
    hide WellFormed, EnPassant, PlayBoard, Army, PawnSteps, PawnStepsOn, NextCastle, NextEp, PawnHit, RelativeRank;
    EnPassantForm(st, m);
    var b, cap := st.board, m.to - PushInc(st.turn);
    var b1 := b[m.from := Empty][m.to := Man(st.turn, PAWN)];
    CastleShrinks(st, m);
    ArmySum(b, m.from, m.to, Man(st.turn, PAWN), st.turn);
    ArmyUpdate(b1, cap, Empty, WHITE);
    ArmyUpdate(b1, cap, Empty, BLACK);
    assert Opposite(st.turn) == WHITE || Opposite(st.turn) == BLACK;
    PawnStepsAfter(b, m.from, m.to, Man(st.turn, PAWN));
    PawnStepsUpdate(b1, cap, Empty, 64);
    NoSteps(m.to);
    NoSteps(cap);
    EpHits(st, m);
    RelativeRankRange(st.turn, m.from);
    RelativeRankRange(st.turn, m.to);
    EpSteps(st.turn, m.from, m.to);
  }

  lemma EpHits(st: State, m: Move)
    requires EnPassant(st, m)
    ensures PawnHit(Up(st.turn), m.from, m.to)
  {}

  lemma CastlingProgress(st: State, m: Move)
    requires WellFormed(st) && Castling(st, m)
    ensures Measure(NextState(st, m)) < Measure(st)
  {
    hide WellFormed, Castling, PlayBoard, Army, PawnSteps, PawnStepsOn, NextCastle, NextEp, KingDest, RookDest, WaysClear, CastlingSetup, RankOf;
    CastlingForm(st, m);
    CastlingOwn(st, m);
    CastleShrinks(st, m);
    CastlingMen(st.board, st.turn, m.from, m.to, WHITE, KING);
    CastlingMen(st.board, st.turn, m.from, m.to, BLACK, KING);
    CastlingSteps(st.board, st.turn, m.from, m.to);
  }

  lemma CastlingSteps(b: Board, us: Color, k: Square, r: Square)
    requires CastlingSetup(b, us, k, r) && WaysClear(b, k, r) && k != r && KingDest(k, r) != RookDest(k, r)
    ensures PawnSteps(AfterCastling(b, us, k, r), 64) == PawnSteps(b, 64)
  {
    hide PawnSteps, PawnStepsOn, KingDest, RookDest, WaysClear, RankOf, FileOf, KingAt;
    KingAtFact(b, us, k, k);
    WaysClearDests(b, k, r);
    var kto, rto := KingDest(k, r), RookDest(k, r);
    var b2 := b[k := Empty][r := Empty];
    PawnStepsAfter(b, k, r, Empty);
    PawnStepsUpdate(b2, kto, Man(us, KING), 64);
    PawnStepsUpdate(b2[kto := Man(us, KING)], rto, Man(us, ROOK), 64);
    NoSteps(k);
    NoSteps(r);
    NoSteps(kto);
    NoSteps(rto);
  }

  // No legal move increases the measure, and a move that resets rule50 decreases it: it cannot be undone.
  lemma MoveProgress(st: State, m: Move)
    requires WellFormed(st) && Legal(st, m)
    ensures Measure(NextState(st, m)) <= Measure(st) - One(Resets(st, m))
  {
    hide WellFormed, Castling, EnPassant, Ordinary, Measure, Legal, Resets, NextState;
    LegalCases(st, m);
    if Ordinary(st, m) { OrdinaryProgress(st, m); } else if EnPassant(st, m) { EpProgress(st, m); } else { CastlingProgress(st, m); }
  }

  // ---- The measure is at most 130 ------------------------------------------------------------------------

  function PawnsBelow(b: Board, n: nat): set<Square>
  {
    set s: Square | 0 <= s < 64 && s < n && b[s].Man? && b[s].piece == PAWN
  }

  lemma {:induction false} PawnStepsBound(b: Board, n: nat)
    requires PawnRanksOk(b) && n <= 64
    ensures PawnSteps(b, n) <= 6 * |PawnsBelow(b, n)|
  {
    if n == 0 {
    } else {
      PawnStepsBound(b, n - 1);
      if b[n - 1].Man? && b[n - 1].piece == PAWN {
        assert PawnsBelow(b, n) == PawnsBelow(b, n - 1) + {n - 1};
        OneStepBound(b, n - 1);
      } else {
        assert PawnsBelow(b, n) == PawnsBelow(b, n - 1);
      }
    }
  }

  lemma OneStepBound(b: Board, s: Square)
    requires PawnRanksOk(b) && b[s].Man? && b[s].piece == PAWN
    ensures PawnStepsOn(b[s], s) <= 6
  {}

  function CastleSide(st: State, c: Color, k: Square, left: bool): set<Square>
  {
    set r: Square | 0 <= r < 64 && r in st.castle && Owned(st.board, c, r) && (r < k) == left
  }

  lemma CastleSideSmall(st: State, c: Color, left: bool)
    requires CastleOk(st)
    ensures |CastleSide(st, c, Ks(st, c), left)| <= 1
  {
    hide KingSquare, RankOf, FileOf;
    var side := CastleSide(st, c, Ks(st, c), left);
    forall x, y | x in side && y in side ensures x == y {
      assert SameSide(Ks(st, c), x, y);
    }
    if side != {} {
      var x :| x in side;
      assert side == {x};
    }
  }

  lemma CastleAtMostFour(st: State)
    requires CastleOk(st)
    ensures |st.castle| <= 4
  {
    hide KingSquare, CastleRookOk, SameSide;
    var wl, wr := CastleSide(st, WHITE, Ks(st, WHITE), true), CastleSide(st, WHITE, Ks(st, WHITE), false);
    var bl, br := CastleSide(st, BLACK, Ks(st, BLACK), true), CastleSide(st, BLACK, Ks(st, BLACK), false);
    CastleSideSmall(st, WHITE, true);
    CastleSideSmall(st, WHITE, false);
    CastleSideSmall(st, BLACK, true);
    CastleSideSmall(st, BLACK, false);
    forall r: Square | r in st.castle ensures r in wl + wr + (bl + br) {
      assert st.board[r].color == WHITE || st.board[r].color == BLACK;
    }
    SubsetCard(st.castle, wl + wr + (bl + br));
    UnionCard(wl, wr);
    UnionCard(bl, br);
    UnionCard(wl + wr, bl + br);
  }

  lemma UnionCard(a: set<Square>, b: set<Square>)
    ensures |a + b| <= |a| + |b|
  {
    assert a + b == a + (b - a);
    assert |a + (b - a)| == |a| + |b - a|;
    SubsetCard(b - a, b);
  }

  lemma MeasureBound(st: State)
    requires WellFormed(st)
    ensures 0 <= Measure(st) <= 130
  {
    hide WellFormed, KingSquare, RankOf, Army, Men, PawnSteps, RankOf;
    var b := st.board;
    CountsBefore(st, WHITE);
    CountsBefore(st, BLACK);
    PawnRanksBefore(st);
    CastleBefore(st);
    CastleAtMostFour(st);
    PawnStepsBound(b, 64);
    KingsOk(st, WHITE);
    KingsOk(st, BLACK);
    KingInArmy(b, WHITE, Ks(st, WHITE));
    KingInArmy(b, BLACK, Ks(st, BLACK));
    AllPawns(b);
  }

  lemma KingInArmy(b: Board, c: Color, k: Square)
    requires KingAt(b, c, k)
    ensures |Army(b, c)| >= 1
  {
    assert k in Army(b, c);
  }

  lemma AllPawns(b: Board)
    ensures |PawnsBelow(b, 64)| <= |Men(b, WHITE, PAWN)| + |Men(b, BLACK, PAWN)|
  {
    forall s: Square | s in PawnsBelow(b, 64) ensures s in Men(b, WHITE, PAWN) + Men(b, BLACK, PAWN) {
      assert b[s].color == WHITE || b[s].color == BLACK;
    }
    SubsetCard(PawnsBelow(b, 64), Men(b, WHITE, PAWN) + Men(b, BLACK, PAWN));
    UnionCard(Men(b, WHITE, PAWN), Men(b, BLACK, PAWN));
  }
}
