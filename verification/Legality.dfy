/** What a move does to the attacks on one's own king, expressed with the checkers and pins of the position
    before the move: the reason why src/gen.c never has to play a move to know that it is legal. */
module Legality {
  import opened Geometry
  import opened Rules

  // e gives check to the king of us on k.
  predicate Checks(b: Board, us: Color, k: Square, e: Square)
  {
    Owned(b, Opposite(us), e) && Hits(b, e, k)
  }

  predicate EnemySlider(b: Board, us: Color, k: Square, e: Square)
  {
    Owned(b, Opposite(us), e) && IsSlider(b[e].piece) && LineFits(b[e].piece, Dir(k, e))
  }

  // The man of us on s is the only man between the king on k and the aligned enemy slider on e.
  predicate PinnedBy(b: Board, us: Color, k: Square, s: Square, e: Square)
  {
    Owned(b, us, s) && EnemySlider(b, us, k, e) && Between(k, s, e) &&
    forall x: Square :: Between(k, x, e) && x != s ==> b[x] == Empty
  }

  ghost predicate Pinned(b: Board, us: Color, k: Square, s: Square)
  {
    exists e: Square :: PinnedBy(b, us, k, s, e)
  }

  lemma ClearReverse(b: Board, s: Square, t: Square)
    ensures ClearPath(b, s, t) <==> ClearPath(b, t, s)
  {
    hide Dir, Dist, Between;
    forall x: Square { BetweenReverse(s, x, t); }
  }

  lemma SliderHits(b: Board, e: Square, k: Square)
    requires b[e].Man? && IsSlider(b[e].piece)
    ensures Hits(b, e, k) <==> LineFits(b[e].piece, Dir(k, e)) && ClearPath(b, k, e)
  {
    hide Dir, Dist, Between, ClearPath;
    DirReverse(e, k);
    ClearReverse(b, e, k);
  }

  lemma BetweenEnds(a: Square, b: Square)
    ensures !Between(a, a, b) && !Between(a, b, b)
  {
    hide Dir, Dist;
    DirReverse(a, a);
  }

  // Attack on k by the enemy man on e after a man of us has gone from `from` to `to`.
  lemma HitsAfter(b: Board, b': Board, us: Color, k: Square, from: Square, to: Square, e: Square)
    requires Owned(b, us, from) && !Owned(b, us, to) && Owned(b, us, k) && from != k
    requires b'[to].Man? && b' == b[from := Empty][to := b'[to]]
    requires Owned(b, Opposite(us), e) && e != to
    ensures b'[e] == b[e]
    ensures Hits(b', e, k) <==>
            (Checks(b, us, k, e) && !(IsSlider(b[e].piece) && Between(k, to, e))) ||
            (PinnedBy(b, us, k, from, e) && !Between(k, to, e))
  {
    hide Dir, Dist, Between, RankOf, FileOf;
    if IsSlider(b[e].piece) {
      SliderHits(b, e, k);
      SliderHits(b', e, k);
      ClearAfter(b, b', k, from, to, e);
    }
  }

  lemma ClearAfter(b: Board, b': Board, k: Square, from: Square, to: Square, e: Square)
    requires b[from].Man? && from != to
    requires b'[to].Man? && b' == b[from := Empty][to := b'[to]]
    ensures ClearPath(b', k, e) <==>
            !Between(k, to, e) && forall x: Square :: Between(k, x, e) && x != from ==> b[x] == Empty
  {
    hide Dir, Dist, Between, RankOf, FileOf;
    if ClearPath(b', k, e) {
      forall x: Square | Between(k, x, e) && x != from ensures b[x] == Empty { assert b'[x] == Empty; }
    }
  }

  // ---- Moves of men other than the king ---------------------------------------------------------------

  // Going to `to` answers every check: by capturing the checking man or by standing in its way.
  ghost predicate AnswersChecks(b: Board, us: Color, k: Square, to: Square)
  {
    forall e: Square :: Checks(b, us, k, e) ==> to == e || (IsSlider(b[e].piece) && Between(k, to, e))
  }

  ghost predicate StaysPinned(b: Board, us: Color, k: Square, from: Square, to: Square)
  {
    Pinned(b, us, k, from) ==> OnRay(k, from, to)
  }

  // A man on from that is pinned by e and reaches to along a clear line (or by a knight's jump) keeps the
  // king covered exactly when it stays on the ray.
  lemma PinnedMove(b: Board, us: Color, k: Square, from: Square, to: Square, e: Square)
    requires PinnedBy(b, us, k, from, e) && !Owned(b, us, to) && Owned(b, us, k)
    requires (Dir(from, to) != 0 && ClearPath(b, from, to)) || KnightHit(from, to)
    ensures OnRay(k, from, to) <==> to == e || Between(k, to, e)
  {
    hide Dir, Dist, RankOf, FileOf, KnightHit;
    if Dir(k, to) == Dir(k, from) {
      LeapersOffLine(from, to);
      DirReverse(from, to);
      if Dist(k, to) == Dist(k, e) {
        PolarUnique(k, to, e);
      } else if Dist(k, e) < Dist(k, to) {
        BetweenBeyond(k, from, e, to);
        SameRay(k, from, to);
      }
    }
  }

  lemma InCheckKing(b: Board, us: Color, k: Square)
    requires KingAt(b, us, k)
    ensures InCheck(b, us) <==> Attacked(b, Opposite(us), k)
  {
    hide Hits;
  }

  lemma KingAtAfter(b: Board, b': Board, us: Color, k: Square, from: Square, to: Square)
    requires KingAt(b, us, k) && from != k && to != k && b'[to] != Man(us, KING)
    requires b' == b[from := Empty][to := b'[to]]
    ensures KingAt(b', us, k)
  {}

  // The king of us is safe after an ordinary move of another man exactly when the move answers every check
  // and a pinned man stays on its ray.
  lemma QuietLegal(b: Board, b': Board, us: Color, k: Square, from: Square, to: Square)
    requires KingAt(b, us, k) && Owned(b, us, from) && from != k && !Owned(b, us, to)
    requires b'[to].Man? && b'[to].color == us && b'[to].piece != KING
    requires b' == b[from := Empty][to := b'[to]]
    requires (Dir(from, to) != 0 && ClearPath(b, from, to)) || KnightHit(from, to)
    ensures !InCheck(b', us) <==> AnswersChecks(b, us, k, to) && StaysPinned(b, us, k, from, to)
  {
    hide Dir, Dist, Between, Hits, KnightHit, ClearPath, OnRay, PinnedBy;
    KingAtAfter(b, b', us, k, from, to);
    InCheckKing(b', us, k);
    BetweenEnds(k, to);
    forall e: Square | Owned(b, Opposite(us), e) && e != to
      ensures Hits(b', e, k) <==>
              (Checks(b, us, k, e) && !(IsSlider(b[e].piece) && Between(k, to, e))) ||
              (PinnedBy(b, us, k, from, e) && !Between(k, to, e))
    {
      HitsAfter(b, b', us, k, from, to, e);
    }
    forall e: Square | PinnedBy(b, us, k, from, e)
      ensures Owned(b, Opposite(us), e)
      ensures OnRay(k, from, to) <==> to == e || Between(k, to, e)
    {
      PinnedMove(b, us, k, from, to, e);
      PinnedOwners(b, us, k, from, e);
    }
  }

  lemma PinnedOwners(b: Board, us: Color, k: Square, s: Square, e: Square)
    requires PinnedBy(b, us, k, s, e)
    ensures Owned(b, us, s) && Owned(b, Opposite(us), e)
  {}

  // ---- King moves -------------------------------------------------------------------------------------

  lemma NotOnItself(b: Board, s: Square)
    ensures !Hits(b, s, s)
  {
    hide ClearPath;
    DirReverse(s, s);
  }

  // Taking a man away from a square that is not between e and t changes nothing for e's attack on t.
  lemma HitsSame(b: Board, b': Board, e: Square, t: Square)
    requires b[e] == b'[e]
    requires forall x: Square :: Between(e, x, t) ==> b[x] == b'[x]
    ensures Hits(b, e, t) <==> Hits(b', e, t)
  {
    hide Dir, Dist, Between, RankOf, FileOf;
  }

  // A king step is safe exactly when the square is not attacked once the king is lifted off the board.
  lemma KingStepLegal(b: Board, b': Board, us: Color, k: Square, to: Square)
    requires KingAt(b, us, k) && k != to && b' == b[k := Empty][to := Man(us, KING)]
    ensures !InCheck(b', us) <==> !Attacked(b[k := Empty], Opposite(us), to)
  {
    hide Dir, Dist, Between, Hits;
    var lifted := b[k := Empty];
    assert KingAt(b', us, to);
    InCheckKing(b', us, to);
    forall e: Square | e != to
      ensures Owned(b', Opposite(us), e) && Hits(b', e, to) <==> Owned(lifted, Opposite(us), e) && Hits(lifted, e, to)
    {
      BetweenEnds(e, to);
      assert b'[e] == lifted[e];
      forall x: Square | Between(e, x, to) ensures lifted[x] == b'[x] { assert x != to; }
      HitsSame(lifted, b', e, to);
    }
    NotOnItself(lifted, to);
    NotOnItself(b', to);
  }

  // ---- En passant -------------------------------------------------------------------------------------

  ghost predicate SliderSees(b: Board, occ: Board, us: Color, k: Square)
  {
    exists e: Square :: EnemySlider(b, us, k, e) && ClearPath(occ, k, e)
  }

  // What EpOk says about the checks that a double push of the pawn now on cap (from org) can have given.
  lemma EpChecker(st: State, k: Square, e: Square)
    requires EpOk(st) && st.ep != NO_SQUARE && KingAt(st.board, st.turn, k) && Checks(st.board, st.turn, k, e)
    ensures var cap, org := st.ep + PushInc(Opposite(st.turn)), st.ep - PushInc(Opposite(st.turn));
            0 <= cap < 64 && 0 <= org < 64 && (e == cap || (IsSlider(st.board[e].piece) && Between(k, org, e)))
  {
    hide Dir, Dist, Between, KnightHit, KingHit, PawnHit;
    var b, us, them := st.board, st.turn, Opposite(st.turn);
    var cap, org := st.ep + PushInc(them), st.ep - PushInc(them);
    var u := UndoDoublePush(b, them, st.ep);
    if e != cap {
      assert KingAt(u, us, k);
      InCheckKing(u, us, k);
      assert Owned(u, them, e) && !Hits(u, e, k);
      if IsSlider(b[e].piece) {
        SliderHits(b, e, k);
        SliderHits(u, e, k);
        var x: Square :| Between(k, x, e) && u[x] != Empty;
        assert b[x] == Empty;
      }
    }
  }

  // With an en-passant square there is never a double check.
  lemma EpNoDoubleCheck(st: State, k: Square, e: Square, e2: Square)
    requires EpOk(st) && st.ep != NO_SQUARE && KingAt(st.board, st.turn, k)
    requires Checks(st.board, st.turn, k, e) && Checks(st.board, st.turn, k, e2)
    ensures e == e2
  {
    hide Dir, Dist, Between, KnightHit, KingHit, PawnHit, InCheck, ClearPath;
    var b, us, them := st.board, st.turn, Opposite(st.turn);
    var cap, org := st.ep + PushInc(them), st.ep - PushInc(them);
    EpChecker(st, k, e);
    EpChecker(st, k, e2);
    if e == cap && e2 != cap {
      PawnCheckOffLine(them, cap, org, k, e2);
    } else if e2 == cap && e != cap {
      PawnCheckOffLine(them, cap, org, k, e);
    } else if e != e2 {
      OneSliderPerRay(b, k, org, e, e2);
    }
  }

  // A pawn that has just gone from org to cap and checks k did not open a line through org.
  lemma PawnCheckOffLine(them: Color, cap: Square, org: Square, k: Square, e: Square)
    requires org == cap - 2 * PushInc(them)
    requires PawnHit(Up(them), cap, k)
    ensures !Between(k, org, e)
  {
    TwoRanksBack(them, cap, org);
    hide RankOf, FileOf;
  }

  lemma TwoRanksBack(c: Color, a: Square, b: Square)
    requires b == a - 2 * PushInc(c)
    ensures RankOf(b) == RankOf(a) - 2 * Up(c) && FileOf(b) == FileOf(a)
  {}

  // Two men of one ray cannot both see k.
  lemma OneSliderPerRay(b: Board, k: Square, x: Square, e: Square, e2: Square)
    requires b[e].Man? && b[e2].Man? && IsSlider(b[e].piece) && IsSlider(b[e2].piece)
    requires Hits(b, e, k) && Hits(b, e2, k) && Between(k, x, e) && Between(k, x, e2)
    ensures e == e2
  {
    hide Dir, Dist;
    SliderHits(b, e, k);
    SliderHits(b, e2, k);
    assert Dist(k, e) < Dist(k, e2) ==> Between(k, e, e2);
    assert Dist(k, e2) < Dist(k, e) ==> Between(k, e2, e);
    PolarUnique(k, e, e2);
  }

  // An en-passant capture is legal exactly when no slider sees the king over the occupancy after it.
  lemma EpLegal(st: State, k: Square, m: Move)
    requires EpOk(st) && st.ep != NO_SQUARE && KingAt(st.board, st.turn, k) && EnPassant(st, m)
    ensures !InCheck(PlayBoard(st, m), st.turn) <==> !SliderSees(st.board, PlayBoard(st, m), st.turn, k)
  {
    hide Dir, Dist, Between, KnightHit, KingHit, ClearPath, RankOf, FileOf, InCheck;
    var b, us, them := st.board, st.turn, Opposite(st.turn);
    EpSquares(st, m);
    var cap, b' := st.ep + PushInc(them), PlayBoard(st, m);
    assert b' == b[m.from := Empty][m.to := Man(us, PAWN)][cap := Empty];
    assert KingAt(b', us, k);
    InCheckKing(b', us, k);
    if e: Square :| EnemySlider(b, us, k, e) && ClearPath(b', k, e) {
      SliderHits(b', e, k);
      assert Owned(b', them, e);
    }
    if e: Square :| Owned(b', them, e) && Hits(b', e, k) {
      assert b[e] == b'[e] && e != cap;
      if IsSlider(b[e].piece) {
        SliderHits(b', e, k);
        assert EnemySlider(b, us, k, e);
      } else {
        EpChecker(st, k, e);
      }
    }
  }

  lemma EpSquares(st: State, m: Move)
    requires EpOk(st) && st.ep != NO_SQUARE && EnPassant(st, m)
    ensures 16 <= st.ep < 48 && st.ep + PushInc(Opposite(st.turn)) == m.to - PushInc(st.turn)
    ensures st.board[m.to] == Empty && st.board[m.to - PushInc(st.turn)] == Man(Opposite(st.turn), PAWN)
    ensures m.from != m.to && m.from != m.to - PushInc(st.turn) && IsEnPassant(st, m) && !IsCastling(st, m)
  {
    hide InCheck;
  }

  // ---- Castling ---------------------------------------------------------------------------------------

  ghost predicate WaysClear(b: Board, k: Square, r: Square)
  {
    forall x: Square :: (OnWay(k, x, KingDest(k, r)) || OnWay(r, x, RookDest(k, r))) && x != k && x != r ==> b[x] == Empty
  }

  // No square of the king's way is attacked once the king is lifted off the board.
  ghost predicate WaySafe(b: Board, us: Color, k: Square, r: Square)
  {
    forall x: Square :: OnWay(k, x, KingDest(k, r)) ==> !Attacked(b[k := Empty], Opposite(us), x)
  }

  lemma BetweenOnRank(a: Square, x: Square, b: Square)
    requires RankOf(a) == RankOf(b)
    ensures Between(a, x, b) <==>
            RankOf(x) == RankOf(a) && (FileOf(a) < FileOf(x) < FileOf(b) || FileOf(b) < FileOf(x) < FileOf(a))
  {}

  lemma DirOnRank(a: Square, b: Square)
    requires RankOf(a) == RankOf(b) && a != b
    ensures Dir(a, b) == (if FileOf(a) < FileOf(b) then 1 else -1)
    ensures a < b <==> FileOf(a) < FileOf(b)
  {}

  lemma BetweenRankStays(a: Square, x: Square, b: Square)
    requires Between(a, x, b) && RankOf(a) == RankOf(x)
    ensures RankOf(b) == RankOf(a)
  {}

  lemma CastlingGeometry(k: Square, r: Square)
    requires RankOf(k) == RankOf(r) && k != r
    ensures var kto, rto := KingDest(k, r), RookDest(k, r);
            RankOf(kto) == RankOf(k) && RankOf(rto) == RankOf(k) && kto != rto &&
            FileOf(kto) == (if FileOf(r) > FileOf(k) then 6 else 2) && FileOf(rto) == (if FileOf(r) > FileOf(k) then 5 else 3)
  {
    DirOnRank(k, r);
    CoordsRange(k);
  }

  lemma BetweenNest(x: Square, k: Square, e: Square, y: Square)
    requires Between(x, k, e) && Between(k, y, e)
    ensures Between(x, y, e)
  {
    hide Dir, Dist;
    BetweenReverse(x, k, e);
    BetweenReverse(k, y, e);
    BetweenReverse(x, y, e);
  }

  // Lifting the king only lets through attacks of sliders that already check it.
  lemma LiftedHits(b: Board, k: Square, e: Square, x: Square)
    requires e != k && Hits(b[k := Empty], e, x)
    ensures Hits(b, e, x) || Hits(b, e, k)
  {
    hide Dir, Dist, Between, KnightHit, KingHit, RankOf, FileOf;
    var lifted := b[k := Empty];
    if IsSlider(b[e].piece) {
      SliderHits(b, e, x);
      SliderHits(lifted, e, x);
      if Between(x, k, e) {
        SliderHits(b, e, k);
        BetweenDirs(x, k, e);
        forall y: Square | Between(k, y, e) ensures b[y] == Empty {
          BetweenNest(x, k, e, y);
          BetweenEnds(k, e);
          assert lifted[y] == Empty;
        }
      } else {
        forall y: Square | Between(x, y, e) ensures b[y] == Empty { assert lifted[y] == Empty; }
      }
    }
  }

  lemma BetweenDirs(x: Square, k: Square, e: Square)
    requires Between(x, k, e)
    ensures Dir(k, e) == Dir(x, e) != 0 && k != e && k != x
  {
    hide Dir, Dist;
    SameRay(x, k, e);
    DirReverse(x, k);
    DirReverse(k, e);
  }

  lemma UnliftedHits(b: Board, k: Square, e: Square, x: Square)
    requires e != k && Hits(b, e, x)
    ensures Hits(b[k := Empty], e, x)
  {
    hide Dir, Dist, Between, KnightHit, KingHit, PawnHit, RankOf, FileOf;
  }

  // Article 3.8.2.2 asks about attacks with the king in place; looking through the king changes nothing.
  lemma WaySafeIffUnattacked(b: Board, us: Color, k: Square, r: Square)
    requires Owned(b, us, k)
    ensures WaySafe(b, us, k, r) <==>
            forall x: Square :: OnWay(k, x, KingDest(k, r)) ==> !Attacked(b, Opposite(us), x)
  {
    hide Hits, KingDest, Between;
    var them, lifted := Opposite(us), b[k := Empty];
    assert OnWay(k, k, KingDest(k, r));
    forall x: Square, e: Square | Owned(b, them, e) && Hits(b, e, x)
      ensures Owned(lifted, them, e) && Hits(lifted, e, x)
    {
      UnliftedHits(b, k, e, x);
    }
    forall x: Square, e: Square | Owned(lifted, them, e) && Hits(lifted, e, x)
      ensures Owned(b, them, e) && (Hits(b, e, x) || Hits(b, e, k))
    {
      LiftedHits(b, k, e, x);
    }
  }

  predicate CastlingSetup(b: Board, us: Color, k: Square, r: Square)
  {
    KingAt(b, us, k) && b[r] == Man(us, ROOK) && RankOf(k) == RankOf(r) && 1 <= FileOf(k) <= 6
  }

  function AfterCastling(b: Board, us: Color, k: Square, r: Square): Board
  {
    b[k := Empty][r := Empty][KingDest(k, r) := Man(us, KING)][RookDest(k, r) := Man(us, ROOK)]
  }

  lemma OnWayOnRank(a: Square, x: Square, b: Square)
    requires RankOf(a) == RankOf(b)
    ensures OnWay(a, x, b) <==>
            RankOf(x) == RankOf(a) && (FileOf(a) <= FileOf(x) <= FileOf(b) || FileOf(b) <= FileOf(x) <= FileOf(a))
  {
    BetweenOnRank(a, x, b);
    CoordsRange(a);
    CoordsRange(b);
    CoordsRange(x);
  }

  // Castling with a pinned rook exposes the king.
  lemma PinnedRookExposes(b: Board, us: Color, k: Square, r: Square, e: Square)
    requires CastlingSetup(b, us, k, r) && WaysClear(b, k, r) && PinnedBy(b, us, k, r, e)
    ensures var b' := AfterCastling(b, us, k, r); Owned(b', Opposite(us), e) && Hits(b', e, KingDest(k, r))
  {
    hide Dir, Dist, Between, RankOf, FileOf, KingDest, RookDest, OnWay;
    var b', kto, rto := AfterCastling(b, us, k, r), KingDest(k, r), RookDest(k, r);
    CastlingGeometry(k, r);
    BetweenRankStays(k, r, e);
    BetweenOnRank(k, r, e);
    OnWayOnRank(k, e, kto);
    OnWayOnRank(r, e, rto);
    CoordsRange(e);
    DirOnRank(k, e);
    assert e != kto && e != rto;
    SliderHits(b', e, kto);
    CoordsRange(kto);
    DirOnRank(kto, e);
    forall y: Square | Between(kto, y, e) ensures b'[y] == Empty {
      BetweenOnRank(kto, y, e);
      BetweenOnRank(k, y, e);
      OnWayOnRank(k, y, kto);
      CoordsRange(y);
    }
  }

  // Any other attack on the castled king comes from a slider that pinned the rook.
  lemma CastledKingExposed(b: Board, us: Color, k: Square, r: Square, e: Square)
    requires CastlingSetup(b, us, k, r) && WaysClear(b, k, r) && WaySafe(b, us, k, r)
    requires var b' := AfterCastling(b, us, k, r); Owned(b', Opposite(us), e) && Hits(b', e, KingDest(k, r))
    ensures PinnedBy(b, us, k, r, e)
  {
    hide Dir, Dist, Between, RankOf, FileOf, KingDest, RookDest, OnWay, KnightHit, KingHit, PawnHit;
    var b', kto, rto, lifted := AfterCastling(b, us, k, r), KingDest(k, r), RookDest(k, r), b[k := Empty];
    CastlingGeometry(k, r);
    OnWayOnRank(k, kto, kto);
    assert Owned(lifted, Opposite(us), e) && !Hits(lifted, e, kto);
    SliderHits(b', e, kto);
    SliderHits(lifted, e, kto);
    var z: Square :| Between(kto, z, e) && lifted[z] != Empty;
    assert b'[z] == Empty;
    assert z == r;
    CastledKingOnRank(b, us, k, r, e);
  }

  lemma CastledKingOnRank(b: Board, us: Color, k: Square, r: Square, e: Square)
    requires CastlingSetup(b, us, k, r) && WaysClear(b, k, r) && Owned(b, Opposite(us), e) && IsSlider(b[e].piece)
    requires var b' := AfterCastling(b, us, k, r);
             ClearPath(b', KingDest(k, r), e) && b'[e] == b[e] && LineFits(b[e].piece, Dir(KingDest(k, r), e))
    requires Between(KingDest(k, r), r, e)
    ensures PinnedBy(b, us, k, r, e)
  {
    hide Dir, Dist, Between, RankOf, FileOf, KingDest, RookDest, OnWay;
    var b', kto, rto := AfterCastling(b, us, k, r), KingDest(k, r), RookDest(k, r);
    CastlingGeometry(k, r);
    BetweenRankStays(kto, r, e);
    BetweenOnRank(kto, r, e);
    BetweenOnRank(kto, rto, e);
    BetweenOnRank(k, r, e);
    CoordsRange(e);
    CoordsRange(r);
    CoordsRange(k);
    CoordsRange(kto);
    CoordsRange(rto);
    DirOnRank(k, e);
    DirOnRank(kto, e);
    forall y: Square | Between(k, y, e) && y != r ensures b[y] == Empty {
      BetweenOnRank(k, y, e);
      BetweenOnRank(kto, y, e);
      OnWayOnRank(k, y, kto);
      CoordsRange(y);
    }
  }

  lemma CastlingLegal(b: Board, us: Color, k: Square, r: Square)
    requires CastlingSetup(b, us, k, r) && WaysClear(b, k, r) && WaySafe(b, us, k, r)
    ensures !InCheck(AfterCastling(b, us, k, r), us) <==> !Pinned(b, us, k, r)
  {
    hide Dir, Dist, Between, KingDest, RookDest, OnWay, Hits, PinnedBy, RankOf, FileOf, WaysClear, WaySafe;
    var b', kto := AfterCastling(b, us, k, r), KingDest(k, r);
    CastlingGeometry(k, r);
    assert KingAt(b', us, kto);
    InCheckKing(b', us, kto);
    if e: Square :| PinnedBy(b, us, k, r, e) { PinnedRookExposes(b, us, k, r, e); }
    if e: Square :| Owned(b', Opposite(us), e) && Hits(b', e, kto) { CastledKingExposed(b, us, k, r, e); }
  }
}
