/** After a legal move from a well-formed position the side to move is in check from at most two men and
    never from the enemy king, en passant and Chess960 castling included (src/position.c:157-162). */
module CheckCount {
  import opened Geometry
  import opened Rules
  import opened Legality
  import opened Bitboards
  import opened Positions
  import opened MoveGenExact
  import opened Preservation

  // No three different checkers.
  ghost predicate NoThree(b: Board, us: Color, k: Square)
  {
    forall x: Square, y: Square, z: Square | Checks(b, us, k, x) && Checks(b, us, k, y) && Checks(b, us, k, z) ::
      x == y || y == z || x == z
  }

  lemma CardAtMostTwo(s: Bitboard)
    requires forall x, y, z | x in s && y in s && z in s :: x == y || y == z || x == z
    ensures |s| <= 2
  {
    if s != {} {
      var x :| x in s;
      SeveralIff(s - {x});
      assert |s - {x}| == |s| - 1;
    }
  }

  // A man of us that did not attack the enemy king before but does now, and did not move, is a slider whose
  // line ran through a square that has been emptied.
  lemma Discovered(b: Board, b': Board, k: Square, c: Square)
    requires b[c] == b'[c] && !Hits(b, c, k) && Hits(b', c, k)
    ensures IsSlider(b[c].piece) && exists x: Square :: Between(k, x, c) && b[x] != Empty && b'[x] == Empty
  {
    hide Dir, Dist, Between, KnightHit, KingHit, PawnHit, RankOf, FileOf;
    if IsSlider(b[c].piece) {
      SliderHits(b, c, k);
      SliderHits(b', c, k);
    }
  }

  lemma NotHitBefore(st: State, c: Square)
    requires WellFormed(st) && Owned(st.board, st.turn, c)
    ensures !Hits(st.board, c, Ks(st, Opposite(st.turn)))
  {
    hide WellFormed, Hits, KingSquare, InCheck;
    NotInCheckBefore(st);
    KingsOk(st, Opposite(st.turn));
    if Hits(st.board, c, Ks(st, Opposite(st.turn))) {
      HittingKing(st.board, st.turn, c, Ks(st, Opposite(st.turn)));
    }
  }

  // ---- Ordinary moves: the man moved and one discovered slider -------------------------------------------

  lemma OrdinaryDiscovers(st: State, m: Move, c: Square)
    requires WellFormed(st) && Ordinary(st, m) && c != m.to
    requires Checks(PlayBoard(st, m), Opposite(st.turn), Ks(st, Opposite(st.turn)), c)
    ensures var b' := PlayBoard(st, m);
            b'[c].Man? && IsSlider(b'[c].piece) && Between(Ks(st, Opposite(st.turn)), m.from, c)
  {
    hide WellFormed, Ordinary, Hits, KingSquare, PlayBoard, Between, OrdinaryPawnMove;
    var b', k := PlayBoard(st, m), Ks(st, Opposite(st.turn));
    WellFormedEp(st);
    OrdinaryFacts(st, m);
    NotHitBefore(st, c);
    Discovered(st.board, b', k, c);
  }

  lemma OrdinaryNoThree(st: State, m: Move)
    requires WellFormed(st) && Ordinary(st, m)
    ensures NoThree(PlayBoard(st, m), Opposite(st.turn), Ks(st, Opposite(st.turn)))
  {
    hide WellFormed, Ordinary, Hits, KingSquare, PlayBoard, Between;
    var b', k := PlayBoard(st, m), Ks(st, Opposite(st.turn));
    forall x: Square, y: Square | Checks(b', Opposite(st.turn), k, x) && Checks(b', Opposite(st.turn), k, y) && x != m.to && y != m.to
      ensures x == y
    {
      OrdinaryDiscovers(st, m, x);
      OrdinaryDiscovers(st, m, y);
      OneSliderPerRay(b', k, m.from, x, y);
    }
  }

  // ---- En passant: two squares are emptied, but the pawn and both of them cannot all give check ---------

  lemma EpDiscovers(st: State, m: Move, c: Square)
    requires WellFormed(st) && EnPassant(st, m) && c != m.to
    requires Checks(PlayBoard(st, m), Opposite(st.turn), Ks(st, Opposite(st.turn)), c)
    ensures var b', k := PlayBoard(st, m), Ks(st, Opposite(st.turn));
            0 <= m.to - PushInc(st.turn) < 64 && b'[c].Man? && IsSlider(b'[c].piece) && Hits(b', c, k) && b'[m.to].Man? &&
            (Between(k, m.from, c) || Between(k, m.to - PushInc(st.turn), c))
  {
    hide WellFormed, EnPassant, Hits, KingSquare, PlayBoard, Between;
    var b', k := PlayBoard(st, m), Ks(st, Opposite(st.turn));
    EnPassantForm(st, m);
    NotHitBefore(st, c);
    Discovered(st.board, b', k, c);
  }

  // With the capturing pawn on `to` giving check, no line opens through the square of the captured pawn, and
  // a line through `from` on the diagonal is shut by the pawn itself.
  lemma EpGeometry(c: Color, from: Square, to: Square, cap: Square, k: Square)
    requires PawnHit(Up(c), from, to) && cap == to - PushInc(c) && PawnHit(Up(c), to, k)
    ensures Dir(k, cap) == 0
    ensures Dir(k, from) == Dir(k, to) || FileOf(k) == FileOf(from)
  {}

  lemma EpPawnAndTwo(st: State, m: Move, x: Square, y: Square)
    requires WellFormed(st) && EnPassant(st, m) && x != m.to && y != m.to
    requires var b', k := PlayBoard(st, m), Ks(st, Opposite(st.turn));
             Checks(b', Opposite(st.turn), k, m.to) && Checks(b', Opposite(st.turn), k, x) && Checks(b', Opposite(st.turn), k, y)
    ensures x == y
  {
    hide WellFormed, KingSquare, PlayBoard, Between, RankOf, FileOf, PushInc, Up, PawnHit, Dir;
    var b', k, cap := PlayBoard(st, m), Ks(st, Opposite(st.turn)), m.to - PushInc(st.turn);
    EnPassantForm(st, m);
    EpDiscovers(st, m, x);
    EpDiscovers(st, m, y);
    EpGeometry(st.turn, m.from, m.to, cap, k);
    NoLineThrough(k, cap, x);
    NoLineThrough(k, cap, y);
    OneSliderPerRay(b', k, m.from, x, y);
  }

  lemma NoLineThrough(k: Square, x: Square, c: Square)
    requires Dir(k, x) == 0
    ensures !Between(k, x, c)
  {}

  lemma EpNoThree(st: State, m: Move)
    requires WellFormed(st) && EnPassant(st, m)
    ensures NoThree(PlayBoard(st, m), Opposite(st.turn), Ks(st, Opposite(st.turn)))
  {
    hide WellFormed, EnPassant, Hits, KingSquare, PlayBoard, Between, PushInc;
    var b', us, k, cap := PlayBoard(st, m), Opposite(st.turn), Ks(st, Opposite(st.turn)), m.to - PushInc(st.turn);
    forall x: Square, y: Square | Checks(b', us, k, x) && Checks(b', us, k, y) && Checks(b', us, k, m.to) && x != m.to && y != m.to
      ensures x == y
    {
      EpPawnAndTwo(st, m, x, y);
    }
    forall x: Square, y: Square, z: Square | Checks(b', us, k, x) && Checks(b', us, k, y) && Checks(b', us, k, z) && x != m.to && y != m.to && z != m.to
      ensures x == y || y == z || x == z
    {
      EpDiscovers(st, m, x);
      EpDiscovers(st, m, y);
      EpDiscovers(st, m, z);
      if Between(k, m.from, x) && Between(k, m.from, y) { OneSliderPerRay(b', k, m.from, x, y); }
      if Between(k, m.from, x) && Between(k, m.from, z) { OneSliderPerRay(b', k, m.from, x, z); }
      if Between(k, m.from, y) && Between(k, m.from, z) { OneSliderPerRay(b', k, m.from, y, z); }
      if Between(k, cap, x) && Between(k, cap, y) { OneSliderPerRay(b', k, cap, x, y); }
      if Between(k, cap, x) && Between(k, cap, z) { OneSliderPerRay(b', k, cap, x, z); }
      if Between(k, cap, y) && Between(k, cap, z) { OneSliderPerRay(b', k, cap, y, z); }
    }
  }

  // ---- Castling ------------------------------------------------------------------------------------------

  // The enemy king is not next to ours after a legal move.
  lemma KingsApart(st: State, m: Move)
    requires WellFormed(st) && Legal(st, m)
    ensures !KingHit(NextKing(st, m), Ks(st, Opposite(st.turn))) && !KingHit(Ks(st, Opposite(st.turn)), NextKing(st, m))
  {
    hide WellFormed, Legal, KingSquare, PlayBoard, NextKing, InCheck, KingHit, Dist;
    var b', k, k2 := PlayBoard(st, m), NextKing(st, m), Ks(st, Opposite(st.turn));
    LegalCases(st, m);
    KingsAfter(st, m);
    LeapersOffLine(k, k2);
    if KingHit(k2, k) {
      assert Hits(b', k2, k);
      HittingKing(b', Opposite(st.turn), k2, k);
    }
  }

  lemma CastlingDiscovers(st: State, m: Move, c: Square)
    requires WellFormed(st) && Legal(st, m) && Castling(st, m) && c != RookDest(m.from, m.to)
    requires Checks(PlayBoard(st, m), Opposite(st.turn), Ks(st, Opposite(st.turn)), c)
    ensures var b', k := PlayBoard(st, m), Ks(st, Opposite(st.turn));
            b'[c].Man? && IsSlider(b'[c].piece) && Hits(b', c, k) && (Between(k, m.from, c) || Between(k, m.to, c))
  {
    hide WellFormed, Legal, Castling, KingSquare, PlayBoard, Between, KingDest, RookDest, WaysClear, RankOf, FileOf, KingHit, KnightHit, PawnHit, Dir, ClearPath, CastlingSetup;
    var b', k := PlayBoard(st, m), Ks(st, Opposite(st.turn));
    CastlingForm(st, m);
    CastlingSetupFacts(st.board, st.turn, m.from, m.to);
    KingsApart(st, m);
    assert NextKing(st, m) == KingDest(m.from, m.to);
    NotHitBefore(st, c);
    Discovered(st.board, b', k, c);
  }

  lemma CastlingSetupFacts(b: Board, us: Color, k: Square, r: Square)
    requires CastlingSetup(b, us, k, r)
    ensures RankOf(k) == RankOf(r) && b[k] == Man(us, KING) && b[r] == Man(us, ROOK)
  {}

  // A line through a square of the home rank and beyond stays on that rank.
  lemma EdgeLine(k: Square, x: Square, c: Square)
    requires (RankOf(x) == 0 || RankOf(x) == 7) && Between(k, x, c)
    ensures RankOf(k) == RankOf(x) == RankOf(c)
  {}

  lemma RankLine(k: Square, c: Square)
    requires RankOf(k) == RankOf(c) && k != c
    ensures Dir(k, c) == 1 || Dir(k, c) == -1
  {}

  lemma OneSliderPerDir(b: Board, k: Square, e: Square, e2: Square)
    requires b[e].Man? && b[e2].Man? && IsSlider(b[e].piece) && IsSlider(b[e2].piece)
    requires Hits(b, e, k) && Hits(b, e2, k) && Dir(k, e) == Dir(k, e2)
    ensures e == e2
  {
    hide Dir, Dist;
    SliderHits(b, e, k);
    SliderHits(b, e2, k);
    assert Dist(k, e) < Dist(k, e2) ==> Between(k, e, e2);
    assert Dist(k, e2) < Dist(k, e) ==> Between(k, e2, e);
    PolarUnique(k, e, e2);
  }

  // Every checker after castling that is not the rook stands on the home rank, on a line with a king there.
  lemma CastlingOnRank(st: State, m: Move, c: Square)
    requires WellFormed(st) && Legal(st, m) && Castling(st, m)
    requires Checks(PlayBoard(st, m), Opposite(st.turn), Ks(st, Opposite(st.turn)), c)
    ensures var b', k := PlayBoard(st, m), Ks(st, Opposite(st.turn));
            b'[c].Man? && IsSlider(b'[c].piece) && Hits(b', c, k) &&
            RankOf(c) == HomeRank(st.turn) && (c != RookDest(m.from, m.to) ==> RankOf(k) == HomeRank(st.turn))
  {
    hide WellFormed, Legal, Castling, KingSquare, Between, KingDest, RookDest, WaysClear, RankOf, FileOf, CastlingSetup, PlayBoard, Hits;
    var k := Ks(st, Opposite(st.turn));
    CastlingForm(st, m);
    CastlingSetupFacts(st.board, st.turn, m.from, m.to);
    if c != RookDest(m.from, m.to) {
      CastlingDiscovers(st, m, c);
      if Between(k, m.from, c) { EdgeLine(k, m.from, c); } else { EdgeLine(k, m.to, c); }
    }
  }

  lemma CastlingNoThree(st: State, m: Move)
    requires WellFormed(st) && Legal(st, m) && Castling(st, m)
    ensures NoThree(PlayBoard(st, m), Opposite(st.turn), Ks(st, Opposite(st.turn)))
  {
    hide WellFormed, Legal, Castling, KingSquare, PlayBoard, RankOf, FileOf, RookDest, Hits, Dir;
    var b', us, k := PlayBoard(st, m), Opposite(st.turn), Ks(st, Opposite(st.turn));
    forall x: Square, y: Square, z: Square | Checks(b', us, k, x) && Checks(b', us, k, y) && Checks(b', us, k, z)
      ensures x == y || y == z || x == z
    {
      CastlingOnRank(st, m, x);
      CastlingOnRank(st, m, y);
      CastlingOnRank(st, m, z);
      if x != y && y != z && x != z {
        NotOnItself(b', k);
        RankLine(k, x);
        RankLine(k, y);
        RankLine(k, z);
        if Dir(k, x) == Dir(k, y) { OneSliderPerDir(b', k, x, y); }
        if Dir(k, y) == Dir(k, z) { OneSliderPerDir(b', k, y, z); }
        if Dir(k, x) == Dir(k, z) { OneSliderPerDir(b', k, x, z); }
      }
    }
  }

  lemma AtMostTwoCheckers(st: State, m: Move)
    requires WellFormed(st) && Legal(st, m)
    ensures |CheckerSet(PlayBoard(st, m), Opposite(st.turn), Ks(st, Opposite(st.turn)))| <= 2
  {
    hide *;
    hide NoThree;
    LegalCases(st, m);
    if Ordinary(st, m) { OrdinaryNoThree(st, m); } else if EnPassant(st, m) { EpNoThree(st, m); } else { CastlingNoThree(st, m); }
    NoThreeCard(PlayBoard(st, m), Opposite(st.turn), Ks(st, Opposite(st.turn)));
  }

  lemma NoThreeCard(b: Board, us: Color, k: Square)
    requires NoThree(b, us, k)
    ensures |CheckerSet(b, us, k)| <= 2
  {
    hide Checks;
    CardAtMostTwo(CheckerSet(b, us, k));
  }
}
