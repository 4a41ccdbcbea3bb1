/** src/position.c:102-165: the derived sets of a position are exactly the declared ones. */
module Finish {
  import opened Geometry
  import opened Rules
  import opened Legality
  import opened Bitboards
  import opened Positions

  lemma CellFacts(p: Pos, b: Board, s: Square, c: Color, q: Piece)
    requires Represents(p.byColor, p.byPiece, b)
    ensures s in p.byColor[c] <==> Owned(b, c, s)
    ensures s in p.PiecesCP(c, q) <==> b[s] == Man(c, q)
    ensures s in p.Pieces() <==> b[s] != Empty
  {
    assert s in p.byColor[WHITE] <==> Owned(b, WHITE, s);
    assert s in p.byColor[BLACK] <==> Owned(b, BLACK, s);
    assert s in p.byColor[c] <==> Owned(b, c, s);
    assert s in p.byPiece[q] <==> b[s].Man? && b[s].piece == q;
  }

  lemma CellFacts2(p: Pos, b: Board, s: Square, c: Color, q: Piece, r: Piece)
    requires Represents(p.byColor, p.byPiece, b)
    ensures s in p.PiecesCPP(c, q, r) <==> b[s] == Man(c, q) || b[s] == Man(c, r)
  {
    CellFacts(p, b, s, c, q);
    CellFacts(p, b, s, c, r);
  }

  // ---- Pins ----------------------------------------------------------------------------------------------

  // Men between the king and e.
  function Skewered(b: Board, k: Square, e: Square): Bitboard
  {
    set x: Square | 0 <= x < 64 && Between(k, x, e) && b[x] != Empty
  }

  lemma SkewerPins(b: Board, us: Color, k: Square, e: Square)
    requires EnemySlider(b, us, k, e)
    ensures var sk := Skewered(b, k, e);
            forall s: Square :: PinnedBy(b, us, k, s, e) <==>
              s in sk && !Several(sk) && exists t: Square :: t in sk && Owned(b, us, t)
  {
    hide Dir, Dist, Between, RankOf, FileOf, LineFits;
    var sk := Skewered(b, k, e);
    SeveralIff(sk);
    forall s: Square
      ensures PinnedBy(b, us, k, s, e) <==> s in sk && !Several(sk) && exists t: Square :: t in sk && Owned(b, us, t)
    {
      if PinnedBy(b, us, k, s, e) {
        assert s in sk && Owned(b, us, s);
        forall x | x in sk ensures x == s { assert Between(k, x, e); }
      }
      if s in sk && !Several(sk) {
        forall x: Square | Between(k, x, e) && x != s ensures b[x] == Empty { assert b[x] != Empty ==> x in sk; }
      }
    }
  }

  lemma SegmentMen(p: Pos, b: Board, k: Square, e: Square)
    requires Represents(p.byColor, p.byPiece, b) && Dir(k, e) != 0 && b[k] != Empty && b[e] != Empty
    ensures k in Segment(k, e) * p.Pieces() && e in Segment(k, e) * p.Pieces() - {k}
    ensures Segment(k, e) * p.Pieces() - {k} - {e} == Skewered(b, k, e)
  {
    hide Dir, Dist, Between, RankOf, FileOf;
    BoardOfIs(p, b);
    BetweenEnds(k, e);
    DirReverse(k, k);
  }

  // The possible pinners: enemy sliders on a line with the king, whatever stands between.
  lemma PinnersAre(p: Pos, b: Board, us: Color, k: Square)
    requires Represents(p.byColor, p.byPiece, b)
    ensures forall e: Square :: EnemySlider(b, us, k, e) <==>
              e in (p.PiecesCPP(Opposite(us), ROOK, QUEEN) * RookAttacks(k, {})) +
                   (p.PiecesCPP(Opposite(us), BISHOP, QUEEN) * BishopAttacks(k, {}))
  {
    hide Dir, Dist, Between, RankOf, FileOf, RookDir, BishopDir;
    forall e: Square
      ensures EnemySlider(b, us, k, e) <==>
              e in (p.PiecesCPP(Opposite(us), ROOK, QUEEN) * RookAttacks(k, {})) +
                   (p.PiecesCPP(Opposite(us), BISHOP, QUEEN) * BishopAttacks(k, {}))
    {
      CellFacts2(p, b, e, Opposite(us), ROOK, QUEEN);
      CellFacts2(p, b, e, Opposite(us), BISHOP, QUEEN);
    }
  }

  ghost predicate PinnedBySome(b: Board, us: Color, k: Square, s: Square, es: Bitboard)
  {
    exists e: Square :: e in es && PinnedBy(b, us, k, s, e)
  }

  lemma PinnedBySomeAll(b: Board, us: Color, k: Square, all: Bitboard)
    requires forall e: Square :: EnemySlider(b, us, k, e) ==> e in all
    ensures forall s: Square :: PinnedBySome(b, us, k, s, all) <==> s in PinSet(b, us, k)
  {
    hide EnemySlider, Between;
    forall s: Square
      ensures PinnedBySome(b, us, k, s, all) <==> s in PinSet(b, us, k)
    {
      if e: Square :| PinnedBy(b, us, k, s, e) { PinnedSlider(b, us, k, s, e); }
    }
  }

  lemma PinnedSlider(b: Board, us: Color, k: Square, s: Square, e: Square)
    requires PinnedBy(b, us, k, s, e)
    ensures EnemySlider(b, us, k, e) && Owned(b, us, s) && Between(k, s, e)
  {}

  lemma PinnedBySomeStep(b: Board, us: Color, k: Square, es: Bitboard, e: Square)
    ensures forall s: Square :: PinnedBySome(b, us, k, s, es + {e}) <==>
                                PinnedBySome(b, us, k, s, es) || PinnedBy(b, us, k, s, e)
  {
    hide PinnedBy;
  }

  method ComputePins(p: Pos, king: Square, ghost b: Board) returns (pins: Bitboard)
    requires Represents(p.byColor, p.byPiece, b) && b[king] == Man(p.turn, KING)
    ensures pins == PinSet(b, p.turn, king)
  {
    hide Dir, Dist, Between, RankOf, FileOf, LineFits, PinnedBy, RookAttacks, BishopAttacks, Segment, Skewered, PinnedBySome, PinSet;
    var us, them := p.turn, Opposite(p.turn);
    pins := {};
    var pinners := (p.PiecesCPP(them, ROOK, QUEEN) * RookAttacks(king, {})) +
                   (p.PiecesCPP(them, BISHOP, QUEEN) * BishopAttacks(king, {}));
    PinnersAre(p, b, us, king);
    ghost var all := pinners;
    NoneBySome(b, us, king);
    assert all - pinners == {};
    while pinners != {}
      invariant pinners <= all
      invariant forall s: Square :: s in pins <==> PinnedBySome(b, us, king, s, all - pinners)
    {
      ghost var before := pinners;
      var pinner: Square;
      pinner, pinners := PopLsb(pinners);
      assert EnemySlider(b, us, king, pinner);
      EnemySliderLine(b, us, king, pinner);
      SegmentMen(p, b, king, pinner);
      var skewered := BbClear(BbClear(Segment(king, pinner) * p.Pieces(), king), pinner);
      SkewerPins(b, us, king, pinner);
      PinnedBySomeStep(b, us, king, all - before, pinner);
      assert all - pinners == (all - before) + {pinner};
      assert forall t: Square :: t in p.byColor[us] <==> Owned(b, us, t);
      if !Several(skewered) && skewered * p.byColor[us] != {} {
        pins := pins + skewered;
      }
    }
    assert all - pinners == all;
    PinnedBySomeAll(b, us, king, all);
    SubsetAll(pins, PinSet(b, us, king));
  }

  lemma NoneBySome(b: Board, us: Color, k: Square)
    ensures forall s: Square :: !PinnedBySome(b, us, k, s, {})
  {}

  lemma SubsetAll(a: Bitboard, c: Bitboard)
    requires forall s: Square :: s in a <==> s in c
    ensures a == c
  {}

  lemma EnemySliderLine(b: Board, us: Color, k: Square, e: Square)
    requires EnemySlider(b, us, k, e)
    ensures Dir(k, e) != 0 && b[e] != Empty
  {
    hide Dir;
  }

  // ---- Attacked squares --------------------------------------------------------------------------------

  ghost predicate InUnion(attacks: Square -> Bitboard, es: Bitboard, t: Square)
  {
    exists e: Square :: e in es && t in attacks(e)
  }

  lemma InUnionStep(attacks: Square -> Bitboard, es: Bitboard, e: Square)
    ensures forall t: Square :: InUnion(attacks, es + {e}, t) <==> InUnion(attacks, es, t) || t in attacks(e)
  {}

  lemma InUnionNone(attacks: Square -> Bitboard)
    ensures forall t: Square :: !InUnion(attacks, {}, t)
  {}

  // The union loop shared by knights, rook movers and bishop movers.
  method AddAttacks(base: Bitboard, attackers: Bitboard, attacks: Square -> Bitboard) returns (attacked: Bitboard)
    ensures forall t: Square :: t in attacked <==> t in base || InUnion(attacks, attackers, t)
  {
    hide InUnion;
    attacked := base;
    var rest := attackers;
    InUnionNone(attacks);
    assert attackers - rest == {};
    while rest != {}
      invariant rest <= attackers
      invariant forall t: Square :: t in attacked <==> t in base || InUnion(attacks, attackers - rest, t)
    {
      ghost var before := rest;
      var s: Square;
      s, rest := PopLsb(rest);
      InUnionStep(attacks, attackers - before, s);
      assert attackers - rest == (attackers - before) + {s};
      attacked := attacked + attacks(s);
    }
    assert attackers - rest == attackers;
  }

  // Squares attacked by the pawns of c, by two shifts.
  function PawnCaptures(pawns: Bitboard, c: Color): Bitboard
  {
    BbShift(pawns - FileBb(0), PushInc(c) - 1) + BbShift(pawns - FileBb(7), PushInc(c) + 1)
  }

  lemma PawnShift(c: Color, s: Square, t: Square)
    ensures PawnHit(Up(c), s, t) <==> (s == t - (PushInc(c) - 1) && FileOf(s) != 0) || (s == t - (PushInc(c) + 1) && FileOf(s) != 7)
  {}

  lemma PawnCapturesAre(pawns: Bitboard, c: Color, t: Square)
    ensures t in PawnCaptures(pawns, c) <==> exists s: Square :: s in pawns && PawnHit(Up(c), s, t)
  {
    hide PawnHit, FileOf, Up;
    if s: Square :| s in pawns && PawnHit(Up(c), s, t) { PawnShift(c, s, t); }
    if t in BbShift(pawns - FileBb(0), PushInc(c) - 1) { PawnShift(c, t - (PushInc(c) - 1), t); }
    if t in BbShift(pawns - FileBb(7), PushInc(c) + 1) { PawnShift(c, t - (PushInc(c) + 1), t); }
  }

  ghost predicate AttackedByParts(p: Pos, them: Color, k2: Square, occ: Bitboard, t: Square)
  {
    t in KingAttacks(k2) ||
    InUnion(s => KnightAttacks(s), p.PiecesCP(them, KNIGHT), t) ||
    t in PawnCaptures(p.PiecesCP(them, PAWN), them) ||
    InUnion(s => RookAttacks(s, occ), p.PiecesCPP(them, ROOK, QUEEN), t) ||
    InUnion(s => BishopAttacks(s, occ), p.PiecesCPP(them, BISHOP, QUEEN), t)
  }

  lemma VisibleIff(b: Board, occ: Bitboard, e: Square, t: Square)
    requires forall x: Square :: x in occ <==> b[x] != Empty
    ensures Visible(e, t, occ) <==> ClearPath(b, e, t)
  {
    hide Between;
  }

  lemma LiftedOcc(p: Pos, b: Board, k: Square)
    requires Represents(p.byColor, p.byPiece, b) && b[k] != Empty
    ensures forall x: Square :: x in p.Pieces() - {k} <==> b[k := Empty][x] != Empty
  {
    BoardOfIs(p, b);
  }

  // One enemy man and the part of the computation that accounts for it.
  lemma HitInParts(p: Pos, b: Board, lifted: Board, them: Color, k2: Square, occ: Bitboard, e: Square, t: Square)
    requires Represents(p.byColor, p.byPiece, b) && KingAt(b, them, k2)
    requires forall x: Square :: x in occ <==> lifted[x] != Empty
    requires Owned(b, them, e) && lifted[e] == b[e] && Hits(lifted, e, t)
    ensures AttackedByParts(p, them, k2, occ, t)
  {
    hide Dir, Dist, Between, RankOf, FileOf, KnightHit, KingHit, PawnHit, ClearPath, PawnCaptures, Visible;
    var q := b[e].piece;
    CellFacts(p, b, e, them, q);
    CellFacts2(p, b, e, them, ROOK, QUEEN);
    CellFacts2(p, b, e, them, BISHOP, QUEEN);
    VisibleIff(lifted, occ, e, t);
    PawnCapturesAre(p.PiecesCP(them, PAWN), them, t);
    if q == KNIGHT { assert t in (s => KnightAttacks(s))(e); }
    else if IsSlider(q) && RookDir(Dir(e, t)) && q != BISHOP {
      assert t in (s => RookAttacks(s, occ))(e);
    } else if IsSlider(q) {
      assert t in (s => BishopAttacks(s, occ))(e);
    }
  }

  lemma PartsHit(p: Pos, b: Board, lifted: Board, them: Color, k2: Square, occ: Bitboard, t: Square) returns (e: Square)
    requires Represents(p.byColor, p.byPiece, b) && KingAt(b, them, k2)
    requires forall x: Square :: x in occ <==> lifted[x] != Empty
    requires forall s: Square :: Owned(b, them, s) ==> lifted[s] == b[s]
    requires AttackedByParts(p, them, k2, occ, t)
    ensures Owned(b, them, e) && Hits(lifted, e, t)
  {
    hide Dir, Dist, Between, RankOf, FileOf, KnightHit, KingHit, PawnHit, ClearPath, PawnCaptures, Visible, Represents, RookDir, BishopDir;
    PawnCapturesAre(p.PiecesCP(them, PAWN), them, t);
    if t in KingAttacks(k2) {
      e := k2;
    } else if s: Square :| s in p.PiecesCP(them, KNIGHT) && t in (s => KnightAttacks(s))(s) {
      CellFacts(p, b, s, them, KNIGHT);
      e := s;
    } else if s: Square :| s in p.PiecesCP(them, PAWN) && PawnHit(Up(them), s, t) {
      CellFacts(p, b, s, them, PAWN);
      e := s;
    } else if s: Square :| s in p.PiecesCPP(them, ROOK, QUEEN) && t in (s => RookAttacks(s, occ))(s) {
      CellFacts2(p, b, s, them, ROOK, QUEEN);
      VisibleIff(lifted, occ, s, t);
      e := s;
    } else {
      var s: Square :| s in p.PiecesCPP(them, BISHOP, QUEEN) && t in (s => BishopAttacks(s, occ))(s);
      CellFacts2(p, b, s, them, BISHOP, QUEEN);
      VisibleIff(lifted, occ, s, t);
      e := s;
    }
  }

  lemma AttackedIsParts(p: Pos, b: Board, us: Color, k: Square, k2: Square)
    requires Represents(p.byColor, p.byPiece, b) && KingAt(b, us, k) && KingAt(b, Opposite(us), k2)
    ensures forall t: Square :: AttackedByParts(p, Opposite(us), k2, p.Pieces() - {k}, t) <==> AttackedThrough(b, us, k, t)
  {
    hide Hits, AttackedByParts, Represents;
    var lifted, them, occ := b[k := Empty], Opposite(us), p.Pieces() - {k};
    LiftedOcc(p, b, k);
    forall t: Square
      ensures AttackedByParts(p, them, k2, occ, t) <==> AttackedThrough(b, us, k, t)
    {
      if AttackedThrough(b, us, k, t) {
        var e: Square :| Owned(lifted, them, e) && Hits(lifted, e, t);
        HitInParts(p, b, lifted, them, k2, occ, e, t);
      }
      if AttackedByParts(p, them, k2, occ, t) {
        var e := PartsHit(p, b, lifted, them, k2, occ, t);
        assert Owned(lifted, them, e);
      }
    }
  }

  method ComputeAttacked(p: Pos, king: Square, theirKing: Square, ghost b: Board) returns (attacked: Bitboard)
    requires Represents(p.byColor, p.byPiece, b) && KingAt(b, p.turn, king) && KingAt(b, Opposite(p.turn), theirKing)
    ensures attacked == AttackedSet(b, p.turn, king)
  {
    hide Represents, KingAttacks, KnightAttacks, InUnion, PawnCaptures, RookAttacks, BishopAttacks, BbShift, AttackedThrough;
    var them := Opposite(p.turn);
    attacked := KingAttacks(theirKing);
    attacked := AddAttacks(attacked, p.PiecesCP(them, KNIGHT), s => KnightAttacks(s));
    attacked := attacked + PawnCaptures(p.PiecesCP(them, PAWN), them);
    var occ := p.Pieces() - {king};
    attacked := AddAttacks(attacked, p.PiecesCPP(them, ROOK, QUEEN), s => RookAttacks(s, occ));
    attacked := AddAttacks(attacked, p.PiecesCPP(them, BISHOP, QUEEN), s => BishopAttacks(s, occ));
    AttackedIsParts(p, b, p.turn, king, theirKing);
    assert forall t: Square :: t in attacked <==> AttackedByParts(p, them, theirKing, occ, t);
    SubsetAll(attacked, AttackedSet(b, p.turn, king));
  }

  // ---- Checkers ----------------------------------------------------------------------------------------

  function CheckerParts(p: Pos, us: Color, k: Square): Bitboard
  {
    var them := Opposite(us);
    p.PiecesCP(them, PAWN) * PawnAttacks(us, k) +
    p.PiecesCP(them, KNIGHT) * KnightAttacks(k) +
    p.PiecesCPP(them, ROOK, QUEEN) * RookAttacks(k, p.Pieces()) +
    p.PiecesCPP(them, BISHOP, QUEEN) * BishopAttacks(k, p.Pieces())
  }

  // Each kind of attack is symmetric, so the attackers of the king are found by attacking from its square.
  lemma CheckersAre(p: Pos, b: Board, us: Color, k: Square)
    requires Represents(p.byColor, p.byPiece, b)
    requires forall k2: Square :: b[k2] == Man(Opposite(us), KING) ==> !KingHit(k, k2)
    ensures CheckerParts(p, us, k) == CheckerSet(b, us, k)
  {
    hide Dir, Dist, Between, RankOf, FileOf, KnightHit, KingHit, PawnHit, ClearPath, Visible, Represents, RookDir, BishopDir;
    forall e: Square
      ensures e in CheckerParts(p, us, k) <==> Checks(b, us, k, e)
    {
      var them := Opposite(us);
      CellFacts(p, b, e, them, PAWN);
      CellFacts(p, b, e, them, KNIGHT);
      CellFacts2(p, b, e, them, ROOK, QUEEN);
      CellFacts2(p, b, e, them, BISHOP, QUEEN);
      LeapersOffLine(e, k);
      OccIsPieces(p, b);
      VisibleIff(b, p.Pieces(), k, e);
      if Owned(b, them, e) && IsSlider(b[e].piece) { SliderHits(b, e, k); }
      UpOpposite(us, e, k);
    }
    SubsetAll(CheckerParts(p, us, k), CheckerSet(b, us, k));
  }

  lemma UpOpposite(us: Color, e: Square, k: Square)
    ensures PawnHit(Up(Opposite(us)), e, k) <==> PawnHit(Up(us), k, e)
  {}

  lemma OccIsPieces(p: Pos, b: Board)
    requires Represents(p.byColor, p.byPiece, b)
    ensures forall x: Square :: x in p.Pieces() <==> b[x] != Empty
  {
    BoardOfIs(p, b);
  }

  // Seen through our king, its own square is attacked exactly when there is a checker.
  lemma AttackedKingIffCheckers(b: Board, us: Color, k: Square)
    requires KingAt(b, us, k)
    ensures k in AttackedSet(b, us, k) <==> CheckerSet(b, us, k) != {}
  {
    hide Between, Hits;
    var lifted := b[k := Empty];
    forall e: Square | Owned(b, Opposite(us), e) ensures Hits(lifted, e, k) <==> Hits(b, e, k) {
      forall x: Square | Between(e, x, k) ensures b[x] == lifted[x] { BetweenEnds(e, k); }
      HitsSame(b, lifted, e, k);
    }
    if k in AttackedSet(b, us, k) {
      var e: Square :| Owned(lifted, Opposite(us), e) && Hits(lifted, e, k);
      assert e in CheckerSet(b, us, k);
    }
    if e :| e in CheckerSet(b, us, k) {
      assert Owned(lifted, Opposite(us), e) && Hits(lifted, e, k);
    }
  }

  method ComputeCheckers(p: Pos, attacked: Bitboard, king: Square, ghost b: Board) returns (checkers: Bitboard)
    requires Represents(p.byColor, p.byPiece, b) && KingAt(b, p.turn, king) && attacked == AttackedSet(b, p.turn, king)
    requires forall k2: Square :: b[k2] == Man(Opposite(p.turn), KING) ==> !KingHit(king, k2)
    ensures checkers == CheckerSet(b, p.turn, king)
  {
    hide *;
    AttackedKingIffCheckers(b, p.turn, king);
    CheckersAre(p, b, p.turn, king);
    if king in attacked {
      checkers := CheckerParts(p, p.turn, king);
    } else {
      checkers := {};
    }
  }
}
