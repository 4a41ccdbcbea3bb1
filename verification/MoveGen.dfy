/** The move generator of src/gen.c: what each generator appends, in terms of the bitboards.  MoveGenExact
    gives these sets their meaning. */
module MoveGen {
  import opened Geometry
  import opened Rules
  import opened Bitboards
  import opened Positions
  import opened Sequences

  lemma NoRepeatsPush(moves: seq<Move>, m: Move)
    requires NoRepeats(moves) && m !in moves
    ensures NoRepeats(moves + [m])
  {}

  // A pinned man may only go along its pin ray.
  predicate PinTest(pins: Bitboard, king: Square, from: Square, to: Square)
  {
    from in pins ==> to in Ray(king, from)
  }

  // ---- Pieces --------------------------------------------------------------------------------------------

  predicate PieceTarget(m: Move, from: Square, pins: Bitboard, king: Square, targets: Bitboard)
  {
    m.from == from && m.to in targets && PinTest(pins, king, from, m.to) && m.prom == NO_PIECE
  }

  // src/gen.c:19-28
  method SerializePieceMoves(from: Square, pins: Bitboard, king: Square, targets: Bitboard, moves: seq<Move>)
    returns (r: seq<Move>)
    requires NoRepeats(moves) && forall m: Move :: m in moves ==> !PieceTarget(m, from, pins, king, targets)
    ensures NoRepeats(r)
    ensures forall m: Move :: m in r <==> m in moves || PieceTarget(m, from, pins, king, targets)
  {
    hide Ray;
    r := moves;
    var all := if from in pins then targets * Ray(king, from) else targets;
    var rest := all;
    while rest != {}
      invariant rest <= all
      invariant NoRepeats(r)
      invariant forall m: Move :: m in r <==> m in moves || (m.from == from && m.to in all - rest && m.prom == NO_PIECE)
    {
      var to: Square;
      to, rest := PopLsb(rest);
      assert forall m: Move :: m in moves && m.from == from && m.prom == NO_PIECE ==> m.to !in all;
      NoRepeatsPush(r, Move(from, to, NO_PIECE));
      r := r + [Move(from, to, NO_PIECE)];
    }
  }

  predicate GroupMove(m: Move, froms: Bitboard, attacks: Square -> Bitboard, filter: Bitboard, pins: Bitboard, king: Square)
  {
    m.from in froms && PieceTarget(m, m.from, pins, king, attacks(m.from) * filter)
  }

  // The loop that src/gen.c:126-149 has once each for knights, rook movers and bishop movers.
  method GenGroup(froms: Bitboard, attacks: Square -> Bitboard, filter: Bitboard, pins: Bitboard, king: Square, moves: seq<Move>)
    returns (r: seq<Move>)
    requires NoRepeats(moves) && forall m: Move :: m in moves ==> !GroupMove(m, froms, attacks, filter, pins, king)
    ensures NoRepeats(r)
    ensures forall m: Move :: m in r <==> m in moves || GroupMove(m, froms, attacks, filter, pins, king)
  {
    hide Ray, PinTest, PieceTarget, NoRepeats;
    r := moves;
    var rest := froms;
    while rest != {}
      invariant rest <= froms
      invariant NoRepeats(r)
      invariant forall m: Move :: m in r <==> m in moves || (m.from !in rest && GroupMove(m, froms, attacks, filter, pins, king))
    {
      var from: Square;
      from, rest := PopLsb(rest);
      PieceTargetFrom(from, pins, king, attacks(from) * filter);
      r := SerializePieceMoves(from, pins, king, attacks(from) * filter, r);
    }
  }

  lemma PieceTargetFrom(from: Square, pins: Bitboard, king: Square, targets: Bitboard)
    ensures forall m: Move :: PieceTarget(m, from, pins, king, targets) ==> m.from == from
  {}

  predicate KnightGen(p: Pos, king: Square, filter: Bitboard, m: Move)
  {
    GroupMove(m, p.PiecesCP(p.turn, KNIGHT), s => KnightAttacks(s), filter, p.pins, king)
  }

  predicate RookGen(p: Pos, king: Square, filter: Bitboard, m: Move)
  {
    GroupMove(m, p.PiecesCPP(p.turn, ROOK, QUEEN), s => RookAttacks(s, p.Pieces()), filter, p.pins, king)
  }

  predicate BishopGen(p: Pos, king: Square, filter: Bitboard, m: Move)
  {
    GroupMove(m, p.PiecesCPP(p.turn, BISHOP, QUEEN), s => BishopAttacks(s, p.Pieces()), filter, p.pins, king)
  }

  predicate KingGen(p: Pos, king: Square, targets: Bitboard, m: Move)
  {
    PieceTarget(m, king, p.pins, king, targets)
  }

  predicate PieceGen(p: Pos, king: Square, filter: Bitboard, kingMoves: bool, m: Move)
  {
    (kingMoves && KingGen(p, king, KingAttacks(king) * filter - p.attacked, m)) ||
    KnightGen(p, king, filter, m) || RookGen(p, king, filter, m) || BishopGen(p, king, filter, m)
  }

  // The four kinds of piece moves never coincide: a queen's rook and bishop moves go in different directions.
  lemma PieceGensDisjoint(p: Pos, king: Square, filter: Bitboard, targets: Bitboard, m: Move)
    requires Consistent(p) && king in p.PiecesCP(p.turn, KING)
    ensures KingGen(p, king, targets, m) ==> !KnightGen(p, king, filter, m) && !RookGen(p, king, filter, m) && !BishopGen(p, king, filter, m)
    ensures KnightGen(p, king, filter, m) ==> !RookGen(p, king, filter, m) && !BishopGen(p, king, filter, m)
    ensures RookGen(p, king, filter, m) ==> !BishopGen(p, king, filter, m)
  {
    hide Dir, PinTest, Visible, Ray;
    var b := BoardOf(p);
    assert forall q: Piece :: m.from in p.byPiece[q] <==> b[m.from].Man? && b[m.from].piece == q;
  }

  // src/gen.c:113-152
  method GenPieceMoves(p: Pos, king: Square, moves: seq<Move>, filter: Bitboard, kingMoves: bool) returns (r: seq<Move>)
    requires Consistent(p) && king in p.PiecesCP(p.turn, KING)
    requires NoRepeats(moves) && forall m: Move :: m in moves ==> !PieceGen(p, king, filter, kingMoves, m)
    ensures NoRepeats(r)
    ensures forall m: Move :: m in r <==> m in moves || PieceGen(p, king, filter, kingMoves, m)
  {
    hide Ray, PinTest, NoRepeats, GroupMove, KingAttacks, KnightAttacks, RookAttacks, BishopAttacks, Consistent, PieceTarget;
    var targets := KingAttacks(king) * filter - p.attacked;
    forall m: Move
      ensures KingGen(p, king, targets, m) ==> !KnightGen(p, king, filter, m) && !RookGen(p, king, filter, m) && !BishopGen(p, king, filter, m)
      ensures KnightGen(p, king, filter, m) ==> !RookGen(p, king, filter, m) && !BishopGen(p, king, filter, m)
      ensures RookGen(p, king, filter, m) ==> !BishopGen(p, king, filter, m)
    {
      PieceGensDisjoint(p, king, filter, targets, m);
    }
    r := moves;
    if kingMoves {
      assert forall m: Move :: m in r ==> !KingGen(p, king, targets, m);
      r := SerializePieceMoves(king, p.pins, king, targets, r);
      assert forall m: Move :: m in r <==> m in moves || KingGen(p, king, targets, m);
    }
    assert forall m: Move :: m in r ==> !KnightGen(p, king, filter, m);
    r := GenGroup(p.PiecesCP(p.turn, KNIGHT), s => KnightAttacks(s), filter, p.pins, king, r);
    assert forall m: Move :: m in r ==> !RookGen(p, king, filter, m);
    r := GenGroup(p.PiecesCPP(p.turn, ROOK, QUEEN), s => RookAttacks(s, p.Pieces()), filter, p.pins, king, r);
    assert forall m: Move :: m in r ==> !BishopGen(p, king, filter, m);
    r := GenGroup(p.PiecesCPP(p.turn, BISHOP, QUEEN), s => BishopAttacks(s, p.Pieces()), filter, p.pins, king, r);
  }

  // ---- Pawns ---------------------------------------------------------------------------------------------

  predicate PawnShiftMove(m: Move, pawns: Bitboard, pins: Bitboard, king: Square, shift: int)
  {
    m.from in pawns && m.to == m.from + shift && PinTest(pins, king, m.from, m.to) && m.prom == NO_PIECE
  }

  // src/gen.c:30-40
  method SerializePawnMoves(pawns: Bitboard, pins: Bitboard, king: Square, shift: int, moves: seq<Move>) returns (r: seq<Move>)
    requires forall s :: s in pawns ==> 0 <= s + shift < 64
    requires NoRepeats(moves) && forall m: Move :: m in moves ==> !PawnShiftMove(m, pawns, pins, king, shift)
    ensures NoRepeats(r)
    ensures forall m: Move :: m in r <==> m in moves || PawnShiftMove(m, pawns, pins, king, shift)
  {
    hide Ray;
    r := moves;
    var rest := pawns;
    while rest != {}
      invariant rest <= pawns
      invariant NoRepeats(r)
      invariant forall m: Move :: m in r <==> m in moves || (m.from !in rest && PawnShiftMove(m, pawns, pins, king, shift))
    {
      var from: Square;
      from, rest := PopLsb(rest);
      if from !in pins || from + shift in Ray(king, from) {
        NoRepeatsPush(r, Move(from, from + shift, NO_PIECE));
        r := r + [Move(from, from + shift, NO_PIECE)];
      }
    }
  }

  function PawnsOf(p: Pos): Bitboard { p.PiecesCP(p.turn, PAWN) }

  function LastButOne(c: Color): Bitboard { RankBb(if c == WHITE then 6 else 1) }

  function NonPromoting(p: Pos): Bitboard { PawnsOf(p) - LastButOne(p.turn) }

  // src/gen.c:52-68: from-squares of the four kinds of ordinary pawn move.
  function LeftCaptures(p: Pos, filter: Bitboard): Bitboard
  {
    NonPromoting(p) * BbShift(p.byColor[Opposite(p.turn)] * filter, -(PushInc(p.turn) - 1)) - FileBb(0)
  }

  function RightCaptures(p: Pos, filter: Bitboard): Bitboard
  {
    NonPromoting(p) * BbShift(p.byColor[Opposite(p.turn)] * filter, -(PushInc(p.turn) + 1)) - FileBb(7)
  }

  function SinglePushes(p: Pos, filter: Bitboard): Bitboard
  {
    NonPromoting(p) * BbShift(Complement(p.Pieces()) * filter, -PushInc(p.turn))
  }

  function DoublePushes(p: Pos, filter: Bitboard): Bitboard
  {
    NonPromoting(p) * RankBb(if p.turn == WHITE then 1 else 6) * BbShift(Complement(p.Pieces()), -PushInc(p.turn)) *
    BbShift(Complement(p.Pieces()) * filter, -2 * PushInc(p.turn))
  }

  predicate QuietPawnGen(p: Pos, king: Square, filter: Bitboard, m: Move)
  {
    PawnShiftMove(m, LeftCaptures(p, filter), p.pins, king, PushInc(p.turn) - 1) ||
    PawnShiftMove(m, RightCaptures(p, filter), p.pins, king, PushInc(p.turn) + 1) ||
    PawnShiftMove(m, SinglePushes(p, filter), p.pins, king, PushInc(p.turn)) ||
    PawnShiftMove(m, DoublePushes(p, filter), p.pins, king, 2 * PushInc(p.turn))
  }

  lemma PawnShiftsOnBoard(p: Pos, filter: Bitboard)
    ensures forall s :: s in LeftCaptures(p, filter) ==> 0 <= s + (PushInc(p.turn) - 1) < 64
    ensures forall s :: s in RightCaptures(p, filter) ==> 0 <= s + (PushInc(p.turn) + 1) < 64
    ensures forall s :: s in SinglePushes(p, filter) ==> 0 <= s + PushInc(p.turn) < 64
    ensures forall s :: s in DoublePushes(p, filter) ==> 0 <= s + 2 * PushInc(p.turn) < 64
  {}

  lemma QuietPawnFrom(p: Pos, king: Square, filter: Bitboard)
    ensures forall m: Move :: QuietPawnGen(p, king, filter, m) ==> m.from in PawnsOf(p)
  {}

  lemma ShiftsDiffer(a: Bitboard, c: Bitboard, pins: Bitboard, king: Square, i: int, j: int)
    requires i != j
    ensures forall m: Move :: PawnShiftMove(m, a, pins, king, i) ==> !PawnShiftMove(m, c, pins, king, j)
  {}

  method GenQuietPawnMoves(p: Pos, king: Square, moves: seq<Move>, filter: Bitboard) returns (r: seq<Move>)
    requires NoRepeats(moves) && forall m: Move :: m in moves ==> m.from !in PawnsOf(p)
    ensures NoRepeats(r)
    ensures forall m: Move :: m in r <==> m in moves || QuietPawnGen(p, king, filter, m)
  {
    QuietPawnFrom(p, king, filter);
    PawnShiftsOnBoard(p, filter);
    hide NoRepeats, LeftCaptures, RightCaptures, SinglePushes, DoublePushes, PawnsOf, PawnShiftMove;
    var push := PushInc(p.turn);
    var lc, rc, sp, dp := LeftCaptures(p, filter), RightCaptures(p, filter), SinglePushes(p, filter), DoublePushes(p, filter);
    ShiftsDiffer(lc, rc, p.pins, king, push - 1, push + 1);
    ShiftsDiffer(lc, sp, p.pins, king, push - 1, push);
    ShiftsDiffer(lc, dp, p.pins, king, push - 1, 2 * push);
    ShiftsDiffer(rc, sp, p.pins, king, push + 1, push);
    ShiftsDiffer(rc, dp, p.pins, king, push + 1, 2 * push);
    ShiftsDiffer(sp, dp, p.pins, king, push, 2 * push);
    r := SerializePawnMoves(lc, p.pins, king, push - 1, moves);
    r := SerializePawnMoves(rc, p.pins, king, push + 1, r);
    r := SerializePawnMoves(sp, p.pins, king, push, r);
    r := SerializePawnMoves(dp, p.pins, king, 2 * push, r);
  }

  // The asserts of bb_clear and bb_set in src/gen.c:77-80.
  predicate EpReady(p: Pos)
  {
    p.epSquare != NO_SQUARE ==>
      16 <= p.epSquare < 48 && p.epSquare !in p.Pieces() && p.epSquare + PushInc(Opposite(p.turn)) in p.PiecesCP(Opposite(p.turn), PAWN)
  }

  // Occupancy after the pawn on from has captured en passant.
  function EpOccupancy(p: Pos, from: Square): Bitboard
    requires EpReady(p) && p.epSquare != NO_SQUARE
  {
    p.Pieces() - {from} + {p.epSquare} - {p.epSquare + PushInc(Opposite(p.turn))}
  }

  predicate SliderFree(p: Pos, king: Square, occ: Bitboard)
  {
    RookAttacks(king, occ) * p.PiecesCPP(Opposite(p.turn), ROOK, QUEEN) == {} &&
    BishopAttacks(king, occ) * p.PiecesCPP(Opposite(p.turn), BISHOP, QUEEN) == {}
  }

  predicate EpGen(p: Pos, king: Square, m: Move)
    requires EpReady(p)
  {
    p.epSquare != NO_SQUARE && m.to == p.epSquare && m.prom == NO_PIECE &&
    m.from in PawnAttacks(Opposite(p.turn), p.epSquare) * NonPromoting(p) && SliderFree(p, king, EpOccupancy(p, m.from))
  }

  method GenEnPassant(p: Pos, king: Square, moves: seq<Move>) returns (r: seq<Move>)
    requires EpReady(p) && (forall s :: s in p.byColor[p.turn] ==> s !in p.byColor[Opposite(p.turn)])
    requires NoRepeats(moves) && forall m: Move :: m in moves ==> !EpGen(p, king, m)
    ensures NoRepeats(r)
    ensures forall m: Move :: m in r <==> m in moves || EpGen(p, king, m)
  {
    hide NoRepeats, RookAttacks, BishopAttacks, PawnAttacks, PushInc;
    r := moves;
    if p.epSquare != NO_SQUARE {
      var capturing := PawnAttacks(Opposite(p.turn), p.epSquare) * NonPromoting(p);
      var rest := capturing;
      while rest != {}
        invariant rest <= capturing
        invariant NoRepeats(r)
        invariant forall m: Move :: m in r <==> m in moves || (m.from !in rest && EpGen(p, king, m))
      {
        var from: Square;
        from, rest := PopLsb(rest);
        assert p.turn != Opposite(p.turn);
        var occ := BbClear(p.Pieces(), from);
        occ := BbSet(occ, p.epSquare);
        occ := BbClear(occ, p.epSquare + PushInc(Opposite(p.turn)));
        assert occ == EpOccupancy(p, from);
        if RookAttacks(king, occ) * p.PiecesCPP(Opposite(p.turn), ROOK, QUEEN) == {} &&
           BishopAttacks(king, occ) * p.PiecesCPP(Opposite(p.turn), BISHOP, QUEEN) == {}
        {
          NoRepeatsPush(r, Move(from, p.epSquare, NO_PIECE));
          r := r + [Move(from, p.epSquare, NO_PIECE)];
        }
      }
    }
  }

  function Promoting(p: Pos): Bitboard { PawnsOf(p) * LastButOne(p.turn) }

  predicate PushTarget(p: Pos, filter: Bitboard, from: Square, to: Square)
  {
    to == from + PushInc(p.turn) && to in filter && to !in p.Pieces()
  }

  // src/gen.c:94-98
  function PromotionTargets(p: Pos, filter: Bitboard, from: Square): Bitboard
  {
    PawnAttacks(p.turn, from) * (p.byColor[Opposite(p.turn)] * filter) +
    (set to: Square | 0 <= to < 64 && PushTarget(p, filter, from, to))
  }

  predicate PromotionGen(p: Pos, king: Square, filter: Bitboard, m: Move)
  {
    m.from in Promoting(p) && m.to in PromotionTargets(p, filter, m.from) && PinTest(p.pins, king, m.from, m.to) &&
    m.prom <= QUEEN
  }

  // src/gen.c:105-106
  method PushPromotions(from: Square, to: Square, moves: seq<Move>) returns (r: seq<Move>)
    requires NoRepeats(moves) && forall m: Move :: m in moves ==> !(m.from == from && m.to == to)
    ensures NoRepeats(r)
    ensures forall m: Move :: m in r <==> m in moves || (m.from == from && m.to == to && m.prom <= QUEEN)
  {
    r := moves;
    var prom: int := QUEEN;
    while prom >= KNIGHT
      invariant -1 <= prom <= QUEEN
      invariant NoRepeats(r)
      invariant forall m: Move :: m in r <==> m in moves || (m.from == from && m.to == to && prom < m.prom <= QUEEN)
    {
      NoRepeatsPush(r, Move(from, to, prom));
      r := r + [Move(from, to, prom)];
      prom := prom - 1;
    }
  }

  method PushTargets(p: Pos, king: Square, from: Square, targets: Bitboard, moves: seq<Move>) returns (r: seq<Move>)
    requires NoRepeats(moves) && forall m: Move :: m in moves ==> m.from != from
    ensures NoRepeats(r)
    ensures forall m: Move :: m in r <==>
              m in moves || (m.from == from && m.to in targets && PinTest(p.pins, king, from, m.to) && m.prom <= QUEEN)
  {
    hide NoRepeats, Ray;
    r := moves;
    var rest := targets;
    while rest != {}
      invariant rest <= targets
      invariant NoRepeats(r)
      invariant forall m: Move :: m in r <==>
                  m in moves || (m.from == from && m.to in targets - rest && PinTest(p.pins, king, from, m.to) && m.prom <= QUEEN)
    {
      var to: Square;
      to, rest := PopLsb(rest);
      if from !in p.pins || to in Ray(king, from) {
        r := PushPromotions(from, to, r);
      }
    }
  }

  method GenPromotions(p: Pos, king: Square, moves: seq<Move>, filter: Bitboard) returns (r: seq<Move>)
    requires NoRepeats(moves) && forall m: Move :: m in moves ==> m.from !in Promoting(p)
    ensures NoRepeats(r)
    ensures forall m: Move :: m in r <==> m in moves || PromotionGen(p, king, filter, m)
  {
    hide NoRepeats, Ray, PinTest, PawnAttacks, Promoting;
    r := moves;
    var promoting := Promoting(p);
    var rest := promoting;
    while rest != {}
      invariant rest <= promoting
      invariant NoRepeats(r)
      invariant forall m: Move :: m in r <==> m in moves || (m.from !in rest && PromotionGen(p, king, filter, m))
    {
      var from: Square;
      from, rest := PopLsb(rest);
      var push := from + PushInc(p.turn);
      var targets := PawnAttacks(p.turn, from) * (p.byColor[Opposite(p.turn)] * filter);
      PromotionPush(p, from);
      if push in filter * Complement(p.Pieces()) {
        PushNotCapture(p, from, push);
        targets := BbSet(targets, push);
      }
      assert targets == PromotionTargets(p, filter, from);
      r := PushTargets(p, king, from, targets, r);
    }
  }

  lemma PromotionPush(p: Pos, from: Square)
    requires from in Promoting(p)
    ensures 0 <= from + PushInc(p.turn) < 64
  {}

  lemma PushNotCapture(p: Pos, from: Square, to: Square)
    requires to == from + PushInc(p.turn)
    ensures to !in PawnAttacks(p.turn, from)
  {}

  predicate PawnGen(p: Pos, king: Square, filter: Bitboard, m: Move)
    requires EpReady(p)
  {
    QuietPawnGen(p, king, filter, m) || EpGen(p, king, m) || PromotionGen(p, king, filter, m)
  }

  lemma PawnGensDisjoint(p: Pos, king: Square, filter: Bitboard, m: Move)
    requires EpReady(p)
    ensures QuietPawnGen(p, king, filter, m) ==> !EpGen(p, king, m) && m.from !in Promoting(p)
    ensures EpGen(p, king, m) ==> m.from !in Promoting(p)
    ensures PawnGen(p, king, filter, m) ==> m.from in PawnsOf(p)
  {
    hide PinTest, SliderFree;
  }

  // src/gen.c:42-111
  method GenPawnMoves(p: Pos, king: Square, moves: seq<Move>, filter: Bitboard) returns (r: seq<Move>)
    requires EpReady(p) && (forall s :: s in p.byColor[p.turn] ==> s !in p.byColor[Opposite(p.turn)])
    requires NoRepeats(moves) && forall m: Move :: m in moves ==> m.from !in PawnsOf(p)
    ensures NoRepeats(r)
    ensures forall m: Move :: m in r <==> m in moves || PawnGen(p, king, filter, m)
  {
    forall m: Move
      ensures QuietPawnGen(p, king, filter, m) ==> !EpGen(p, king, m) && m.from !in Promoting(p)
      ensures EpGen(p, king, m) ==> m.from !in Promoting(p)
      ensures PawnGen(p, king, filter, m) ==> m.from in PawnsOf(p)
    {
      PawnGensDisjoint(p, king, filter, m);
    }
    hide NoRepeats, QuietPawnGen, EpGen, PromotionGen, EpReady, PawnsOf;
    r := GenQuietPawnMoves(p, king, moves, filter);
    r := GenEnPassant(p, king, r);
    r := GenPromotions(p, king, r, filter);
  }

  // ---- Castling ------------------------------------------------------------------------------------------

  predicate CastleGen(p: Pos, king: Square, m: Move)
  {
    var rook := m.to;
    var kto := SquareFrom(RankOf(rook), if rook > king then 6 else 2);
    var rto := SquareFrom(RankOf(rook), if rook > king then 5 else 3);
    m.from == king && m.prom == NO_PIECE && rook in p.castleRooks * p.byColor[p.turn] &&
    |(Segment(king, kto) + Segment(rook, rto)) * p.Pieces()| == 2 && p.attacked * Segment(king, kto) == {} && rook !in p.pins
  }

  // src/gen.c:154-170
  method GenCastlingMoves(p: Pos, king: Square, moves: seq<Move>) returns (r: seq<Move>)
    requires p.checkers == {}
    requires NoRepeats(moves) && forall m: Move :: m in moves ==> !CastleGen(p, king, m)
    ensures NoRepeats(r)
    ensures forall m: Move :: m in r <==> m in moves || CastleGen(p, king, m)
  {
    hide NoRepeats, Segment, RankOf;
    r := moves;
    var rooks := p.castleRooks * p.byColor[p.turn];
    var rest := rooks;
    while rest != {}
      invariant rest <= rooks
      invariant NoRepeats(r)
      invariant forall m: Move :: m in r <==> m in moves || (m.to !in rest && CastleGen(p, king, m))
    {
      var rook: Square;
      rook, rest := PopLsb(rest);
      CoordsRange(rook);
      var kto := SquareFrom(RankOf(rook), if rook > king then 6 else 2);
      var rto := SquareFrom(RankOf(rook), if rook > king then 5 else 3);
      if |(Segment(king, kto) + Segment(rook, rto)) * p.Pieces()| == 2 && p.attacked * Segment(king, kto) == {} && rook !in p.pins {
        NoRepeatsPush(r, Move(king, rook, NO_PIECE));
        r := r + [Move(king, rook, NO_PIECE)];
      }
    }
  }
}
