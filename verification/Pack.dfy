/** The compact binary encoding of a position (src/position.c:702-726, format at README.md:83-99) and a decoder
    that recovers the position from it. */
module Pack {
  import opened Geometry
  import opened Rules
  import opened Bitboards
  import opened Zobrist
  import opened Positions
  import opened Finish
  import opened MoveGenExact
  import opened Preservation
  import opened PositionClass
  import opened Progress

  // The struct PackedPos: rule50 has 7 bits, the pieces 16 bytes.
  datatype Packed = Packed(occ: Bitboard, turn: Color, rule50: int, packedPieces: seq<int>)

  const ROOK_WITH_CASTLING_RIGHT := 6
  const PAWN_CAPTURABLE_ENPASSANT := 7

  // 2 * (extended piece) + colour.
  function Nibble(p: Pos, s: Square): int
  {
    var piece := p.PieceOn(s);
    2 * (if piece == ROOK && s in p.castleRooks then ROOK_WITH_CASTLING_RIGHT
         else if piece == PAWN && p.epSquare == s + PushInc(p.turn) then PAWN_CAPTURABLE_ENPASSANT
         else piece) + p.ColorOn(s)
  }

  // Number of occupied squares below s: the position of s in the nibble stream.
  function Below(occ: Bitboard, s: Square): Bitboard { set t: Square | 0 <= t < 64 && t in occ && t < s }

  // Nibble i of the bytes: low half first.
  function NibbleAt(bytes: seq<int>, i: nat): int
    requires i / 2 < |bytes|
  {
    if i % 2 == 0 then bytes[i / 2] % 16 else bytes[i / 2] / 16
  }

  // Byte k is used only up to nibble n.
  predicate Fresh(bytes: seq<int>, n: nat)
  {
    forall k: int :: 0 <= k < |bytes| ==> 0 <= bytes[k] < 256 && (2 * k >= n ==> bytes[k] == 0) && (2 * k + 1 >= n ==> bytes[k] < 16)
  }

  // Or-ing a nibble into its half byte, which is still zero, adds it there.
  lemma PutNibble(bytes: seq<int>, n: nat, x: int)
    requires Fresh(bytes, n) && n / 2 < |bytes| && 0 <= x < 16
    ensures var b := bytes[n / 2 := bytes[n / 2] + (if n % 2 == 1 then 16 * x else x)];
            Fresh(b, n + 1) && NibbleAt(b, n) == x && forall i: nat :: i < n ==> NibbleAt(b, i) == NibbleAt(bytes, i)
  {}

  ghost predicate Encoded(p: Pos, occ: Bitboard, bytes: seq<int>, s: Square)
  {
    |Below(occ, s)| / 2 < |bytes| && NibbleAt(bytes, |Below(occ, s)|) == Nibble(p, s)
  }

  lemma ArmiesCover(b: Board)
    ensures |Occupied(b)| == |Army(b, WHITE)| + |Army(b, BLACK)|
  {
    assert forall s: Square :: b[s] != Empty ==> b[s].color == WHITE || b[s].color == BLACK;
    assert Occupied(b) == Army(b, WHITE) + Army(b, BLACK);
    assert Army(b, WHITE) !! Army(b, BLACK);
  }

  lemma AtMost32(z: Tables, p: Pos)
    requires Sound(p, z)
    ensures |p.Pieces()| <= 32
  {
    hide Sound, WellFormed, Men, Army, Represents;
    SoundParts(p, z);
    ArmiesCover(BoardOf(p));
    BoardOfIs(p, BoardOf(p));
    assert p.Pieces() == Occupied(BoardOf(p));
    CountsBefore(StateOf(p), WHITE);
    CountsBefore(StateOf(p), BLACK);
  }

  lemma BelowLess(occ: Bitboard, s: Square)
    requires s in occ
    ensures |Below(occ, s)| < |occ|
  {
    SubsetCard(Below(occ, s), occ - {s});
  }

  lemma NibbleRange(p: Pos, s: Square)
    requires p.PieceOn(s) != NO_PIECE
    ensures 0 <= Nibble(p, s) < 16
  {}

  // Taking the lowest square out of what remains: the next in the stream.
  lemma NextInStream(occ: Bitboard, rest: Bitboard, s: Square)
    requires rest <= occ && s in rest && (forall t :: t in rest ==> s <= t)
    requires forall t, u :: t in occ && t !in rest && u in rest ==> t < u
    ensures Below(occ, s) == occ - rest
    ensures forall t, u :: t in occ && t !in rest - {s} && u in rest - {s} ==> t < u
  {}

  // src/position.c:711-720
  method NibbleFor(p: Pos, square: Square) returns (nibble: int)
    ensures nibble == Nibble(p, square)
  {
    hide PushInc;
    var color := p.ColorOn(square);
    var extPiece: int := p.PieceOn(square);
    if extPiece == ROOK && square in p.castleRooks {
      extPiece := PAWN + 1;
    } else if extPiece == PAWN && p.epSquare == square + PushInc(p.turn) {
      extPiece := PAWN + 2;
    }
    nibble := 2 * extPiece + color;
  }

  // The squares of occ taken out of `remaining` so far are the lowest ones, and their nibbles are stored.
  ghost predicate StreamOk(p: Pos, occ: Bitboard, remaining: Bitboard, bytes: seq<int>, n: nat)
  {
    remaining <= occ && n == |occ| - |remaining| && |bytes| == 16 && Fresh(bytes, n) &&
    (forall t, u :: t in occ && t !in remaining && u in remaining ==> t < u) &&
    (forall s :: s in occ && s !in remaining ==> |Below(occ, s)| < n && Encoded(p, occ, bytes, s))
  }

  // packedPieces[n / 2] |= n % 2 ? nibble << 4 : nibble
  function Stored(bytes: seq<int>, n: nat, nibble: int): (r: seq<int>)
    requires n / 2 < |bytes|
    ensures |r| == |bytes|
  {
    bytes[n / 2 := bytes[n / 2] + (if n % 2 == 1 then 16 * nibble else nibble)]
  }

  lemma StreamStep(p: Pos, occ: Bitboard, remaining: Bitboard, bytes: seq<int>, n: nat, s: Square)
    requires StreamOk(p, occ, remaining, bytes, n) && |occ| <= 32 && s in remaining && (forall t :: t in remaining ==> s <= t)
    requires p.PieceOn(s) != NO_PIECE
    ensures n / 2 < 16 && StreamOk(p, occ, remaining - {s}, Stored(bytes, n, Nibble(p, s)), n + 1)
  {
    hide Below, NibbleAt, Nibble, Fresh;
    NextInStream(occ, remaining, s);
    StreamIndex(occ, remaining, s);
    NibbleRange(p, s);
    assert |remaining| > 0;
    PutNibble(bytes, n, Nibble(p, s));
  }

  lemma StreamStart(p: Pos, occ: Bitboard)
    ensures StreamOk(p, occ, occ, seq(16, _ => 0), 0)
  {
    AllZero(seq(16, _ => 0));
  }

  method PosPack(z: Tables, p: Pos) returns (pp: Packed, size: nat)
    requires Sound(p, z)
    ensures pp.occ == p.Pieces() && pp.turn == p.turn && pp.rule50 == p.rule50 % 128 && |pp.packedPieces| == 16
    ensures |pp.occ| <= 32 && size == 9 + (|pp.occ| + 1) / 2 <= 25
    ensures forall s :: s in pp.occ ==> Encoded(p, pp.occ, pp.packedPieces, s)
    ensures forall k: int :: 0 <= k < 16 ==> 0 <= pp.packedPieces[k] < 256
  {
    hide *;
    AtMost32(z, p);
    SoundParts(p, z);
    var occ := p.Pieces();
    var bytes: seq<int> := seq(16, _ => 0);
    var remaining := occ;
    var nibbleIdx: nat := 0;
    StreamStart(p, occ);
    while remaining != {}
      invariant remaining <= occ && StreamOk(p, occ, remaining, bytes, nibbleIdx) && |bytes| == 16
    {
      ghost var rest := remaining;
      var square: Square;
      square, remaining := PopLsb(remaining);
      OccupiedPiece(p, square);
      StreamStep(p, occ, rest, bytes, nibbleIdx, square);
      var nibble := NibbleFor(p, square);
      bytes := Stored(bytes, nibbleIdx, nibble);
      nibbleIdx := nibbleIdx + 1;
    }
    pp := Packed(occ, p.turn, p.rule50 % 128, bytes);
    size := 9 + (nibbleIdx + 1) / 2;
    StreamEnd(p, occ, bytes, nibbleIdx);
  }

  lemma StreamEnd(p: Pos, occ: Bitboard, bytes: seq<int>, n: nat)
    requires StreamOk(p, occ, {}, bytes, n)
    ensures n == |occ| && (forall s :: s in occ ==> Encoded(p, occ, bytes, s)) && forall k: int :: 0 <= k < |bytes| ==> 0 <= bytes[k] < 256
  {
    hide Encoded;
  }

  lemma AllZero(bytes: seq<int>)
    requires forall k: int :: 0 <= k < |bytes| ==> bytes[k] == 0
    ensures Fresh(bytes, 0)
  {}

  lemma StreamIndex(occ: Bitboard, rest: Bitboard, s: Square)
    requires rest <= occ && Below(occ, s) == occ - rest
    ensures |Below(occ, s)| == |occ| - |rest|
  {
    assert occ == rest + (occ - rest);
    assert |occ| == |rest| + |occ - rest|;
  }

  lemma OccupiedPiece(p: Pos, s: Square)
    requires Represents(p.byColor, p.byPiece, BoardOf(p)) && s in p.Pieces()
    ensures p.PieceOn(s) != NO_PIECE
  {
    hide BoardOf;
    PieceOnBoard(p, BoardOf(p), s);
    OccIsPieces(p, BoardOf(p));
  }

  // ---- The format ----------------------------------------------------------------------------------------

  // The table of README.md:91-99: knight to pawn are 0 to 5, a rook with castling right is 6, a pawn that can be taken
  // en passant is 7; twice that, plus 1 for black.
  lemma NibbleTable(p: Pos, s: Square)
    requires Represents(p.byColor, p.byPiece, BoardOf(p)) && BoardOf(p)[s].Man?
    ensures var man := BoardOf(p)[s];
            var code := if man.piece == ROOK && s in p.castleRooks then 6
                        else if man.piece == PAWN && p.epSquare == (if p.turn == WHITE then s + 8 else s - 8) then 7
                        else if man.piece == KNIGHT then 0 else if man.piece == BISHOP then 1 else if man.piece == ROOK then 2
                        else if man.piece == QUEEN then 3 else if man.piece == KING then 4 else 5;
            Nibble(p, s) == 2 * code + (if man.color == WHITE then 0 else 1)
  {
    hide BoardOf, Represents;
    PieceOnBoard(p, BoardOf(p), s);
    ColorOnBoard(p, BoardOf(p), s);
    PieceKinds(BoardOf(p)[s].piece);
    assert BoardOf(p)[s].color == WHITE || BoardOf(p)[s].color == BLACK;
    assert p.turn == WHITE || p.turn == BLACK;
  }

  // The man on s is in the half byte whose number is the number of men on lower squares; even ones are low halves.
  lemma BytesLayout(z: Tables, p: Pos, pp: Packed, s: Square)
    requires Sound(p, z) && pp.occ == p.Pieces() && |pp.packedPieces| == 16 && s in pp.occ && Encoded(p, pp.occ, pp.packedPieces, s)
    ensures var i := |set t: Square | 0 <= t < 64 && BoardOf(p)[t].Man? && t < s|;
            i / 2 < 16 && (if i % 2 == 0 then pp.packedPieces[i / 2] % 16 else pp.packedPieces[i / 2] / 16) == Nibble(p, s)
  {
    hide Sound, BoardOf, Represents, Nibble, WellFormed, Derived, KeyOf;
    SoundParts(p, z);
    OccIsPieces(p, BoardOf(p));
    assert (set t: Square | 0 <= t < 64 && BoardOf(p)[t].Man? && t < s) == Below(pp.occ, s);
  }

  // ---- Decoding ------------------------------------------------------------------------------------------

  function DecodedExt(pp: Packed, s: Square): int
    requires s in pp.occ && |Below(pp.occ, s)| / 2 < |pp.packedPieces|
  {
    NibbleAt(pp.packedPieces, |Below(pp.occ, s)|) / 2
  }

  function DecodedCell(pp: Packed, s: Square): Cell
    requires |pp.packedPieces| == 16 && |pp.occ| <= 32
  {
    if s !in pp.occ then Empty
    else
      BelowLess(pp.occ, s);
      var nibble := NibbleAt(pp.packedPieces, |Below(pp.occ, s)|);
      var ext := nibble / 2;
      var color := if nibble % 2 == 0 then WHITE else BLACK;
      if ext == ROOK_WITH_CASTLING_RIGHT then Man(color, ROOK)
      else if ext == PAWN_CAPTURABLE_ENPASSANT then Man(color, PAWN)
      else if 0 <= ext < 6 then Man(color, ext)
      else Empty
  }

  predicate DecodedCastle(pp: Packed, s: Square)
    requires |pp.packedPieces| == 16 && |pp.occ| <= 32
  {
    s in pp.occ && (BelowLess(pp.occ, s); DecodedExt(pp, s) == ROOK_WITH_CASTLING_RIGHT)
  }

  predicate DecodedEpPawn(pp: Packed, s: Square)
    requires |pp.packedPieces| == 16 && |pp.occ| <= 32
  {
    s in pp.occ && (BelowLess(pp.occ, s); DecodedExt(pp, s) == PAWN_CAPTURABLE_ENPASSANT)
  }

  lemma OneNibble(p: Pos, pp: Packed, s: Square)
    requires Represents(p.byColor, p.byPiece, BoardOf(p)) && pp.occ == p.Pieces() && |pp.packedPieces| == 16 && |pp.occ| <= 32
    requires s in pp.occ && Encoded(p, pp.occ, pp.packedPieces, s)
    ensures DecodedCell(pp, s) == BoardOf(p)[s]
    ensures DecodedCastle(pp, s) <==> BoardOf(p)[s].piece == ROOK && s in p.castleRooks
    ensures DecodedEpPawn(pp, s) <==> BoardOf(p)[s].piece == PAWN && p.epSquare == s + PushInc(p.turn)
    ensures BoardOf(p)[s].Man?
  {
    PieceOnBoard(p, BoardOf(p), s);
    ColorOnBoard(p, BoardOf(p), s);
    OccIsPieces(p, BoardOf(p));
    hide BoardOf, Represents, NibbleAt, Below, PushInc;
    assert p.ColorOn(s) == WHITE || p.ColorOn(s) == BLACK;
  }

  // Packing is lossless: men, castling rooks and en-passant square are recovered from the nibbles (and turn
  // and rule50 from their own fields, rule50 being below 128 in every game).
  lemma PackingIsLossless(z: Tables, p: Pos, pp: Packed)
    requires Sound(p, z) && pp.occ == p.Pieces() && |pp.packedPieces| == 16 && |pp.occ| <= 32
    requires forall s :: s in pp.occ ==> Encoded(p, pp.occ, pp.packedPieces, s)
    ensures forall s: Square :: DecodedCell(pp, s) == BoardOf(p)[s]
    ensures forall s: Square :: DecodedCastle(pp, s) <==> s in p.castleRooks
    ensures forall s: Square :: DecodedEpPawn(pp, s) <==> p.epSquare != NO_SQUARE && p.epSquare == s + PushInc(p.turn)
  {
    hide Sound, Represents, BoardOf, WellFormed, Encoded, DecodedCell, DecodedCastle, DecodedEpPawn, PushInc;
    SoundParts(p, z);
    forall s: Square
      ensures DecodedCell(pp, s) == BoardOf(p)[s]
      ensures DecodedCastle(pp, s) <==> s in p.castleRooks
      ensures DecodedEpPawn(pp, s) <==> p.epSquare != NO_SQUARE && p.epSquare == s + PushInc(p.turn)
    {
      OccIsPieces(p, BoardOf(p));
      EpAndCastlePieces(p, s);
      if s in pp.occ { OneNibble(p, pp, s); } else { NotDecoded(pp, s); }
    }
  }

  lemma NotDecoded(pp: Packed, s: Square)
    requires s !in pp.occ && |pp.packedPieces| == 16 && |pp.occ| <= 32
    ensures DecodedCell(pp, s) == Empty && !DecodedCastle(pp, s) && !DecodedEpPawn(pp, s)
  {}

  lemma EpAndCastlePieces(p: Pos, s: Square)
    requires WellFormed(StateOf(p))
    ensures s in p.castleRooks ==> BoardOf(p)[s].Man? && BoardOf(p)[s].piece == ROOK
    ensures p.epSquare != NO_SQUARE && p.epSquare == s + PushInc(p.turn) ==> BoardOf(p)[s].Man? && BoardOf(p)[s].piece == PAWN
    ensures BoardOf(p)[s].Man? && BoardOf(p)[s].piece == PAWN && p.epSquare == s + PushInc(p.turn) ==> p.epSquare != NO_SQUARE
  {
    hide BoardOf, WellFormed, KingSquare;
    WellFormedEp(StateOf(p));
    PawnRanksBefore(StateOf(p));
    if s in p.castleRooks { CastleRookBefore(StateOf(p), s); }
  }
}
