/** The position record of src/position.h, what it stands for, and the queries on it. */
module Positions {
  import opened Geometry
  import opened Rules
  import opened Legality
  import opened Bitboards
  import opened Zobrist

  type ByColor = s: seq<Bitboard> | |s| == 2 witness [{}, {}]
  type ByPiece = s: seq<Bitboard> | |s| == 6 witness [{}, {}, {}, {}, {}, {}]

  // The value of the C struct.  rule50 and fullMove are the 8-bit and 16-bit counters.
  datatype Pos = Pos(
    byColor: ByColor,
    byPiece: ByPiece,
    castleRooks: Bitboard,
    key: bv64,
    attacked: Bitboard,
    checkers: Bitboard,
    pins: Bitboard,
    lastMove: Move,
    fullMove: int,
    turn: Color,
    epSquare: OptSquare,
    rule50: int,
    chess960: bool)
  {
    function Pieces(): Bitboard { byColor[WHITE] + byColor[BLACK] }

    function PiecesCP(c: Color, p: Piece): Bitboard { byColor[c] * byPiece[p] }

    function PiecesCPP(c: Color, p: Piece, q: Piece): Bitboard { byColor[c] * (byPiece[p] + byPiece[q]) }

    // First piece type, in the order of the enumeration, whose bitboard has s; NO_PIECE if none.
    function PieceOn(s: Square): OptPiece { PieceOnFrom(s, KNIGHT) }

    function PieceOnFrom(s: Square, p: OptPiece): OptPiece
      decreases NO_PIECE - p
    {
      if p == NO_PIECE then NO_PIECE else if s in byPiece[p] then p else PieceOnFrom(s, p + 1)
    }

    function ColorOn(s: Square): Color { if s in byColor[WHITE] then WHITE else BLACK }

    function CellOn(s: Square): Cell
    {
      if PieceOn(s) == NO_PIECE then Empty else Man(ColorOn(s), PieceOn(s))
    }
  }

  function BoardOf(p: Pos): Board { seq(64, s requires 0 <= s < 64 => p.CellOn(s)) }

  function StateOf(p: Pos): State { State(BoardOf(p), p.turn, p.castleRooks, p.epSquare) }

  // The eight overlapping bitboards describe the board b.
  predicate Represents(byColor: ByColor, byPiece: ByPiece, b: Board)
  {
    (forall s: Square, c: Color :: s in byColor[c] <==> Owned(b, c, s)) &&
    (forall s: Square, p: Piece :: s in byPiece[p] <==> b[s].Man? && b[s].piece == p)
  }

  predicate Consistent(p: Pos) { Represents(p.byColor, p.byPiece, BoardOf(p)) }

  lemma PieceOnIs(p: Pos, s: Square, q: OptPiece, c: Cell)
    requires forall t: Piece :: s in p.byPiece[t] <==> c.Man? && c.piece == t
    requires c.Man? ==> q <= c.piece
    ensures p.PieceOnFrom(s, q) == (if c.Man? then c.piece else NO_PIECE)
    decreases NO_PIECE - q
  {
    if q < NO_PIECE && s !in p.byPiece[q] { PieceOnIs(p, s, q + 1, c); }
  }

  lemma BoardOfIs(p: Pos, b: Board)
    requires Represents(p.byColor, p.byPiece, b)
    ensures BoardOf(p) == b
    ensures p.Pieces() == set s: Square | 0 <= s < 64 && b[s] != Empty
  {
    forall s: Square ensures BoardOf(p)[s] == b[s] {
      PieceOnIs(p, s, KNIGHT, b[s]);
      assert s in p.byColor[WHITE] <==> Owned(b, WHITE, s);
      assert s in p.byColor[BLACK] <==> Owned(b, BLACK, s);
    }
    forall s: Square ensures s in p.Pieces() <==> b[s] != Empty {
      assert s in p.byColor[WHITE] <==> Owned(b, WHITE, s);
      assert s in p.byColor[BLACK] <==> Owned(b, BLACK, s);
    }
  }

  // ---- The derived sets, as src/position.h:29-31 describes them -------------------------------------------

  // t is attacked by the enemy once our king is lifted off the board.
  ghost predicate AttackedThrough(b: Board, us: Color, k: Square, t: Square)
  {
    Attacked(b[k := Empty], Opposite(us), t)
  }

  ghost function AttackedSet(b: Board, us: Color, k: Square): Bitboard
  {
    set t: Square | 0 <= t < 64 && AttackedThrough(b, us, k, t)
  }

  ghost function CheckerSet(b: Board, us: Color, k: Square): Bitboard
  {
    set e: Square | 0 <= e < 64 && Checks(b, us, k, e)
  }

  ghost function PinSet(b: Board, us: Color, k: Square): Bitboard
  {
    set s: Square | 0 <= s < 64 && Pinned(b, us, k, s)
  }

  ghost predicate Derived(p: Pos)
  {
    var b := BoardOf(p);
    var k := KingSquare(b, p.turn);
    p.attacked == AttackedSet(b, p.turn, k) && p.checkers == CheckerSet(b, p.turn, k) && p.pins == PinSet(b, p.turn, k)
  }

  // A position as the program keeps it: consistent bitboards for a well-formed position, derived sets and
  // key up to date.
  ghost predicate Sound(p: Pos, z: Tables)
  {
    Consistent(p) && WellFormed(StateOf(p)) && Derived(p) && p.key == KeyOf(z, StateOf(p)) &&
    0 <= p.rule50 < 256 && 0 <= p.fullMove < 65536 && (p.chess960 || Orthodox(StateOf(p)))
  }
}
