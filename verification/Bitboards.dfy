/** Bitboards as sets of squares, the operations of src/bitboard.c on them, and the tables it builds.

    The preconditions of `BbSet`, `BbClear` and `Lsb` are the asserts of the source.  The module Words shows
    that the same operations on 64-bit words compute these sets. */
module Bitboards {
  import opened Geometry
  import opened Rules

  type Bitboard = set<Square>

  function BbSet(b: Bitboard, s: Square): Bitboard
    requires s !in b
  {
    b + {s}
  }

  function BbClear(b: Bitboard, s: Square): Bitboard
    requires s in b
  {
    b - {s}
  }

  predicate InShift(b: Bitboard, i: int, s: Square) { 0 <= s - i < 64 && s - i in b }

  // Shift by i squares; what leaves the board is lost.
  function BbShift(b: Bitboard, i: int): Bitboard
  {
    set s: Square | 0 <= s < 64 && InShift(b, i, s)
  }

  function Complement(b: Bitboard): Bitboard
  {
    set s: Square | 0 <= s < 64 && s !in b
  }

  function RankBb(r: int): Bitboard { set s: Square | 0 <= s < 64 && RankOf(s) == r }

  function FileBb(f: int): Bitboard { set s: Square | 0 <= s < 64 && FileOf(s) == f }

  predicate Several(b: Bitboard) { |b| > 1 }

  function LsbFrom(b: Bitboard, i: Square): (s: Square)
    requires exists t :: t in b && i <= t
    ensures s in b && i <= s && forall t :: t in b && i <= t ==> s <= t
    decreases 64 - i
  {
    if i in b then i else LsbFrom(b, i + 1)
  }

  // Lowest square of a set that is not empty.
  function Lsb(b: Bitboard): (s: Square)
    requires b != {}
    ensures s in b && forall t :: t in b ==> s <= t
  {
    LsbFrom(b, 0)
  }

  function MsbFrom(b: Bitboard, i: Square): (s: Square)
    requires exists t :: t in b && t <= i
    ensures s in b && s <= i && forall t :: t in b && t <= i ==> t <= s
  {
    if i in b then i else MsbFrom(b, i - 1)
  }

  // Highest square of a set that is not empty.
  function Msb(b: Bitboard): (s: Square)
    requires b != {}
    ensures s in b && forall t :: t in b ==> t <= s
  {
    MsbFrom(b, 63)
  }

  method PopLsb(b: Bitboard) returns (s: Square, rest: Bitboard)
    requires b != {}
    ensures s == Lsb(b) && rest == b - {s}
  {
    s := Lsb(b);
    rest := b - {s};
  }

  lemma SeveralIff(b: Bitboard)
    ensures Several(b) <==> exists x, y :: x in b && y in b && x != y
  {
    if b == {} {
    } else {
      var x :| x in b;
      if b == {x} {
      } else {
        assert |b - {x}| > 0;
        var y :| y in b - {x};
      }
    }
  }

  lemma SingletonLsb(b: Bitboard)
    requires b != {} && !Several(b)
    ensures b == {Lsb(b)}
  {
    SeveralIff(b);
  }

  // ---- Tables ------------------------------------------------------------------------------------------

  function KnightAttacks(s: Square): Bitboard { set t: Square | 0 <= t < 64 && KnightHit(s, t) }

  function KingAttacks(s: Square): Bitboard { set t: Square | 0 <= t < 64 && KingHit(s, t) }

  function PawnAttacks(c: Color, s: Square): Bitboard { set t: Square | 0 <= t < 64 && PawnHit(Up(c), s, t) }

  // Squares from a to b, ends included; nothing when they are not on a line.
  function Segment(a: Square, b: Square): Bitboard
  {
    if a == b then {a} else if Dir(a, b) == 0 then {} else set x: Square | 0 <= x < 64 && OnWay(a, x, b)
  }

  // Squares from a through b to the edge, a included.  The degenerate Ray[a][a] is whatever direction
  // src/bitboard.c:133-151 fills last, the up-right diagonal.
  function Ray(a: Square, b: Square): Bitboard
  {
    if a == b then set x: Square | 0 <= x < 64 && (x == a || Dir(a, x) == 4)
    else if Dir(a, b) == 0 then {}
    else set x: Square | 0 <= x < 64 && OnRay(a, b, x)
  }

  predicate Visible(s: Square, t: Square, occ: Bitboard)
  {
    forall x: Square :: Between(s, x, t) ==> x !in occ
  }

  function RookAttacks(s: Square, occ: Bitboard): Bitboard
  {
    set t: Square | 0 <= t < 64 && RookDir(Dir(s, t)) && Visible(s, t, occ)
  }

  function BishopAttacks(s: Square, occ: Bitboard): Bitboard
  {
    set t: Square | 0 <= t < 64 && BishopDir(Dir(s, t)) && Visible(s, t, occ)
  }
}
