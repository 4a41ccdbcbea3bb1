/** Squares of the board and the geometry of lines on it.

    A square is 8 * rank + file, as in src/bitboard.h.  Lines are described in polar form: `Dir(a, b)` is
    a code for the one of the eight directions in which b lies from a (0 when no queen line joins them),
    and `Dist(a, b)` is the number of king steps.  On one direction from a, the distance fixes the square,
    so every fact about rays, segments and pins becomes a comparison of distances. */
module Geometry {
  type Square = s: int | 0 <= s < 64

  // A square, or 64 for "none" (the source's NB_SQUARE).
  type OptSquare = s: int | 0 <= s <= 64

  const NO_SQUARE: OptSquare := 64

  function RankOf(s: Square): int { s / 8 }

  function FileOf(s: Square): int { s % 8 }

  function SquareFrom(rank: int, file: int): Square
    requires 0 <= rank < 8 && 0 <= file < 8
  {
    8 * rank + file
  }

  predicate OnBoard(rank: int, file: int) { 0 <= rank < 8 && 0 <= file < 8 }

  function Abs(x: int): int { if x < 0 then -x else x }

  function Sgn(x: int): int { if x < 0 then -1 else if x == 0 then 0 else 1 }

  function Max(x: int, y: int): int { if x < y then y else x }

  // Direction from a to b: 3 * (rank sign) + (file sign), or 0 when a and b are not on a common line.
  // Rook directions are the odd codes (1, 3 and their opposites), bishop directions the even ones.
  function Dir(a: Square, b: Square): int
  {
    var dr, df := RankOf(b) - RankOf(a), FileOf(b) - FileOf(a);
    if dr == 0 || df == 0 || Abs(dr) == Abs(df) then 3 * Sgn(dr) + Sgn(df) else 0
  }

  // Number of king steps from a to b.
  function Dist(a: Square, b: Square): int
  {
    Max(Abs(RankOf(b) - RankOf(a)), Abs(FileOf(b) - FileOf(a)))
  }

  // x lies strictly between a and b on a queen line.
  predicate Between(a: Square, x: Square, b: Square)
  {
    Dir(a, x) != 0 && Dir(a, x) == Dir(a, b) && Dist(a, x) < Dist(a, b)
  }

  // x is on the way from a to b, both ends included.
  predicate OnWay(a: Square, x: Square, b: Square) { x == a || x == b || Between(a, x, b) }

  // to is on the ray from k through from, k included.
  predicate OnRay(k: Square, from: Square, to: Square) { to == k || Dir(k, to) == Dir(k, from) }

  predicate RookDir(d: int) { d == 1 || d == -1 || d == 3 || d == -3 }

  predicate BishopDir(d: int) { d == 2 || d == -2 || d == 4 || d == -4 }

  predicate KnightHit(a: Square, b: Square)
  {
    var dr, df := Abs(RankOf(b) - RankOf(a)), Abs(FileOf(b) - FileOf(a));
    (dr == 1 && df == 2) || (dr == 2 && df == 1)
  }

  predicate KingHit(a: Square, b: Square) { Dist(a, b) == 1 }

  // A pawn of the colour that moves in rank direction `up` (1 or -1) on a attacks b.
  predicate PawnHit(up: int, a: Square, b: Square)
  {
    RankOf(b) == RankOf(a) + up && Abs(FileOf(b) - FileOf(a)) == 1
  }

  lemma SquareFromCoords(rank: int, file: int)
    requires 0 <= rank < 8 && 0 <= file < 8
    ensures RankOf(SquareFrom(rank, file)) == rank && FileOf(SquareFrom(rank, file)) == file
  {}

  lemma CoordsRange(s: Square)
    ensures 0 <= RankOf(s) < 8 && 0 <= FileOf(s) < 8
    ensures s == SquareFrom(RankOf(s), FileOf(s))
  {}

  // On one direction from a, the distance identifies the square.
  lemma PolarUnique(a: Square, x: Square, y: Square)
    requires Dir(a, x) == Dir(a, y) != 0 && Dist(a, x) == Dist(a, y)
    ensures x == y
  {}

  lemma DirReverse(a: Square, b: Square)
    ensures Dir(b, a) == -Dir(a, b)
    ensures Dist(a, b) == Dist(b, a) >= 0
    ensures Dist(a, b) == 0 <==> a == b
    ensures Dir(a, a) == 0
    ensures Dir(a, b) == 0 || RookDir(Dir(a, b)) || BishopDir(Dir(a, b))
  {}

  lemma BetweenReverse(a: Square, x: Square, b: Square)
    ensures Between(a, x, b) <==> Between(b, x, a)
  {
    if Between(a, x, b) { BetweenReverseAux(a, x, b); }
    if Between(b, x, a) { BetweenReverseAux(b, x, a); }
  }

  lemma BetweenReverseAux(a: Square, x: Square, b: Square)
    requires Between(a, x, b)
    ensures Between(b, x, a)
  {}

  // Three squares on one ray from k, in order of distance: the middle one separates the others.
  lemma BetweenBeyond(k: Square, x: Square, y: Square, z: Square)
    requires Dir(k, x) == Dir(k, y) == Dir(k, z) != 0
    requires Dist(k, x) < Dist(k, y) < Dist(k, z)
    ensures Between(x, y, z)
  {}

  // Two squares on one ray from k are themselves on a line.
  lemma SameRay(k: Square, x: Square, y: Square)
    requires Dir(k, x) == Dir(k, y) != 0
    requires Dist(k, x) < Dist(k, y)
    ensures Dir(x, y) == Dir(k, x)
    ensures Dist(x, y) == Dist(k, y) - Dist(k, x)
  {}

  lemma LeapersOffLine(a: Square, b: Square)
    ensures KnightHit(a, b) ==> Dir(a, b) == 0 && a != b
    ensures KnightHit(a, b) <==> KnightHit(b, a)
    ensures KingHit(a, b) ==> Dir(a, b) != 0 && a != b
    ensures KingHit(a, b) <==> KingHit(b, a)
    ensures forall up :: up * up == 1 && PawnHit(up, a, b) ==> KingHit(a, b) && BishopDir(Dir(a, b))
    ensures forall up :: PawnHit(up, a, b) <==> PawnHit(-up, b, a)
  {
    hide RankOf, FileOf;
    UnitSquares();
  }

  lemma UnitSquares()
    ensures forall up: int :: up * up == 1 ==> up == 1 || up == -1
  {
    forall up: int | up * up == 1 ensures up == 1 || up == -1 {
      assert up > 1 ==> up * up > 1;
      assert up < -1 ==> up * up > 1;
    }
  }
}
