/** 64-bit words and the bit tricks of src/bitboard.c:240-280, joined to the sets of the module Bitboards.

    A word is a natural number below 2^64.  `And` also takes a negative left operand, read in two's
    complement, which is what wrap-around subtraction followed by a mask computes (AndWrap). */
module Words {
  import opened Geometry
  import opened Bitboards

  function Pow2(n: nat): (p: nat)
    ensures p > 0
  {
    if n == 0 then 1 else 2 * Pow2(n - 1)
  }

  const W64: nat := 0x1_0000_0000_0000_0000

  type Word = w: int | 0 <= w < W64

  lemma Pow64()
    ensures Pow2(64) == W64
  {
    assert Pow2(16) == 0x1_0000 by { assert Pow2(8) == 0x100 by { assert Pow2(4) == 16; } assert Pow2(12) == 0x1000; }
    assert Pow2(24) == 0x100_0000 by { assert Pow2(20) == 0x10_0000; }
    assert Pow2(32) == 0x1_0000_0000 by { assert Pow2(28) == 0x1000_0000; }
    assert Pow2(40) == 0x100_0000_0000 by { assert Pow2(36) == 0x10_0000_0000; }
    assert Pow2(48) == 0x1_0000_0000_0000 by { assert Pow2(44) == 0x1000_0000_0000; }
    assert Pow2(56) == 0x100_0000_0000_0000 by { assert Pow2(52) == 0x10_0000_0000_0000; }
    assert Pow2(60) == 0x1000_0000_0000_0000;
  }

  // ---- Bits ----------------------------------------------------------------------------------------------

  function Bit(w: nat, i: nat): (r: nat)
    ensures r <= 1
  {
    if i == 0 then w % 2 else Bit(w / 2, i - 1)
  }

  function And(a: int, m: nat): nat
    decreases m
  {
    if m == 0 then 0 else 2 * And(a / 2, m / 2) + (if a % 2 == 1 && m % 2 == 1 then 1 else 0)
  }

  function Or(a: nat, b: nat): nat
    decreases a + b
  {
    if a + b == 0 then 0 else 2 * Or(a / 2, b / 2) + (if a % 2 == 1 || b % 2 == 1 then 1 else 0)
  }

  function Xor(a: nat, b: nat): nat
    decreases a + b
  {
    if a + b == 0 then 0 else 2 * Xor(a / 2, b / 2) + (if a % 2 != b % 2 then 1 else 0)
  }

  function Not(w: Word): Word { W64 - 1 - w }

  lemma {:induction false} BitZero(i: nat)
    ensures Bit(0, i) == 0
  {
    if i > 0 { BitZero(i - 1); }
  }

  // Two numbers with the same bits are the same.
  lemma {:induction false} SameBits(a: nat, b: nat)
    requires forall i: nat :: Bit(a, i) == Bit(b, i)
    ensures a == b
    decreases a + b
  {
    if a + b > 0 {
      assert Bit(a, 0) == Bit(b, 0);
      forall i: nat ensures Bit(a / 2, i) == Bit(b / 2, i) { assert Bit(a, i + 1) == Bit(b, i + 1); }
      SameBits(a / 2, b / 2);
    }
  }

  lemma {:induction false} BitAnd(a: nat, b: nat, i: nat)
    ensures Bit(And(a, b), i) == if Bit(a, i) == 1 && Bit(b, i) == 1 then 1 else 0
  {
    if b == 0 {
      BitZero(i);
    } else if i > 0 {
      BitAnd(a / 2, b / 2, i - 1);
      assert And(a, b) / 2 == And(a / 2, b / 2);
    }
  }

  lemma {:induction false} BitOr(a: nat, b: nat, i: nat)
    ensures Bit(Or(a, b), i) == if Bit(a, i) == 1 || Bit(b, i) == 1 then 1 else 0
  {
    OrUnfold(a, b);
    if a + b == 0 {
      BitZero(i);
    } else {
      hide Or, Bit;
      BitUnfold(a, i);
      BitUnfold(b, i);
      BitUnfold(Or(a, b), i);
      if i > 0 { BitOr(a / 2, b / 2, i - 1); }
    }
  }

  lemma OrUnfold(a: nat, b: nat)
    ensures a + b == 0 ==> Or(a, b) == 0
    ensures a + b > 0 ==> Or(a, b) / 2 == Or(a / 2, b / 2) && Or(a, b) % 2 == if a % 2 == 1 || b % 2 == 1 then 1 else 0
  {}

  lemma BitUnfold(w: nat, i: nat)
    ensures Bit(w, i) == if i == 0 then w % 2 else Bit(w / 2, i - 1)
  {}

  lemma {:induction false} BitXor(a: nat, b: nat, i: nat)
    ensures Bit(Xor(a, b), i) == if Bit(a, i) != Bit(b, i) then 1 else 0
  {
    if a + b == 0 {
      BitZero(i);
    } else if i > 0 {
      BitXor(a / 2, b / 2, i - 1);
      assert Xor(a, b) / 2 == Xor(a / 2, b / 2);
    }
  }

  // Complement to n ones.
  lemma {:induction false} BitNot(w: nat, n: nat, i: nat)
    requires w < Pow2(n) && i < n
    ensures Bit(Pow2(n) - 1 - w, i) == 1 - Bit(w, i)
  {
    if i > 0 {
      assert (Pow2(n) - 1 - w) / 2 == Pow2(n - 1) - 1 - w / 2;
      BitNot(w / 2, n - 1, i - 1);
    }
  }

  lemma {:induction false} BitPow2(n: nat, i: nat)
    ensures Bit(Pow2(n), i) == if i == n then 1 else 0
  {
    hide Bit, Pow2;
    BitUnfold(Pow2(n), i);
    PowUnfold(n);
    if i > 0 {
      if n > 0 { BitPow2(n - 1, i - 1); } else { BitZero(i - 1); }
    }
  }

  lemma PowUnfold(n: nat)
    ensures if n == 0 then Pow2(n) / 2 == 0 && Pow2(n) % 2 == 1 else Pow2(n) / 2 == Pow2(n - 1) && Pow2(n) % 2 == 0
  {}

  lemma {:induction false} BitHigh(w: nat, n: nat, i: nat)
    requires w < Pow2(n) && n <= i
    ensures Bit(w, i) == 0
  {
    if n == 0 { BitZero(i); } else { BitHigh(w / 2, n - 1, i - 1); }
  }

  lemma {:induction false} BitShl(w: nat, n: nat, i: nat)
    ensures Bit(w * Pow2(n), i) == if i >= n then Bit(w, i - n) else 0
  {
    if n > 0 {
      Doubled(w, Pow2(n - 1));
      if i > 0 { BitShl(w, n - 1, i - 1); }
    }
  }

  lemma Doubled(w: nat, p: nat)
    ensures w * (2 * p) == 2 * (w * p)
  {}

  // Right shift: drop the n low bits.
  function Shr(w: nat, n: nat): nat
    decreases n
  {
    if n == 0 then w else Shr(w / 2, n - 1)
  }

  lemma {:induction false} BitShr(w: nat, n: nat, i: nat)
    ensures Bit(Shr(w, n), i) == Bit(w, n + i)
    decreases n
  {
    if n > 0 { BitShr(w / 2, n - 1, i); }
  }

  lemma {:induction false} ShrBound(w: nat, n: nat, k: nat)
    requires w < Pow2(n + k)
    ensures Shr(w, n) < Pow2(k)
    decreases n
  {
    if n > 0 { ShrBound(w / 2, n - 1, k); }
  }

  lemma DivUnique(w: int, d: int, q: int, r: int)
    requires d > 0 && w == d * q + r && 0 <= r < d
    ensures w / d == q && w % d == r
  {
    var e := w / d - q;
    assert w == d * (w / d) + w % d;
    assert d * e == r - w % d by { assert d * e == d * (w / d) - d * q; }
    assert e >= 1 ==> d * e >= d;
    assert e <= -1 ==> d * e <= -d;
  }

  // Reducing modulo 2^n keeps the parity and halves to a reduction modulo 2^(n-1).
  lemma ModHalves(a: int, p: nat)
    requires p > 0
    ensures (a % (2 * p)) / 2 == (a / 2) % p && (a % (2 * p)) % 2 == a % 2
  {
    var q := a / 2 / p;
    var r := (a / 2) % p;
    assert a == 2 * (a / 2) + a % 2 && a / 2 == p * q + r;
    assert a == 2 * p * q + (2 * r + a % 2);
    DivUnique(a, 2 * p, q, 2 * r + a % 2);
  }

  lemma {:induction false} BitMod(w: nat, n: nat, i: nat)
    requires i < n
    ensures Bit(w % Pow2(n), i) == Bit(w, i)
  {
    ModHalves(w, Pow2(n - 1));
    if i > 0 { BitMod(w / 2, n - 1, i - 1); }
  }

  // The mask only looks at bits below its own size, so reducing the left operand changes nothing: the 64-bit
  // difference of two words, masked, is the masked difference.
  lemma {:induction false} AndWrap(a: int, m: nat, n: nat)
    requires m < Pow2(n)
    ensures And(a % Pow2(n), m) == And(a, m)
    decreases m
  {
    if m > 0 {
      ModHalves(a, Pow2(n - 1));
      AndWrap(a / 2, m / 2, n - 1);
    }
  }

  lemma {:induction false} AndAtMost(a: int, m: nat)
    ensures And(a, m) <= m
    decreases m
  {
    if m > 0 { AndAtMost(a / 2, m / 2); }
  }

  // ---- Words as sets -------------------------------------------------------------------------------------

  function SetOf(w: nat): Bitboard { set s: Square | 0 <= s < 64 && Bit(w, s) == 1 }

  function WordFrom(b: Bitboard, i: nat): nat
    requires i <= 64
    decreases 64 - i
  {
    if i == 64 then 0 else (if i in b then 1 else 0) + 2 * WordFrom(b, i + 1)
  }

  lemma {:induction false} WordFromBits(b: Bitboard, i: nat, j: nat)
    requires i <= 64
    ensures WordFrom(b, i) < Pow2(64 - i)
    ensures Bit(WordFrom(b, i), j) == if i + j < 64 && i + j in b then 1 else 0
    decreases 64 - i
  {
    if i == 64 {
      BitZero(j);
    } else {
      WordFromBits(b, i + 1, if j > 0 then j - 1 else 0);
    }
  }

  function WordOf(b: Bitboard): Word
  {
    Pow64();
    WordFromBits(b, 0, 0);
    WordFrom(b, 0)
  }

  // Words and sets of squares correspond one to one.
  lemma SetOfWordOf(b: Bitboard)
    ensures SetOf(WordOf(b)) == b
  {
    hide WordFrom, Bit;
    forall s: Square ensures s in SetOf(WordOf(b)) <==> s in b { WordFromBits(b, 0, s); }
  }

  lemma WordOfSetOf(w: Word)
    ensures WordOf(SetOf(w)) == w
  {
    hide WordFrom, Bit, Pow2;
    Pow64();
    forall i: nat ensures Bit(WordOf(SetOf(w)), i) == Bit(w, i) {
      WordFromBits(SetOf(w), 0, i);
      if i >= 64 { BitHigh(w, 64, i); }
    }
    SameBits(WordOf(SetOf(w)), w);
  }

  // The Boolean operators are the set operators.
  lemma SetOperators(a: Word, b: Word)
    ensures SetOf(And(a, b)) == SetOf(a) * SetOf(b)
    ensures SetOf(Or(a, b)) == SetOf(a) + SetOf(b)
    ensures SetOf(Xor(a, b)) == (SetOf(a) - SetOf(b)) + (SetOf(b) - SetOf(a))
    ensures SetOf(Not(a)) == Complement(SetOf(a))
  {
    hide Bit, And, Or, Xor, Pow2;
    Pow64();
    forall s: Square
      ensures Bit(And(a, b), s) == if Bit(a, s) == 1 && Bit(b, s) == 1 then 1 else 0
      ensures Bit(Or(a, b), s) == if Bit(a, s) == 1 || Bit(b, s) == 1 then 1 else 0
      ensures Bit(Xor(a, b), s) == if Bit(a, s) != Bit(b, s) then 1 else 0
      ensures Bit(Not(a), s) == 1 - Bit(a, s)
    {
      BitAnd(a, b, s);
      BitOr(a, b, s);
      BitXor(a, b, s);
      BitNot(a, 64, s);
    }
  }

  lemma OneBit(s: Square)
    ensures SetOf(Pow2(s)) == {s} && Pow2(s) < W64
  {
    forall t: Square ensures t in SetOf(Pow2(s)) <==> t == s { BitPow2(s, t); }
    Pow64();
    Pow2Mono(s, 63);
  }

  lemma {:induction false} Pow2Mono(a: nat, b: nat)
    requires a <= b
    ensures Pow2(a) <= Pow2(b)
  {
    if a < b { Pow2Mono(a, b - 1); }
  }

  lemma EmptySet(w: Word)
    ensures w == 0 <==> SetOf(w) == {}
  {
    if SetOf(w) == {} {
      assert SetOf(w) == SetOf(0) by { forall s: Square ensures s !in SetOf(0) { BitZero(s); } }
      WordOfSetOf(w);
      WordOfSetOf(0);
    } else {
      var s :| s in SetOf(w);
      BitZero(s);
    }
  }

  // bb_test, bb_set and bb_clear (src/bitboard.c:240-255), each by the bit 1 << s.
  lemma TestSetClear(b: Word, s: Square)
    ensures And(b, Pow2(s)) != 0 <==> s in SetOf(b)
    ensures s !in SetOf(b) ==> SetOf(Xor(b, Pow2(s))) == BbSet(SetOf(b), s)
    ensures s in SetOf(b) ==> SetOf(Xor(b, Pow2(s))) == BbClear(SetOf(b), s)
  {
    hide Bit, And, Xor, Pow2, SetOf;
    OneBit(s);
    SetOperators(b, Pow2(s));
    AndAtMost(b, Pow2(s));
    EmptySet(And(b, Pow2(s)));
    assert s in SetOf(b) ==> s in SetOf(b) * {s};
  }

  // ---- b & (b - 1) ---------------------------------------------------------------------------------------

  function LowBit(b: nat): nat
    requires b > 0
  {
    if b % 2 == 1 then 0 else 1 + LowBit(b / 2)
  }

  lemma {:induction false} AndSelf(b: nat)
    ensures And(b, b) == b
  {
    if b > 0 { AndSelf(b / 2); }
  }

  // b & (b - 1) clears exactly the lowest bit of b.
  lemma {:induction false} ClearLow(b: nat, i: nat)
    requires b > 0
    ensures Bit(b, LowBit(b)) == 1 && (i < LowBit(b) ==> Bit(b, i) == 0)
    ensures Bit(And(b, b - 1), i) == if i == LowBit(b) then 0 else Bit(b, i)
  {
    if b % 2 == 1 {
      assert (b - 1) / 2 == b / 2 && (b - 1) % 2 == 0;
      AndSelf(b / 2);
      if b == 1 { BitZero(i); } else { assert And(b, b - 1) == 2 * (b / 2); }
      if i > 0 && b == 1 { BitZero(i - 1); }
    } else {
      assert (b - 1) / 2 == b / 2 - 1 && (b - 1) % 2 == 1;
      ClearLow(b / 2, if i > 0 then i - 1 else 0);
    }
  }

  lemma BitHighAll(b: Word)
    ensures forall i: nat :: i >= 64 ==> Bit(b, i) == 0
  {
    Pow64();
    forall i: nat | i >= 64 ensures Bit(b, i) == 0 { BitHigh(b, 64, i); }
  }

  // bb_pop_lsb and bb_several (src/bitboard.c:272-278).
  lemma PopAndSeveral(b: Word)
    requires b != 0
    ensures SetOf(b) != {} && SetOf(And(b, b - 1)) == SetOf(b) - {Lsb(SetOf(b))}
    ensures And(b, b - 1) != 0 <==> Several(SetOf(b))
  {
    hide Bit, And, LowBit, Pow2;
    EmptySet(b);
    var l := Lsb(SetOf(b));
    Pow64();
    ClearLow(b, l);
    ClearLow(b, LowBit(b));
    BitHighAll(b);
    assert LowBit(b) in SetOf(b);
    assert LowBit(b) == l;
    forall s: Square ensures s in SetOf(And(b, b - 1)) <==> s in SetOf(b) - {l} { ClearLow(b, s); }
    AndAtMost(b, b - 1);
    EmptySet(And(b, b - 1));
    assert |SetOf(b) - {l}| == |SetOf(b)| - 1;
  }

  // bb_shift (src/bitboard.c:257-260).
  lemma ShiftIs(b: Word, i: int)
    requires -63 <= i <= 63
    ensures SetOf(if i > 0 then (b * Pow2(i)) % W64 else Shr(b, -i)) == BbShift(SetOf(b), i)
  {
    hide Bit, Pow2;
    Pow64();
    forall s: Square
      ensures s in SetOf(if i > 0 then (b * Pow2(i)) % W64 else Shr(b, -i)) <==> s in BbShift(SetOf(b), i)
    {
      if i > 0 {
        BitMod(b * Pow2(i), 64, s);
        BitShl(b, i, s);
      } else {
        BitShr(b, -i, s);
        if s - i >= 64 { BitHigh(b, 64, s - i); }
      }
    }
  }
}
