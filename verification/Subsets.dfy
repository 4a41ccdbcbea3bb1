/** The Carry-Rippler step occ = (occ - mask) & mask of src/bitboard.c:108-115: it counts through the subsets
    of the mask.  `Pext` reads the bits of a subset at the positions of the mask as a number, and the step adds
    one to that number. */
module Subsets {
  import opened Words

  function Count(m: nat): nat { if m == 0 then 0 else m % 2 + Count(m / 2) }

  predicate Sub(o: nat, m: nat) { And(o, m) == o }

  // The step, with the 64-bit wrap-around of the subtraction.
  function Next(o: Word, m: Word): nat { And((o - m) % W64, m) }

  // Bits of o at the positions of m, packed together, and back.
  function Pext(o: nat, m: nat): nat
    decreases m
  {
    if m == 0 then 0 else if m % 2 == 1 then 2 * Pext(o / 2, m / 2) + o % 2 else Pext(o / 2, m / 2)
  }

  function Pdep(v: nat, m: nat): nat
    decreases m
  {
    if m == 0 then 0 else if m % 2 == 1 then 2 * Pdep(v / 2, m / 2) + v % 2 else 2 * Pdep(v, m / 2)
  }

  lemma {:induction false} SubHalves(o: nat, m: nat)
    requires Sub(o, m)
    ensures o <= m && (m > 0 ==> Sub(o / 2, m / 2) && o % 2 <= m % 2)
  {
    AndAtMost(o, m);
    if m > 0 { assert And(o, m) / 2 == And(o / 2, m / 2); }
  }

  lemma {:induction false} PextBound(o: nat, m: nat)
    ensures Pext(o, m) < Pow2(Count(m))
    decreases m
  {
    if m > 0 { PextBound(o / 2, m / 2); }
  }

  // The packed number orders and identifies the subsets.
  lemma {:induction false} PextOrder(o: nat, p: nat, m: nat)
    requires Sub(o, m) && Sub(p, m)
    ensures Pext(o, m) < Pext(p, m) <==> o < p
    ensures Pext(o, m) == Pext(p, m) <==> o == p
    decreases m
  {
    SubHalves(o, m);
    SubHalves(p, m);
    if m > 0 { PextOrder(o / 2, p / 2, m / 2); }
  }

  // Borrowing one more than the mask restores the subset.
  lemma {:induction false} BorrowRestores(o: nat, m: nat)
    requires Sub(o, m)
    ensures And(o - m - 1, m) == o
    decreases m
  {
    SubHalves(o, m);
    if m > 0 {
      BorrowRestores(o / 2, m / 2);
      if o % 2 == m % 2 {
        assert (o - m - 1) / 2 == o / 2 - m / 2 - 1 && (o - m - 1) % 2 == 1;
      } else {
        assert (o - m - 1) / 2 == o / 2 - m / 2 - 1 && (o - m - 1) % 2 == 0;
      }
    }
  }

  lemma AndUnfold(a: int, m: nat)
    requires m > 0
    ensures And(a, m) == 2 * And(a / 2, m / 2) + (if a % 2 == 1 && m % 2 == 1 then 1 else 0)
    ensures And(a, m) / 2 == And(a / 2, m / 2)
    ensures And(a, m) % 2 == if a % 2 == 1 && m % 2 == 1 then 1 else 0
  {}

  lemma PextUnfold(o: nat, m: nat)
    requires m > 0
    ensures Pext(o, m) == if m % 2 == 1 then 2 * Pext(o / 2, m / 2) + o % 2 else Pext(o / 2, m / 2)
  {
    hide Pow2, Count;
  }

  lemma PowCount(m: nat)
    requires m > 0
    ensures Pow2(Count(m)) == if m % 2 == 1 then 2 * Pow2(Count(m / 2)) else Pow2(Count(m / 2))
  {
    hide Count, Pow2;
    CountUnfold(m);
    PowNext(Count(m / 2));
  }

  lemma PowNext(n: nat)
    ensures Pow2(1 + n) == 2 * Pow2(n)
  {}

  lemma CountUnfold(m: nat)
    requires m > 0
    ensures Count(m) == if m % 2 == 1 then 1 + Count(m / 2) else Count(m / 2)
  {}

  // The difference, halved: a clear low bit of o under a set bit of m borrows.
  lemma Borrow(o: nat, m: nat)
    requires o % 2 <= m % 2
    ensures o % 2 == m % 2 ==> (o - m) / 2 == o / 2 - m / 2 && (o - m) % 2 == 0
    ensures o % 2 != m % 2 ==> (o - m) / 2 == o / 2 - m / 2 - 1 && (o - m) % 2 == 1
  {}

  lemma {:induction false} StepAddsOne(o: nat, m: nat)
    requires Sub(o, m)
    ensures Sub(And(o - m, m), m)
    ensures Pext(And(o - m, m), m) == if Pext(o, m) + 1 == Pow2(Count(m)) then 0 else Pext(o, m) + 1
    decreases m
  {
    SubHalves(o, m);
    if m > 0 {
      hide And, Pext, Pow2, Count;
      var n := And(o - m, m);
      Borrow(o, m);
      AndUnfold(o - m, m);
      AndUnfold(n, m);
      PextUnfold(o, m);
      PextUnfold(n, m);
      PowCount(m);
      PextBound(o / 2, m / 2);
      if o % 2 != m % 2 {
        BorrowRestores(o / 2, m / 2);
      } else {
        StepAddsOne(o / 2, m / 2);
      }
    } else {
      assert Pext(o, m) == 0 && Pow2(Count(m)) == 1;
    }
  }

  lemma PdepUnfold(v: nat, m: nat)
    requires m > 0
    ensures var d := Pdep(v, m);
            if m % 2 == 1 then d / 2 == Pdep(v / 2, m / 2) && d % 2 == v % 2 else d / 2 == Pdep(v, m / 2) && d % 2 == 0
  {}

  lemma {:induction false} PextPdep(v: nat, m: nat)
    requires v < Pow2(Count(m))
    ensures Sub(Pdep(v, m), m) && Pext(Pdep(v, m), m) == v
    decreases m
  {
    if m > 0 {
      PowCount(m);
      hide And, Pext, Pdep, Pow2, Count;
      PdepUnfold(v, m);
      AndUnfold(Pdep(v, m), m);
      PextUnfold(Pdep(v, m), m);
      PextPdep(if m % 2 == 1 then v / 2 else v, m / 2);
    }
  }

  // The step of the program on 64-bit words: the next larger subset of the mask, and zero after the last.
  lemma CarryRippler(o: Word, m: Word)
    requires Sub(o, m)
    ensures Sub(Next(o, m), m) && 0 <= Next(o, m) < W64
    ensures Pext(Next(o, m), m) == if Pext(o, m) + 1 == Pow2(Count(m)) then 0 else Pext(o, m) + 1
    ensures Next(o, m) == 0 <==> o == m
    ensures o != m ==> o < Next(o, m) && forall p: nat :: Sub(p, m) && o < p ==> Next(o, m) <= p
  {
    hide And, Pext, Pow2, Count;
    Pow64();
    AndWrap(o - m, m, 64);
    StepAddsOne(o, m);
    PextBound(o, m);
    SubHalves(Next(o, m), m);
    FullAndEmpty(m);
    PextOrder(o, m, m);
    PextOrder(o, Next(o, m), m);
    PextOrder(Next(o, m), 0, m);
    forall p: nat | Sub(p, m) && o < p ensures o != m ==> Next(o, m) <= p {
      PextOrder(o, p, m);
      PextOrder(p, Next(o, m), m);
      PextBound(p, m);
    }
  }

  lemma {:induction false} FullAndEmpty(m: nat)
    ensures Sub(m, m) && Sub(0, m) && Pext(0, m) == 0 && Pext(m, m) + 1 == Pow2(Count(m))
  {
    if m > 0 {
      FullAndEmpty(m / 2);
      AndSelf(m);
      assert And(0, m) == 2 * And(0, m / 2);
    }
  }

  // The value of occ after k steps of the loop.
  function Visit(m: Word, k: nat): nat
    decreases k
  {
    if k == 0 then 0 else var o := Visit(m, k - 1); if o < W64 then Next(o, m) else 0
  }

  // The loop visits Pdep(0, m), Pdep(1, m), ... : every subset of the mask exactly once and in increasing
  // order (PextPdep, PextOrder), and after 2^popcount(m) steps it is back at zero.
  lemma {:induction false} VisitNth(m: Word, k: nat)
    requires k <= Pow2(Count(m))
    ensures Sub(Visit(m, k), m) && Visit(m, k) < W64
    ensures k < Pow2(Count(m)) ==> Pext(Visit(m, k), m) == k && Visit(m, k) == Pdep(k, m)
    ensures k == Pow2(Count(m)) ==> Visit(m, k) == 0
    decreases k
  {
    hide And, Pext, Pdep, Pow2, Count, Next;
    FullAndEmpty(m);
    if k > 0 {
      VisitNth(m, k - 1);
      CarryRippler(Visit(m, k - 1), m);
      PextOrder(Visit(m, k), 0, m);
    }
    if k < Pow2(Count(m)) {
      PextPdep(k, m);
      PextOrder(Visit(m, k), Pdep(k, m), m);
    }
  }

  function Ones(w: nat, n: nat): set<nat> { set i: nat | i < n && Bit(w, i) == 1 }

  // Every member moved up by one.
  function Raised(t: set<nat>): set<nat> { set i: nat | i in t :: i + 1 }

  lemma OnesStep(w: nat, n: nat)
    requires n > 0
    ensures 0 !in Raised(Ones(w / 2, n - 1))
    ensures Ones(w, n) == Raised(Ones(w / 2, n - 1)) + if w % 2 == 1 then {0} else {}
  {
    var t := Ones(w / 2, n - 1);
    forall i: nat ensures i in Ones(w, n) <==> i in Raised(t) || (i == 0 && w % 2 == 1) {
      if i > 0 && i < n && Bit(w, i) == 1 { assert i - 1 in t; }
    }
  }

  // The number of ones is the size of the set.
  lemma {:induction false} CountIsCard(w: nat, n: nat)
    requires w < Pow2(n)
    ensures |Ones(w, n)| == Count(w) <= n
  {
    if n == 0 {
      assert Ones(w, n) == {};
    } else {
      CountIsCard(w / 2, n - 1);
      OnesStep(w, n);
      if w > 0 { CountUnfold(w); }
      hide Ones;
      RaisedCard(Ones(w / 2, n - 1));
    }
  }

  lemma {:induction false} RaisedCard(t: set<nat>)
    ensures |Raised(t)| == |t|
    decreases t
  {
    if t != {} {
      var x :| x in t;
      RaisedCard(t - {x});
      forall j: nat ensures j in Raised(t - {x}) <==> j in Raised(t) && j != x + 1 {
        if j in Raised(t) && j != x + 1 { assert j - 1 in t - {x}; }
      }
      assert Raised(t) == Raised(t - {x}) + {x + 1};
    } else {
      assert Raised(t) == {};
    }
  }
}
