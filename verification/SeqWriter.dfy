/** The sequential writer of src/seqwriter.c: strings arrive in any order of their indices and reach the file
    in increasing order without gaps. */
module SeqWriters {
  datatype SeqStr = SeqStr(idx: nat, str: string)

  // Concatenation of the strings 0..n-1.
  function Joined(pushed: map<nat, string>, n: nat): string
    requires forall i: nat :: i < n ==> i in pushed
  {
    if n == 0 then "" else Joined(pushed, n - 1) + pushed[n - 1]
  }

  predicate Prefix(pushed: map<nat, string>, n: nat) { forall i: nat :: i < n ==> i in pushed }

  // n is the first index that has not been pushed.
  predicate FirstMissing(pushed: map<nat, string>, n: nat) { Prefix(pushed, n) && n !in pushed }

  lemma FirstMissingUnique(pushed: map<nat, string>, n: nat, k: nat)
    requires FirstMissing(pushed, n) && FirstMissing(pushed, k)
    ensures n == k
  {
    assert n < k ==> n in pushed;
    assert k < n ==> k in pushed;
  }

  lemma {:induction false} JoinedExtend(a: map<nat, string>, b: map<nat, string>, n: nat)
    requires Prefix(a, n) && forall i: nat :: i < n ==> i in b && b[i] == a[i]
    ensures Joined(a, n) == Joined(b, n)
  {
    if n > 0 { JoinedExtend(a, b, n - 1); }
  }

  // Strictly increasing indices, all above `above`.
  predicate SortedAbove(q: seq<SeqStr>, above: int)
  {
    (forall i: int, j: int :: 0 <= i < j < |q| ==> q[i].idx < q[j].idx) && (forall i: int :: 0 <= i < |q| ==> q[i].idx > above)
  }

  ghost predicate InQueue(q: seq<SeqStr>, k: nat) { exists i: int :: 0 <= i < |q| && q[i].idx == k }

  // The queue holds exactly the pushed strings from index `next` on.
  ghost predicate Holds(q: seq<SeqStr>, pushed: map<nat, string>, next: nat)
  {
    (forall i: int :: 0 <= i < |q| ==> q[i].idx in pushed && pushed[q[i].idx] == q[i].str) &&
    (forall k: nat :: k in pushed && k >= next ==> InQueue(q, k))
  }

  function Inserted(q: seq<SeqStr>, i: nat, x: SeqStr): seq<SeqStr>
    requires i <= |q|
  {
    q[..i] + [x] + q[i..]
  }

  lemma InsertedAt(q: seq<SeqStr>, i: nat, x: SeqStr)
    requires i <= |q|
    ensures var r := Inserted(q, i, x);
            |r| == |q| + 1 && r[i] == x && (forall k: int :: 0 <= k < i ==> r[k] == q[k]) &&
            (forall k: int :: i < k < |r| ==> r[k] == q[k - 1])
  {}

  // Sorted insertion keeps the queue sorted and holding what was pushed.
  lemma InsertSorted(q: seq<SeqStr>, i: nat, x: SeqStr, next: nat)
    requires i <= |q| && SortedAbove(q, next) && x.idx >= next
    requires (forall k: int :: 0 <= k < i ==> q[k].idx < x.idx) && (forall k: int :: i <= k < |q| ==> q[k].idx > x.idx)
    ensures SortedAbove(Inserted(q, i, x), next - 1)
  {
    InsertedAt(q, i, x);
    hide Inserted;
  }

  lemma InsertedIs(q: seq<SeqStr>, i: nat, x: SeqStr, r: seq<SeqStr>)
    requires i <= |q|
    requires r == (q + [x])[..i] + [x] + (q + [x])[i..|q|] || (i == |q| && r == q + [x])
    ensures r == Inserted(q, i, x)
  {}

  // The new text in its place before the first larger index.
  lemma InsertKeeps(q: seq<SeqStr>, i: nat, x: SeqStr, pushed: map<nat, string>, next: nat)
    requires SortedAbove(q, next) && Holds(q, pushed, next) && FirstMissing(pushed, next) && x.idx !in pushed && i <= |q|
    requires (forall k: int :: 0 <= k < i ==> q[k].idx <= x.idx) && (i < |q| ==> q[i].idx > x.idx)
    ensures var now := pushed[x.idx := x.str];
            SortedAbove(Inserted(q, i, x), next - 1) && Holds(Inserted(q, i, x), now, next) &&
            Prefix(now, next) && Joined(now, next) == Joined(pushed, next)
  {
    assert forall k: int :: 0 <= k < |q| ==> q[k].idx in pushed;
    assert forall k: int :: i < k < |q| ==> q[i].idx < q[k].idx;
    hide Inserted, Joined, Holds;
    InsertSorted(q, i, x, next);
    InsertHolds(q, i, x, pushed, next);
    JoinedExtend(pushed, pushed[x.idx := x.str], next);
  }

  lemma InsertHolds(q: seq<SeqStr>, i: nat, x: SeqStr, pushed: map<nat, string>, next: nat)
    requires i <= |q| && Holds(q, pushed, next) && x.idx !in pushed
    ensures Holds(Inserted(q, i, x), pushed[x.idx := x.str], next)
  {
    InsertedAt(q, i, x);
    var r, now := Inserted(q, i, x), pushed[x.idx := x.str];
    hide Inserted;
    forall k: nat | k in now && k >= next ensures InQueue(r, k) {
      if k == x.idx {
        assert r[i].idx == k;
      } else {
        var j: int :| 0 <= j < |q| && q[j].idx == k;
        assert r[if j < i then j else j + 1].idx == k;
      }
    }
  }

  // The first n entries are the next n strings without a gap.
  predicate Consecutive(q: seq<SeqStr>, next: nat, n: nat)
  {
    n <= |q| && forall i: int :: 0 <= i < n ==> q[i].idx == next + i
  }

  lemma FlushSorted(q: seq<SeqStr>, next: nat, n: nat)
    requires SortedAbove(q, next - 1) && Consecutive(q, next, n) && (n < |q| ==> q[n].idx != next + n)
    ensures forall i: int :: n <= i < |q| ==> q[i].idx > next + n
    ensures SortedAbove(q[n..], next + n)
  {
    if n > 0 && n < |q| { assert q[n - 1].idx < q[n].idx; }
    assert n < |q| ==> q[n].idx > next + n;
  }

  lemma FlushHolds(q: seq<SeqStr>, pushed: map<nat, string>, next: nat, n: nat)
    requires Holds(q, pushed, next) && Consecutive(q, next, n)
    ensures Holds(q[n..], pushed, next + n)
  {
    forall k: nat | k in pushed && k >= next + n ensures InQueue(q[n..], k) {
      assert InQueue(q, k);
      var j: int :| 0 <= j < |q| && q[j].idx == k;
      assert j >= n;
      assert q[n..][j - n] == q[j];
    }
    forall i: int | 0 <= i < |q[n..]| ensures q[n..][i].idx in pushed && pushed[q[n..][i].idx] == q[n..][i].str {
      assert q[n..][i] == q[n + i];
    }
  }

  // The strings of the chunk have been pushed, and the one after it has not.
  lemma ChunkIsFirstMissing(q: seq<SeqStr>, pushed: map<nat, string>, next: nat, n: nat)
    requires Holds(q, pushed, next) && Consecutive(q, next, n)
    requires forall i: int :: n <= i < |q| ==> q[i].idx > next + n
    ensures forall i: nat :: next <= i < next + n ==> i in pushed
    ensures next + n !in pushed
  {
    forall i: nat | next <= i < next + n ensures i in pushed { assert q[i - next].idx == i; }
    assert forall j: int :: 0 <= j < |q| ==> q[j].idx != next + n;
    assert !InQueue(q, next + n);
  }

  // Writing out the longest consecutive chunk leaves the queue sorted above the new next index.
  lemma FlushKeeps(q: seq<SeqStr>, pushed: map<nat, string>, next: nat, n: nat)
    requires SortedAbove(q, next - 1) && Holds(q, pushed, next) && Consecutive(q, next, n)
    requires n < |q| ==> q[n].idx != next + n
    ensures SortedAbove(q[n..], next + n) && Holds(q[n..], pushed, next + n)
    ensures forall i: nat :: next <= i < next + n ==> i in pushed
    ensures next + n !in pushed
  {
    FlushSorted(q, next, n);
    FlushHolds(q, pushed, next, n);
    ChunkIsFirstMissing(q, pushed, next, n);
    hide *;
  }

  class SeqWriter {
    var vecQueued: seq<SeqStr>
    var out: string
    var idxNext: nat
    ghost var pushed: map<nat, string>

    // The file is the concatenation of the strings before the first missing one; the queue holds the rest.
    ghost predicate Valid()
      reads this
    {
      FirstMissing(pushed, idxNext) && out == Joined(pushed, idxNext) &&
      SortedAbove(vecQueued, idxNext) && Holds(vecQueued, pushed, idxNext)
    }

    constructor ()
      ensures Valid() && pushed == map[] && out == ""
    {
      vecQueued, out, idxNext, pushed := [], "", 0, map[];
    }

    // src/seqwriter.c:38-80
    method Push(idx: nat, str: string)
      requires Valid() && idx !in pushed
      modifies this
      ensures Valid() && pushed == old(pushed)[idx := str]
    {
      hide Holds, SortedAbove, Joined;
      Insert(idx, str);
      var n := LongestChunk();
      if n > 0 {
        Flush(n);
      } else {
        FlushKeeps(vecQueued, pushed, idxNext, 0);
        assert vecQueued[0..] == vecQueued;
      }
    }

    // src/seqwriter.c:41-52: append, then move in front of the first larger index.
    method Insert(idx: nat, str: string)
      requires Valid() && idx !in pushed
      modifies `vecQueued, `pushed
      ensures pushed == old(pushed)[idx := str] && Prefix(pushed, idxNext) && out == Joined(pushed, idxNext)
      ensures SortedAbove(vecQueued, idxNext - 1) && Holds(vecQueued, pushed, idxNext)
    {
      hide SortedAbove, Holds, Joined, Prefix, FirstMissing, Inserted;
      ghost var q := vecQueued;
      var n, x := |vecQueued|, SeqStr(idx, str);
      vecQueued := vecQueued + [x];
      var i := 0;
      while i < n
        invariant 0 <= i <= n && vecQueued == q + [x]
        invariant forall k: int :: 0 <= k < i ==> q[k].idx <= idx
      {
        if vecQueued[i].idx > idx {
          var tmp := vecQueued[n];
          vecQueued := vecQueued[..i] + [tmp] + vecQueued[i..n];
          break;
        }
        i := i + 1;
      }
      InsertedIs(q, i, x, vecQueued);
      InsertKeeps(q, i, x, pushed, idxNext);
      pushed := pushed[idx := str];
    }

    // src/seqwriter.c:55-60, with its assert.
    method LongestChunk() returns (n: nat)
      requires SortedAbove(vecQueued, idxNext - 1)
      ensures Consecutive(vecQueued, idxNext, n) && (n < |vecQueued| ==> vecQueued[n].idx != idxNext + n)
    {
      n := 0;
      while n < |vecQueued|
        invariant Consecutive(vecQueued, idxNext, n)
      {
        if vecQueued[n].idx != idxNext + n {
          assert vecQueued[n].idx > idxNext + n by {
            if n > 0 { assert vecQueued[n - 1].idx < vecQueued[n].idx; }
          }
          return;
        }
        n := n + 1;
      }
    }

    // src/seqwriter.c:64-67
    method WriteOut(n: nat)
      requires Prefix(pushed, idxNext) && out == Joined(pushed, idxNext) && Consecutive(vecQueued, idxNext, n)
      requires Holds(vecQueued, pushed, idxNext)
      modifies `out
      ensures Prefix(pushed, idxNext + n) && out == Joined(pushed, idxNext + n)
    {
      var j := 0;
      while j < n
        invariant 0 <= j <= n && Prefix(pushed, idxNext + j) && out == Joined(pushed, idxNext + j)
      {
        assert vecQueued[j].idx == idxNext + j;
        out := out + vecQueued[j].str;
        j := j + 1;
      }
    }

    // src/seqwriter.c:62-77
    method Flush(n: nat)
      requires Prefix(pushed, idxNext) && out == Joined(pushed, idxNext)
      requires SortedAbove(vecQueued, idxNext - 1) && Holds(vecQueued, pushed, idxNext)
      requires Consecutive(vecQueued, idxNext, n) && (n < |vecQueued| ==> vecQueued[n].idx != idxNext + n)
      modifies `vecQueued, `out, `idxNext
      ensures Valid()
    {
      hide SortedAbove, Holds, Joined;
      FlushKeeps(vecQueued, pushed, idxNext, n);
      WriteOut(n);
      vecQueued := vecQueued[n..];
      idxNext := idxNext + n;
    }
  }
}
