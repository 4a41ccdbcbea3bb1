/** The job queue of src/jobs.c: the schedule of a tournament and the mutex-protected operations on it. */
module Jobs {
  import opened Sequences

  datatype Pairing = Pairing(e1: int, e2: int)

  datatype Job = Job(e1: int, e2: int, pair: int, round: int, game: int, reverse: bool)

  datatype Result = Result(e1: int, e2: int, count: seq<int>)

  // ---- The schedule, declaratively -----------------------------------------------------------------------

  // The pairs (e1, e2) with e1 <= first component, in the order of the nested loops.
  function PairsFrom(e1: nat, engines: nat): seq<Pairing>
    decreases engines - e1
  {
    if e1 + 1 >= engines then [] else PairRow(e1, e1 + 1, engines) + PairsFrom(e1 + 1, engines)
  }

  function PairRow(e1: nat, e2: nat, engines: nat): seq<Pairing>
    decreases engines - e2
  {
    if e2 >= engines then [] else [Pairing(e1, e2)] + PairRow(e1, e2 + 1, engines)
  }

  // Gauntlet: engine 0 against every other; round robin: every pair.
  function Pairs(engines: nat, gauntlet: bool): seq<Pairing>
  {
    if gauntlet then PairRow(0, 1, engines) else PairsFrom(0, engines)
  }

  lemma {:induction false} PairRowHas(e1: nat, e2: nat, engines: nat, a: int, b: int)
    ensures Pairing(a, b) in PairRow(e1, e2, engines) <==> a == e1 && e2 <= b < engines
    decreases engines - e2
  {
    if e2 < engines { PairRowHas(e1, e2 + 1, engines, a, b); }
  }

  lemma {:induction false} PairsFromHas(e1: nat, engines: nat, a: int, b: int)
    ensures Pairing(a, b) in PairsFrom(e1, engines) <==> e1 <= a < b < engines
    decreases engines - e1
  {
    hide PairRow;
    if e1 + 1 < engines {
      PairRowHas(e1, e1 + 1, engines, a, b);
      PairsFromHas(e1 + 1, engines, a, b);
      assert PairsFrom(e1, engines) == PairRow(e1, e1 + 1, engines) + PairsFrom(e1 + 1, engines);
    }
  }

  // Every pairing is in the list: all pairs in a round robin, those of engine 0 in a gauntlet.
  lemma PairsHas(engines: nat, gauntlet: bool, a: int, b: int)
    ensures Pairing(a, b) in Pairs(engines, gauntlet) <==> 0 <= a < b < engines && (gauntlet ==> a == 0)
  {
    PairRowHas(0, 1, engines, a, b);
    PairsFromHas(0, engines, a, b);
  }

  lemma NoRepeatsConcat<T>(a: seq<T>, b: seq<T>)
    requires NoRepeats(a) && NoRepeats(b) && forall x :: x in a ==> x !in b
    ensures NoRepeats(a + b)
  {
    forall i: int, j: int | 0 <= i < j < |a + b| ensures (a + b)[i] != (a + b)[j] {
      if i < |a| <= j { assert (a + b)[j] == b[j - |a|] && a[i] in a; }
    }
  }

  lemma {:induction false} PairRowNoRepeats(e1: nat, e2: nat, engines: nat)
    ensures NoRepeats(PairRow(e1, e2, engines))
    decreases engines - e2
  {
    if e2 < engines {
      PairRowNoRepeats(e1, e2 + 1, engines);
      PairRowHas(e1, e2 + 1, engines, e1, e2);
      NoRepeatsConcat([Pairing(e1, e2)], PairRow(e1, e2 + 1, engines));
    }
  }

  lemma {:induction false} PairsFromNoRepeats(e1: nat, engines: nat)
    ensures NoRepeats(PairsFrom(e1, engines))
    decreases engines - e1
  {
    if e1 + 1 < engines {
      PairRowNoRepeats(e1, e1 + 1, engines);
      PairsFromNoRepeats(e1 + 1, engines);
      var row, rest := PairRow(e1, e1 + 1, engines), PairsFrom(e1 + 1, engines);
      forall x: Pairing | x in row ensures x !in rest {
        PairRowHas(e1, e1 + 1, engines, x.e1, x.e2);
        PairsFromHas(e1 + 1, engines, x.e1, x.e2);
      }
      NoRepeatsConcat(PairRow(e1, e1 + 1, engines), PairsFrom(e1 + 1, engines));
    }
  }

  // ... and is there only once.
  lemma PairsNoRepeats(engines: nat, gauntlet: bool)
    ensures NoRepeats(Pairs(engines, gauntlet))
  {
    PairRowNoRepeats(0, 1, engines);
    PairsFromNoRepeats(0, engines);
  }

  predicate Before(a: Pairing, b: Pairing) { a.e1 < b.e1 || (a.e1 == b.e1 && a.e2 < b.e2) }

  ghost predicate InOrder(pairs: seq<Pairing>) { forall i: int, j: int :: 0 <= i < j < |pairs| ==> Before(pairs[i], pairs[j]) }

  lemma InOrderConcat(a: seq<Pairing>, b: seq<Pairing>)
    requires InOrder(a) && InOrder(b) && forall x: Pairing, y: Pairing :: x in a && y in b ==> Before(x, y)
    ensures InOrder(a + b)
  {
    forall i: int, j: int | 0 <= i < j < |a + b| ensures Before((a + b)[i], (a + b)[j]) {
      if i < |a| <= j { assert (a + b)[i] in a && (a + b)[j] == b[j - |a|]; }
    }
  }

  lemma {:induction false} PairRowInOrder(e1: nat, e2: nat, engines: nat)
    ensures InOrder(PairRow(e1, e2, engines))
    decreases engines - e2
  {
    if e2 < engines {
      PairRowInOrder(e1, e2 + 1, engines);
      forall y: Pairing | y in PairRow(e1, e2 + 1, engines) ensures Before(Pairing(e1, e2), y) { PairRowHas(e1, e2 + 1, engines, y.e1, y.e2); }
      InOrderConcat([Pairing(e1, e2)], PairRow(e1, e2 + 1, engines));
    }
  }

  lemma {:induction false} PairsFromInOrder(e1: nat, engines: nat)
    ensures InOrder(PairsFrom(e1, engines))
    decreases engines - e1
  {
    hide PairRow;
    if e1 + 1 < engines {
      PairRowInOrder(e1, e1 + 1, engines);
      PairsFromInOrder(e1 + 1, engines);
      var row, rest := PairRow(e1, e1 + 1, engines), PairsFrom(e1 + 1, engines);
      forall x: Pairing, y: Pairing | x in row && y in rest ensures Before(x, y) {
        PairRowHas(e1, e1 + 1, engines, x.e1, x.e2);
        PairsFromHas(e1 + 1, engines, y.e1, y.e2);
      }
      InOrderConcat(row, rest);
    }
  }

  // Pairs come in the order of their first engine, then of their second.
  lemma PairsInOrder(engines: nat, gauntlet: bool)
    ensures InOrder(Pairs(engines, gauntlet))
  {
    PairRowInOrder(0, 1, engines);
    PairsFromInOrder(0, engines);
  }

  // Game g of pair p in round r.
  function JobOf(pairs: seq<Pairing>, games: nat, r: int, p: nat, g: int): Job
    requires p < |pairs|
  {
    Job(pairs[p].e1, pairs[p].e2, p, r, p * games + g, g % 2 == 1)
  }

  function PairJobs(pairs: seq<Pairing>, games: nat, r: int, p: nat, n: nat): seq<Job>
    requires p < |pairs|
  {
    if n == 0 then [] else PairJobs(pairs, games, r, p, n - 1) + [JobOf(pairs, games, r, p, n - 1)]
  }

  function RoundJobs(pairs: seq<Pairing>, games: nat, r: int, n: nat): seq<Job>
    requires n <= |pairs|
  {
    if n == 0 then [] else RoundJobs(pairs, games, r, n - 1) + PairJobs(pairs, games, r, n - 1, games)
  }

  function AllJobs(pairs: seq<Pairing>, games: nat, rounds: nat): seq<Job>
  {
    if rounds == 0 then [] else AllJobs(pairs, games, rounds - 1) + RoundJobs(pairs, games, rounds - 1, |pairs|)
  }

  // ---- Closed form ---------------------------------------------------------------------------------------

  lemma {:induction false} PairJobsAt(pairs: seq<Pairing>, games: nat, r: int, p: nat, n: nat)
    requires p < |pairs|
    ensures |PairJobs(pairs, games, r, p, n)| == n
    ensures forall g: int :: 0 <= g < n ==> PairJobs(pairs, games, r, p, n)[g] == JobOf(pairs, games, r, p, g)
  {
    if n > 0 { PairJobsAt(pairs, games, r, p, n - 1); }
  }

  lemma MulStep(a: int, b: int)
    ensures (a + 1) * b == a * b + b
  {}

  lemma MulMono(a: int, c: int, b: nat)
    requires a <= c
    ensures a * b <= c * b
    decreases c - a
  {
    if a < c { MulStep(c - 1, b); MulMono(a, c - 1, b); }
  }

  // Blocks of the same length, one after the other.
  lemma AppendBlock(before: seq<Job>, last: seq<Job>, blocks: nat, length: nat, r: nat, i: int)
    requires |before| == blocks * length && |last| == length
    ensures |before + last| == (blocks + 1) * length
    ensures r == blocks && 0 <= i < length ==>
              0 <= r * length + i < (blocks + 1) * length && (before + last)[r * length + i] == last[i]
    ensures r < blocks && 0 <= i < length ==>
              0 <= r * length + i < blocks * length && (before + last)[r * length + i] == before[r * length + i]
  {
    MulStep(blocks, length);
    if r < blocks && 0 <= i < length { BlockBefore(r, blocks, length, i); }
    if r == blocks { MulMono(0, r, length); }
  }

  lemma BlockBefore(r: nat, blocks: nat, length: nat, i: nat)
    requires r < blocks && i < length
    ensures 0 <= r * length + i < blocks * length
  {
    MulStep(r, length);
    MulMono(r + 1, blocks, length);
    MulMono(0, r, length);
  }

  lemma {:induction false} RoundJobsAt(pairs: seq<Pairing>, games: nat, r: int, n: nat, p: nat, g: int)
    requires n <= |pairs|
    ensures |RoundJobs(pairs, games, r, n)| == n * games
    ensures p < n && 0 <= g < games ==>
              0 <= p * games + g < n * games && RoundJobs(pairs, games, r, n)[p * games + g] == JobOf(pairs, games, r, p, g)
  {
    hide JobOf, PairJobs;
    if n > 0 {
      RoundJobsAt(pairs, games, r, n - 1, p, g);
      PairJobsAt(pairs, games, r, n - 1, games);
      AppendBlock(RoundJobs(pairs, games, r, n - 1), PairJobs(pairs, games, r, n - 1, games), n - 1, games, p, g);
    }
  }

  lemma {:induction false} AllJobsAt(pairs: seq<Pairing>, games: nat, rounds: nat, r: nat, p: nat, g: int)
    ensures |AllJobs(pairs, games, rounds)| == rounds * (|pairs| * games)
    ensures r < rounds && p < |pairs| && 0 <= g < games ==>
              0 <= r * (|pairs| * games) + (p * games + g) < rounds * (|pairs| * games) &&
              AllJobs(pairs, games, rounds)[r * (|pairs| * games) + (p * games + g)] == JobOf(pairs, games, r, p, g)
  {
    hide JobOf, RoundJobs;
    if rounds > 0 {
      AllJobsAt(pairs, games, rounds - 1, r, p, g);
      RoundJobsAt(pairs, games, rounds - 1, |pairs|, p, g);
      AppendBlock(AllJobs(pairs, games, rounds - 1), RoundJobs(pairs, games, rounds - 1, |pairs|), rounds - 1, |pairs| * games, r, p * games + g);
    }
  }

  lemma DivModUnique(x: int, m: int, q: int, g: int)
    requires m > 0 && x == q * m + g && 0 <= g < m
    ensures x / m == q && x % m == g
  {
    var q2, g2 := x / m, x % m;
    assert (q2 - q) * m == g - g2;
    if q2 > q { MulMono(1, q2 - q, m); }
    if q2 < q { MulMono(q2 - q, -1, m); }
  }

  // i counts games within pairs within rounds.
  lemma Decompose(i: nat, games: nat, n: nat, rounds: nat)
    requires i < rounds * (n * games)
    ensures games > 0 && n > 0 && 0 <= i / games / n < rounds && 0 <= i / games % n < n
    ensures i == (i / games / n) * (n * games) + ((i / games % n) * games + i % games)
  {
    PositiveProduct(rounds, n, games);
    DecomposeSum(i, games, n);
    var r, rest := i / games / n, (i / games % n) * games + i % games;
    RestNonNegative(i / games % n, games, i % games);
    QuotientsNonNegative(i, games, n);
    if r >= rounds { MulMono(rounds, r, n * games); }
  }

  lemma RestNonNegative(p: nat, games: nat, g: nat)
    ensures p * games + g >= 0
  {
    MulMono(0, p, games);
  }

  lemma QuotientsNonNegative(i: nat, games: nat, n: nat)
    requires games > 0 && n > 0
    ensures i / games >= 0 && i / games / n >= 0
  {}

  lemma DecomposeSum(i: nat, games: nat, n: nat)
    requires games > 0 && n > 0
    ensures i == (i / games / n) * (n * games) + ((i / games % n) * games + i % games)
  {
    var q := i / games;
    Distribute(q / n, n, q % n, games);
    assert q == (q / n) * n + q % n;
    assert i == q * games + i % games;
  }

  // Job i is game i mod G of pair (i / G) mod P of round i / G / P.
  lemma JobClosedForm(pairs: seq<Pairing>, games: nat, rounds: nat, i: nat)
    requires i < |AllJobs(pairs, games, rounds)|
    ensures games > 0 && |pairs| > 0 && 0 <= i / games / |pairs| < rounds
    ensures AllJobs(pairs, games, rounds)[i] == JobOf(pairs, games, i / games / |pairs|, i / games % |pairs|, i % games)
  {
    hide AllJobs, JobOf;
    AllJobsAt(pairs, games, rounds, 0, 0, 0);
    Decompose(i, games, |pairs|, rounds);
    AllJobsAt(pairs, games, rounds, i / games / |pairs|, i / games % |pairs|, i % games);
  }

  lemma Distribute(r: int, n: int, p: int, games: int)
    ensures (r * n + p) * games == r * (n * games) + p * games
  {}

  lemma PositiveProduct(a: nat, b: nat, c: nat)
    requires 0 < a * (b * c)
    ensures a > 0 && b > 0 && c > 0
  {}

  lemma EvenNext(k: nat, games: nat)
    requires games > 0 && games % 2 == 0
    ensures (2 * k + 1) / games == (2 * k) / games && (2 * k + 1) % games == (2 * k) % games + 1 && (2 * k) % games % 2 == 0
  {
    var g, q, h := (2 * k) % games, (2 * k) / games, games / 2;
    assert 2 * k == q * games + g;
    HalfProduct(q, h);
    assert g == 2 * (k - q * h);
    DivModUnique(2 * k + 1, games, q, g + 1);
  }

  lemma HalfProduct(q: int, h: int)
    ensures q * (2 * h) == 2 * (q * h)
  {}

  // With an even number of games per pair, jobs 2k and 2k + 1 are the same two engines with the first move
  // exchanged (and, under -repeat, the same opening, which is number idx / 2).
  lemma JobsComeInReversedPairs(pairs: seq<Pairing>, games: nat, rounds: nat, k: nat)
    requires games % 2 == 0 && 2 * k + 1 < |AllJobs(pairs, games, rounds)|
    ensures var a, b := AllJobs(pairs, games, rounds)[2 * k], AllJobs(pairs, games, rounds)[2 * k + 1];
            a.pair == b.pair && a.e1 == b.e1 && a.e2 == b.e2 && a.round == b.round && !a.reverse && b.reverse &&
            (2 * k) / 2 == (2 * k + 1) / 2
  {
    hide AllJobs, JobOf;
    JobClosedForm(pairs, games, rounds, 2 * k);
    JobClosedForm(pairs, games, rounds, 2 * k + 1);
    EvenNext(k, games);
    ReversedNext(pairs, games, 2 * k / games / |pairs|, 2 * k / games % |pairs|, 2 * k % games);
    SameOpening(k);
  }

  lemma ReversedNext(pairs: seq<Pairing>, games: nat, r: int, p: nat, g: int)
    requires p < |pairs| && g % 2 == 0
    ensures var a, b := JobOf(pairs, games, r, p, g), JobOf(pairs, games, r, p, g + 1);
            a.pair == b.pair && a.e1 == b.e1 && a.e2 == b.e2 && a.round == b.round && !a.reverse && b.reverse
  {}

  lemma SameOpening(k: nat)
    ensures (2 * k) / 2 == (2 * k + 1) / 2
  {}

  // A job names the engines of its pair, the round it belongs to, its number within the round, and says that the
  // second engine begins in every other game of the pair.
  lemma JobFields(pairs: seq<Pairing>, games: nat, rounds: nat, i: nat)
    requires i < |AllJobs(pairs, games, rounds)|
    ensures var j := AllJobs(pairs, games, rounds)[i];
            games > 0 && |pairs| > 0 && 0 <= j.pair < |pairs| && j.e1 == pairs[j.pair].e1 && j.e2 == pairs[j.pair].e2 &&
            i == j.round * (|pairs| * games) + j.game && j.pair * games <= j.game < j.pair * games + games &&
            j.reverse == ((j.game - j.pair * games) % 2 == 1)
  {
    hide AllJobs, JobOf;
    var r, p, g := JobPlace(pairs, games, rounds, i);
    JobOfFields(pairs, games, r, p, g);
  }

  lemma JobPlace(pairs: seq<Pairing>, games: nat, rounds: nat, i: nat) returns (r: nat, p: nat, g: nat)
    requires i < |AllJobs(pairs, games, rounds)|
    ensures games > 0 && r < rounds && p < |pairs| && g < games && i == r * (|pairs| * games) + (p * games + g)
    ensures AllJobs(pairs, games, rounds)[i] == JobOf(pairs, games, r, p, g)
  {
    hide AllJobs, JobOf;
    AllJobsAt(pairs, games, rounds, 0, 0, 0);
    JobClosedForm(pairs, games, rounds, i);
    Decompose(i, games, |pairs|, rounds);
    r, p, g := i / games / |pairs|, i / games % |pairs|, i % games;
  }

  lemma JobOfFields(pairs: seq<Pairing>, games: nat, r: int, p: nat, g: int)
    requires p < |pairs| && 0 <= g < games
    ensures var j := JobOf(pairs, games, r, p, g);
            j.pair == p && j.e1 == pairs[p].e1 && j.e2 == pairs[p].e2 && j.round == r && j.game == p * games + g &&
            j.pair * games <= j.game < j.pair * games + games && j.reverse == ((j.game - j.pair * games) % 2 == 1)
  {}

  // ---- The queue -----------------------------------------------------------------------------------------

  // What the mutex protects.
  datatype Queue = Queue(jobs: seq<Job>, idx: nat, completed: nat, results: seq<Result>)

  predicate ResultsOk(results: seq<Result>)
  {
    forall i: int :: 0 <= i < |results| ==> |results[i].count| == 3
  }

  predicate QueueOk(q: Queue)
  {
    q.idx <= |q.jobs| && ResultsOk(q.results) && forall i: int :: 0 <= i < |q.jobs| ==> 0 <= q.jobs[i].pair < |q.results|
  }

  function Popped(q: Queue): Queue
    requires q.idx < |q.jobs|
  {
    q.(idx := q.idx + 1)
  }

  function Counted(q: Queue, pair: int, outcome: int): Queue
    requires ResultsOk(q.results) && 0 <= pair < |q.results| && 0 <= outcome < 3
  {
    q.(results := q.results[pair := q.results[pair].(count := q.results[pair].count[outcome := q.results[pair].count[outcome] + 1])],
       completed := q.completed + 1)
  }

  function Stopped(q: Queue): Queue { q.(idx := |q.jobs|) }

  class JobQueue {
    var vecJobs: seq<Job>
    var vecResults: seq<Result>
    var idx: nat
    var completed: nat

    function View(): Queue
      reads this
    {
      Queue(vecJobs, idx, completed, vecResults)
    }

    // src/jobs.c:28-72
    constructor (engines: nat, rounds: nat, games: nat, gauntlet: bool)
      requires engines >= 2 && rounds >= 1 && games >= 1
      ensures var pairs := Pairs(engines, gauntlet);
              vecJobs == AllJobs(pairs, games, rounds) && |vecResults| == |pairs| && idx == 0 && completed == 0 &&
              forall p: int :: 0 <= p < |pairs| ==> vecResults[p] == Result(pairs[p].e1, pairs[p].e2, [0, 0, 0])
      ensures QueueOk(View())
      // every job is between the engines that its result is kept for
      ensures forall i: int :: 0 <= i < |vecJobs| ==>
                0 <= vecJobs[i].pair < |vecResults| && vecJobs[i].e1 == vecResults[vecJobs[i].pair].e1 && vecJobs[i].e2 == vecResults[vecJobs[i].pair].e2
    {
      vecJobs, vecResults, idx, completed := [], [], 0, 0;
      new;
      ghost var pairs := Pairs(engines, gauntlet);
      vecResults := InitResults(engines, gauntlet);
      var r := 0;
      while r < rounds
        invariant 0 <= r <= rounds && vecJobs == AllJobs(pairs, games, r)
        invariant idx == 0 && completed == 0 && ResultsFit(vecResults, pairs)
      {
        var round := InitRound(engines, games, gauntlet, r);
        vecJobs := vecJobs + round;
        r := r + 1;
      }
      JobPairs(pairs, games, rounds);
    }

    // src/jobs.c:81-93
    method Pop() returns (ok: bool, j: Job, i: nat, count: nat)
      requires QueueOk(View())
      modifies `idx
      ensures QueueOk(View())
      ensures ok <==> old(idx) < |vecJobs|
      ensures if ok then j == vecJobs[old(idx)] && i == old(idx) && count == |vecJobs| && View() == Popped(old(View()))
              else View() == old(View())
      ensures idx == if ok then old(idx) + 1 else old(idx)
    {
      ok := idx < |vecJobs|;
      j, i, count := Job(0, 0, 0, 0, 0, false), 0, 0;
      if ok {
        j := vecJobs[idx];
        i := idx;
        idx := idx + 1;
        count := |vecJobs|;
      }
    }

    // src/jobs.c:96-105
    method AddResult(pair: int, outcome: int) returns (count: seq<int>)
      requires QueueOk(View()) && 0 <= pair < |vecResults| && 0 <= outcome < 3
      modifies `vecResults, `completed
      ensures QueueOk(View())
      ensures View() == Counted(old(View()), pair, outcome) && count == vecResults[pair].count
      ensures |vecResults| == |old(vecResults)| && completed == old(completed) + 1
      ensures vecResults[pair].count[outcome] == old(vecResults[pair].count[outcome]) + 1
      ensures forall p: int, w: int :: 0 <= p < |vecResults| && 0 <= w < 3 && (p != pair || w != outcome) ==>
                vecResults[p].count[w] == old(vecResults[p].count[w])
      ensures forall p: int :: 0 <= p < |vecResults| ==> vecResults[p].e1 == old(vecResults[p].e1) && vecResults[p].e2 == old(vecResults[p].e2)
    {
      var r := vecResults[pair];
      vecResults := vecResults[pair := r.(count := r.count[outcome := r.count[outcome] + 1])];
      completed := completed + 1;
      count := vecResults[pair].count;
    }

    // src/jobs.c:107-113
    method Done() returns (done: bool)
      requires QueueOk(View())
      ensures done <==> idx == |vecJobs|
    {
      assert idx <= |vecJobs|;  // the assert of src/jobs.c:109
      done := idx == |vecJobs|;
    }

    // src/jobs.c:115-119
    method Stop()
      requires QueueOk(View())
      modifies `idx
      ensures QueueOk(View())
      ensures View() == Stopped(old(View())) && idx == |vecJobs|
    {
      idx := |vecJobs|;
    }
  }

  predicate ResultsFit(results: seq<Result>, pairs: seq<Pairing>)
  {
    |results| == |pairs| && forall p: int :: 0 <= p < |pairs| ==> results[p] == Result(pairs[p].e1, pairs[p].e2, [0, 0, 0])
  }

  lemma JobPairs(pairs: seq<Pairing>, games: nat, rounds: nat)
    ensures forall i: int :: 0 <= i < |AllJobs(pairs, games, rounds)| ==>
              var j := AllJobs(pairs, games, rounds)[i]; 0 <= j.pair < |pairs| && j.e1 == pairs[j.pair].e1 && j.e2 == pairs[j.pair].e2
  {
    hide AllJobs;
    var jobs := AllJobs(pairs, games, rounds);
    forall i: int | 0 <= i < |jobs|
      ensures 0 <= jobs[i].pair < |pairs| && jobs[i].e1 == pairs[jobs[i].pair].e1 && jobs[i].e2 == pairs[jobs[i].pair].e2
    {
      JobFields(pairs, games, rounds, i);
    }
  }

  // The pairs still to come after (e1, e2) in the nested loops, (e1, e2) included.
  function RestOfPairs(e1: nat, e2: nat, engines: nat): seq<Pairing> { PairRow(e1, e2, engines) + PairsFrom(e1 + 1, engines) }

  lemma FitPush(results: seq<Result>, done: seq<Pairing>, e1: int, e2: int)
    requires ResultsFit(results, done)
    ensures ResultsFit(results + [Result(e1, e2, [0, 0, 0])], done + [Pairing(e1, e2)])
  {}

  // The results of job_queue_init, in the order of its loops (src/jobs.c:39-44 and 54-58).
  method InitResults(engines: nat, gauntlet: bool) returns (results: seq<Result>)
    requires engines >= 2
    ensures ResultsFit(results, Pairs(engines, gauntlet))
  {
    if gauntlet {
      results := InitResultsGauntlet(engines);
    } else {
      results := InitResultsAll(engines);
    }
  }

  method InitResultsGauntlet(engines: nat) returns (results: seq<Result>)
    requires engines >= 2
    ensures ResultsFit(results, PairRow(0, 1, engines))
  {
    hide *;
    results := [];
    ghost var done: seq<Pairing> := [];
    FitNone();
    var e2 := 1;
    while e2 < engines
      invariant 1 <= e2 <= engines && done + PairRow(0, e2, engines) == PairRow(0, 1, engines) && ResultsFit(results, done)
    {
      PairRowNext(0, e2, engines);
      FitPush(results, done, 0, e2);
      results := results + [Result(0, e2, [0, 0, 0])];
      done := done + [Pairing(0, e2)];
      e2 := e2 + 1;
    }
    PairRowEnd(0, engines);
    assert done + [] == done;
  }

  method InitResultsAll(engines: nat) returns (results: seq<Result>)
    requires engines >= 2
    ensures ResultsFit(results, PairsFrom(0, engines))
  {
    hide *;
    results := [];
    ghost var done: seq<Pairing> := [];
    FitNone();
    var e1 := 0;
    while e1 < engines - 1
      invariant 0 <= e1 <= engines - 1 && done + PairsFrom(e1, engines) == PairsFrom(0, engines) && ResultsFit(results, done)
    {
      var e2 := e1 + 1;
      RestOver(e1, engines);
      while e2 < engines
        invariant e1 < e2 <= engines && done + RestOfPairs(e1, e2, engines) == PairsFrom(0, engines) && ResultsFit(results, done)
      {
        RestNext(e1, e2, engines);
        FitPush(results, done, e1, e2);
        results := results + [Result(e1, e2, [0, 0, 0])];
        done := done + [Pairing(e1, e2)];
        e2 := e2 + 1;
      }
      e1 := e1 + 1;
    }
    RestOver(e1, engines);
    assert done + [] == done;
  }

  lemma FitNone()
    ensures ResultsFit([], [])
  {}

  // Games of a round before those of pair number `pair`.
  function Offset(pair: nat, games: nat): int { pair * games }

  // src/jobs.c:20-26
  method InitPair(games: nat, e1: nat, e2: nat, pair: nat, added: int, round: int, jobs: seq<Job>, ghost pairs: seq<Pairing>)
    returns (jobs': seq<Job>, added': int)
    requires pair < |pairs| && pairs[pair] == Pairing(e1, e2) && added == Offset(pair, games)
    ensures jobs' == jobs + PairJobs(pairs, games, round, pair, games) && added' == Offset(pair + 1, games)
  {
    jobs', added' := jobs, added;
    var g := 0;
    while g < games
      invariant 0 <= g <= games && jobs' == jobs + PairJobs(pairs, games, round, pair, g) && added' == pair * games + g
    {
      jobs' := jobs' + [Job(e1, e2, pair, round, added', g % 2 == 1)];
      added' := added' + 1;
      g := g + 1;
    }
    MulStep(pair, games);
  }

  // One round of job_queue_init: the body of the loop over r (src/jobs.c:47-52 and 60-67).
  method InitRound(engines: nat, games: nat, gauntlet: bool, round: int) returns (jobs: seq<Job>)
    requires engines >= 2
    ensures jobs == RoundJobs(Pairs(engines, gauntlet), games, round, |Pairs(engines, gauntlet)|)
  {
    if gauntlet {
      jobs := InitRoundGauntlet(engines, games, round);
    } else {
      jobs := InitRoundAll(engines, games, round);
    }
  }

  // The jobs pushed so far in a round are those of the pairs `done`; `rest` is still to come.
  ghost predicate RoundSoFar(pairs: seq<Pairing>, done: seq<Pairing>, rest: seq<Pairing>, games: nat, round: int, jobs: seq<Job>, added: int)
  {
    done + rest == pairs && jobs == RoundJobs(pairs, games, round, |done|) && added == Offset(|done|, games)
  }

  // Playing the pair that comes next extends the round by its games.
  method InitNextPair(games: nat, e1: nat, e2: nat, pair: nat, added: int, round: int, jobs: seq<Job>,
                      ghost pairs: seq<Pairing>, ghost done: seq<Pairing>, ghost rest: seq<Pairing>)
    returns (jobs': seq<Job>, added': int)
    requires RoundSoFar(pairs, done, [Pairing(e1, e2)] + rest, games, round, jobs, added) && pair == |done|
    ensures RoundSoFar(pairs, done + [Pairing(e1, e2)], rest, games, round, jobs', added')
  {
    assert done + [Pairing(e1, e2)] + rest == done + ([Pairing(e1, e2)] + rest);
    assert pairs[pair] == (done + [Pairing(e1, e2)] + rest)[pair];
    jobs', added' := InitPair(games, e1, e2, pair, added, round, jobs, pairs);
  }

  lemma RoundDone(pairs: seq<Pairing>, done: seq<Pairing>, games: nat, round: int, jobs: seq<Job>, added: int)
    requires RoundSoFar(pairs, done, [], games, round, jobs, added)
    ensures jobs == RoundJobs(pairs, games, round, |pairs|)
  {
    assert done == pairs;
  }

  lemma RoundStart(pairs: seq<Pairing>, games: nat, round: int)
    ensures RoundSoFar(pairs, [], pairs, games, round, [], 0)
  {
    assert [] + pairs == pairs;
  }

  lemma PairRowEnd(e1: nat, engines: nat)
    ensures PairRow(e1, engines, engines) == []
  {}

  lemma PairRowNext(e1: nat, e2: nat, engines: nat)
    requires e2 < engines
    ensures PairRow(e1, e2, engines) == [Pairing(e1, e2)] + PairRow(e1, e2 + 1, engines)
  {}

  lemma RestNext(e1: nat, e2: nat, engines: nat)
    requires e2 < engines
    ensures RestOfPairs(e1, e2, engines) == [Pairing(e1, e2)] + RestOfPairs(e1, e2 + 1, engines)
  {
    PairRowNext(e1, e2, engines);
  }

  lemma RestOver(e1: nat, engines: nat)
    ensures RestOfPairs(e1, engines, engines) == PairsFrom(e1 + 1, engines)
    ensures e1 + 1 < engines ==> PairsFrom(e1, engines) == RestOfPairs(e1, e1 + 1, engines)
    ensures engines >= 1 ==> PairsFrom(engines - 1, engines) == []
  {
    PairRowEnd(e1, engines);
  }

  method InitRoundGauntlet(engines: nat, games: nat, round: int) returns (jobs: seq<Job>)
    requires engines >= 2
    ensures jobs == RoundJobs(PairRow(0, 1, engines), games, round, |PairRow(0, 1, engines)|)
  {
    hide *;
    jobs := [];
    var added := 0;
    ghost var pairs := PairRow(0, 1, engines);
    ghost var done: seq<Pairing> := [];
    RoundStart(pairs, games, round);
    var e2 := 1;
    while e2 < engines
      invariant 1 <= e2 <= engines && |done| == e2 - 1
      invariant RoundSoFar(pairs, done, PairRow(0, e2, engines), games, round, jobs, added)
    {
      PairRowNext(0, e2, engines);
      jobs, added := InitNextPair(games, 0, e2, e2 - 1, added, round, jobs, pairs, done, PairRow(0, e2 + 1, engines));
      done := done + [Pairing(0, e2)];
      e2 := e2 + 1;
    }
    PairRowEnd(0, engines);
    RoundDone(pairs, done, games, round, jobs, added);
  }

  method InitRoundAll(engines: nat, games: nat, round: int) returns (jobs: seq<Job>)
    requires engines >= 2
    ensures jobs == RoundJobs(PairsFrom(0, engines), games, round, |PairsFrom(0, engines)|)
  {
    hide *;
    jobs := [];
    var pair, added := 0, 0;
    ghost var pairs := PairsFrom(0, engines);
    ghost var done: seq<Pairing> := [];
    RoundStart(pairs, games, round);
    var e1 := 0;
    while e1 < engines - 1
      invariant 0 <= e1 <= engines - 1 && pair == |done|
      invariant RoundSoFar(pairs, done, PairsFrom(e1, engines), games, round, jobs, added)
    {
      var e2 := e1 + 1;
      RestOver(e1, engines);
      while e2 < engines
        invariant e1 < e2 <= engines && pair == |done|
        invariant RoundSoFar(pairs, done, RestOfPairs(e1, e2, engines), games, round, jobs, added)
      {
        RestNext(e1, e2, engines);
        jobs, added := InitNextPair(games, e1, e2, pair, added, round, jobs, pairs, done, RestOfPairs(e1, e2 + 1, engines));
        done := done + [Pairing(e1, e2)];
        pair := pair + 1;
        e2 := e2 + 1;
      }
      e1 := e1 + 1;
    }
    RestOver(e1, engines);
    RoundDone(pairs, done, games, round, jobs, added);
  }
}
