/** The workers of src/main.c:83-175 over the shared job queue and PGN writer: every interleaving of their
    mutex-protected steps, with any stop event, keeps the games in order and loses none. */
module Tournament {
  import opened Jobs
  import opened SeqWriters

  // Where a worker is in its loop: about to pop; with a job popped and not yet written; written and not yet
  // counted; counted, about to decide whether to stop the tournament; out of the loop.
  datatype Worker = Idle | Playing(idx: nat) | Written(idx: nat) | Reported | Finished

  // What SeqWriter promises about its fields after each Push.
  datatype Writer = Writer(pushed: map<nat, string>, out: string, idxNext: nat)

  ghost predicate WriterOk(w: Writer)
  {
    FirstMissing(w.pushed, w.idxNext) && w.out == Joined(w.pushed, w.idxNext)
  }

  // popped counts successful pops, counted holds the jobs whose result has been added, and outcomes what it was:
  // history only.
  datatype State = State(q: Queue, workers: seq<Worker>, w: Writer, popped: nat, counted: set<nat>, outcomes: map<nat, int>, stopped: bool)

  // Either the PGN file is written (pgn) or not.
  datatype Config = Config(pgn: bool)

  ghost predicate Init(s: State)
  {
    QueueOk(s.q) && s.q.idx == 0 && s.q.completed == 0 && (forall p: int :: 0 <= p < |s.q.results| ==> s.q.results[p].count == [0, 0, 0]) &&
    (forall v: int :: 0 <= v < |s.workers| ==> s.workers[v] == Idle) &&
    s.w == Writer(map[], "", 0) && s.popped == 0 && s.counted == {} && s.outcomes == map[] && !s.stopped
  }

  predicate At(s: State, v: int, x: Worker) { 0 <= v < |s.workers| && s.workers[v] == x }

  function Goto(s: State, v: int, x: Worker): State
    requires 0 <= v < |s.workers|
  {
    s.(workers := s.workers[v := x])
  }

  // main.c:94: job_queue_pop.
  predicate PopStep(s: State, s': State, v: int)
  {
    At(s, v, Idle) &&
    if s.q.idx < |s.q.jobs| then s' == Goto(s, v, Playing(s.q.idx)).(q := Popped(s.q), popped := s.popped + 1)
    else s' == Goto(s, v, Finished)
  }

  // main.c:131-138: the game is played and its text handed to the writer.
  ghost predicate WriteStep(c: Config, s: State, s': State, v: int, text: string)
  {
    0 <= v < |s.workers| && s.workers[v].Playing? &&
    s' == Goto(s, v, Written(s.workers[v].idx)).(w := s'.w) &&
    if c.pgn then s'.w.pushed == s.w.pushed[s.workers[v].idx := text] && WriterOk(s'.w) else s'.w == s.w
  }

  // main.c:154: job_queue_add_result.
  predicate CountStep(s: State, s': State, v: int, outcome: int)
  {
    QueueOk(s.q) && 0 <= v < |s.workers| && s.workers[v].Written? && s.workers[v].idx < |s.q.jobs| && 0 <= outcome < 3 &&
    s' == Goto(s, v, Reported).(q := Counted(s.q, s.q.jobs[s.workers[v].idx].pair, outcome), counted := s.counted + {s.workers[v].idx},
                                outcomes := s.outcomes[s.workers[v].idx := outcome])
  }

  // main.c:161-162: SPRT may stop the tournament.
  predicate DecideStep(s: State, s': State, v: int, stop: bool)
  {
    At(s, v, Reported) &&
    s' == (if stop then Goto(s, v, Idle).(q := Stopped(s.q), stopped := true) else Goto(s, v, Idle))
  }

  ghost predicate Step(c: Config, s: State, s': State)
  {
    (exists v: int :: PopStep(s, s', v)) || (exists v: int, text: string :: WriteStep(c, s, s', v, text)) ||
    (exists v: int, outcome: int :: CountStep(s, s', v, outcome)) || (exists v: int, stop: bool :: DecideStep(s, s', v, stop))
  }

  ghost predicate Run(c: Config, run: seq<State>)
  {
    |run| > 0 && Init(run[0]) && forall i: int :: 0 < i < |run| ==> Step(c, run[i - 1], run[i])
  }

  // ---- The invariant -------------------------------------------------------------------------------------

  predicate Busy(x: Worker, i: nat) { x == Playing(i) || x == Written(i) }

  // Popped jobs are 0..popped-1, each held by at most one worker.
  ghost predicate PoppedOnce(s: State)
  {
    s.popped <= s.q.idx && (s.q.idx == s.popped || (s.stopped && s.q.idx == |s.q.jobs|)) &&
    (forall v: int :: 0 <= v < |s.workers| && (s.workers[v].Playing? || s.workers[v].Written?) ==> s.workers[v].idx < s.popped) &&
    (forall v: int, u: int :: 0 <= v < u < |s.workers| && (s.workers[v].Playing? || s.workers[v].Written?) ==> !Busy(s.workers[u], s.workers[v].idx))
  }

  ghost predicate BeingPlayed(s: State, i: nat) { exists v: int :: At(s, v, Playing(i)) }

  ghost predicate BeingCounted(s: State, i: nat) { exists v: int :: At(s, v, Written(i)) }

  // What has been written and counted is what has been popped, less what workers still hold.
  ghost predicate NothingLost(c: Config, s: State)
  {
    (c.pgn ==> forall i: nat :: i in s.w.pushed <==> i < s.popped && !BeingPlayed(s, i)) &&
    (!c.pgn ==> s.w == Writer(map[], "", 0)) &&
    (forall i: nat :: i in s.counted <==> i < s.popped && !BeingPlayed(s, i) && !BeingCounted(s, i))
  }

  function GamesOfPair(s: State, p: int): set<nat> { set i | i in s.counted && i < |s.q.jobs| && s.q.jobs[i].pair == p }

  function Total(r: Result): int
    requires |r.count| == 3
  {
    r.count[0] + r.count[1] + r.count[2]
  }

  // The result counts of each pair add up to its games counted, and `completed` to all of them.
  ghost predicate CountsAddUp(s: State)
  {
    QueueOk(s.q) && s.q.completed == |s.counted| && (forall i: nat :: i in s.counted ==> i < |s.q.jobs|) &&
    forall p: int :: 0 <= p < |s.q.results| ==> Total(s.q.results[p]) == |GamesOfPair(s, p)|
  }

  ghost predicate FinishedMeansEmpty(s: State)
  {
    forall v: int :: At(s, v, Finished) ==> s.q.idx == |s.q.jobs|
  }

  ghost predicate Inv(c: Config, s: State)
  {
    PoppedOnce(s) && NothingLost(c, s) && CountsAddUp(s) && WriterOk(s.w) && FinishedMeansEmpty(s)
  }

  lemma InitInv(c: Config, s: State)
    requires Init(s)
    ensures Inv(c, s)
  {
    forall p: int | 0 <= p < |s.q.results| ensures Total(s.q.results[p]) == |GamesOfPair(s, p)| {
      assert GamesOfPair(s, p) == {};
    }
  }

  // ---- Every step keeps it -------------------------------------------------------------------------------

  lemma PopKeeps(c: Config, s: State, s': State, v: int)
    requires Inv(c, s) && PopStep(s, s', v)
    ensures Inv(c, s')
  {
    hide WriterOk;
    if s.q.idx < |s.q.jobs| {
      PopKeepsOnce(s, s', v);
      PopKeepsSets(c, s, s', v);
      SameCounts(s, s');
      NobodyFinished(s, s', v, Playing(s.q.idx));
    } else {
      LeaveKeeps(c, s, s', v);
      SameCounts(s, s');
    }
  }

  lemma PopKeepsOnce(s: State, s': State, v: int)
    requires PoppedOnce(s) && PopStep(s, s', v) && s.q.idx < |s.q.jobs|
    ensures PoppedOnce(s') && s.q.idx == s.popped
  {}

  lemma PopKeepsSets(c: Config, s: State, s': State, v: int)
    requires PoppedOnce(s) && NothingLost(c, s) && PopStep(s, s', v) && s.q.idx < |s.q.jobs|
    ensures NothingLost(c, s')
  {
    hide WriterOk, QueueOk;
    forall i: nat
      ensures BeingPlayed(s', i) <==> BeingPlayed(s, i) || i == s.popped
      ensures BeingCounted(s', i) <==> BeingCounted(s, i)
    {
      MovedWorker(s, s', v, Playing(s.popped), i);
      if i == s.popped { assert At(s', v, Playing(i)); }
    }
  }

  // Moving worker v from a place where it holds nothing to x.
  lemma MovedWorker(s: State, s': State, v: int, x: Worker, i: nat)
    requires 0 <= v < |s.workers| && s'.workers == s.workers[v := x]
    ensures BeingPlayed(s', i) <==> x == Playing(i) || exists u: int :: u != v && At(s, u, Playing(i))
    ensures BeingCounted(s', i) <==> x == Written(i) || exists u: int :: u != v && At(s, u, Written(i))
  {
    if u: int :| At(s', u, Playing(i)) { assert u != v ==> At(s, u, Playing(i)); }
    if u: int :| At(s', u, Written(i)) { assert u != v ==> At(s, u, Written(i)); }
    if u: int :| u != v && At(s, u, Playing(i)) { assert At(s', u, Playing(i)); }
    if u: int :| u != v && At(s, u, Written(i)) { assert At(s', u, Written(i)); }
    if x == Playing(i) { assert At(s', v, Playing(i)); }
    if x == Written(i) { assert At(s', v, Written(i)); }
  }

  lemma LeaveKeeps(c: Config, s: State, s': State, v: int)
    requires PoppedOnce(s) && NothingLost(c, s) && FinishedMeansEmpty(s) && QueueOk(s.q) && PopStep(s, s', v) && s.q.idx >= |s.q.jobs|
    ensures PoppedOnce(s') && NothingLost(c, s') && FinishedMeansEmpty(s')
  {
    forall i: nat
      ensures BeingPlayed(s', i) <==> BeingPlayed(s, i)
      ensures BeingCounted(s', i) <==> BeingCounted(s, i)
    {
      MovedWorker(s, s', v, Finished, i);
    }
    forall u: int | At(s', u, Finished) ensures s'.q.idx == |s'.q.jobs| { assert u != v ==> At(s, u, Finished); }
  }

  lemma SameCounts(s: State, s': State)
    requires CountsAddUp(s) && QueueOk(s'.q)
    requires s'.counted == s.counted && s'.q.jobs == s.q.jobs && s'.q.results == s.q.results && s'.q.completed == s.q.completed
    ensures CountsAddUp(s')
  {
    forall p: int | 0 <= p < |s.q.results| ensures Total(s'.q.results[p]) == |GamesOfPair(s', p)| {
      assert GamesOfPair(s', p) == GamesOfPair(s, p);
    }
  }

  lemma NobodyFinished(s: State, s': State, v: int, x: Worker)
    requires FinishedMeansEmpty(s) && s.q.idx != |s.q.jobs| && 0 <= v < |s.workers| && s'.workers == s.workers[v := x] && x != Finished
    ensures forall u: int :: !At(s', u, Finished)
  {
    forall u: int ensures !At(s', u, Finished) { assert !At(s, u, Finished); }
  }

  lemma StillFinished(s: State, s': State, v: int, x: Worker)
    requires FinishedMeansEmpty(s) && 0 <= v < |s.workers| && s'.workers == s.workers[v := x] && x != Finished
    requires s'.q.jobs == s.q.jobs && (s'.q.idx == s.q.idx || s'.q.idx == |s.q.jobs|)
    ensures FinishedMeansEmpty(s')
  {
    forall u: int | At(s', u, Finished) ensures s'.q.idx == |s'.q.jobs| { assert At(s, u, Finished); }
  }

  // A busy worker is the only one with its job.
  lemma OnlyHolder(s: State, v: int, i: nat)
    requires PoppedOnce(s) && 0 <= v < |s.workers| && Busy(s.workers[v], i)
    ensures forall u: int :: u != v ==> !At(s, u, Playing(i)) && !At(s, u, Written(i))
    ensures i < s.popped
  {
    forall u: int | u != v && 0 <= u < |s.workers| ensures !Busy(s.workers[u], i) {
      assert s.workers[v].idx == i;
      assert u < v && (s.workers[u].Playing? || s.workers[u].Written?) ==> !Busy(s.workers[v], s.workers[u].idx);
    }
  }

  lemma WriteKeeps(c: Config, s: State, s': State, v: int, text: string)
    requires Inv(c, s) && WriteStep(c, s, s', v, text)
    ensures Inv(c, s')
  {
    hide WriterOk, QueueOk;
    var i := s.workers[v].idx;
    OnlyHolder(s, v, i);
    assert At(s, v, Playing(i));
    forall k: nat
      ensures BeingPlayed(s', k) <==> BeingPlayed(s, k) && k != i
      ensures BeingCounted(s', k) <==> BeingCounted(s, k) || k == i
    {
      MovedWorker(s, s', v, Written(i), k);
      MovedWorker(s, s, v, Playing(i), k);
    }
    SameCounts(s, s');
    StillFinished(s, s', v, Written(i));
    WriteKeepsOnce(s, s', v);
  }

  lemma WriteKeepsOnce(s: State, s': State, v: int)
    requires PoppedOnce(s) && 0 <= v < |s.workers| && s.workers[v].Playing?
    requires s'.workers == s.workers[v := Written(s.workers[v].idx)] && s'.q == s.q && s'.popped == s.popped && s'.stopped == s.stopped
    ensures PoppedOnce(s')
  {
    forall a: int, u: int | 0 <= a < u < |s'.workers| && (s'.workers[a].Playing? || s'.workers[a].Written?)
      ensures !Busy(s'.workers[u], s'.workers[a].idx)
    {
      assert !Busy(s.workers[u], s.workers[a].idx);
    }
  }

  lemma CountKeeps(c: Config, s: State, s': State, v: int, outcome: int)
    requires Inv(c, s) && CountStep(s, s', v, outcome)
    ensures Inv(c, s')
  {
    hide WriterOk, QueueOk, CountsAddUp;
    var i := s.workers[v].idx;
    OnlyHolder(s, v, i);
    assert At(s, v, Written(i));
    forall k: nat
      ensures BeingPlayed(s', k) <==> BeingPlayed(s, k)
      ensures BeingCounted(s', k) <==> BeingCounted(s, k) && k != i
    {
      MovedWorker(s, s', v, Reported, k);
      MovedWorker(s, s, v, Written(i), k);
    }
    assert BeingCounted(s, i);
    CountKeepsCounts(s, s', v, outcome);
    StillFinished(s, s', v, Reported);
    CountKeepsOnce(s, s', v);
  }

  lemma CountKeepsOnce(s: State, s': State, v: int)
    requires PoppedOnce(s) && 0 <= v < |s.workers|
    requires s'.workers == s.workers[v := Reported] || s'.workers == s.workers[v := Idle]
    requires s'.q.jobs == s.q.jobs && s'.popped == s.popped && (s.stopped ==> s'.stopped)
    requires s'.q.idx == s.q.idx || (s'.q.idx == |s.q.jobs| && s.q.idx <= |s.q.jobs| && s'.stopped)
    ensures PoppedOnce(s')
  {
    forall a: int, u: int | 0 <= a < u < |s'.workers| && (s'.workers[a].Playing? || s'.workers[a].Written?)
      ensures !Busy(s'.workers[u], s'.workers[a].idx)
    {
      assert !Busy(s.workers[u], s.workers[a].idx);
    }
  }

  lemma TotalUp(r: Result, outcome: int)
    requires |r.count| == 3 && 0 <= outcome < 3
    ensures Total(r.(count := r.count[outcome := r.count[outcome] + 1])) == Total(r) + 1
  {}

  lemma CountKeepsCounts(s: State, s': State, v: int, outcome: int)
    requires CountsAddUp(s) && CountStep(s, s', v, outcome) && s.workers[v].idx !in s.counted
    ensures CountsAddUp(s')
  {
    var i := s.workers[v].idx;
    var pair := s.q.jobs[i].pair;
    TotalUp(s.q.results[pair], outcome);
    forall p: int | 0 <= p < |s'.q.results| ensures Total(s'.q.results[p]) == |GamesOfPair(s', p)| {
      if p == pair {
        assert GamesOfPair(s', p) == GamesOfPair(s, p) + {i};
      } else {
        assert GamesOfPair(s', p) == GamesOfPair(s, p);
      }
    }
  }

  lemma DecideKeeps(c: Config, s: State, s': State, v: int, stop: bool)
    requires Inv(c, s) && DecideStep(s, s', v, stop)
    ensures Inv(c, s')
  {
    hide WriterOk;
    forall k: nat
      ensures BeingPlayed(s', k) <==> BeingPlayed(s, k)
      ensures BeingCounted(s', k) <==> BeingCounted(s, k)
    {
      MovedWorker(s, s', v, Idle, k);
    }
    SameCounts(s, s');
    StillFinished(s, s', v, Idle);
    CountKeepsOnce(s, s', v);
  }

  lemma StepKeeps(c: Config, s: State, s': State)
    requires Inv(c, s) && Step(c, s, s')
    ensures Inv(c, s')
  {
    hide Inv, PopStep, WriteStep, CountStep, DecideStep;
    if v: int :| PopStep(s, s', v) {
      PopKeeps(c, s, s', v);
    } else if v: int, text: string :| WriteStep(c, s, s', v, text) {
      WriteKeeps(c, s, s', v, text);
    } else if v: int, outcome: int :| CountStep(s, s', v, outcome) {
      CountKeeps(c, s, s', v, outcome);
    } else {
      var v: int, stop: bool :| DecideStep(s, s', v, stop);
      DecideKeeps(c, s, s', v, stop);
    }
  }

  // ---- Over every run ------------------------------------------------------------------------------------

  lemma {:induction false} RunInv(c: Config, run: seq<State>, i: nat)
    requires Run(c, run) && i < |run|
    ensures Inv(c, run[i])
  {
    hide Inv, Init, Step;
    if i == 0 {
      InitInv(c, run[0]);
    } else {
      RunInv(c, run, i - 1);
      StepKeeps(c, run[i - 1], run[i]);
    }
  }

  // At all times the file is the concatenation of the games 0..idxNext-1 in order, all of them popped.
  lemma FileInOrder(c: Config, run: seq<State>, i: nat)
    requires Run(c, run) && i < |run|
    ensures var w := run[i].w; Prefix(w.pushed, w.idxNext) && w.out == Joined(w.pushed, w.idxNext) && w.idxNext <= run[i].popped
  {
    RunInv(c, run, i);
    var s := run[i];
    assert c.pgn && s.w.idxNext > s.popped ==> s.popped in s.w.pushed;
  }

  lemma {:induction false} JoinedGrows(a: map<nat, string>, n: nat, k: nat)
    requires Prefix(a, k) && n <= k
    ensures Joined(a, n) <= Joined(a, k)
  {
    if n < k { JoinedGrows(a, n, k - 1); }
  }

  // The file only ever grows at its end.
  lemma FileAppends(c: Config, s: State, s': State)
    requires Inv(c, s) && Step(c, s, s')
    ensures s.w.out <= s'.w.out
  {
    hide Inv, PopStep, CountStep, DecideStep, Joined;
    if v: int, text: string :| WriteStep(c, s, s', v, text) && c.pgn {
      var i := s.workers[v].idx;
      NotYetPushed(c, s, v);
      var a, b := s.w, s'.w;
      InvWriter(c, s);
      assert b.idxNext < a.idxNext ==> b.idxNext in b.pushed;
      JoinedExtend(a.pushed, b.pushed, a.idxNext);
      JoinedGrows(b.pushed, a.idxNext, b.idxNext);
    } else {
      StepKeepsWriter(c, s, s');
    }
  }

  lemma InvWriter(c: Config, s: State)
    requires Inv(c, s)
    ensures WriterOk(s.w)
  {}

  lemma NotYetPushed(c: Config, s: State, v: int)
    requires Inv(c, s) && c.pgn && 0 <= v < |s.workers| && s.workers[v].Playing?
    ensures s.workers[v].idx !in s.w.pushed
  {
    hide WriterOk, CountsAddUp;
    assert At(s, v, Playing(s.workers[v].idx));
  }

  lemma StepKeepsWriter(c: Config, s: State, s': State)
    requires Step(c, s, s') && forall v: int, text: string :: c.pgn ==> !WriteStep(c, s, s', v, text)
    ensures s'.w == s.w
  {}

  function Upto(n: nat): set<nat> { if n == 0 then {} else Upto(n - 1) + {n - 1} }

  lemma {:induction false} UptoIs(n: nat)
    ensures |Upto(n)| == n && forall k: nat :: k in Upto(n) <==> k < n
  {
    if n > 0 { UptoIs(n - 1); }
  }

  // ---- Results -------------------------------------------------------------------------------------------

  // All result counts of the first n pairs.
  function SumTotals(results: seq<Result>, n: nat): int
    requires ResultsOk(results) && n <= |results|
  {
    if n == 0 then 0 else SumTotals(results, n - 1) + Total(results[n - 1])
  }

  function GamesBelow(s: State, n: nat): set<nat> { set i | i in s.counted && i < |s.q.jobs| && s.q.jobs[i].pair < n }

  lemma {:induction false} SumIsGames(s: State, n: nat)
    requires CountsAddUp(s) && n <= |s.q.results|
    ensures SumTotals(s.q.results, n) == |GamesBelow(s, n)|
  {
    if n == 0 {
      assert GamesBelow(s, 0) == {};
    } else {
      SumIsGames(s, n - 1);
      assert GamesBelow(s, n) == GamesBelow(s, n - 1) + GamesOfPair(s, n - 1);
      assert GamesBelow(s, n - 1) !! GamesOfPair(s, n - 1);
    }
  }

  // In every state of every run the result counts of all pairs sum to `completed`.
  lemma ResultsSumToCompleted(c: Config, run: seq<State>, i: nat)
    requires Run(c, run) && i < |run|
    ensures ResultsOk(run[i].q.results) && SumTotals(run[i].q.results, |run[i].q.results|) == run[i].q.completed
  {
    hide PoppedOnce, NothingLost, WriterOk, FinishedMeansEmpty, Run;
    RunInv(c, run, i);
    var s := run[i];
    SumIsGames(s, |s.q.results|);
    assert GamesBelow(s, |s.q.results|) == s.counted;
  }

  // The popped games of one pair.
  function PoppedOf(s: State, p: int): set<nat> { set i | i in Upto(s.popped) && i < |s.q.jobs| && s.q.jobs[i].pair == p }

  // The games counted of pair p that ended with the given outcome.
  function GamesWith(s: State, p: int, outcome: int): set<nat>
  {
    set i | i in s.outcomes && i < |s.q.jobs| && s.q.jobs[i].pair == p && s.outcomes[i] == outcome
  }

  // Each count of each pair is the number of its games with that outcome.
  ghost predicate OutcomesCounted(s: State)
  {
    s.outcomes.Keys == s.counted && ResultsOk(s.q.results) &&
    forall p: int, outcome: int :: 0 <= p < |s.q.results| && 0 <= outcome < 3 ==> s.q.results[p].count[outcome] == |GamesWith(s, p, outcome)|
  }

  lemma InitOutcomes(s: State)
    requires Init(s)
    ensures OutcomesCounted(s)
  {
    forall p: int, outcome: int | 0 <= p < |s.q.results| && 0 <= outcome < 3
      ensures s.q.results[p].count[outcome] == |GamesWith(s, p, outcome)|
    {
      assert GamesWith(s, p, outcome) == {};
      assert s.q.results[p].count == [0, 0, 0];
    }
  }

  lemma CountedAt(q: Queue, pair: int, outcome: int, p: int, o: int)
    requires ResultsOk(q.results) && 0 <= pair < |q.results| && 0 <= outcome < 3 && 0 <= p < |q.results| && 0 <= o < 3
    ensures var r := Counted(q, pair, outcome).results;
            ResultsOk(r) && |r| == |q.results| && r[p].count[o] == q.results[p].count[o] + (if p == pair && o == outcome then 1 else 0)
  {}

  lemma InGamesWith(s: State, p: int, o: int, k: nat)
    ensures k in GamesWith(s, p, o) <==> k in s.outcomes && k < |s.q.jobs| && s.q.jobs[k].pair == p && s.outcomes[k] == o
  {}

  lemma GamesWithOneMore(s: State, s': State, i: nat, outcome: int, p: int, o: int)
    requires i !in s.outcomes && s'.outcomes == s.outcomes[i := outcome] && s'.q.jobs == s.q.jobs && i < |s.q.jobs|
    ensures |GamesWith(s', p, o)| == |GamesWith(s, p, o)| + (if p == s.q.jobs[i].pair && o == outcome then 1 else 0)
  {
    hide GamesWith;
    var here := if p == s.q.jobs[i].pair && o == outcome then {i} else {};
    forall k: nat ensures k in GamesWith(s', p, o) <==> k in GamesWith(s, p, o) || k in here {
      InGamesWith(s, p, o, k);
      InGamesWith(s', p, o, k);
    }
    InGamesWith(s, p, o, i);
    assert GamesWith(s', p, o) == GamesWith(s, p, o) + here;
  }

  lemma CountKeepsOutcomes(s: State, s': State, v: int, outcome: int)
    requires OutcomesCounted(s) && CountStep(s, s', v, outcome) && s.workers[v].idx !in s.counted
    ensures OutcomesCounted(s')
  {
    hide Counted, GamesWith;
    var i := s.workers[v].idx;
    var pair := s.q.jobs[i].pair;
    CountedAt(s.q, pair, outcome, pair, outcome);
    forall p: int, o: int | 0 <= p < |s.q.results| && 0 <= o < 3 ensures s'.q.results[p].count[o] == |GamesWith(s', p, o)| {
      CountedAt(s.q, pair, outcome, p, o);
      CountedJobs(s.q, pair, outcome);
      GamesWithOneMore(s, s', i, outcome, p, o);
    }
  }

  lemma CountedJobs(q: Queue, pair: int, outcome: int)
    requires ResultsOk(q.results) && 0 <= pair < |q.results| && 0 <= outcome < 3
    ensures Counted(q, pair, outcome).jobs == q.jobs
  {}

  lemma SameOutcomes(s: State, s': State)
    requires OutcomesCounted(s) && s'.counted == s.counted && s'.outcomes == s.outcomes
    requires s'.q.jobs == s.q.jobs && s'.q.results == s.q.results
    ensures OutcomesCounted(s')
  {
    forall p: int, o: int | 0 <= p < |s.q.results| && 0 <= o < 3 ensures s'.q.results[p].count[o] == |GamesWith(s', p, o)| {
      assert GamesWith(s', p, o) == GamesWith(s, p, o);
    }
  }

  lemma NotYetCounted(c: Config, s: State, v: int)
    requires Inv(c, s) && 0 <= v < |s.workers| && s.workers[v].Written?
    ensures s.workers[v].idx !in s.counted
  {
    hide WriterOk, QueueOk, CountsAddUp;
    assert At(s, v, Written(s.workers[v].idx));
  }

  lemma StepKeepsOutcomes(c: Config, s: State, s': State)
    requires Inv(c, s) && OutcomesCounted(s) && Step(c, s, s')
    ensures OutcomesCounted(s')
  {
    hide Inv, OutcomesCounted, WriterOk, QueueOk;
    if v: int, outcome: int :| CountStep(s, s', v, outcome) {
      NotYetCounted(c, s, v);
      CountKeepsOutcomes(s, s', v, outcome);
    } else {
      SameOutcomes(s, s');
    }
  }

  // In every state of every run, the count kept for a pair and an outcome is the number of its games counted that
  // ended so: wins, draws and losses are never exchanged.
  lemma {:induction false} CountsAreOutcomes(c: Config, run: seq<State>, i: nat)
    requires Run(c, run) && i < |run|
    ensures OutcomesCounted(run[i])
  {
    hide Inv, Init, Step, OutcomesCounted;
    if i == 0 {
      InitOutcomes(run[0]);
    } else {
      CountsAreOutcomes(c, run, i - 1);
      RunInv(c, run, i - 1);
      StepKeepsOutcomes(c, run[i - 1], run[i]);
    }
  }

  // When every worker has left its loop, the file holds exactly the games popped, 0..k-1 in order, and each
  // of them has been counted once; without a stop these are all the games of the schedule.
  lemma AllGamesAccounted(c: Config, run: seq<State>, i: nat)
    requires Run(c, run) && i < |run| && |run[i].workers| > 0
    requires forall v: int :: 0 <= v < |run[i].workers| ==> run[i].workers[v] == Finished
    ensures var s := run[i];
            (c.pgn ==> (forall k: nat :: k in s.w.pushed <==> k < s.popped) && s.w.idxNext == s.popped && s.w.out == Joined(s.w.pushed, s.popped)) &&
            (forall k: nat :: k in s.counted <==> k < s.popped) && (!s.stopped ==> s.popped == |s.q.jobs|)
    // the result counts sum to completed, which is the number of games, and those of each pair to its games
    ensures var s := run[i];
            ResultsOk(s.q.results) && SumTotals(s.q.results, |s.q.results|) == s.q.completed == s.popped &&
            forall p: int :: 0 <= p < |s.q.results| ==> Total(s.q.results[p]) == |PoppedOf(s, p)|
  {
    var s := run[i];
    ResultsSumToCompleted(c, run, i);
    RunInv(c, run, i);
    forall k: nat ensures !BeingPlayed(s, k) && !BeingCounted(s, k) {}
    UptoIs(s.popped);
    assert s.counted == Upto(s.popped);
    forall p: int ensures GamesOfPair(s, p) == PoppedOf(s, p) {}
    assert At(s, 0, Finished);
    if c.pgn {
      assert FirstMissing(s.w.pushed, s.popped);
      FirstMissingUnique(s.w.pushed, s.w.idxNext, s.popped);
    }
  }

  // A stop leaves no job to pop ...
  lemma {:induction false} StoppedIsEmpty(c: Config, run: seq<State>, i: nat)
    requires Run(c, run) && i < |run|
    ensures run[i].stopped ==> run[i].q.idx == |run[i].q.jobs|
  {
    hide QueueOk, WriterOk;
    if i > 0 {
      StoppedIsEmpty(c, run, i - 1);
      StepAfterStop(c, run[i - 1], run[i]);
    }
  }

  lemma StepAfterStop(c: Config, s: State, s': State)
    requires Step(c, s, s') && (s.stopped ==> s.q.idx == |s.q.jobs|)
    ensures s'.stopped ==> s'.q.idx == |s'.q.jobs|
    ensures s.stopped ==> s'.stopped && s'.popped == s.popped
  {
    hide QueueOk, WriterOk;
  }

  // ... so that no game is started after it.
  lemma {:induction false} NoGameAfterStop(c: Config, run: seq<State>, i: nat, j: nat)
    requires Run(c, run) && i <= j < |run| && run[i].stopped
    ensures run[j].stopped && run[j].popped == run[i].popped
    decreases j - i
  {
    hide Step;
    if i < j {
      NoGameAfterStop(c, run, i, j - 1);
      StoppedIsEmpty(c, run, j - 1);
      StepAfterStop(c, run[j - 1], run[j]);
    }
  }

  // ---- Every run ends ------------------------------------------------------------------------------------

  // Steps that a worker still has to make before it pops again; leaving the loop is a step of its own.
  function StepsLeft(x: Worker): int
  {
    match x
    case Idle => 0
    case Playing(_) => 3
    case Written(_) => 2
    case Reported => 1
    case Finished => -1
  }

  function AllStepsLeft(ws: seq<Worker>): int { if ws == [] then 0 else AllStepsLeft(ws[..|ws| - 1]) + StepsLeft(ws[|ws| - 1]) }

  lemma {:induction false} OneWorkerMoves(ws: seq<Worker>, v: int, x: Worker)
    requires 0 <= v < |ws|
    ensures AllStepsLeft(ws[v := x]) == AllStepsLeft(ws) - StepsLeft(ws[v]) + StepsLeft(x)
  {
    var n := |ws| - 1;
    if v < n {
      OneWorkerMoves(ws[..n], v, x);
      assert ws[v := x][..n] == ws[..n][v := x];
    } else {
      assert ws[v := x][..n] == ws[..n];
    }
  }

  lemma {:induction false} StepsLeftBounds(ws: seq<Worker>)
    ensures AllStepsLeft(ws) >= -|ws|
    ensures (forall v: int :: 0 <= v < |ws| ==> ws[v] == Idle) ==> AllStepsLeft(ws) == 0
  {
    if ws != [] { StepsLeftBounds(ws[..|ws| - 1]); }
  }

  lemma StepCounts(c: Config, s: State, s': State)
    requires Step(c, s, s')
    ensures 4 * s'.popped - AllStepsLeft(s'.workers) == 4 * s.popped - AllStepsLeft(s.workers) + 1
    ensures |s'.workers| == |s.workers| && s'.q.jobs == s.q.jobs
  {
    hide AllStepsLeft, QueueOk, WriterOk;
    if v: int :| PopStep(s, s', v) {
      OneWorkerMoves(s.workers, v, s'.workers[v]);
    } else if v: int, text: string :| WriteStep(c, s, s', v, text) {
      OneWorkerMoves(s.workers, v, s'.workers[v]);
    } else if v: int, outcome: int :| CountStep(s, s', v, outcome) {
      OneWorkerMoves(s.workers, v, s'.workers[v]);
    } else {
      var v: int, stop: bool :| DecideStep(s, s', v, stop);
      OneWorkerMoves(s.workers, v, s'.workers[v]);
    }
  }

  lemma {:induction false} StepsMade(c: Config, run: seq<State>, i: nat)
    requires Run(c, run) && i < |run|
    ensures i == 4 * run[i].popped - AllStepsLeft(run[i].workers)
    ensures |run[i].workers| == |run[0].workers| && run[i].q.jobs == run[0].q.jobs
  {
    hide AllStepsLeft, QueueOk, WriterOk, Step;
    if i == 0 {
      StepsLeftBounds(run[0].workers);
    } else {
      StepsMade(c, run, i - 1);
      StepCounts(c, run[i - 1], run[i]);
    }
  }

  // Four steps for each job and one for each worker: no run is longer, whatever the interleaving.
  lemma RunsAreBounded(c: Config, run: seq<State>)
    requires Run(c, run)
    ensures |run| - 1 <= 4 * |run[0].q.jobs| + |run[0].workers|
  {
    hide Run, Step, WriterOk, NothingLost, AllStepsLeft;
    RunNotEmpty(c, run);
    var i := |run| - 1;
    StepsMade(c, run, i);
    RunInv(c, run, i);
    StepsLeftBounds(run[i].workers);
  }

  lemma RunNotEmpty(c: Config, run: seq<State>)
    requires Run(c, run)
    ensures |run| > 0
  {}

  // Every map has a first missing index.
  lemma {:induction false} SomeMissing(pushed: map<nat, string>, from: nat) returns (n: nat)
    requires Prefix(pushed, from)
    ensures FirstMissing(pushed, n)
    decreases pushed.Keys - Upto(from)
  {
    UptoIs(from);
    if from in pushed {
      UptoIs(from + 1);
      assert from in pushed.Keys - Upto(from) && from !in pushed.Keys - Upto(from + 1);
      n := SomeMissing(pushed, from + 1);
    } else {
      n := from;
    }
  }

  // Nobody ever waits for good: while a worker is in its loop, some step is possible.  With the bound on the
  // length of runs, every run that goes on as long as it can ends with all workers out of their loops.
  lemma SomeStepPossible(c: Config, run: seq<State>, i: nat, v: int) returns (s': State)
    requires Run(c, run) && i < |run| && 0 <= v < |run[i].workers| && run[i].workers[v] != Finished
    ensures Step(c, run[i], s')
  {
    hide Run;
    RunInv(c, run, i);
    var s := run[i];
    match s.workers[v]
    case Idle =>
      s' := if s.q.idx < |s.q.jobs| then Goto(s, v, Playing(s.q.idx)).(q := Popped(s.q), popped := s.popped + 1)
            else Goto(s, v, Finished);
      assert PopStep(s, s', v);
    case Playing(k) =>
      s' := NextWriter(c, s, v, k);
      assert WriteStep(c, s, s', v, "");
    case Written(k) =>
      s' := Goto(s, v, Reported).(q := Counted(s.q, s.q.jobs[k].pair, 0), counted := s.counted + {k}, outcomes := s.outcomes[k := 0]);
      assert CountStep(s, s', v, 0);
    case Reported =>
      s' := Goto(s, v, Idle);
      assert DecideStep(s, s', v, false);
  }

  lemma NextWriter(c: Config, s: State, v: int, k: nat) returns (s': State)
    requires 0 <= v < |s.workers| && s.workers[v] == Playing(k)
    ensures WriteStep(c, s, s', v, "")
  {
    var pushed := s.w.pushed[k := ""];
    var n := SomeMissing(pushed, 0);
    var w := if c.pgn then Writer(pushed, Joined(pushed, n), n) else s.w;
    s' := Goto(s, v, Written(k)).(w := w);
  }

  // A run that no step can prolong has all workers out of their loops: what AllGamesAccounted asks for.
  lemma MaximalRunFinishes(c: Config, run: seq<State>, last: State)
    requires Run(c, run) && |run| > 0 && last == run[|run| - 1] && forall s': State :: !Step(c, last, s')
    ensures forall v: int :: 0 <= v < |last.workers| ==> last.workers[v] == Finished
  {
    hide Run, Step;
    forall v: int | 0 <= v < |last.workers| ensures last.workers[v] == Finished {
      if last.workers[v] != Finished {
        var s' := SomeStepPossible(c, run, |run| - 1, v);
      }
    }
  }
}
