/** One worker running a queued batch to the end: src/WorkerPool.cpp:29-69 with nobody else
    adding jobs. A job of demand d is preempted d - 1 times and then ends. */
module Batch {
  import opened Jobs
  import opened Schedulers

  /** How many bursts each job needs, and how each one ends. */
  type Demand = JobId -> nat
  type Ending = JobId -> Status

  function Remaining(j: Job, d: Demand): int {
    d(j.id) - j.elapsedBursts
  }

  predicate Pending(q: seq<Job>, d: Demand) {
    forall i :: 0 <= i < |q| ==> Remaining(q[i], d) >= 1
  }

  /** Bursts still owed to the whole queue. */
  function Work(q: seq<Job>, d: Demand): int {
    if q == [] then 0 else Work(q[..|q| - 1], d) + Remaining(q[|q| - 1], d)
  }

  lemma {:induction false} WorkConcat(a: seq<Job>, b: seq<Job>, d: Demand)
    ensures Work(a + b, d) == Work(a, d) + Work(b, d)
  {
    if b == [] {
      assert a + b == a;
    } else {
      var n := |b| - 1;
      WorkConcat(a, b[..n], d);
      assert (a + b)[..|a + b| - 1] == a + b[..n];
    }
  }

  lemma {:induction false} WorkNonNegative(q: seq<Job>, d: Demand)
    requires Pending(q, d)
    ensures Work(q, d) >= |q|
  {
    if q != [] {
      WorkNonNegative(q[..|q| - 1], d);
    }
  }

  lemma WorkOfRest(policy: Policy, q: seq<Job>, d: Demand)
    requires q != []
    ensures Work(Rest(policy, q), d) == Work(q, d) - Remaining(Next(policy, q), d)
  {
    var c := Choice(policy, q);
    assert q == (q[..c] + [q[c]]) + q[c + 1..];
    WorkConcat(q[..c] + [q[c]], q[c + 1..], d);
    WorkConcat(q[..c], [q[c]], d);
    WorkConcat(q[..c], q[c + 1..], d);
  }

  /** What comes back to the queue after a burst of j. */
  function Back(j: Job, d: Demand): seq<Job> {
    if Remaining(j, d) > 1 then [Demoted(j)] else []
  }

  /** The queue after one loop iteration: the served job is re-enqueued at the back, or gone. */
  function AfterBurst(policy: Policy, q: seq<Job>, d: Demand): seq<Job>
    requires q != []
  {
    Rest(policy, q) + Back(Next(policy, q), d)
  }

  lemma BurstLeavesPending(policy: Policy, q: seq<Job>, d: Demand)
    requires q != [] && Pending(q, d)
    ensures Pending(AfterBurst(policy, q, d), d)
  {
  }

  lemma BurstUsesOneUnit(policy: Policy, q: seq<Job>, d: Demand)
    requires q != [] && Pending(q, d)
    ensures Pending(AfterBurst(policy, q, d), d)
    ensures Work(AfterBurst(policy, q, d), d) == Work(q, d) - 1
    ensures Work(q, d) >= 1
  {
    BurstLeavesPending(policy, q, d);
    WorkNonNegative(q, d);
    WorkOfRest(policy, q, d);
    WorkConcat(Rest(policy, q), Back(Next(policy, q), d), d);
    WorkOfBack(Next(policy, q), d);
  }

  lemma WorkOfBack(j: Job, d: Demand)
    requires Remaining(j, d) >= 1
    ensures Work(Back(j, d), d) == Remaining(j, d) - 1
  {
    assert [Demoted(j)][..0] == [];
  }

  /** The jobs in the order in which they are handed to the executor. */
  ghost function Dispatches(policy: Policy, q: seq<Job>, d: Demand): seq<Job>
    requires Pending(q, d)
    decreases Work(q, d)
  {
    if q == [] then []
    else
      BurstUsesOneUnit(policy, q, d);
      [Next(policy, q)] + Dispatches(policy, AfterBurst(policy, q, d), d)
  }

  function ResultOf(j: Job, e: Ending): JobResult {
    ResultFor(j, DecodePolled(e(j.id)).(output := Some(j.id)))
  }

  /** The results in the order in which they are reported. */
  ghost function Reports(policy: Policy, q: seq<Job>, d: Demand, e: Ending): seq<JobResult>
    requires Pending(q, d)
    decreases Work(q, d)
  {
    if q == [] then []
    else
      BurstUsesOneUnit(policy, q, d);
      var later := Reports(policy, AfterBurst(policy, q, d), d, e);
      var j := Next(policy, q);
      if Remaining(j, d) > 1 then later else [ResultOf(j, e)] + later
  }

  /** One iteration of the worker loop: dequeue, execute, then re-enqueue or report. */
  method ServeOne(policy: Policy, jobs: JobDeque, d: Demand, e: Ending)
    returns (j: Job, reported: seq<JobResult>)
    requires jobs.items != []
    modifies jobs
    ensures j == Next(policy, old(jobs.items))
    ensures jobs.items == AfterBurst(policy, old(jobs.items), d)
    ensures reported == if Remaining(j, d) > 1 then [] else [ResultOf(j, e)]
  {
    j := GetNextJob(policy, jobs);
    if d(j.id) - j.elapsedBursts > 1 {
      AddJob(jobs, Demoted(j));
      reported := [];
    } else {
      reported := [ResultOf(j, e)];
    }
  }

  lemma ConcatAssociates<T>(a: seq<T>, b: seq<T>, c: seq<T>)
    ensures a + (b + c) == (a + b) + c
  {
  }

  lemma DispatchesUnfold(policy: Policy, q: seq<Job>, d: Demand)
    requires q != [] && Pending(q, d)
    ensures Pending(AfterBurst(policy, q, d), d)
    ensures 0 <= Work(AfterBurst(policy, q, d), d) < Work(q, d)
    ensures Dispatches(policy, q, d) == [Next(policy, q)] + Dispatches(policy, AfterBurst(policy, q, d), d)
  {
    BurstUsesOneUnit(policy, q, d);
  }

  lemma ReportsUnfold(policy: Policy, q: seq<Job>, d: Demand, e: Ending, reported: seq<JobResult>)
    requires q != [] && Pending(q, d) && Pending(AfterBurst(policy, q, d), d)
    requires
      var j := Next(policy, q);
      reported == if Remaining(j, d) > 1 then [] else [ResultOf(j, e)]
    ensures Reports(policy, q, d, e) == reported + Reports(policy, AfterBurst(policy, q, d), d, e)
  {
  }

  /** The worker loop itself. */
  method RunBatch(policy: Policy, jobs: JobDeque, d: Demand, e: Ending)
    returns (trace: seq<Job>, reports: seq<JobResult>)
    requires Pending(jobs.items, d)
    modifies jobs
    ensures jobs.items == []
    ensures trace == Dispatches(policy, old(jobs.items), d)
    ensures reports == Reports(policy, old(jobs.items), d, e)
    ensures |trace| == Work(old(jobs.items), d)
  {
    trace, reports := [], [];
    while jobs.items != []
      invariant Pending(jobs.items, d)
      invariant trace + Dispatches(policy, jobs.items, d) == Dispatches(policy, old(jobs.items), d)
      invariant reports + Reports(policy, jobs.items, d, e) == Reports(policy, old(jobs.items), d, e)
      decreases Work(jobs.items, d)
    {
      ghost var before := jobs.items;
      DispatchesUnfold(policy, before, d);
      var j, reported := ServeOne(policy, jobs, d, e);
      ghost var q := jobs.items;
      ReportsUnfold(policy, before, d, e, reported);
      ConcatAssociates(trace, [j], Dispatches(policy, q, d));
      ConcatAssociates(reports, reported, Reports(policy, q, d, e));
      trace, reports := trace + [j], reports + reported;
    }
    assert trace == Dispatches(policy, old(jobs.items), d);
    assert reports == Reports(policy, old(jobs.items), d, e);
    DispatchesMatchWork(policy, old(jobs.items), d);
  }

  // ----- work does not depend on the scheduler -----

  lemma {:induction false} DispatchesMatchWork(policy: Policy, q: seq<Job>, d: Demand)
    requires Pending(q, d)
    ensures |Dispatches(policy, q, d)| == Work(q, d)
    decreases Work(q, d)
  {
    if q != [] {
      BurstUsesOneUnit(policy, q, d);
      DispatchesMatchWork(policy, AfterBurst(policy, q, d), d);
    }
  }

  function ResultsOf(q: seq<Job>, e: Ending): (r: seq<JobResult>)
    ensures |r| == |q|
    ensures forall i :: 0 <= i < |q| ==> r[i] == ResultOf(q[i], e)
  {
    seq(|q|, i requires 0 <= i < |q| => ResultOf(q[i], e))
  }

  /** One result per queued job, whatever the order of service. */
  ghost function Due(q: seq<Job>, e: Ending): multiset<JobResult> {
    multiset(ResultsOf(q, e))
  }

  lemma DueConcat(a: seq<Job>, b: seq<Job>, e: Ending)
    ensures Due(a + b, e) == Due(a, e) + Due(b, e)
  {
    assert ResultsOf(a + b, e) == ResultsOf(a, e) + ResultsOf(b, e);
  }

  lemma DueOfRest(policy: Policy, q: seq<Job>, e: Ending)
    requires q != []
    ensures Due(q, e) == Due(Rest(policy, q), e) + Due([Next(policy, q)], e)
  {
    var c := Choice(policy, q);
    var a, j, b := q[..c], q[c], q[c + 1..];
    assert q == (a + [j]) + b;
    DueConcat(a + [j], b, e);
    DueConcat(a, [j], e);
    DueConcat(a, b, e);
  }

  lemma DueOfOne(j: Job, e: Ending)
    ensures Due([j], e) == multiset{ResultOf(j, e)} == Due([Demoted(j)], e)
  {
    assert ResultsOf([j], e) == [ResultOf(j, e)];
    assert ResultsOf([Demoted(j)], e) == [ResultOf(j, e)];
  }

  lemma DueAfterBurst(policy: Policy, q: seq<Job>, d: Demand, e: Ending)
    requires q != []
    ensures
      var j := Next(policy, q);
      Due(q, e) == Due(AfterBurst(policy, q, d), e)
                   + multiset(if Remaining(j, d) > 1 then [] else [ResultOf(j, e)])
  {
    var j := Next(policy, q);
    DueOfRest(policy, q, e);
    DueOfOne(j, e);
    DueConcat(Rest(policy, q), Back(j, d), e);
    DueOfBack(j, d, e);
  }

  lemma DueOfBack(j: Job, d: Demand, e: Ending)
    ensures Due([j], e) == Due(Back(j, d), e) + multiset(if Remaining(j, d) > 1 then [] else [ResultOf(j, e)])
  {
    DueOfOne(j, e);
  }

  lemma {:induction false} ReportsAreDue(policy: Policy, q: seq<Job>, d: Demand, e: Ending)
    requires Pending(q, d)
    ensures multiset(Reports(policy, q, d, e)) == Due(q, e)
    decreases Work(q, d)
  {
    if q != [] {
      var j, q' := Next(policy, q), AfterBurst(policy, q, d);
      var reported := if Remaining(j, d) > 1 then [] else [ResultOf(j, e)];
      BurstUsesOneUnit(policy, q, d);
      ReportsUnfold(policy, q, d, e, reported);
      ReportsAreDue(policy, q', d, e);
      DueAfterBurst(policy, q, d, e);
      MultisetOfConcat(reported, Reports(policy, q', d, e));
    }
  }

  lemma MultisetOfConcat<T>(a: seq<T>, b: seq<T>)
    ensures multiset(a + b) == multiset(b) + multiset(a)
  {
  }

  lemma WorkIsSchedulerIndependent(p1: Policy, p2: Policy, q: seq<Job>, d: Demand, e: Ending)
    requires Pending(q, d)
    ensures |Dispatches(p1, q, d)| == |Dispatches(p2, q, d)| == Work(q, d)
    ensures multiset(Reports(p1, q, d, e)) == multiset(Reports(p2, q, d, e))
  {
    DispatchesMatchWork(p1, q, d);
    DispatchesMatchWork(p2, q, d);
    ReportsAreDue(p1, q, d, e);
    ReportsAreDue(p2, q, d, e);
  }

  // ----- equal priorities: MLFQ is Round Robin -----

  /** Keys never decrease along the deque and span at most two neighbouring levels. */
  predicate NearlyLevel(q: seq<Job>) {
    forall i, j :: 0 <= i < j < |q| ==>
      Rank(Mlfq, q[i]) <= Rank(Mlfq, q[j]) <= Rank(Mlfq, q[i]) + 1
  }

  lemma NearlyLevelPicksHead(q: seq<Job>, d: Demand)
    requires q != [] && NearlyLevel(q)
    ensures Choice(Mlfq, q) == 0 == Choice(Fifo, q)
    ensures AfterBurst(Mlfq, q, d) == AfterBurst(Fifo, q, d)
    ensures NearlyLevel(AfterBurst(Fifo, q, d))
  {
    ChoiceIsTheFirstLeast(Mlfq, q, 0);
    ChoiceIsTheFirstLeast(Fifo, q, 0);
    var rest := Rest(Fifo, q);
    forall k | 0 <= k < |rest|
      ensures Rank(Mlfq, q[0]) <= Rank(Mlfq, rest[k]) <= Rank(Mlfq, q[0]) + 1
    {
      assert rest[k] == q[k + 1];
    }
  }

  lemma {:induction false} NearlyLevelRunsAgree(q: seq<Job>, d: Demand)
    requires Pending(q, d) && NearlyLevel(q)
    ensures Dispatches(Mlfq, q, d) == Dispatches(Fifo, q, d)
    decreases Work(q, d)
  {
    if q != [] {
      BurstUsesOneUnit(Fifo, q, d);
      NearlyLevelPicksHead(q, d);
      NearlyLevelRunsAgree(AfterBurst(Fifo, q, d), d);
    }
  }

  lemma {:induction false} EqualPrioritiesMakeMlfqRoundRobin(q: seq<Job>, d: Demand)
    requires Pending(q, d)
    requires forall i :: 0 <= i < |q| ==> q[i].priority == q[0].priority && q[i].elapsedBursts == 0
    ensures Dispatches(Mlfq, q, d) == Dispatches(Fifo, q, d)
  {
    NearlyLevelRunsAgree(q, d);
  }

  // ----- Round Robin: the exact dispatch at which each job ends -----

  function Min(a: int, b: int): int {
    if a < b then a else b
  }

  /** Sum over q of min(remaining, cap). */
  function Capped(q: seq<Job>, d: Demand, cap: int): int {
    if q == [] then 0 else Capped(q[..|q| - 1], d, cap) + Min(Remaining(q[|q| - 1], d), cap)
  }

  lemma {:induction false} CappedConcat(a: seq<Job>, b: seq<Job>, d: Demand, cap: int)
    ensures Capped(a + b, d, cap) == Capped(a, d, cap) + Capped(b, d, cap)
  {
    if b == [] {
      assert a + b == a;
    } else {
      var n := |b| - 1;
      CappedConcat(a, b[..n], d, cap);
      assert (a + b)[..|a + b| - 1] == a + b[..n];
    }
  }

  lemma CappedOne(j: Job, d: Demand, cap: int)
    ensures Capped([j], d, cap) == Min(Remaining(j, d), cap)
  {
    assert [j][..0] == [];
  }

  lemma {:induction false} CappedNonNegative(q: seq<Job>, d: Demand, cap: int)
    requires Pending(q, d) && cap >= 0
    ensures Capped(q, d, cap) >= 0
    ensures cap == 0 ==> Capped(q, d, cap) == 0
  {
    if q != [] {
      CappedNonNegative(q[..|q| - 1], d, cap);
    }
  }

  /** The dispatch number at which job x runs its last burst, when it stands between a and b. */
  function Index(a: seq<Job>, x: Job, b: seq<Job>, d: Demand): int {
    var r := Remaining(x, d);
    Capped(a, d, r) + r + Capped(b, d, r - 1)
  }

  /** The same for the job at position i: the sum over j <= i of min(d_j, d_i), and over j > i of
      min(d_j, d_i - 1). */
  function EndsAt(q: seq<Job>, d: Demand, i: nat): int
    requires i < |q|
  {
    var r := Remaining(q[i], d);
    Capped(q[..i + 1], d, r) + Capped(q[i + 1..], d, r - 1)
  }

  lemma EndsAtIsIndex(q: seq<Job>, d: Demand, i: nat)
    requires i < |q|
    ensures EndsAt(q, d, i) == Index(q[..i], q[i], q[i + 1..], d)
  {
    var r := Remaining(q[i], d);
    assert q[..i + 1] == q[..i] + [q[i]];
    CappedConcat(q[..i], [q[i]], d, r);
    CappedOne(q[i], d, r);
  }

  /** One Round Robin burst rotates or drops the head. */
  lemma RoundRobinBurst(q: seq<Job>, d: Demand)
    requires q != []
    ensures Next(Fifo, q) == q[0]
    ensures AfterBurst(Fifo, q, d) == q[1..] + Back(q[0], d)
  {
    ChoiceIsTheFirstLeast(Fifo, q, 0);
  }

  /** Ahead of a job that needs r bursts j takes one dispatch more than it still takes behind it. */
  lemma BackCostsOneLess(j: Job, d: Demand, r: int)
    requires Remaining(j, d) >= 1 && r >= 1
    ensures Capped(Back(j, d), d, r - 1) == Min(Remaining(j, d), r) - 1
  {
    CappedOne(Demoted(j), d, r - 1);
  }

  /** When another job h at the head is served, x ends one dispatch sooner. */
  lemma OtherServed(h: Job, a: seq<Job>, x: Job, b: seq<Job>, d: Demand)
    requires Remaining(h, d) >= 1 && Remaining(x, d) >= 1
    ensures Index(a, x, b + Back(h, d), d) == Index([h] + a, x, b, d) - 1
  {
    var r := Remaining(x, d);
    CappedConcat([h], a, d, r);
    CappedOne(h, d, r);
    CappedConcat(b, Back(h, d), d, r - 1);
    BackCostsOneLess(h, d, r);
  }

  /** When x itself is served at the head and comes back, it ends one dispatch sooner. */
  lemma SelfServed(x: Job, b: seq<Job>, d: Demand)
    ensures Index(b, Demoted(x), [], d) == Index([], x, b, d) - 1
  {
  }

  /** Dispatch number n of the trace is the last burst of job x. */
  predicate LastBurstAt(trace: seq<Job>, n: int, x: Job, d: Demand) {
    1 <= n <= |trace| && trace[n - 1].id == x.id && Remaining(trace[n - 1], d) == 1
  }

  lemma LaterDispatch(head: Job, later: seq<Job>, n: int, x: Job, x': Job, d: Demand)
    requires LastBurstAt(later, n, x', d) && x'.id == x.id
    ensures LastBurstAt([head] + later, n + 1, x, d)
  {
  }

  /** x stands between a and b in q. */
  predicate Splits(q: seq<Job>, a: seq<Job>, x: Job, b: seq<Job>) {
    q == a + [x] + b
  }

  lemma SplitAt(q: seq<Job>, i: nat)
    requires i < |q|
    ensures Splits(q, q[..i], q[i], q[i + 1..])
  {
  }

  lemma BurstOfOther(q: seq<Job>, a: seq<Job>, x: Job, b: seq<Job>, d: Demand)
    requires Splits(q, a, x, b) && a != []
    ensures q[0] == a[0] && Splits(AfterBurst(Fifo, q, d), a[1..], x, b + Back(a[0], d))
  {
    RoundRobinBurst(q, d);
  }

  lemma BurstOfSelf(q: seq<Job>, x: Job, b: seq<Job>, d: Demand)
    requires Splits(q, [], x, b)
    ensures q[0] == x
    ensures Remaining(x, d) > 1 ==> Splits(AfterBurst(Fifo, q, d), b, Demoted(x), [])
  {
    RoundRobinBurst(q, d);
  }

  lemma SplitMember(q: seq<Job>, a: seq<Job>, x: Job, b: seq<Job>, d: Demand)
    requires Splits(q, a, x, b) && Pending(q, d)
    ensures Remaining(x, d) >= 1 && Pending(a, d) && Pending(b, d)
  {
    assert q[|a|] == x;
    assert forall i :: 0 <= i < |a| ==> a[i] == q[i];
    assert forall i :: 0 <= i < |b| ==> b[i] == q[|a| + 1 + i];
  }

  lemma HeadAndTail<T>(s: seq<T>)
    requires s != []
    ensures s == [s[0]] + s[1..]
  {
  }

  lemma OtherServedFirst(head: Job, later: seq<Job>, a: seq<Job>, x: Job, b: seq<Job>, d: Demand)
    requires a != [] && Remaining(a[0], d) >= 1 && Remaining(x, d) >= 1
    requires LastBurstAt(later, Index(a[1..], x, b + Back(a[0], d), d), x, d)
    ensures LastBurstAt([head] + later, Index(a, x, b, d), x, d)
  {
    HeadAndTail(a);
    OtherServed(a[0], a[1..], x, b, d);
    LaterDispatch(head, later, Index(a[1..], x, b + Back(a[0], d), d), x, x, d);
  }

  lemma SelfServedFirst(head: Job, later: seq<Job>, x: Job, b: seq<Job>, d: Demand)
    requires LastBurstAt(later, Index(b, Demoted(x), [], d), Demoted(x), d)
    ensures LastBurstAt([head] + later, Index([], x, b, d), x, d)
  {
    SelfServed(x, b, d);
    LaterDispatch(head, later, Index(b, Demoted(x), [], d), x, Demoted(x), d);
  }

  lemma SelfServedLast(later: seq<Job>, x: Job, b: seq<Job>, d: Demand)
    requires Pending(b, d) && Remaining(x, d) == 1
    ensures LastBurstAt([x] + later, Index([], x, b, d), x, d)
  {
    CappedNonNegative(b, d, 0);
  }

  lemma RoundRobinUnfolds(q: seq<Job>, d: Demand)
    requires q != [] && Pending(q, d)
    ensures Pending(AfterBurst(Fifo, q, d), d) && 0 <= Work(AfterBurst(Fifo, q, d), d) < Work(q, d)
    ensures Dispatches(Fifo, q, d) == [q[0]] + Dispatches(Fifo, AfterBurst(Fifo, q, d), d)
  {
    RoundRobinBurst(q, d);
    DispatchesUnfold(Fifo, q, d);
  }

  lemma {:induction false} RoundRobinIndex(q: seq<Job>, a: seq<Job>, x: Job, b: seq<Job>, d: Demand)
    requires Splits(q, a, x, b) && Pending(q, d)
    ensures LastBurstAt(Dispatches(Fifo, q, d), Index(a, x, b, d), x, d)
    decreases Work(q, d)
  {
    var q' := AfterBurst(Fifo, q, d);
    SplitMember(q, a, x, b, d);
    RoundRobinUnfolds(q, d);
    var later := Dispatches(Fifo, q', d);
    if a != [] {
      BurstOfOther(q, a, x, b, d);
      RoundRobinIndex(q', a[1..], x, b + Back(a[0], d), d);
      OtherServedFirst(q[0], later, a, x, b, d);
    } else {
      BurstOfSelf(q, x, b, d);
      if Remaining(x, d) > 1 {
        RoundRobinIndex(q', b, Demoted(x), [], d);
        SelfServedFirst(q[0], later, x, b, d);
      } else {
        SelfServedLast(later, x, b, d);
      }
    }
  }

  /** The job at position i ends at dispatch number `EndsAt`. */
  ghost predicate EndsAtDispatch(q: seq<Job>, d: Demand, i: nat, trace: seq<Job>)
    requires i < |q|
  {
    LastBurstAt(trace, EndsAt(q, d, i), q[i], d)
  }

  predicate DistinctIds(q: seq<Job>) {
    forall i, j :: 0 <= i < j < |q| ==> q[i].id != q[j].id
  }

  predicate Absent(q: seq<Job>, id: JobId) {
    forall i :: 0 <= i < |q| ==> q[i].id != id
  }

  lemma BurstKeepsIds(policy: Policy, q: seq<Job>, d: Demand)
    requires q != []
    ensures DistinctIds(q) ==> DistinctIds(AfterBurst(policy, q, d))
    ensures DistinctIds(q) && Remaining(Next(policy, q), d) == 1 ==>
      Absent(AfterBurst(policy, q, d), Next(policy, q).id)
    ensures forall id :: Absent(q, id) ==> Absent(AfterBurst(policy, q, d), id)
  {
  }

  lemma {:induction false} AbsentIsNotDispatched(policy: Policy, q: seq<Job>, d: Demand, id: JobId)
    requires Pending(q, d) && Absent(q, id)
    ensures Absent(Dispatches(policy, q, d), id)
    decreases Work(q, d)
  {
    if q != [] {
      DispatchesUnfold(policy, q, d);
      BurstKeepsIds(policy, q, d);
      AbsentIsNotDispatched(policy, AfterBurst(policy, q, d), d, id);
    }
  }

  /** A job that needs one burst is not dispatched again after it. */
  lemma {:induction false} LastBurstIsLast(policy: Policy, q: seq<Job>, d: Demand, m: nat)
    requires Pending(q, d) && DistinctIds(q) && m < |Dispatches(policy, q, d)|
    requires Remaining(Dispatches(policy, q, d)[m], d) == 1
    ensures Absent(Dispatches(policy, q, d)[m + 1..], Dispatches(policy, q, d)[m].id)
    decreases Work(q, d)
  {
    var q' := AfterBurst(policy, q, d);
    DispatchesUnfold(policy, q, d);
    BurstKeepsIds(policy, q, d);
    DropHead(Next(policy, q), Dispatches(policy, q', d), m);
    if m == 0 {
      AbsentIsNotDispatched(policy, q', d, Next(policy, q).id);
    } else {
      LastBurstIsLast(policy, q', d, m - 1);
    }
  }

  lemma DropHead<T>(x: T, s: seq<T>, m: nat)
    requires m <= |s|
    ensures ([x] + s)[m + 1..] == s[m..]
  {
  }

  /** And for jobs of distinct ids nothing of job i follows that dispatch. */
  lemma {:induction false} RoundRobinCompletionIndex(q: seq<Job>, d: Demand, i: nat)
    requires Pending(q, d) && i < |q|
    ensures EndsAtDispatch(q, d, i, Dispatches(Fifo, q, d))
    ensures DistinctIds(q) ==> Absent(Dispatches(Fifo, q, d)[EndsAt(q, d, i)..], q[i].id)
  {
    SplitAt(q, i);
    EndsAtIsIndex(q, d, i);
    RoundRobinIndex(q, q[..i], q[i], q[i + 1..], d);
    if DistinctIds(q) {
      LastBurstIsLast(Fifo, q, d, EndsAt(q, d, i) - 1);
    }
  }

  /** MLFQ shares the index when all priorities are equal. */
  lemma FreshBatchCompletionIndex(q: seq<Job>, d: Demand, i: nat)
    requires Pending(q, d) && i < |q|
    requires forall k :: 0 <= k < |q| ==> q[k].priority == q[0].priority && q[k].elapsedBursts == 0
    ensures EndsAtDispatch(q, d, i, Dispatches(Mlfq, q, d))
  {
    EqualPrioritiesMakeMlfqRoundRobin(q, d);
    RoundRobinCompletionIndex(q, d, i);
  }
}
