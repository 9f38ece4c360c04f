/** The one-worker engine, step by step, serves a batch in the order that module Batch computes, so
    the exact dispatch sequences proved there hold of every interleaving with the kernel and with
    `stop`. */
module OneWorker {
  import opened Jobs
  import opened Schedulers
  import opened Engine
  import opened EngineFrames
  import opened EngineInvariant
  import opened EngineSafety
  import opened EngineReports
  import B = Batch

  /** A job without the identity that its first burst gives it, which no policy looks at. */
  function Plain(j: Job): Job {
    j.(pid := -1, uniqueId := 0)
  }

  function PlainAll(q: seq<Job>): (r: seq<Job>)
    ensures |r| == |q|
    ensures forall i :: 0 <= i < |q| ==> r[i] == Plain(q[i])
  {
    seq(|q|, i requires 0 <= i < |q| => Plain(q[i]))
  }

  function Ids(q: seq<Job>): (r: seq<JobId>)
    ensures |r| == |q|
    ensures forall i :: 0 <= i < |q| ==> r[i] == q[i].id
  {
    seq(|q|, i requires 0 <= i < |q| => q[i].id)
  }

  lemma PlainRank(policy: Policy, j: Job)
    ensures Rank(policy, Plain(j)) == Rank(policy, j)
  {
  }

  lemma PlainChoice(policy: Policy, q: seq<Job>)
    requires q != []
    ensures Choice(policy, PlainAll(q)) == Choice(policy, q)
    ensures Next(policy, PlainAll(q)) == Plain(Next(policy, q))
    ensures Rest(policy, PlainAll(q)) == PlainAll(Rest(policy, q))
  {
    PlainFirstLeast(policy, q, Choice(policy, q));
    ChoiceIsTheFirstLeast(policy, PlainAll(q), Choice(policy, q));
    PlainWithout(q, Choice(policy, q));
  }

  lemma PlainWithout(q: seq<Job>, i: nat)
    requires i < |q|
    ensures Without(PlainAll(q), i) == PlainAll(Without(q, i))
  {
  }

  lemma PlainFirstLeast(policy: Policy, q: seq<Job>, c: nat)
    requires IsFirstLeast(policy, q, c)
    ensures IsFirstLeast(policy, PlainAll(q), c)
  {
    forall k | 0 <= k < |q| ensures Rank(policy, PlainAll(q)[k]) == Rank(policy, q[k]) {
      PlainRank(policy, q[k]);
    }
  }

  /** What the worker's phase still owes to the queue. */
  function Tail(p: Phase, d: B.Demand): seq<Job> {
    match p
    case Holding(j) => B.Back(Plain(j), d)
    case Polling(j, _, _) => B.Back(Plain(j), d)
    case Pausing(j, _, _) => B.Back(Plain(j), d)
    case Blocking(j) => B.Back(Plain(j), d)
    case Requeueing(j) => [Demoted(Plain(j))]
    case _ => []
  }

  /** The batch that is still owed service. */
  function Owed(s: State, d: B.Demand): seq<Job>
    requires |s.workers| == 1
  {
    PlainAll(s.jobs) + Tail(s.workers[0], d)
  }

  predicate InBurst(p: Phase) {
    p.Holding? || p.Polling? || p.Pausing? || p.Blocking?
  }

  /** The step respects the demands: a burst is preempted if more are needed, and else the last. */
  predicate MeetsDemand(s: State, l: Label, d: B.Demand)
    requires |s.workers| == 1 && Enabled(s, l)
  {
    var t := Apply(s, l);
    && |t.workers| == 1
    && (InBurst(s.workers[0]) && t.workers[0].Requeueing? ==> B.Remaining(s.workers[0].job, d) > 1)
    && (InBurst(s.workers[0]) && t.workers[0].Reporting? ==> B.Remaining(s.workers[0].job, d) == 1)
  }

  /** A run without arrivals and restarts that meets the demands. */
  predicate BatchRun(s: State, run: seq<Label>, d: B.Demand)
    decreases |run|
  {
    && |s.workers| == 1
    && (run != [] ==>
          && Enabled(s, run[0]) && !run[0].Submit? && !run[0].Start? && MeetsDemand(s, run[0], d)
          && BatchRun(Apply(s, run[0]), run[1..], d))
  }

  function TakenNow(s: State, l: Label): seq<JobId> {
    if l.Lock? && s.jobs != [] then [Next(s.policy, s.jobs).id] else []
  }

  function TakenIds(s: State, run: seq<Label>, d: B.Demand): seq<JobId>
    requires BatchRun(s, run, d)
    decreases |run|
  {
    if run == [] then [] else TakenNow(s, run[0]) + TakenIds(Apply(s, run[0]), run[1..], d)
  }

  function End(s: State, run: seq<Label>, d: B.Demand): (t: State)
    requires BatchRun(s, run, d)
    ensures |t.workers| == 1 && t.policy == s.policy
    decreases |run|
  {
    if run == [] then s
    else
      StepFrame(s, run[0]);
      End(Apply(s, run[0]), run[1..], d)
  }

  lemma TakeServesTheBatch(s: State, d: B.Demand)
    requires |s.workers| == 1 && s.jobs != []
    requires s.workers[0].Entering? || s.workers[0].Woken?
    ensures Owed(s, d) != [] && Owed(LockStep(s, 0), d) == B.AfterBurst(s.policy, Owed(s, d), d)
    ensures Next(s.policy, Owed(s, d)).id == Next(s.policy, s.jobs).id
  {
    var j := Next(s.policy, s.jobs);
    assert Owed(s, d) == PlainAll(s.jobs);
    PlainChoice(s.policy, s.jobs);
    assert Demoted(Plain(j)) == Demoted(Next(s.policy, PlainAll(s.jobs)));
  }

  lemma RequeueKeepsOwed(s: State, wake: Option<nat>, d: B.Demand)
    requires |s.workers| == 1 && s.workers[0].Requeueing? && CanWake(s.workers, wake)
    ensures Owed(RequeueStep(s, 0, wake), d) == Owed(s, d)
  {
    var j := s.workers[0].job;
    assert PlainAll(s.jobs + [Demoted(j)]) == PlainAll(s.jobs) + [Demoted(Plain(j))];
  }

  lemma IdsCons(x: Job, ys: seq<Job>)
    ensures Ids([x] + ys) == [x.id] + Ids(ys)
  {
  }

  /** Serving q begins with `taken` and goes on as serving q'. */
  ghost predicate Follows(policy: Policy, q: seq<Job>, taken: seq<JobId>, q': seq<Job>, d: B.Demand) {
    && B.Pending(q, d) && B.Pending(q', d)
    && Ids(B.Dispatches(policy, q, d)) == taken + Ids(B.Dispatches(policy, q', d))
  }

  lemma FollowsSelf(policy: Policy, q: seq<Job>, d: B.Demand)
    requires B.Pending(q, d)
    ensures Follows(policy, q, [], q, d)
  {
  }

  lemma FollowsBurst(policy: Policy, q: seq<Job>, d: B.Demand)
    requires q != [] && B.Pending(q, d)
    ensures Follows(policy, q, [Next(policy, q).id], B.AfterBurst(policy, q, d), d)
  {
    B.DispatchesUnfold(policy, q, d);
    IdsCons(Next(policy, q), B.Dispatches(policy, B.AfterBurst(policy, q, d), d));
  }

  lemma FollowsOn(policy: Policy, q: seq<Job>, a: seq<JobId>, q': seq<Job>, b: seq<JobId>, q'': seq<Job>, d: B.Demand)
    requires Follows(policy, q, a, q', d) && Follows(policy, q', b, q'', d)
    ensures Follows(policy, q, a + b, q'', d)
  {
  }

  /** A burst goes on, is preempted, or ends as the demand says. */
  lemma EdgeKeepsTail(s: State, p: Phase, q: Phase, d: B.Demand)
    requires Edge(s, p, q) && !p.Requeueing? && (p.Entering? || p.Woken? ==> s.jobs == [])
    requires InBurst(p) && q.Requeueing? ==> B.Remaining(p.job, d) > 1
    requires InBurst(p) && q.Reporting? ==> B.Remaining(p.job, d) == 1
    ensures Tail(q, d) == Tail(p, d)
  {
    if InBurst(p) && Tail(q, d) != [] {
      assert Plain(q.job) == Plain(p.job);
    }
  }

  /** Every step that leaves the queue alone leaves the owed batch alone. */
  lemma StepKeepsTail(s: State, l: Label, d: B.Demand)
    requires |s.workers| == 1 && Enabled(s, l) && LeavesQueue(s, l) && !l.Start? && MeetsDemand(s, l, d)
    ensures Apply(s, l).jobs == s.jobs && Tail(Apply(s, l).workers[0], d) == Tail(s.workers[0], d)
  {
    StepFrame(s, l);
    var t := Apply(s, l);
    assert WorkerFrame(l, s, t, 0);
    if Acts(l, 0) {
      ActsFrom(s, l);
      EdgeKeepsTail(s, s.workers[0], t.workers[0], d);
    }
  }

  lemma ActsFrom(s: State, l: Label)
    requires |s.workers| == 1 && Enabled(s, l) && LeavesQueue(s, l) && Acts(l, 0)
    ensures !s.workers[0].Requeueing? && (s.workers[0].Entering? || s.workers[0].Woken? ==> s.jobs == [])
  {
  }

  lemma StepServesTheBatch(s: State, l: Label, d: B.Demand)
    requires |s.workers| == 1 && Enabled(s, l) && !l.Submit? && !l.Start? && MeetsDemand(s, l, d)
    requires B.Pending(Owed(s, d), d)
    ensures Follows(s.policy, Owed(s, d), TakenNow(s, l), Owed(Apply(s, l), d), d)
  {
    var q := Owed(s, d);
    if l.Lock? && s.jobs != [] {
      TakeServesTheBatch(s, d);
      FollowsBurst(s.policy, q, d);
    } else {
      if l.Requeue? {
        RequeueKeepsOwed(s, l.wake, d);
      } else {
        StepKeepsTail(s, l, d);
      }
      FollowsSelf(s.policy, q, d);
    }
  }

  /** Over every run, what was dispatched and what module Batch says of the rest make up what it
      says of the whole. */
  lemma {:induction false} EngineFollowsBatch(s: State, run: seq<Label>, d: B.Demand)
    requires BatchRun(s, run, d) && B.Pending(Owed(s, d), d)
    ensures Follows(s.policy, Owed(s, d), TakenIds(s, run, d), Owed(End(s, run, d), d), d)
    decreases |run|
  {
    if run == [] {
      FollowsSelf(s.policy, Owed(s, d), d);
    } else {
      var t := Apply(s, run[0]);
      StepFrame(s, run[0]);
      StepServesTheBatch(s, run[0], d);
      EngineFollowsBatch(t, run[1..], d);
      FollowsOn(s.policy, Owed(s, d), TakenNow(s, run[0]), Owed(t, d), TakenIds(t, run[1..], d),
                Owed(End(s, run, d), d), d);
    }
  }

  /** A worker between jobs, and a freshly queued batch. */
  predicate ReadyFor(s: State, q: seq<Job>) {
    && |s.workers| == 1 && !InBurst(s.workers[0]) && !s.workers[0].Requeueing?
    && s.jobs == q && forall i :: 0 <= i < |q| ==> FreshJob(q[i])
  }

  /** The run serves the freshly queued batch q to its end. */
  predicate Completes(s: State, run: seq<Label>, d: B.Demand, q: seq<Job>) {
    ReadyFor(s, q) && B.Pending(q, d) && BatchRun(s, run, d) && Owed(End(s, run, d), d) == []
  }

  lemma CompleteRunIsTheBatch(s: State, run: seq<Label>, d: B.Demand, q: seq<Job>)
    requires Completes(s, run, d, q)
    ensures TakenIds(s, run, d) == Ids(B.Dispatches(s.policy, q, d))
  {
    assert PlainAll(q) == q;
    assert Owed(s, d) == q;
    EngineFollowsBatch(s, run, d);
  }

  // ----- the same work under every policy -----

  lemma {:induction false} BatchRunIsRun(s: State, run: seq<Label>, d: B.Demand)
    requires BatchRun(s, run, d)
    ensures ValidRun(s, run) && End(s, run, d) == After(s, run)
    decreases |run|
  {
    if run != [] {
      BatchRunIsRun(Apply(s, run[0]), run[1..], d);
    }
  }

  /** Nothing is submitted in a batch run. */
  lemma {:induction false} BatchRunKeepsSubmits(s: State, run: seq<Label>, d: B.Demand, id: JobId)
    requires BatchRun(s, run, d)
    ensures H(End(s, run, d).log, id).submits == H(s.log, id).submits
    ensures H(End(s, run, d).log, id).cmd == H(s.log, id).cmd
    decreases |run|
  {
    if run != [] {
      StepFrame(s, run[0]);
      LogGrowth(s.log, Apply(s, run[0]).log, id);
      BatchRunKeepsSubmits(Apply(s, run[0]), run[1..], d, id);
    }
  }

  /** The run takes a pool into which nothing but q was ever put, and brings every job of q to its
      end. */
  ghost predicate Finishes(s: State, run: seq<Label>, d: B.Demand, q: seq<Job>) {
    Reachable(s) && OnlyBatch(s, q) && Completes(s, run, d, q) && !Carries(End(s, run, d).workers[0])
  }

  ghost predicate OnlyBatch(s: State, q: seq<Job>) {
    forall id: JobId :: H(s.log, id).submits > 0 ==> InQueue(q, id) > 0
  }

  /** Once no job is queued or held, every submitted job has been reported. */
  lemma EmptyPoolHasReported(t: State, id: JobId)
    requires Reachable(t) && t.jobs == [] && forall w :: 0 <= w < |t.workers| ==> !Carries(t.workers[w])
    ensures H(t.log, id).submits > 0 ==> H(t.log, id).reports == 1
  {
    ExactlyOnce(t, id);
    NobodyCarries(t.workers, id);
    EveryJournalIsClean(t, id);
  }

  /** What is left of a finished run: its end, with everything reported. */
  ghost predicate Finished(s: State, t: State, q: seq<Job>) {
    && Reachable(s) && Reachable(t) && s.jobs == q
    && forall id: JobId {:trigger H(t.log, id)} ::
         && H(t.log, id).submits == H(s.log, id).submits && H(t.log, id).cmd == H(s.log, id).cmd
         && (H(t.log, id).submits > 0 ==> H(t.log, id).reports == 1 && InQueue(q, id) > 0)
  }

  lemma NothingOwed(t: State, d: B.Demand)
    requires |t.workers| == 1 && Owed(t, d) == []
    ensures t.jobs == []
  {
    assert |Owed(t, d)| >= |PlainAll(t.jobs)|;
  }

  lemma FinishingRunIsFinished(s: State, run: seq<Label>, d: B.Demand, q: seq<Job>)
    requires Finishes(s, run, d, q)
    ensures Finished(s, End(s, run, d), q)
  {
    var t := End(s, run, d);
    EndIsReachable(s, run, d);
    NothingOwed(t, d);
    AllSubmitsKept(s, run, d, t);
    EmptyEndIsFinished(s, t, q);
  }

  lemma EndIsReachable(s: State, run: seq<Label>, d: B.Demand)
    requires Reachable(s) && BatchRun(s, run, d)
    ensures Reachable(End(s, run, d))
  {
    BatchRunIsRun(s, run, d);
    ReachableOn(s, run);
  }

  ghost predicate SameSubmits(s: State, t: State) {
    forall id: JobId {:trigger H(t.log, id)} ::
      H(t.log, id).submits == H(s.log, id).submits && H(t.log, id).cmd == H(s.log, id).cmd
  }

  lemma AllSubmitsKept(s: State, run: seq<Label>, d: B.Demand, t: State)
    requires BatchRun(s, run, d) && t == End(s, run, d)
    ensures SameSubmits(s, t)
  {
    forall id: JobId
      ensures H(t.log, id).submits == H(s.log, id).submits && H(t.log, id).cmd == H(s.log, id).cmd
    {
      BatchRunKeepsSubmits(s, run, d, id);
    }
  }

  lemma EmptyEndIsFinished(s: State, t: State, q: seq<Job>)
    requires Reachable(s) && Reachable(t) && s.jobs == q && t.jobs == []
    requires |t.workers| == 1 && !Carries(t.workers[0])
    requires OnlyBatch(s, q) && SameSubmits(s, t)
    ensures Finished(s, t, q)
  {
    forall id: JobId ensures H(t.log, id).submits > 0 ==> H(t.log, id).reports == 1 && InQueue(q, id) > 0 {
      EmptyPoolHasReported(t, id);
    }
  }

  /** The command in the history is the queued job's. */
  lemma QueuedCommand(s: State, i: nat)
    requires Reachable(s) && i < |s.jobs|
    ensures H(s.log, s.jobs[i].id).cmd == s.jobs[i].cmd
  {
    ReachableInv(s);
    assert QueuedOK(s, s.jobs[i]);
  }

  lemma UnsubmittedCommand(s: State, id: JobId)
    requires Reachable(s) && H(s.log, id).submits == 0
    ensures H(s.log, id).cmd == EMPTY_COMMAND
  {
    ReachableInv(s);
    assert IdOK(s, id);
  }

  lemma BatchHasDistinctIds(s: State)
    requires Reachable(s)
    ensures B.DistinctIds(s.jobs)
  {
    ReachableInv(s);
    forall i, j | 0 <= i < j < |s.jobs| ensures s.jobs[i].id != s.jobs[j].id {
      QueueHasNoDuplicates(s, i, j);
    }
  }

  lemma SubmittedOnce(s: State, q: seq<Job>, id: JobId)
    requires Reachable(s) && s.jobs == q
    ensures InQueue(q, id) > 0 ==> H(s.log, id).submits == 1
    ensures H(s.log, id).submits <= 1
  {
    ExactlyOnce(s, id);
  }

  lemma SameBatchSameWorkload(s: State, t: State, s': State, t': State, q: seq<Job>, id: JobId)
    requires Finished(s, t, q) && Finished(s', t', q) && H(t.log, id).ending == H(t'.log, id).ending
    ensures SameWorkload(t, t', id)
  {
    SubmittedOnce(s, q, id);
    SubmittedOnce(s', q, id);
    assert H(t.log, id).submits == H(s.log, id).submits == H(s'.log, id).submits == H(t'.log, id).submits;
    if H(s.log, id).submits == 0 {
      UnsubmittedCommand(s, id);
      UnsubmittedCommand(s', id);
    } else {
      var i := FindInQueue(q, id);
      QueuedCommand(s, i);
      QueuedCommand(s', i);
    }
  }

  /** Any two runs that bring the same batch to its end, each under any policy, take the sum of the
      demands in dispatches, and if the children end alike they report the same multiset of results. */
  lemma {:induction false} EngineWorkIsSchedulerIndependent(s: State, run: seq<Label>, s': State, run': seq<Label>,
                                         d: B.Demand, q: seq<Job>)
    requires Finishes(s, run, d, q) && Finishes(s', run', d, q)
    requires forall id: JobId {:trigger H(End(s, run, d).log, id)} ::
      H(End(s, run, d).log, id).ending == H(End(s', run', d).log, id).ending
    ensures |TakenIds(s, run, d)| == |TakenIds(s', run', d)| == B.Work(q, d)
    ensures multiset(ReportsOf(End(s, run, d).log)) == multiset(ReportsOf(End(s', run', d).log))
  {
    CompleteRunIsTheBatch(s, run, d, q);
    CompleteRunIsTheBatch(s', run', d, q);
    B.DispatchesMatchWork(s.policy, q, d);
    B.DispatchesMatchWork(s'.policy, q, d);
    FinishingRunIsFinished(s, run, d, q);
    FinishingRunIsFinished(s', run', d, q);
    SameBatchSameReports(s, End(s, run, d), s', End(s', run', d), q);
  }

  lemma SameBatchSameReports(s: State, t: State, s': State, t': State, q: seq<Job>)
    requires Finished(s, t, q) && Finished(s', t', q)
    requires forall id: JobId {:trigger H(t.log, id)} :: H(t.log, id).ending == H(t'.log, id).ending
    ensures multiset(ReportsOf(t.log)) == multiset(ReportsOf(t'.log))
  {
    forall id: JobId ensures SameWorkload(t, t', id) {
      SameBatchSameWorkload(s, t, s', t', q, id);
    }
    ReportsAreSchedulerIndependent(t, t');
  }

  // ----- and the results that module Batch computes -----

  predicate IsResultOf(q: seq<Job>, i: int, e: B.Ending, r: JobResult) {
    0 <= i < |q| && B.ResultOf(q[i], e) == r
  }

  lemma {:induction false} DueIsCounted(q: seq<Job>, e: B.Ending, r: JobResult)
    requires B.DistinctIds(q)
    ensures B.Due(q, e)[r] == One(exists i :: IsResultOf(q, i, e, r))
  {
    if q == [] {
      assert B.ResultsOf(q, e) == [];
    } else {
      var n := |q| - 1;
      var a, x := q[..n], q[n];
      assert q == a + [x];
      DueIsCounted(a, e, r);
      B.DueConcat(a, [x], e);
      B.DueOfOne(x, e);
      if B.ResultOf(x, e) == r {
        assert IsResultOf(q, n, e, r);
        assert forall i :: !IsResultOf(a, i, e, r);
      } else {
        assert forall i :: IsResultOf(a, i, e, r) <==> IsResultOf(q, i, e, r);
      }
    }
  }

  /** The children of the batch ended as e says. */
  ghost predicate EndedAs(t: State, q: seq<Job>, e: B.Ending) {
    forall i :: 0 <= i < |q| ==> H(t.log, q[i].id).ending == Some(e(q[i].id))
  }

  lemma BatchJobIsReported(s: State, t: State, q: seq<Job>, e: B.Ending, i: nat)
    requires Finished(s, t, q) && EndedAs(t, q, e) && i < |q|
    ensures Tells(H(t.log, q[i].id), B.ResultOf(q[i], e))
  {
    var id := q[i].id;
    CountedInQueue(q, i);
    SubmittedOnce(s, q, id);
    assert H(t.log, id).submits == 1;
    EveryJournalIsClean(t, id);
    QueuedCommand(s, i);
  }

  lemma ReportedIsDue(s: State, t: State, q: seq<Job>, e: B.Ending, r: JobResult)
    requires Finished(s, t, q) && EndedAs(t, q, e)
    ensures Tells(H(t.log, r.jobId), r) <==> exists i :: IsResultOf(q, i, e, r)
  {
    if i :| IsResultOf(q, i, e, r) {
      BatchJobIsReported(s, t, q, e, i);
    }
    if Tells(H(t.log, r.jobId), r) {
      ReachableInv(t);
      assert IdOK(t, r.jobId) && H(t.log, r.jobId).submits > 0;
      var i := FindInQueue(q, r.jobId);
      BatchJobIsReported(s, t, q, e, i);
      assert IsResultOf(q, i, e, r);
    }
  }

  lemma ReportsAreDue(s: State, t: State, q: seq<Job>, e: B.Ending)
    requires Finished(s, t, q) && EndedAs(t, q, e)
    ensures multiset(ReportsOf(t.log)) == B.Due(q, e)
  {
    forall r: JobResult ensures multiset(ReportsOf(t.log))[r] == B.Due(q, e)[r] {
      ReachableIsTagged(t);
      EveryJournalIsClean(t, r.jobId);
      ReportsAreCounted(t.log, r);
      BatchHasDistinctIds(s);
      DueIsCounted(q, e, r);
      ReportedIsDue(s, t, q, e, r);
    }
    SameMultisets(multiset(ReportsOf(t.log)), B.Due(q, e));
  }

  /** A run that brings a batch to its end reports the multiset of results that module Batch does. */
  lemma EngineReportsAsBatch(s: State, run: seq<Label>, d: B.Demand, q: seq<Job>, e: B.Ending)
    requires Finishes(s, run, d, q) && EndedAs(End(s, run, d), q, e)
    ensures multiset(ReportsOf(End(s, run, d).log)) == multiset(B.Reports(s.policy, q, d, e))
  {
    FinishingRunIsFinished(s, run, d, q);
    ReportsAreDue(s, End(s, run, d), q, e);
    B.ReportsAreDue(s.policy, q, d, e);
  }

  // ----- exact sequences -----

  lemma AbsentIds(trace: seq<Job>, n: nat, id: JobId)
    requires n <= |trace| && B.Absent(trace[n..], id)
    ensures forall m :: n <= m < |trace| ==> Ids(trace)[m] != id
  {
    forall m | n <= m < |trace| ensures Ids(trace)[m] != id {
      assert trace[n..][m - n] == trace[m];
    }
  }

  /** Round Robin on the engine: job i gets its last burst at the dispatch that the demands give. */
  lemma EngineRoundRobinIndex(s: State, run: seq<Label>, d: B.Demand, q: seq<Job>, i: nat)
    requires Reachable(s) && s.policy == Fifo && Completes(s, run, d, q) && i < |q|
    ensures 1 <= B.EndsAt(q, d, i) <= |TakenIds(s, run, d)|
    ensures TakenIds(s, run, d)[B.EndsAt(q, d, i) - 1] == q[i].id
    ensures forall n :: B.EndsAt(q, d, i) <= n < |TakenIds(s, run, d)| ==> TakenIds(s, run, d)[n] != q[i].id
  {
    CompleteRunIsTheBatch(s, run, d, q);
    B.RoundRobinCompletionIndex(q, d, i);
    BatchHasDistinctIds(s);
    AbsentIds(B.Dispatches(Fifo, q, d), B.EndsAt(q, d, i), q[i].id);
  }

  /** With equal priorities, a complete MLFQ run of the engine dispatches as Round Robin does. */
  lemma EngineMlfqFollowsRoundRobin(s: State, run: seq<Label>, d: B.Demand, q: seq<Job>)
    requires s.policy == Mlfq && Completes(s, run, d, q)
    requires forall i :: 0 <= i < |q| ==> q[i].priority == q[0].priority
    ensures TakenIds(s, run, d) == Ids(B.Dispatches(Fifo, q, d))
  {
    CompleteRunIsTheBatch(s, run, d, q);
    B.EqualPrioritiesMakeMlfqRoundRobin(q, d);
  }

  /** So any complete MLFQ run and any complete Round Robin run dispatch alike. */
  lemma EngineMlfqIsRoundRobin(s: State, run: seq<Label>, s': State, run': seq<Label>, d: B.Demand, q: seq<Job>)
    requires s.policy == Mlfq && Completes(s, run, d, q)
    requires s'.policy == Fifo && Completes(s', run', d, q)
    requires forall i :: 0 <= i < |q| ==> q[i].priority == q[0].priority
    ensures TakenIds(s, run, d) == TakenIds(s', run', d)
  {
    EngineMlfqFollowsRoundRobin(s, run, d, q);
    CompleteRunIsTheBatch(s', run', d, q);
  }
}
