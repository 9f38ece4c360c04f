/** What `WorkerPool::stop` brings about: src/WorkerPool.cpp:17-42, src/InMemoryJobQueue.cpp:12-29. */
module Shutdown {
  import opened Jobs
  import opened Engine
  import opened EngineFrames
  import opened EngineInvariant
  import opened EngineSafety

  /** A step of worker w's own program. Polls inside `execute` are left out, since nothing but the
      child bounds them. */
  predicate OwnStep(l: Label, w: nat) {
    Acts(l, w) && !l.Poll? && !l.Pause?
  }

  /** How far a worker is from leaving `workerLoop` once running_ is false. */
  function Distance(p: Phase): nat {
    match p
    case Gone => 0
    case Checking => 1
    case Settling(_, _) => 2
    case Requeueing(_) => 2
    case Reporting(_, _) => 3
    case Polling(_, _, _) => 4
    case Pausing(_, _, _) => 4
    case Blocking(_) => 4
    case Holding(_) => 5
    case Entering => 6
    case Woken => 6
    case Asleep => 7
  }

  function OwnSteps(run: seq<Label>, w: nat): nat {
    if run == [] then 0 else One(OwnStep(run[0], w)) + OwnSteps(run[1..], w)
  }

  predicate NoRestart(run: seq<Label>) {
    forall i :: 0 <= i < |run| ==> !run[i].Start?
  }

  lemma EdgeBringsExitCloser(s: State, p: Phase, q: Phase)
    requires !s.control.Up? && s.stopping && Edge(s, p, q)
    ensures Distance(q) <= Distance(p)
    ensures !p.Polling? && !p.Pausing? ==> Distance(q) < Distance(p)
  {
  }

  lemma StepBringsExitCloser(s: State, l: Label, w: nat)
    requires !s.control.Up? && s.stopping && w < |s.workers| && Enabled(s, l) && !l.Start?
    ensures
      var t := Apply(s, l);
      && !t.control.Up? && t.stopping && |t.workers| == |s.workers|
      && One(OwnStep(l, w)) + Distance(t.workers[w]) <= Distance(s.workers[w])
  {
    var t := Apply(s, l);
    StepFrame(s, l);
    assert WorkerFrame(l, s, t, w);
    if Acts(l, w) {
      EdgeBringsExitCloser(s, s.workers[w], t.workers[w]);
    }
  }

  /** From the moment `stop` has set both flags, a worker makes at most seven more steps of its own,
      polls aside, and every one of them brings it closer to the end of its loop. */
  lemma {:induction false} WorkersExitWithinSevenSteps(s: State, run: seq<Label>, w: nat)
    requires !s.control.Up? && s.stopping && w < |s.workers|
    requires ValidRun(s, run) && NoRestart(run)
    ensures |After(s, run).workers| == |s.workers|
    ensures OwnSteps(run, w) + Distance(After(s, run).workers[w]) <= Distance(s.workers[w]) <= 7
    decreases |run|
  {
    if run != [] {
      StepBringsExitCloser(s, run[0], w);
      WorkersExitWithinSevenSteps(Apply(s, run[0]), run[1..], w);
    }
  }

  /** Nothing but a live child can hold a worker up: while `stop` joins, every worker has left or
      can move. */
  lemma DrainingWorkerCanMove(s: State, w: nat)
    requires Reachable(s) && s.control.Draining? && w < |s.workers|
    ensures s.workers[w].Gone? || IsNotIdle(s, w)
  {
    ReachableInv(s);
    if !s.workers[w].Gone? {
      AwakeWorkerIsNotIdle(s, w);
    }
  }

  // ----- at most one more job -----

  predicate Takes(s: State, l: Label, w: nat) {
    l == Lock(w) && s.jobs != []
  }

  function TakesIn(s: State, run: seq<Label>, w: nat): nat
    requires ValidRun(s, run)
    decreases |run|
  {
    if run == [] then 0 else One(Takes(s, run[0], w)) + TakesIn(Apply(s, run[0]), run[1..], w)
  }

  function MayTake(p: Phase): nat {
    One(p.Entering? || p.Woken? || p.Asleep?)
  }

  lemma TakingIsUsedUp(s: State, l: Label, w: nat)
    requires !s.control.Up? && w < |s.workers| && Enabled(s, l) && !l.Start?
    ensures
      var t := Apply(s, l);
      && !t.control.Up? && |t.workers| == |s.workers|
      && One(Takes(s, l, w)) + MayTake(t.workers[w]) <= MayTake(s.workers[w])
  {
    StepFrame(s, l);
    assert WorkerFrame(l, s, Apply(s, l), w);
  }

  /** After running_ is cleared each worker dequeues at most one more job, and none if it was not
      inside `dequeue` already. */
  lemma {:induction false} AtMostOneMoreJob(s: State, run: seq<Label>, w: nat)
    requires !s.control.Up? && w < |s.workers|
    requires ValidRun(s, run) && NoRestart(run)
    ensures TakesIn(s, run, w) <= MayTake(s.workers[w]) <= 1
    decreases |run|
  {
    if run != [] {
      TakingIsUsedUp(s, run[0], w);
      AtMostOneMoreJob(Apply(s, run[0]), run[1..], w);
    }
  }

  // ----- after the joins -----

  /** Every job is still queued with its promise unset, or settled with its promise, if it has one,
      fulfilled; and no sandbox runs. */
  lemma AfterTheJoins(s: State, id: JobId)
    requires Reachable(s) && s.control.Down?
    ensures AtWorkers(s.workers, id) == 0
    ensures InQueue(s.jobs, id) + H(s.log, id).settles == H(s.log, id).submits <= 1
    ensures InQueue(s.jobs, id) == 1 ==> H(s.log, id).reports == 0 && H(s.log, id).promise == None
    ensures H(s.log, id).submits == 1 && InQueue(s.jobs, id) == 0 && H(s.log, id).hasPromise ==>
      H(s.log, id).promise.Some?
    ensures RunningPids(s) == {}
  {
    ReachableInv(s);
    NobodyCarries(s.workers, id);
    ExactlyOnce(s, id);
    EveryJournalIsClean(s, id);
    assert forall p :: p in s.procs ==> !s.procs[p].st.Running?;
    assert RunningPids(s) == {};
    if InQueue(s.jobs, id) == 1 {
      var i := FindInQueue(s.jobs, id);
      assert s.jobs[i].id == id;
    }
  }
}
