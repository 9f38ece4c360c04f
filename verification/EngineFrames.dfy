/** What a step can change at all: the control-flow graph of a worker, and the frame around it. */
module EngineFrames {
  import opened Jobs
  import opened Schedulers
  import opened Engine

  /** The same job, up to the identity that a first burst writes. */
  predicate SameWork(j: Job, j': Job) {
    j' == j.(pid := j'.pid, uniqueId := j'.uniqueId)
  }

  /** The label is a step of worker w's own program. */
  predicate Acts(l: Label, w: int) {
    match l
    case Check(v) => v == w
    case Lock(v) => v == w
    case Builtin(v) => v == w
    case Launch(v, _) => v == w
    case Resume(v) => v == w
    case Poll(v) => v == w
    case Pause(v) => v == w
    case Block(v) => v == w
    case Requeue(v, _) => v == w
    case Report(v) => v == w
    case Settle(v) => v == w
    case _ => false
  }

  /** The edges of `workerLoop`, with `dequeue` and `execute` inlined. */
  predicate Edge(s: State, p: Phase, q: Phase) {
    match p
    case Checking => q == if s.control.Up? then Entering else Gone
    case Entering => AfterLock(s, q)
    case Woken => AfterLock(s, q)
    case Asleep => false
    case Holding(j) => (q.Polling? || q.Blocking? || q.Reporting?) && SameWork(j, q.job)
    case Polling(j, _, _) => (q.Pausing? || q.Requeueing? || q.Reporting?) && SameWork(j, q.job)
    case Pausing(j, _, _) => q.Polling? && SameWork(j, q.job)
    case Blocking(j) => q.Reporting? && SameWork(j, q.job)
    case Requeueing(_) => q.Checking?
    case Reporting(_, _) => q.Settling?
    case Settling(_, _) => q.Checking?
    case Gone => false
  }

  predicate AfterLock(s: State, q: Phase) {
    if s.jobs != [] then q == Holding(Next(s.policy, s.jobs))
    else q == if s.stopping then Gone else Asleep
  }

  predicate WorkerFrame(l: Label, s: State, t: State, v: int)
    requires 0 <= v < |s.workers| == |t.workers|
  {
    if Acts(l, v) then Edge(s, s.workers[v], t.workers[v])
    else t.workers[v] == s.workers[v] || (s.workers[v].Asleep? && t.workers[v].Woken?)
  }

  predicate LeavesQueue(s: State, l: Label) {
    !l.Submit? && !l.Requeue? && !(l.Lock? && s.jobs != [])
  }

  /** At most one entry is added. Only a submission adds a submission, and a result carries the id of
      its own job. */
  predicate LogGrew(s: State, l: Label, t: State) {
    && |s.log| <= |t.log| <= |s.log| + 1 && t.log[..|s.log|] == s.log
    && (|t.log| > |s.log| ==>
          var e := t.log[|s.log|];
          (e.Submitted? ==> l.Submit?) && (e.Reported? ==> e.result.jobId == e.id))
  }

  /** A step of the thread that calls `start` and `stop`. */
  predicate IsControl(l: Label) {
    l.Start? || l.StopClear? || l.StopFlag? || l.StopNotify? || l.StopJoined?
  }

  predicate Framed(s: State, l: Label, t: State) {
    && t.policy == s.policy && t.threads == s.threads && LogGrew(s, l, t)
    && (s.stopping ==> t.stopping)
    && (!IsControl(l) ==> t.control == s.control && t.stopping == s.stopping)
    && (t.control.Up? ==> s.control.Up? || l.Start?)
    && (LeavesQueue(s, l) ==> t.jobs == s.jobs)
    && (!l.Start? ==>
          |t.workers| == |s.workers| && forall v :: 0 <= v < |s.workers| ==> WorkerFrame(l, s, t, v))
  }

  lemma IdleFrame(s: State, l: Label)
    requires Enabled(s, l) && (l.Check? || l.Lock? || l.Spurious?)
    ensures Framed(s, l, Apply(s, l))
  {
  }

  lemma LaunchFrame(s: State, w: nat, spawn: Spawn)
    requires w < |s.workers| && s.workers[w].Holding?
    ensures Framed(s, Launch(w, spawn), LaunchStep(s, w, spawn))
  {
  }

  lemma PollFrame(s: State, w: nat)
    requires w < |s.workers| && s.workers[w].Polling?
    ensures Framed(s, Poll(w), PollStep(s, w))
  {
  }

  lemma PauseFrame(s: State, w: nat)
    requires w < |s.workers| && s.workers[w].Pausing?
    ensures Framed(s, Pause(w), PauseStep(s, w))
  {
  }

  lemma BlockFrame(s: State, w: nat)
    requires Enabled(s, Block(w))
    ensures Framed(s, Block(w), BlockStep(s, w))
  {
  }

  lemma MoveFrame(s: State, l: Label)
    requires Enabled(s, l) && (l.Builtin? || l.Resume? || l.Report? || l.Settle?)
    ensures Framed(s, l, Apply(s, l))
  {
  }

  lemma QueueFrame(s: State, l: Label)
    requires Enabled(s, l) && (l.Submit? || l.Requeue?)
    ensures Framed(s, l, Apply(s, l))
  {
  }

  lemma OutsideFrame(s: State, l: Label)
    requires Enabled(s, l)
    requires l.Start? || l.StopClear? || l.StopFlag? || l.StopNotify? || l.StopJoined?
             || l.SetGroup? || l.Deliver? || l.SelfStop? || l.Die?
    ensures Framed(s, l, Apply(s, l))
  {
  }

  lemma StepFrame(s: State, l: Label)
    requires Enabled(s, l)
    ensures Framed(s, l, Apply(s, l))
  {
    if l.Check? || l.Lock? || l.Spurious? {
      IdleFrame(s, l);
    } else if l.Launch? {
      LaunchFrame(s, l.w, l.spawn);
    } else if l.Poll? {
      PollFrame(s, l.w);
    } else if l.Pause? {
      PauseFrame(s, l.w);
    } else if l.Block? {
      BlockFrame(s, l.w);
    } else if l.Builtin? || l.Resume? || l.Report? || l.Settle? {
      MoveFrame(s, l);
    } else if l.Submit? || l.Requeue? {
      QueueFrame(s, l);
    } else {
      OutsideFrame(s, l);
    }
  }
}
