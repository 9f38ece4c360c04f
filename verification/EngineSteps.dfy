/** Every step of the engine keeps the invariant. */
module EngineSteps {
  import opened Jobs
  import opened Schedulers
  import opened Engine
  import opened EngineInvariant

  // ----- frames shared by the steps -----

  lemma LogTells(s: State, t: State, e: Event)
    requires t.log == s.log + [e]
    ensures forall id: JobId {:trigger H(t.log, id)} ::
      H(t.log, id) == if e.id == id then Note(H(s.log, id), e) else H(s.log, id)
  {
    forall id: JobId
      ensures H(t.log, id) == if e.id == id then Note(H(s.log, id), e) else H(s.log, id)
    {
      HSnoc(s.log, e, id);
    }
  }

  /** Moving between two phases that neither sleep nor leave changes nothing about wake-ups. */
  lemma BusyMoveKeepsWakeups(s: State, t: State, w: nat, p: Phase)
    requires WakeupsOK(s) && w < |s.workers|
    requires !s.workers[w].Asleep? && !s.workers[w].Woken? && !s.workers[w].Gone?
    requires !p.Asleep? && !p.Woken? && !p.Gone?
    requires t.workers == s.workers[w := p]
    requires t.control == s.control && t.stopping == s.stopping && t.jobs == s.jobs && t.threads == s.threads
    ensures WakeupsOK(t)
  {
    WokenCountUpdate(s.workers, w, p);
    if !NoneAsleep(t.workers) {
      var v :| 0 <= v < |t.workers| && t.workers[v].Asleep?;
      assert s.workers[v].Asleep?;
    }
  }

  /** Only worker w's own child changed, and either it does not run or w still waits for it. */
  lemma OwnChildKeepsHeld(s: State, t: State, w: nat, pid: int)
    requires RunningIsHeld(s) && w < |s.workers| && |t.workers| == |s.workers|
    requires t.workers == s.workers[w := t.workers[w]]
    requires Executing(s.workers[w]) ==> s.workers[w].job.pid == pid
    requires forall p :: p != pid && p in t.procs ==> p in s.procs && t.procs[p] == s.procs[p]
    requires pid in t.procs && t.procs[pid].st.Running? ==> HeldBy(t.workers, w, pid)
    ensures RunningIsHeld(t)
  {
    forall p | p in t.procs && t.procs[p].st.Running? ensures exists v :: HeldBy(t.workers, v, p) {
      if p == pid {
        assert HeldBy(t.workers, w, p);
      } else {
        var v :| HeldBy(s.workers, v, p);
        assert HeldBy(t.workers, v, p);
      }
    }
  }

  /** Puts the parts of a local step together. */
  lemma LocalStepKeepsInv(s: State, t: State, w: nat)
    requires Inv(s) && LocalStep(s, t, w)
    requires PhaseOK(t, t.workers[w]) && IdOK(t, s.workers[w].job.id) && RunningIsHeld(t) && TablesOK(t)
    requires H(t.log, s.workers[w].job.id).submits == 1 && H(t.log, s.workers[w].job.id).settles == 0
    requires t.control == s.control && t.stopping == s.stopping && t.threads == s.threads
    ensures Inv(t)
  {
    LocalStepKeepsJobs(s, t, w);
    LocalStepKeepsAccount(s, t, w);
    BusyMoveKeepsWakeups(s, t, w, t.workers[w]);
  }

  /** No child, no file and no history was touched. */
  ghost predicate SameRecords(s: State, t: State) {
    t.log == s.log && t.procs == s.procs && t.files == s.files
  }

  lemma SameRecordsKeepQueued(s: State, t: State, j: Job)
    requires SameRecords(s, t) && QueuedOK(s, j)
    ensures QueuedOK(t, j)
  {
  }

  lemma SameRecordsKeepPhase(s: State, t: State, p: Phase)
    requires SameRecords(s, t) && PhaseOK(s, p)
    ensures PhaseOK(t, p)
  {
  }

  lemma SameRecordsKeepIds(s: State, t: State)
    requires SameRecords(s, t) && forall id: JobId :: IdOK(s, id)
    ensures forall id: JobId :: IdOK(t, id)
  {
    forall id: JobId ensures IdOK(t, id) {
      assert IdOK(s, id);
    }
  }

  /** Nothing but workers without a job changed. */
  lemma QuietKeepsJobs(s: State, t: State)
    requires JobsOK(s) && SameRecords(s, t) && t.jobs == s.jobs
    requires forall v :: 0 <= v < |t.workers| && Carries(t.workers[v]) ==>
      v < |s.workers| && t.workers[v] == s.workers[v]
    ensures JobsOK(t)
  {
    forall i | 0 <= i < |t.jobs| ensures QueuedOK(t, t.jobs[i]) {
      SameRecordsKeepQueued(s, t, s.jobs[i]);
    }
    forall v | 0 <= v < |t.workers| ensures PhaseOK(t, t.workers[v]) {
      if Carries(t.workers[v]) {
        SameRecordsKeepPhase(s, t, s.workers[v]);
      }
    }
    SameRecordsKeepIds(s, t);
  }

  // ----- a worker and the job it carries -----

  /** What a step of worker w must show about the job it carries. */
  ghost predicate KeepsOwnJob(s: State, t: State, w: nat)
    requires w < |s.workers| == |t.workers| && Carries(s.workers[w])
  {
    var id := s.workers[w].job.id;
    && PhaseOK(t, t.workers[w]) && IdOK(t, id) && TablesOK(t) && OnlyTouches(s, t, id)
    && H(t.log, id).submits == 1 && H(t.log, id).settles == 0
  }

  ghost predicate OwnJobOK(s: State, w: nat) {
    && w < |s.workers| && Carries(s.workers[w]) && TablesOK(s)
    && PhaseOK(s, s.workers[w]) && IdOK(s, s.workers[w].job.id)
  }

  lemma OwnJobIsOK(s: State, w: nat)
    requires Inv(s) && w < |s.workers| && Carries(s.workers[w])
    ensures OwnJobOK(s, w)
  {
  }

  lemma BuiltinKeepsOwnJob(s: State, w: nat)
    requires OwnJobOK(s, w) && Enabled(s, Builtin(w))
    ensures KeepsOwnJob(s, Apply(s, Builtin(w)), w)
  {

  }

  lemma BuiltinKeepsInv(s: State, w: nat)
    requires Inv(s) && Enabled(s, Builtin(w))
    ensures Inv(Apply(s, Builtin(w)))
  {
    var t := Apply(s, Builtin(w));
    OwnJobIsOK(s, w);
    BuiltinKeepsOwnJob(s, w);
    OwnChildKeepsHeld(s, t, w, 0);
    LocalStepKeepsInv(s, t, w);
  }

  lemma FailedLaunchKeepsOwnJob(s: State, w: nat, spawn: Spawn)
    requires OwnJobOK(s, w) && w < |s.workers| && s.workers[w].Holding? && !IsBuiltin(s.workers[w].job.cmd)
    requires s.workers[w].job.pid <= 0 && !spawn.Spawned?
    ensures KeepsOwnJob(s, LaunchStep(s, w, spawn), w)
  {

  }

  lemma FailedLaunchKeepsInv(s: State, w: nat, spawn: Spawn)
    requires Inv(s) && w < |s.workers| && s.workers[w].Holding? && !IsBuiltin(s.workers[w].job.cmd)
    requires s.workers[w].job.pid <= 0 && !spawn.Spawned?
    ensures Inv(LaunchStep(s, w, spawn))
  {
    var t := LaunchStep(s, w, spawn);
    OwnJobIsOK(s, w);
    FailedLaunchKeepsOwnJob(s, w, spawn);
    OwnChildKeepsHeld(s, t, w, 0);
    LocalStepKeepsInv(s, t, w);
  }

  lemma SpawnKeepsOwnJob(s: State, w: nat, pid: int)
    requires OwnJobOK(s, w) && w < |s.workers| && s.workers[w].Holding? && !IsBuiltin(s.workers[w].job.cmd)
    requires s.workers[w].job.pid <= 0 && pid > 0 && pid !in s.procs
    ensures KeepsOwnJob(s, LaunchStep(s, w, Spawned(pid)), w)
  {
    var t := LaunchStep(s, w, Spawned(pid));
    var j := s.workers[w].job;
    LogTells(s, t, Cloned(j.id, pid, s.nextUid));
  }

  lemma SpawnKeepsInv(s: State, w: nat, pid: int)
    requires Inv(s) && w < |s.workers| && s.workers[w].Holding? && !IsBuiltin(s.workers[w].job.cmd)
    requires s.workers[w].job.pid <= 0 && pid > 0 && pid !in s.procs
    ensures Inv(LaunchStep(s, w, Spawned(pid)))
  {
    var t := LaunchStep(s, w, Spawned(pid));
    OwnJobIsOK(s, w);
    SpawnKeepsOwnJob(s, w, pid);
    OwnChildKeepsHeld(s, t, w, pid);
    LocalStepKeepsInv(s, t, w);
  }

  lemma ResumeKeepsOwnJob(s: State, w: nat)
    requires OwnJobOK(s, w) && Enabled(s, Resume(w))
    ensures KeepsOwnJob(s, ResumeStep(s, w), w)
  {
    var j := s.workers[w].job;
    LogTells(s, ResumeStep(s, w), Resumed(j.id, j.pid));
  }

  lemma ResumeKeepsInv(s: State, w: nat)
    requires Inv(s) && w < |s.workers| && s.workers[w].Holding?
    requires !IsBuiltin(s.workers[w].job.cmd) && s.workers[w].job.pid > 0
    ensures Inv(ResumeStep(s, w))
  {
    var t := ResumeStep(s, w);
    OwnJobIsOK(s, w);
    ResumeKeepsOwnJob(s, w);
    OwnChildKeepsHeld(s, t, w, s.workers[w].job.pid);
    LocalStepKeepsInv(s, t, w);
  }

  ghost predicate Reapable(s: State, w: nat, st: Status) {
    && w < |s.workers| && Executing(s.workers[w])
    && s.workers[w].job.pid in s.procs && s.procs[s.workers[w].job.pid].st == Zombie(st)
  }

  lemma ReapKeepsOwnJob(s: State, w: nat, st: Status, r: ExecResult)
    requires OwnJobOK(s, w) && Reapable(s, w, st) && r == DecodeBlocked(st)
    ensures KeepsOwnJob(s, ReapStep(s, w, s.workers[w].job, st, r), w)
  {
    var j := s.workers[w].job;
    LogTells(s, ReapStep(s, w, j, st, r), Reaped(j.id, st));
  }

  lemma ReapKeepsInv(s: State, w: nat, st: Status, r: ExecResult)
    requires Inv(s) && Reapable(s, w, st) && r == DecodeBlocked(st)
    ensures Inv(ReapStep(s, w, s.workers[w].job, st, r))
  {
    var t := ReapStep(s, w, s.workers[w].job, st, r);
    OwnJobIsOK(s, w);
    ReapKeepsOwnJob(s, w, st, r);
    OwnChildKeepsHeld(s, t, w, s.workers[w].job.pid);
    LocalStepKeepsInv(s, t, w);
  }

  /** A poll that sees a stop, or nothing. */
  lemma LivePollKeepsOwnJob(s: State, w: nat)
    requires OwnJobOK(s, w) && w < |s.workers| && s.workers[w].Polling?
    requires s.workers[w].job.pid in s.procs && !s.procs[s.workers[w].job.pid].st.Zombie?
    ensures KeepsOwnJob(s, PollStep(s, w), w)
  {
    var t := PollStep(s, w);
    var j := s.workers[w].job;
    if s.procs[j.pid].st == Stopped(false) {
      LogTells(s, t, Preempted(j.id));
    }
  }

  lemma PollKeepsInv(s: State, w: nat)
    requires Inv(s) && w < |s.workers| && s.workers[w].Polling?
    ensures Inv(PollStep(s, w))
  {
    var t := PollStep(s, w);
    var j := s.workers[w].job;
    assert PhaseOK(s, s.workers[w]);
    if s.procs[j.pid].st.Zombie? {
      ReapKeepsInv(s, w, s.procs[j.pid].st.status, DecodePolled(s.procs[j.pid].st.status));
    } else {
      OwnJobIsOK(s, w);
      LivePollKeepsOwnJob(s, w);
      OwnChildKeepsHeld(s, t, w, j.pid);
      LocalStepKeepsInv(s, t, w);
    }
  }

  lemma PauseKeepsOwnJob(s: State, w: nat)
    requires OwnJobOK(s, w) && w < |s.workers| && s.workers[w].Pausing?
    ensures KeepsOwnJob(s, PauseStep(s, w), w)
  {
    var j := s.workers[w].job;
    if s.workers[w].ms >= j.timeQuantum {
      LogTells(s, PauseStep(s, w), StopSent(j.id, j.pid));
    }
  }

  lemma PauseKeepsInv(s: State, w: nat)
    requires Inv(s) && w < |s.workers| && s.workers[w].Pausing?
    ensures Inv(PauseStep(s, w))
  {
    var t := PauseStep(s, w);
    OwnJobIsOK(s, w);
    PauseKeepsOwnJob(s, w);
    OwnChildKeepsHeld(s, t, w, s.workers[w].job.pid);
    LocalStepKeepsInv(s, t, w);
  }

  lemma BlockKeepsInv(s: State, w: nat)
    requires Inv(s) && Enabled(s, Block(w))
    ensures Inv(Apply(s, Block(w)))
  {
    var j := s.workers[w].job;
    assert PhaseOK(s, s.workers[w]) && IdOK(s, s.workers[w].job.id);
    var st := s.procs[j.pid].st.status;
    ReapKeepsInv(s, w, st, DecodeBlocked(st));
  }

  lemma ReportKeepsInv(s: State, w: nat)
    requires Inv(s) && w < |s.workers| && s.workers[w].Reporting?
    ensures Inv(ReportStep(s, w))
  {
    var t := ReportStep(s, w);
    var j := s.workers[w].job;
    assert PhaseOK(s, s.workers[w]) && IdOK(s, s.workers[w].job.id);
    LogTells(s, t, Reported(j.id, ResultFor(j, s.workers[w].res)));
    OwnChildKeepsHeld(s, t, w, 0);
    LocalStepKeepsInv(s, t, w);
  }

  // ----- a job changes hands -----

  lemma SettleKeepsAccount(s: State, w: nat)
    requires Accounted(s) && w < |s.workers| && s.workers[w].Settling?
    ensures Accounted(SettleStep(s, w))
  {
    var t := SettleStep(s, w);
    var Settling(j, r) := s.workers[w];
    LogTells(s, t, Settled(j.id, if j.hasPromise then Some(PromiseValue(r)) else None));
    forall id: JobId
      ensures InQueue(t.jobs, id) + AtWorkers(t.workers, id) + H(t.log, id).settles == H(t.log, id).submits <= 1
    {
      AtWorkersUpdate(s.workers, w, Checking, id);
      assert H(s.log, id).submits <= 1;
    }
  }

  lemma SettleKeepsInv(s: State, w: nat)
    requires Inv(s) && w < |s.workers| && s.workers[w].Settling?
    ensures Inv(SettleStep(s, w))
  {
    var t := SettleStep(s, w);
    var Settling(j, r) := s.workers[w];
    assert PhaseOK(s, s.workers[w]) && IdOK(s, s.workers[w].job.id);
    LogTells(s, t, Settled(j.id, if j.hasPromise then Some(PromiseValue(r)) else None));
    OwnChildKeepsHeld(s, t, w, 0);
    BusyMoveKeepsWakeups(s, t, w, Checking);
    SettleKeepsAccount(s, w);
    ReleaseKeepsJobs(s, t, w);
  }

  /** Worker w lets go of its job, which is from then on accounted for elsewhere. */
  lemma ReleaseKeepsJobs(s: State, t: State, w: nat)
    requires Accounted(s) && JobsOK(s) && w < |s.workers| && Carries(s.workers[w])
    requires t.workers == s.workers[w := Checking] && t.jobs == s.jobs
    requires OnlyTouches(s, t, s.workers[w].job.id)
    requires IdOK(t, s.workers[w].job.id)
    ensures JobsOK(t)
  {
    var x := s.workers[w].job.id;
    forall i | 0 <= i < |t.jobs| ensures QueuedOK(t, t.jobs[i]) {
      QueuedIsNotHeld(s, i, w);
      OtherQueuedKept(s, t, x, s.jobs[i]);
    }
    forall v | 0 <= v < |t.workers| ensures PhaseOK(t, t.workers[v]) {
      if v != w {
        if Carries(s.workers[v]) {
          HoldersAreDistinct(s, w, v);
        }
        OtherPhaseKept(s, t, x, s.workers[v]);
      }
    }
    forall id: JobId ensures IdOK(t, id) {
      assert IdOK(s, id);
    }
  }

  /** Waking a sleeper, or nobody, together with one more job keeps the wake-up account. */
  lemma EnqueueKeepsWakeups(s: State, t: State, wake: Option<nat>, j: Job)
    requires WakeupsOK(s) && CanWake(s.workers, wake)
    requires t.workers == Wake(s.workers, wake) && t.jobs == s.jobs + [j]
    requires t.control == s.control && t.stopping == s.stopping && t.threads == s.threads
    ensures WakeupsOK(t)
  {
    if wake.Some? {
      WokenCountUpdate(s.workers, wake.value, Woken);
    }
    if !NoneAsleep(t.workers) {
      var v :| 0 <= v < |t.workers| && t.workers[v].Asleep?;
      assert s.workers[v].Asleep?;
    }
  }

  lemma WakeKeepsHeld(s: State, t: State, wake: Option<nat>)
    requires RunningIsHeld(s) && CanWake(s.workers, wake)
    requires t.workers == Wake(s.workers, wake) && t.procs == s.procs
    ensures RunningIsHeld(t)
  {
    forall p | p in t.procs && t.procs[p].st.Running? ensures exists v :: HeldBy(t.workers, v, p) {
      var v :| HeldBy(s.workers, v, p);
      assert HeldBy(t.workers, v, p);
    }
  }

  lemma SubmitKeepsInv(s: State, j: Job, wake: Option<nat>)
    requires Inv(s) && CanSubmit(s, j) && CanWake(s.workers, wake)
    ensures Inv(SubmitStep(s, j, wake))
  {
    var t := SubmitStep(s, j, wake);
    LogTells(s, t, Submitted(j.id, j.cmd, j.hasPromise));
    EnqueueKeepsWakeups(s, t, wake, j);
    WakeKeepsHeld(s, t, wake);
    forall id: JobId
      ensures InQueue(t.jobs, id) + AtWorkers(t.workers, id) + H(t.log, id).settles == H(t.log, id).submits <= 1
    {
      InQueueSnoc(s.jobs, j, id);
      WakeKeepsCarriers(s.workers, wake, id);
      assert H(s.log, id).submits <= 1;
    }
    SubmitKeepsJobs(s, t, j, wake);
  }

  lemma SubmitKeepsJobs(s: State, t: State, j: Job, wake: Option<nat>)
    requires Inv(s) && CanSubmit(s, j) && CanWake(s.workers, wake) && t == SubmitStep(s, j, wake)
    ensures JobsOK(t)
  {
    LogTells(s, t, Submitted(j.id, j.cmd, j.hasPromise));
    assert IdOK(s, j.id);
    forall i | 0 <= i < |t.jobs| ensures QueuedOK(t, t.jobs[i]) {
      if i < |s.jobs| {
        assert QueuedOK(s, s.jobs[i]);
        OtherQueuedKept(s, t, j.id, s.jobs[i]);
      }
    }
    forall v | 0 <= v < |t.workers| ensures PhaseOK(t, t.workers[v]) {
      if Carries(s.workers[v]) {
        HeldIsLive(s, v);
      }
      OtherPhaseKept(s, t, j.id, s.workers[v]);
    }
    forall id: JobId ensures IdOK(t, id) {
      assert IdOK(s, id);
    }
  }

  lemma RequeueKeepsAccount(s: State, w: nat, wake: Option<nat>)
    requires Accounted(s) && w < |s.workers| && s.workers[w].Requeueing? && CanWake(s.workers, wake)
    ensures Accounted(RequeueStep(s, w, wake))
  {
    var t := RequeueStep(s, w, wake);
    var j := s.workers[w].job;
    forall id: JobId
      ensures InQueue(t.jobs, id) + AtWorkers(t.workers, id) + H(t.log, id).settles == H(t.log, id).submits <= 1
    {
      InQueueSnoc(s.jobs, Demoted(j), id);
      WakeKeepsCarriers(s.workers, wake, id);
      AtWorkersUpdate(Wake(s.workers, wake), w, Checking, id);
      assert H(s.log, id).submits <= 1;
    }
  }

  lemma RequeuedIsQueued(s: State, w: nat, wake: Option<nat>)
    requires w < |s.workers| && s.workers[w].Requeueing? && CanWake(s.workers, wake) && PhaseOK(s, s.workers[w])
    ensures QueuedOK(RequeueStep(s, w, wake), Demoted(s.workers[w].job))
  {
  }

  lemma RequeueKeepsQueue(s: State, w: nat, wake: Option<nat>)
    requires w < |s.workers| && s.workers[w].Requeueing? && CanWake(s.workers, wake) && PhaseOK(s, s.workers[w])
    requires forall i :: 0 <= i < |s.jobs| ==> QueuedOK(s, s.jobs[i])
    ensures
      var t := RequeueStep(s, w, wake);
      forall i :: 0 <= i < |t.jobs| ==> QueuedOK(t, t.jobs[i])
  {
    var t := RequeueStep(s, w, wake);
    RequeuedIsQueued(s, w, wake);
    forall i | 0 <= i < |t.jobs| ensures QueuedOK(t, t.jobs[i]) {
      if i < |s.jobs| {
        SameRecordsKeepQueued(s, t, s.jobs[i]);
      }
    }
  }

  lemma RequeueKeepsPhases(s: State, w: nat, wake: Option<nat>)
    requires w < |s.workers| && s.workers[w].Requeueing? && CanWake(s.workers, wake)
    requires forall v :: 0 <= v < |s.workers| ==> PhaseOK(s, s.workers[v])
    ensures
      var t := RequeueStep(s, w, wake);
      forall v :: 0 <= v < |t.workers| ==> PhaseOK(t, t.workers[v])
  {
    var t := RequeueStep(s, w, wake);
    forall v | 0 <= v < |t.workers| ensures PhaseOK(t, t.workers[v]) {
      SameRecordsKeepPhase(s, t, s.workers[v]);
    }
  }

  lemma RequeueKeepsJobs(s: State, w: nat, wake: Option<nat>)
    requires JobsOK(s) && w < |s.workers| && s.workers[w].Requeueing? && CanWake(s.workers, wake)
    ensures JobsOK(RequeueStep(s, w, wake))
  {
    RequeueKeepsQueue(s, w, wake);
    RequeueKeepsPhases(s, w, wake);
    SameRecordsKeepIds(s, RequeueStep(s, w, wake));
  }

  lemma RequeueKeepsInv(s: State, w: nat, wake: Option<nat>)
    requires Inv(s) && w < |s.workers| && s.workers[w].Requeueing? && CanWake(s.workers, wake)
    ensures Inv(RequeueStep(s, w, wake))
  {
    var t := RequeueStep(s, w, wake);
    var m := s.(workers := s.workers[w := Checking]);
    OwnChildKeepsHeld(s, m, w, 0);
    BusyMoveKeepsWakeups(s, m, w, Checking);
    assert CanWake(m.workers, wake);
    assert t.workers == Wake(m.workers, wake);
    WakeKeepsHeld(m, t, wake);
    EnqueueKeepsWakeups(m, t, wake, Demoted(s.workers[w].job));
    RequeueKeepsAccount(s, w, wake);
    RequeueKeepsJobs(s, w, wake);
  }

  lemma TakeKeepsInv(s: State, w: nat)
    requires Inv(s) && w < |s.workers| && (s.workers[w].Entering? || s.workers[w].Woken?) && s.jobs != []
    ensures Inv(LockStep(s, w))
  {
    var t := LockStep(s, w);
    var c := Choice(s.policy, s.jobs);
    var j := s.jobs[c];
    assert QueuedOK(s, j);
    LogTells(s, t, Taken(j.id, w));
    OwnChildKeepsHeld(s, t, w, 0);
    forall id: JobId
      ensures InQueue(t.jobs, id) + AtWorkers(t.workers, id) + H(t.log, id).settles == H(t.log, id).submits <= 1
    {
      InQueueWithout(s.jobs, c, id);
      AtWorkersUpdate(s.workers, w, Holding(j), id);
      assert H(s.log, id).submits <= 1;
    }
    TakeKeepsJobs(s, t, w);
    TakeKeepsWakeups(s, t, w);
  }

  lemma TakeKeepsQueue(s: State, t: State, c: nat)
    requires Accounted(s) && c < |s.jobs| && t.jobs == Without(s.jobs, c) && OnlyTouches(s, t, s.jobs[c].id)
    requires forall i :: 0 <= i < |s.jobs| ==> QueuedOK(s, s.jobs[i])
    ensures forall i :: 0 <= i < |t.jobs| ==> QueuedOK(t, t.jobs[i])
  {
    forall i | 0 <= i < |t.jobs| ensures QueuedOK(t, t.jobs[i]) {
      var k := if i < c then i else i + 1;
      assert t.jobs[i] == s.jobs[k];
      if k < c {
        QueueHasNoDuplicates(s, k, c);
      } else {
        QueueHasNoDuplicates(s, c, k);
      }
      OtherQueuedKept(s, t, s.jobs[c].id, s.jobs[k]);
    }
  }

  lemma TakeKeepsPhases(s: State, t: State, c: nat, w: nat)
    requires Accounted(s) && c < |s.jobs| && OnlyTouches(s, t, s.jobs[c].id)
    requires w < |s.workers| == |t.workers| && t.workers == s.workers[w := t.workers[w]]
    requires PhaseOK(t, t.workers[w])
    requires forall v :: 0 <= v < |s.workers| ==> PhaseOK(s, s.workers[v])
    ensures forall v :: 0 <= v < |t.workers| ==> PhaseOK(t, t.workers[v])
  {
    forall v | 0 <= v < |t.workers| ensures PhaseOK(t, t.workers[v]) {
      if v != w {
        if Carries(s.workers[v]) {
          QueuedIsNotHeld(s, c, v);
        }
        OtherPhaseKept(s, t, s.jobs[c].id, s.workers[v]);
      }
    }
  }

  lemma TakeKeepsJobs(s: State, t: State, w: nat)
    requires Inv(s) && w < |s.workers| && (s.workers[w].Entering? || s.workers[w].Woken?)
    requires s.jobs != [] && t == LockStep(s, w)
    ensures JobsOK(t)
  {
    var c := Choice(s.policy, s.jobs);
    var j := s.jobs[c];
    LogTells(s, t, Taken(j.id, w));
    assert QueuedOK(s, j);
    TakeKeepsQueue(s, t, c);
    TakeKeepsPhases(s, t, c, w);
    forall id: JobId ensures IdOK(t, id) {
      assert IdOK(s, id);
    }
  }

  lemma TakeKeepsWakeups(s: State, t: State, w: nat)
    requires WakeupsOK(s) && w < |s.workers| && (s.workers[w].Entering? || s.workers[w].Woken?)
    requires s.jobs != [] && t == LockStep(s, w)
    ensures WakeupsOK(t)
  {
    WokenCountUpdate(s.workers, w, t.workers[w]);
    if !NoneAsleep(t.workers) {
      var v :| 0 <= v < |t.workers| && t.workers[v].Asleep?;
      assert s.workers[v].Asleep?;
    }
  }

  // ----- a worker without a job -----

  lemma IdleMoveKeepsAccount(s: State, w: nat, p: Phase)
    requires Accounted(s) && w < |s.workers| && !Carries(s.workers[w]) && !Carries(p)
    ensures Accounted(Move(s, w, p))
  {
    var t := Move(s, w, p);
    forall id: JobId
      ensures InQueue(t.jobs, id) + AtWorkers(t.workers, id) + H(t.log, id).settles == H(t.log, id).submits <= 1
    {
      AtWorkersUpdate(s.workers, w, p, id);
      assert H(s.log, id).submits <= 1;
    }
  }

  /** Worker w, empty-handed before and after, moves to p; nothing else changes. */
  lemma IdleMoveKeepsJobs(s: State, w: nat, p: Phase)
    requires JobsOK(s) && w < |s.workers| && !Carries(s.workers[w]) && !Carries(p)
    ensures JobsOK(Move(s, w, p))
  {
    QuietKeepsJobs(s, Move(s, w, p));
  }

  lemma IdleMoveKeepsWakeups(s: State, w: nat, p: Phase)
    requires WakeupsOK(s) && w < |s.workers| && !s.workers[w].Gone?
    requires p.Asleep? ==> s.jobs == [] && !s.stopping
    requires p.Gone? ==> !s.control.Up? || s.stopping
    requires s.workers[w].Woken? && !p.Woken? ==> s.jobs == []
    ensures WakeupsOK(Move(s, w, p))
  {
    var t := Move(s, w, p);
    WokenCountUpdate(s.workers, w, p);
    if !NoneAsleep(t.workers) && !p.Asleep? {
      var v :| 0 <= v < |t.workers| && t.workers[v].Asleep?;
      assert s.workers[v].Asleep?;
    }
  }

  lemma IdleKeepsInv(s: State, l: Label)
    requires Inv(s) && Enabled(s, l)
    requires l.Check? || l.Spurious? || (l.Lock? && s.jobs == [])
    ensures Inv(Apply(s, l))
  {
    var p := Apply(s, l).workers[l.w];
    IdleMoveKeepsAccount(s, l.w, p);
    IdleMoveKeepsJobs(s, l.w, p);
    OwnChildKeepsHeld(s, Move(s, l.w, p), l.w, 0);
    IdleMoveKeepsWakeups(s, l.w, p);
  }

  // ----- start and stop -----

  lemma StartKeepsInv(s: State)
    requires Inv(s) && Enabled(s, Start)
    ensures Inv(Apply(s, Start))
  {
    var t := Apply(s, Start);
    QuietKeepsJobs(s, t);
    assert forall p :: p in s.procs ==> !s.procs[p].st.Running?;
    forall id: JobId
      ensures InQueue(t.jobs, id) + AtWorkers(t.workers, id) + H(t.log, id).settles == H(t.log, id).submits <= 1
    {
      NobodyCarries(s.workers, id);
      NobodyCarries(t.workers, id);
      assert H(s.log, id).submits <= 1;
    }
  }

  /** `stop` changes only flags, and sleepers into woken workers. */
  lemma StopKeepsJobs(s: State, t: State)
    requires Accounted(s) && JobsOK(s) && RunningIsHeld(s)
    requires t.jobs == s.jobs && t.procs == s.procs && t.log == s.log && t.files == s.files
    requires t.workers == s.workers || t.workers == WakeAll(s.workers)
    ensures Accounted(t) && JobsOK(t) && RunningIsHeld(t)
  {
    QuietKeepsJobs(s, t);
    forall p | p in t.procs && t.procs[p].st.Running? ensures exists v :: HeldBy(t.workers, v, p) {
      var v :| HeldBy(s.workers, v, p);
      assert HeldBy(t.workers, v, p);
    }
    forall id: JobId
      ensures InQueue(t.jobs, id) + AtWorkers(t.workers, id) + H(t.log, id).settles == H(t.log, id).submits <= 1
    {
      WakeAllKeepsCarriers(s.workers, id);
      assert H(s.log, id).submits <= 1;
    }
  }

  lemma StopKeepsInv(s: State, l: Label)
    requires Inv(s) && Enabled(s, l)
    requires l.StopClear? || l.StopFlag? || l.StopNotify? || l.StopJoined?
    ensures Inv(Apply(s, l))
  {
    StopKeepsJobs(s, Apply(s, l));
  }

  // ----- the kernel moves -----

  /** Child `pid`, not yet a zombie, changes state on its own; nothing else changes. */
  ghost predicate KernelMove(s: State, t: State, pid: int) {
    && pid in s.procs && pid in t.procs && t == s.(procs := s.procs[pid := t.procs[pid]])
    && var p, q := s.procs[pid], t.procs[pid];
       && !p.st.Zombie? && q.owner == p.owner
       && (p.grouped || p.st.Stopped? ==> q.grouped == p.grouped) && (q.pendingStop ==> p.pendingStop)
       && (q.st == p.st || (p.st.Running? && q.st == Stopped(false)) || q.st.Zombie?)
  }

  lemma KernelKeepsQueued(s: State, t: State, pid: int, j: Job)
    requires QueuedOK(s, j) && KernelMove(s, t, pid)
    ensures QueuedOK(t, j)
  {
  }

  lemma KernelKeepsPhase(s: State, t: State, pid: int, p: Phase)
    requires PhaseOK(s, p) && KernelMove(s, t, pid)
    ensures PhaseOK(t, p)
  {
  }

  lemma KernelKeepsHeld(s: State, t: State, pid: int)
    requires RunningIsHeld(s) && KernelMove(s, t, pid)
    ensures RunningIsHeld(t)
  {
    forall p | p in t.procs && t.procs[p].st.Running? ensures exists v :: HeldBy(t.workers, v, p) {
      var v :| HeldBy(s.workers, v, p);
      assert HeldBy(t.workers, v, p);
    }
  }

  lemma KernelKeepsInv(s: State, t: State, pid: int)
    requires Inv(s) && KernelMove(s, t, pid)
    ensures Inv(t)
  {
    assert t.log == s.log && t.jobs == s.jobs && t.workers == s.workers;
    forall i | 0 <= i < |t.jobs| ensures QueuedOK(t, t.jobs[i]) {
      KernelKeepsQueued(s, t, pid, s.jobs[i]);
    }
    forall v | 0 <= v < |t.workers| ensures PhaseOK(t, t.workers[v]) {
      KernelKeepsPhase(s, t, pid, s.workers[v]);
    }
    KernelKeepsHeld(s, t, pid);
    forall id: JobId ensures IdOK(t, id) {
      assert IdOK(s, id);
    }
  }

  lemma KernelLabelKeepsInv(s: State, l: Label)
    requires Inv(s) && Enabled(s, l)
    requires l.SetGroup? || l.Deliver? || l.SelfStop? || l.Die?
    ensures Inv(Apply(s, l))
  {
    var t := Apply(s, l);
    assert KernelMove(s, t, l.pid);
    KernelKeepsInv(s, t, l.pid);
  }

  // ----- all together -----

  lemma StepKeepsInv(s: State, l: Label)
    requires Inv(s) && Enabled(s, l)
    ensures Inv(Apply(s, l))
  {
    match l
    case Start => StartKeepsInv(s);
    case StopClear => StopKeepsInv(s, l);
    case StopFlag => StopKeepsInv(s, l);
    case StopNotify => StopKeepsInv(s, l);
    case StopJoined => StopKeepsInv(s, l);
    case Submit(j, wake) => SubmitKeepsInv(s, j, wake);
    case Check(w) => IdleKeepsInv(s, l);
    case Lock(w) => if s.jobs == [] { IdleKeepsInv(s, l); } else { TakeKeepsInv(s, w); }
    case Spurious(w) => IdleKeepsInv(s, l);
    case Builtin(w) => BuiltinKeepsInv(s, w);
    case Launch(w, spawn) =>
      if spawn.Spawned? { SpawnKeepsInv(s, w, spawn.pid); } else { FailedLaunchKeepsInv(s, w, spawn); }
    case Resume(w) => ResumeKeepsInv(s, w);
    case Poll(w) => PollKeepsInv(s, w);
    case Pause(w) => PauseKeepsInv(s, w);
    case Block(w) => BlockKeepsInv(s, w);
    case Requeue(w, wake) => RequeueKeepsInv(s, w, wake);
    case Report(w) => ReportKeepsInv(s, w);
    case Settle(w) => SettleKeepsInv(s, w);
    case SetGroup(_) => KernelLabelKeepsInv(s, l);
    case Deliver(_) => KernelLabelKeepsInv(s, l);
    case SelfStop(_) => KernelLabelKeepsInv(s, l);
    case Die(_, _) => KernelLabelKeepsInv(s, l);
  }
}
