/** What holds in every reachable state of the engine, for any policy, any number of worker
    threads and producers, and every interleaving. */
module EngineSafety {
  import opened Jobs
  import opened Schedulers
  import opened Engine
  import opened EngineFrames
  import opened EngineInvariant
  import opened EngineSteps

  ghost predicate Reachable(s: State) {
    exists policy, threads, run ::
      ValidRun(Initial(policy, threads), run) && s == After(Initial(policy, threads), run)
  }

  lemma {:induction false} RunKeepsInv(s: State, run: seq<Label>)
    requires Inv(s) && ValidRun(s, run)
    ensures Inv(After(s, run))
    decreases |run|
  {
    if run != [] {
      StepKeepsInv(s, run[0]);
      RunKeepsInv(Apply(s, run[0]), run[1..]);
    }
  }

  lemma ReachableInv(s: State)
    requires Reachable(s)
    ensures Inv(s)
  {
    var policy, threads, run :|
      ValidRun(Initial(policy, threads), run) && s == After(Initial(policy, threads), run);
    InitialInv(policy, threads);
    RunKeepsInv(Initial(policy, threads), run);
  }

  // ----- running sandboxes -----

  function RunningPids(s: State): set<int> {
    set p | p in s.procs && s.procs[p].st.Running?
  }

  /** A running sandbox belongs to the job of exactly one worker, which is waiting for it. */
  lemma RunningSandboxHasOneHolder(s: State, p: int) returns (w: nat)
    requires Reachable(s) && p in RunningPids(s)
    ensures HeldBy(s.workers, w, p) && s.workers[w].job.id == s.procs[p].owner
    ensures forall v :: HeldBy(s.workers, v, p) ==> v == w
    ensures forall i :: 0 <= i < |s.jobs| ==> s.jobs[i].pid != p
  {
    ReachableInv(s);
    w :| HeldBy(s.workers, w, p);
    assert PhaseOK(s, s.workers[w]);
    forall v | HeldBy(s.workers, v, p) ensures v == w {
      assert PhaseOK(s, s.workers[v]);
      if v != w {
        HoldersAreDistinct(s, w, v);
      }
    }
    forall i | 0 <= i < |s.jobs| ensures s.jobs[i].pid != p {
      assert QueuedOK(s, s.jobs[i]);
    }
  }

  lemma QueuedSandboxDoesNotRun(s: State, i: nat)
    requires Reachable(s) && i < |s.jobs| && s.jobs[i].pid > 0
    ensures s.jobs[i].pid in s.procs && s.procs[s.jobs[i].pid].owner == s.jobs[i].id
    ensures s.procs[s.jobs[i].pid].st == Stopped(true) || s.procs[s.jobs[i].pid].st.Zombie?
  {
    ReachableInv(s);
    assert QueuedOK(s, s.jobs[i]);
  }

  /** Pids held by the first n workers. */
  function HeldPids(ws: seq<Phase>, n: nat): set<int>
    requires n <= |ws|
  {
    if n == 0 then {}
    else HeldPids(ws, n - 1) + if Executing(ws[n - 1]) then {ws[n - 1].job.pid} else {}
  }

  lemma {:induction false} HeldPidsBound(ws: seq<Phase>, n: nat)
    requires n <= |ws|
    ensures |HeldPids(ws, n)| <= n
    ensures forall w, p :: HeldBy(ws, w, p) && w < n ==> p in HeldPids(ws, n)
  {
    if n > 0 {
      HeldPidsBound(ws, n - 1);
    }
  }

  lemma SubsetIsNoLarger(a: set<int>, b: set<int>)
    requires a <= b
    ensures |a| <= |b|
  {
    assert b == a + (b - a) && a * (b - a) == {};
  }

  /** At most `num_threads_` sandboxes run at once. */
  lemma AtMostThreadsSandboxesRun(s: State)
    requires Reachable(s)
    ensures |RunningPids(s)| <= s.threads
  {
    ReachableInv(s);
    var n := |s.workers|;
    HeldPidsBound(s.workers, n);
    forall p | p in RunningPids(s) ensures p in HeldPids(s.workers, n) {
      assert p in s.procs && s.procs[p].st.Running?;
      var w :| HeldBy(s.workers, w, p);
    }
    SubsetIsNoLarger(RunningPids(s), HeldPids(s.workers, n));
  }

  // ----- wake-ups -----

  lemma NoLostWakeup(s: State, w: nat)
    requires Reachable(s) && w < |s.workers| && s.workers[w].Asleep? && !s.stopping
    ensures |s.jobs| <= WokenCount(s.workers)
  {
    ReachableInv(s);
  }

  lemma {:induction false} WokenCountSeesAWorker(ws: seq<Phase>) returns (w: nat)
    requires WokenCount(ws) > 0
    ensures w < |ws| && ws[w].Woken?
  {
    var n := |ws| - 1;
    if ws[n].Woken? {
      w := n;
    } else {
      w := WokenCountSeesAWorker(ws[..n]);
    }
  }

  /** Worker w sits in `waitpid` for a child that has not ended. */
  predicate AwaitsChild(s: State, w: nat) {
    && w < |s.workers| && s.workers[w].Blocking? && s.workers[w].job.pid in s.procs
    && !s.procs[s.workers[w].job.pid].st.Zombie?
  }

  /** Worker w has a step to take, or only its child keeps it waiting. */
  ghost predicate IsNotIdle(s: State, w: nat) {
    w < |s.workers| && (AwaitsChild(s, w) || exists l :: Acts(l, w) && Enabled(s, l))
  }

  /** One such step. */
  function NextLabel(s: State, w: nat, wake: Option<nat>): Label
    requires w < |s.workers|
  {
    match s.workers[w]
    case Checking => Check(w)
    case Holding(j) => if IsBuiltin(j.cmd) then Builtin(w) else if j.pid <= 0 then Launch(w, NoPipe) else Resume(w)
    case Polling(_, _, _) => Poll(w)
    case Pausing(_, _, _) => Pause(w)
    case Blocking(j) => Block(w)
    case Requeueing(_) => Requeue(w, wake)
    case Reporting(_, _) => Report(w)
    case Settling(_, _) => Settle(w)
    case _ => Lock(w)
  }

  lemma SomeoneToWake(ws: seq<Phase>) returns (wake: Option<nat>)
    ensures CanWake(ws, wake)
  {
    if NoneAsleep(ws) {
      wake := None;
    } else {
      var v :| 0 <= v < |ws| && ws[v].Asleep?;
      wake := Some(v);
    }
  }

  lemma AwakeWorkerIsNotIdle(s: State, w: nat)
    requires w < |s.workers| && !s.workers[w].Asleep? && !s.workers[w].Gone?
    ensures IsNotIdle(s, w)
  {
    if !AwaitsChild(s, w) {
      var wake := SomeoneToWake(s.workers);
      var l := NextLabel(s, w, wake);
      assert Acts(l, w) && Enabled(s, l);
    }
  }

  /** Queued work never waits behind sleepers alone: while the pool is up, some worker can move
      exactly if some worker is left, and before the first `stop` one always is. */
  lemma QueuedWorkIsServed(s: State)
    requires Reachable(s) && s.control.Up? && s.jobs != []
    ensures (exists w :: IsNotIdle(s, w)) <==> !AllGone(s.workers)
    ensures !s.stopping && s.threads > 0 ==> exists w :: IsNotIdle(s, w)
  {
    ReachableInv(s);
    if !AllGone(s.workers) {
      var w := AwakeWorker(s);
      AwakeWorkerIsNotIdle(s, w);
    }
    if !s.stopping && s.threads > 0 {
      assert !s.workers[0].Gone?;
    }
  }

  lemma AwakeWorker(s: State) returns (w: nat)
    requires WakeupsOK(s) && s.control.Up? && s.jobs != [] && !AllGone(s.workers)
    ensures w < |s.workers| && !s.workers[w].Asleep? && !s.workers[w].Gone?
  {
    if NoneAsleep(s.workers) {
      w :| 0 <= w < |s.workers| && !s.workers[w].Gone?;
    } else {
      w := WokenCountSeesAWorker(s.workers);
    }
  }

  /** `start` after `stop` leaves stopping_ set, so the new workers quit on an empty queue and
      a job that is submitted later finds nobody. */
  lemma RestartedPoolStrandsAJob(policy: Policy, j: Job) returns (run: seq<Label>)
    requires FreshJob(j) && j.cmd.executable != "exit"
    ensures ValidRun(Initial(policy, 1), run)
    ensures
      var s := After(Initial(policy, 1), run);
      s.control.Up? && s.jobs == [j] && s.workers == [Gone]
  {
    var s0 := Initial(policy, 1);
    var down := s0.(control := Down, stopping := true, workers := [Gone]);
    var again := down.(control := Up, workers := [Checking]);
    var entered := again.(workers := [Entering]);
    var empty := again.(workers := [Gone]);
    run := StopsAtOnce(policy);
    run := Extended(s0, run, down, Start, again);
    run := Extended(s0, run, again, Check(0), entered);
    run := Extended(s0, run, entered, Lock(0), empty);
    run := Extended(s0, run, empty, Submit(j, None), SubmitStep(empty, j, None));
  }

  /** `start` and `stop` of a pool of one, with an empty queue. */
  lemma StopsAtOnce(policy: Policy) returns (run: seq<Label>)
    ensures ValidRun(Initial(policy, 1), run)
    ensures After(Initial(policy, 1), run)
            == Initial(policy, 1).(control := Down, stopping := true, workers := [Gone])
  {
    var s0 := Initial(policy, 1);
    var up := s0.(control := Up, workers := [Checking]);
    var cleared := up.(control := Cleared);
    var left := cleared.(workers := [Gone]);
    var flagged := left.(control := Flagged, stopping := true);
    var draining := flagged.(control := Draining);
    assert WakeAll([Gone]) == [Gone];
    run := Extended(s0, [], s0, Start, up);
    run := Extended(s0, run, up, StopClear, cleared);
    run := Extended(s0, run, cleared, Check(0), left);
    run := Extended(s0, run, left, StopFlag, flagged);
    run := Extended(s0, run, flagged, StopNotify, draining);
    run := Extended(s0, run, draining, StopJoined, draining.(control := Down));
  }

  lemma Extended(s0: State, run: seq<Label>, s: State, l: Label, t: State) returns (longer: seq<Label>)
    requires ValidRun(s0, run) && After(s0, run) == s && Enabled(s, l) && Apply(s, l) == t
    ensures longer == run + [l] && ValidRun(s0, longer) && After(s0, longer) == t
  {
    longer := run + [l];
    RunSnoc(s0, run, l);
  }

  lemma {:induction false} RunSnoc(s: State, run: seq<Label>, l: Label)
    requires ValidRun(s, run) && Enabled(After(s, run), l)
    ensures ValidRun(s, run + [l]) && After(s, run + [l]) == Apply(After(s, run), l)
    decreases |run|
  {
    if run == [] {
      assert run + [l] == [l] && [l][1..] == [];
      assert ValidRun(Apply(s, l), []);
    } else {
      RunSnoc(Apply(s, run[0]), run[1..], l);
      assert (run + [l])[1..] == run[1..] + [l];
    }
  }

  lemma ReachableStep(s: State, l: Label)
    requires Reachable(s) && Enabled(s, l)
    ensures Reachable(Apply(s, l))
  {
    var policy, threads, run :|
      ValidRun(Initial(policy, threads), run) && s == After(Initial(policy, threads), run);
    RunSnoc(Initial(policy, threads), run, l);
  }

  lemma {:induction false} ReachableOn(s: State, run: seq<Label>)
    requires Reachable(s) && ValidRun(s, run)
    ensures Reachable(After(s, run))
    decreases |run|
  {
    if run != [] {
      ReachableStep(s, run[0]);
      ReachableOn(Apply(s, run[0]), run[1..]);
    }
  }

  /** Once the `notify_all` of `stop` has run, nobody sleeps again, in any continuation. */
  lemma {:induction false} NobodySleepsAfterStop(s: State, run: seq<Label>)
    requires s.stopping && NoneAsleep(s.workers) && ValidRun(s, run)
    ensures NoneAsleep(After(s, run).workers) && After(s, run).stopping
    decreases |run|
  {
    if run != [] {
      NobodyFallsAsleep(s, run[0]);
      NobodySleepsAfterStop(Apply(s, run[0]), run[1..]);
    }
  }

  lemma NobodyFallsAsleep(s: State, l: Label)
    requires s.stopping && NoneAsleep(s.workers) && Enabled(s, l)
    ensures NoneAsleep(Apply(s, l).workers) && Apply(s, l).stopping
  {
    StepFrame(s, l);
    var t := Apply(s, l);
    if !l.Start? {
      forall v | 0 <= v < |t.workers| ensures !t.workers[v].Asleep? {
        assert WorkerFrame(l, s, t, v);
      }
    }
  }

  lemma NotifyAllWakesEverybody(s: State)
    requires Reachable(s) && s.control.Flagged?
    ensures Apply(s, StopNotify).stopping && NoneAsleep(Apply(s, StopNotify).workers)
  {
    ReachableInv(s);
  }

  /** The model leaves the choice to the environment: a sleeper may wake up by itself, `pipe` and
      `clone` may fail or give any pid that is free, and a child may stop while it runs, and die with
      any status while it lives. */
  lemma EnvironmentIsFree(s: State, w: nat, spawn: Spawn, p: int, status: Status)
    ensures w < |s.workers| && s.workers[w].Asleep? ==> Enabled(s, Spurious(w))
    ensures w < |s.workers| && s.workers[w].Holding? && s.workers[w].job.pid <= 0
            && (spawn.Spawned? ==> spawn.pid > 0 && spawn.pid !in s.procs) ==>
      Enabled(s, Builtin(w)) || Enabled(s, Launch(w, spawn))
    ensures p in s.procs && s.procs[p].st.Running? ==> Enabled(s, SelfStop(p))
    ensures p in s.procs && !s.procs[p].st.Zombie? ==> Enabled(s, Die(p, status))
  {
  }

  // ----- every job, exactly once -----

  lemma {:induction false} FindInQueue(q: seq<Job>, id: JobId) returns (i: nat)
    requires InQueue(q, id) > 0
    ensures i < |q| && q[i].id == id
  {
    var n := |q| - 1;
    if q[n].id == id {
      i := n;
    } else {
      i := FindInQueue(q[..n], id);
    }
  }

  lemma {:induction false} FindAtWorkers(ws: seq<Phase>, id: JobId) returns (w: nat)
    requires AtWorkers(ws, id) > 0
    ensures w < |ws| && Carries(ws[w]) && ws[w].job.id == id
  {
    var n := |ws| - 1;
    if Carries(ws[n]) && ws[n].job.id == id {
      w := n;
    } else {
      w := FindAtWorkers(ws[..n], id);
    }
  }

  lemma {:induction false} PromiseNeedsSettling(log: seq<Event>, id: JobId)
    ensures H(log, id).promise.Some? ==> H(log, id).settles > 0
  {
    if log != [] {
      PromiseNeedsSettling(log[..|log| - 1], id);
    }
  }

  /** The child ended with exit code 0, or the job needed none. */
  predicate EndedWell(h: History) {
    match h.ending
    case Some(st) => st == ExitedWith(0)
    case None => h.cmd.executable == "" || h.cmd.executable == "cd"
  }

  /** What the whole log may say about one job. */
  predicate JournalOK(id: JobId, h: History) {
    && h.submits <= 1
    && h.clones <= 1 && h.reaps <= h.clones && h.stray == 0
    && h.preempts <= h.takes <= h.preempts + 1
    && h.settles <= h.reports <= 1
    && (h.reports == 1 ==>
          && h.reaps == h.clones && (h.ending.Some? <==> h.reaps == 1)
          && h.result == Some(ExpectedResult(id, h.cmd, h.ending)))
    && (h.promise.Some? <==> h.settles == 1 && h.hasPromise)
    && (h.promise.Some? ==> h.promise.value == if EndedWell(h) then 0 else 1)
  }

  /** Cloned at most once, reaped at most once, signalled only through its own child, reported and
      settled at most once with the result its own status demands, and never with another job's
      output. */
  lemma EveryJournalIsClean(s: State, id: JobId)
    requires Reachable(s)
    ensures JournalOK(id, H(s.log, id))
  {
    ReachableInv(s);
    assert IdOK(s, id);
    PromiseNeedsSettling(s.log, id);
    var h := H(s.log, id);
    assert InQueue(s.jobs, id) + AtWorkers(s.workers, id) + h.settles == h.submits <= 1;
    if h.submits == 1 && h.settles == 0 {
      if InQueue(s.jobs, id) > 0 {
        var i := FindInQueue(s.jobs, id);
        QueuedJournal(s, s.jobs[i]);
      } else {
        var w := FindAtWorkers(s.workers, id);
        PhaseJournal(s, s.workers[w]);
      }
    }
  }

  lemma QueuedJournal(s: State, j: Job)
    requires QueuedOK(s, j) && H(s.log, j.id).promise == None
    ensures JournalOK(j.id, H(s.log, j.id))
  {
  }

  lemma PhaseJournal(s: State, p: Phase)
    requires PhaseOK(s, p) && Carries(p) && H(s.log, p.job.id).promise == None
    ensures JournalOK(p.job.id, H(s.log, p.job.id))
  {
  }

  /** Submitted jobs are the disjoint union of queued, worker-held and settled jobs. */
  lemma ExactlyOnce(s: State, id: JobId)
    requires Reachable(s)
    ensures InQueue(s.jobs, id) + AtWorkers(s.workers, id) + H(s.log, id).settles == H(s.log, id).submits
    ensures H(s.log, id).submits <= 1
    ensures forall i :: 0 <= i < |s.jobs| && s.jobs[i].id == id ==>
      && H(s.log, id).preempts == s.jobs[i].elapsedBursts == H(s.log, id).takes
      && H(s.log, id).reports == 0 && H(s.log, id).promise == None
  {
    ReachableInv(s);
    PromiseNeedsSettling(s.log, id);
    assert H(s.log, id).submits <= 1;
    forall i | 0 <= i < |s.jobs| && s.jobs[i].id == id
      ensures H(s.log, id).preempts == s.jobs[i].elapsedBursts == H(s.log, id).takes
      ensures H(s.log, id).reports == 0 && H(s.log, id).promise == None
    {
      assert QueuedOK(s, s.jobs[i]);
    }
  }

  /** `waitpid` never fails: whoever waits, waits for a child of its own that nobody has reaped. */
  lemma WaitpidNeverFails(s: State, w: nat)
    requires Reachable(s) && w < |s.workers| && Executing(s.workers[w])
    ensures s.workers[w].job.pid in s.procs
    ensures s.procs[s.workers[w].job.pid].owner == s.workers[w].job.id
  {
    ReachableInv(s);
    assert PhaseOK(s, s.workers[w]);
  }

  // ----- identity, read off the log -----

  lemma {:induction false} CloneIsRecorded(log: seq<Event>, id: JobId, i: nat, pid: int, uid: int)
    requires i < |log| && log[i] == Cloned(id, pid, uid) && H(log, id).clones <= 1
    ensures H(log, id).clones == 1 && H(log, id).pid == pid && H(log, id).uid == uid
  {
    var n := |log| - 1;
    if i < n {
      assert log[..n][i] == log[i];
      ClonesOnlyGrow(log, id);
      CloneIsRecorded(log[..n], id, i, pid, uid);
    } else {
      ClonesOnlyGrow(log, id);
    }
  }

  lemma ClonesOnlyGrow(log: seq<Event>, id: JobId)
    requires log != []
    ensures H(log[..|log| - 1], id).clones <= H(log, id).clones
    ensures H(log[..|log| - 1], id).stray <= H(log, id).stray
  {
  }

  lemma {:induction false} SignalsHitTheClone(log: seq<Event>, id: JobId, k: nat, pid: int)
    requires k < |log| && (log[k] == Resumed(id, pid) || log[k] == StopSent(id, pid))
    requires H(log, id).stray == 0 && H(log, id).clones <= 1
    ensures H(log, id).clones == 1 && H(log, id).pid == pid
  {
    var n := |log| - 1;
    ClonesOnlyGrow(log, id);
    if k < n {
      assert log[..n][k] == log[k];
      SignalsHitTheClone(log[..n], id, k, pid);
    }
  }

  /** Every SIGCONT and SIGSTOP sent for a job goes to the one pid that was cloned for it. */
  lemma BurstsKeepTheirPid(s: State, id: JobId, i: nat, k: nat)
    requires Reachable(s) && i < |s.log| && k < |s.log|
    requires s.log[i].Cloned? && s.log[i].id == id
    requires (s.log[k].Resumed? || s.log[k].StopSent?) && s.log[k].id == id
    ensures s.log[k].pid == s.log[i].pid
  {
    EveryJournalIsClean(s, id);
    CloneIsRecorded(s.log, id, i, s.log[i].pid, s.log[i].uid);
    SignalsHitTheClone(s.log, id, k, s.log[k].pid);
  }

  /** The ids that name the capture files differ between jobs. */
  lemma UniqueIdsAreUnique(s: State, i: nat, k: nat)
    requires Reachable(s) && i < |s.log| && k < |s.log|
    requires s.log[i].Cloned? && s.log[k].Cloned? && s.log[i].uid == s.log[k].uid
    ensures s.log[i].id == s.log[k].id
  {
    ReachableInv(s);
    EveryJournalIsClean(s, s.log[i].id);
    EveryJournalIsClean(s, s.log[k].id);
    CloneIsRecorded(s.log, s.log[i].id, i, s.log[i].pid, s.log[i].uid);
    CloneIsRecorded(s.log, s.log[k].id, k, s.log[k].pid, s.log[k].uid);
    assert IdOK(s, s.log[i].id) && IdOK(s, s.log[k].id);
  }

  // ----- preemption -----

  /** Two jobs, in any two runs, under any policies, quanta and numbers of preemptions: the same
      terminal status gives the same exit code, signal, verdict and promise value. */
  lemma PreemptionIsTransparent(s: State, t: State, a: JobId, b: JobId)
    requires Reachable(s) && Reachable(t)
    requires H(s.log, a).reports == 1 && H(t.log, b).reports == 1
    requires H(s.log, a).ending.Some? && H(s.log, a).ending == H(t.log, b).ending
    ensures H(s.log, a).result.Some? && H(t.log, b).result.Some?
    ensures
      var r, q := H(s.log, a).result.value, H(t.log, b).result.value;
      r.exitCode == q.exitCode && r.termSignal == q.termSignal && r.verdict == q.verdict
    ensures H(s.log, a).promise.Some? && H(t.log, b).promise.Some? ==> H(s.log, a).promise == H(t.log, b).promise
  {
    EveryJournalIsClean(s, a);
    EveryJournalIsClean(t, b);
    EndingIsReaped(s.log, a);
    EndingIsReaped(t.log, b);
  }

  lemma {:induction false} EndingIsReaped(log: seq<Event>, id: JobId)
    ensures H(log, id).ending.Some? <==> H(log, id).reaps > 0
  {
    if log != [] {
      EndingIsReaped(log[..|log| - 1], id);
    }
  }

  /** A SIGSTOP takes effect only in the burst that sent it, after the whole quantum. */
  lemma StopsDoNotLeak(s: State, p: int) returns (w: nat)
    requires Reachable(s) && Enabled(s, Deliver(p))
    ensures HeldBy(s.workers, w, p) && !s.workers[w].Blocking?
    ensures s.workers[w].sent > 0 && s.workers[w].ms == s.workers[w].job.timeQuantum > 0
  {
    w := RunningSandboxHasOneHolder(s, p);
    ReachableInv(s);
    assert PhaseOK(s, s.workers[w]);
  }

  /** At a resume the child is dead, or stopped and seen. It then runs, with no stop pending, exactly
      if it lives and has its own process group: `kill(-pid, SIGCONT)` reaches nobody else. */
  lemma ResumeClearsStops(s: State, w: nat)
    requires Reachable(s) && Enabled(s, Resume(w))
    ensures
      var p, t := s.workers[w].job.pid, ResumeStep(s, w);
      && p in s.procs && p in t.procs
      && (s.procs[p].st.Zombie? || s.procs[p].st == Stopped(true))
      && (t.procs[p].st.Running? <==> !s.procs[p].st.Zombie? && s.procs[p].grouped)
      && (t.procs[p].st.Running? ==> !t.procs[p].pendingStop)
      && (!t.procs[p].st.Running? ==> t.procs[p] == s.procs[p])
  {
    ReachableInv(s);
    assert PhaseOK(s, s.workers[w]);
  }

  /** No SIGSTOP is sent before `time_quantum` sleeps, and non-preemptive jobs get none. */
  lemma StopsWaitForTheQuantum(s: State, w: nat)
    requires Reachable(s) && Enabled(s, Pause(w))
    ensures s.workers[w].job.timeQuantum > 0
    ensures Apply(s, Pause(w)).log != s.log ==> s.workers[w].ms == s.workers[w].job.timeQuantum
  {
    ReachableInv(s);
    assert PhaseOK(s, s.workers[w]);
  }
}
