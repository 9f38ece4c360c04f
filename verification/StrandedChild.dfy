/** When a sandbox cannot be continued: `kill(-pid, SIGCONT)` does not reach a child that was stopped
    before its `setpgid`, src/LinuxNamespaceIsolator.cpp:246-249. Also the short runs from which such
    a run, and a regular preemption, are built. */
module StrandedChild {
  import opened Jobs
  import opened Schedulers
  import opened Engine
  import opened EngineSafety

  /** Child p was stopped before its `setpgid`. */
  predicate Stranded(s: State, p: int) {
    p in s.procs && s.procs[p].st.Stopped? && !s.procs[p].grouped
  }

  lemma WorkerLeavesStranded(s: State, l: Label, p: int)
    requires Enabled(s, l) && Stranded(s, p) && (l.Launch? || l.Poll? || l.Block?)
    ensures Stranded(Apply(s, l), p)
  {
  }

  lemma StrandedStep(s: State, l: Label, p: int)
    requires Enabled(s, l) && Stranded(s, p) && !(l.Die? && l.pid == p)
    ensures Stranded(Apply(s, l), p)
  {
    if l.Launch? || l.Poll? || l.Block? {
      WorkerLeavesStranded(s, l, p);
    }
  }

  /** Nothing the engine does continues or ends such a child: it stays stopped until something else
      kills it. */
  lemma {:induction false} StrandedChildStaysStopped(s: State, run: seq<Label>, p: int)
    requires ValidRun(s, run) && Stranded(s, p)
    requires forall i :: 0 <= i < |run| ==> !(run[i].Die? && run[i].pid == p)
    ensures Stranded(After(s, run), p)
    decreases |run|
  {
    if run != [] {
      StrandedStep(s, run[0], p);
      StrandedChildStaysStopped(Apply(s, run[0]), run[1..], p);
    }
  }

  /** Nothing but the engine stops or ends a child in this run. */
  predicate Undisturbed(run: seq<Label>) {
    forall i :: 0 <= i < |run| ==> !run[i].SelfStop? && !run[i].Die?
  }

  /** State t ends a run from s0. */
  ghost predicate Leads(s0: State, run: seq<Label>, t: State) {
    ValidRun(s0, run) && After(s0, run) == t
  }

  lemma SoleJobIsTaken(s: State, j: Job)
    requires s.jobs == [j] && s.workers == [Entering]
    ensures Enabled(s, Lock(0))
    ensures Apply(s, Lock(0)) == s.(jobs := [], workers := [Holding(j)], log := s.log + [Taken(j.id, 0)])
  {
    assert Rest(s.policy, s.jobs) == [];
  }

  lemma SoleJobIsRequeued(s: State, j: Job)
    requires s.jobs == [] && s.workers == [Requeueing(j)]
    ensures Enabled(s, Requeue(0, None))
    ensures Apply(s, Requeue(0, None)) == s.(jobs := [Demoted(j)], workers := [Checking])
  {
  }

  /** The only worker takes a fresh job. */
  lemma TakesFreshJob(policy: Policy, j: Job) returns (run: seq<Label>, t: State)
    requires FreshJob(j) && j.cmd.executable != "exit"
    ensures Leads(Initial(policy, 1), run, t) && Undisturbed(run) && |run| == 4
    ensures t.control.Up? && t.jobs == [] && t.workers == [Holding(j)] && t.procs == map[] && t.nextUid == 1
  {
    var s0 := Initial(policy, 1);
    var s1 := s0.(control := Up, workers := [Checking]);
    var s2 := s1.(jobs := [j], log := [Submitted(j.id, j.cmd, j.hasPromise)]);
    var s3 := s2.(workers := [Entering]);
    t := s3.(jobs := [], workers := [Holding(j)], log := s3.log + [Taken(j.id, 0)]);
    run := Extended(s0, [], s0, Start, s1);
    run := Extended(s0, run, s1, Submit(j, None), s2);
    run := Extended(s0, run, s2, Check(0), s3);
    SoleJobIsTaken(s3, j);
    run := Extended(s0, run, s3, Lock(0), t);
  }

  /** Its child stops before its `setpgid`, and a poll sees the stop. */
  lemma StopsBeforeItsGroup(s0: State, before: seq<Label>, s: State, j: Job, p: int)
    returns (run: seq<Label>, t: State)
    requires Leads(s0, before, s) && s.control.Up? && s.jobs == [] && s.workers == [Holding(j)]
    requires s.procs == map[] && s.nextUid == 1
    requires FreshJob(j) && !IsBuiltin(j.cmd) && j.timeQuantum > 0 && p > 0
    ensures Leads(s0, run, t) && t.control.Up? && t.jobs == []
    ensures t.workers == [Requeueing(j.(pid := p, uniqueId := 1))]
    ensures t.procs == map[p := Proc(j.id, Stopped(true), false, false)]
  {
    var j1 := j.(pid := p, uniqueId := 1);
    var s1 := LaunchStep(s, 0, Spawned(p));
    LaunchesIt(s, j, p);
    run := Extended(s0, before, s, Launch(0, Spawned(p)), s1);
    var s2 := s1.(procs := map[p := Proc(j.id, Stopped(false), false, false)]);
    run := Extended(s0, run, s1, SelfStop(p), s2);
    t := PollStep(s2, 0);
    SeesTheStop(s2, j1);
    run := Extended(s0, run, s2, Poll(0), t);
  }

  lemma LaunchesIt(s: State, j: Job, p: int)
    requires s.workers == [Holding(j)] && s.procs == map[] && s.nextUid == 1
    requires FreshJob(j) && j.timeQuantum > 0
    ensures
      var t := LaunchStep(s, 0, Spawned(p));
      && t.control == s.control && t.jobs == s.jobs && t.workers == [Polling(j.(pid := p, uniqueId := 1), 0, 0)]
      && t.procs == map[p := Proc(j.id, Running, false, false)]
  {
  }

  lemma SeesTheStop(s: State, j: Job)
    requires s.workers == [Polling(j, 0, 0)] && s.procs == map[j.pid := Proc(j.id, Stopped(false), false, false)]
    ensures
      var t := PollStep(s, 0);
      && t.control == s.control && t.jobs == s.jobs && t.workers == [Requeueing(j)]
      && t.procs == map[j.pid := Proc(j.id, Stopped(true), false, false)]
  {
  }

  /** The job is re-enqueued, taken again and resumed. */
  lemma NextBurst(s0: State, before: seq<Label>, s: State, j: Job) returns (run: seq<Label>, t: State)
    requires Leads(s0, before, s) && s.control.Up? && s.jobs == [] && s.workers == [Requeueing(j)]
    requires !IsBuiltin(j.cmd) && j.timeQuantum > 0 && j.pid > 0
    ensures Leads(s0, run, t) && t.workers == [Polling(Demoted(j), 0, 0)] && t.procs == SendCont(s.procs, j.pid)
  {
    var s1 := s.(jobs := [Demoted(j)], workers := [Checking]);
    var s2 := s1.(workers := [Entering]);
    var s3 := s2.(jobs := [], workers := [Holding(Demoted(j))], log := s2.log + [Taken(j.id, 0)]);
    SoleJobIsRequeued(s, j);
    run := Extended(s0, before, s, Requeue(0, None), s1);
    run := Extended(s0, run, s1, Check(0), s2);
    SoleJobIsTaken(s2, Demoted(j));
    run := Extended(s0, run, s2, Lock(0), s3);
    run, t := ResumesIt(s0, run, s3, Demoted(j));
  }

  lemma ResumesIt(s0: State, before: seq<Label>, s: State, j: Job) returns (run: seq<Label>, t: State)
    requires Leads(s0, before, s) && s.workers == [Holding(j)] && !IsBuiltin(j.cmd) && j.timeQuantum > 0 && j.pid > 0
    ensures Leads(s0, run, t) && t.workers == [Polling(j, 0, 0)] && t.procs == SendCont(s.procs, j.pid)
  {
    t := ResumeStep(s, 0);
    run := Extended(s0, before, s, Resume(0), t);
  }

  /** It does happen: for every policy and every preemptive job, a run in which the resumed child stays
      stopped, while its worker polls. */
  lemma ResumedChildMayStayStopped(policy: Policy, j: Job, p: int) returns (run: seq<Label>)
    requires FreshJob(j) && j.cmd.executable != "exit" && !IsBuiltin(j.cmd) && j.timeQuantum > 0 && p > 0
    ensures ValidRun(Initial(policy, 1), run)
    ensures
      var t := After(Initial(policy, 1), run);
      t.workers == [Polling(Demoted(j.(pid := p, uniqueId := 1)), 0, 0)] && Stranded(t, p)
  {
    var t;
    run, t := TakesFreshJob(policy, j);
    run, t := StopsBeforeItsGroup(Initial(policy, 1), run, t, j, p);
    run, t := NextBurst(Initial(policy, 1), run, t, j.(pid := p, uniqueId := 1));
  }
}
