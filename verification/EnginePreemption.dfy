/** That preemption happens: the SIGSTOP of an expired quantum stops a child that has its process group,
    and the job goes back to the queue and runs on from there.
    src/LinuxNamespaceIsolator.cpp:246-285, src/WorkerPool.cpp:38-42. */
module EnginePreemption {
  import opened Jobs
  import opened Schedulers
  import opened Engine
  import opened EngineSafety
  import opened StrandedChild

  /** Child p runs and can be reached by kill(-p, ...). */
  predicate RunsInGroup(s: State, p: int) {
    p in s.procs && s.procs[p].st.Running? && s.procs[p].grouped
  }

  /** The SIGSTOP of a used-up quantum. */
  lemma StopIsSent(s: State, w: nat, j: Job, sent: nat)
    requires w < |s.workers| && j.timeQuantum >= 0 && s.workers[w] == Pausing(j, j.timeQuantum, sent)
    requires RunsInGroup(s, j.pid)
    ensures
      var t := Apply(s, Pause(w));
      && t.workers == s.workers[w := Polling(j, j.timeQuantum, sent + 1)] && t.jobs == s.jobs
      && t.control == s.control && t.procs == s.procs[j.pid := s.procs[j.pid].(pendingStop := true)]
  {
  }

  /** The stop takes effect, and the next poll sees it. */
  lemma StopIsSeen(s: State, w: nat)
    requires w < |s.workers| && s.workers[w].Polling?
    requires RunsInGroup(s, s.workers[w].job.pid) && s.procs[s.workers[w].job.pid].pendingStop
    ensures
      var j := s.workers[w].job;
      && Enabled(s, Deliver(j.pid)) && Enabled(Apply(s, Deliver(j.pid)), Poll(w))
      && var t := Apply(Apply(s, Deliver(j.pid)), Poll(w));
         && t.workers == s.workers[w := Requeueing(j)] && t.jobs == s.jobs && t.control == s.control
         && t.procs == s.procs[j.pid := s.procs[j.pid].(st := Stopped(true), pendingStop := false)]
  {
  }

  /** When the quantum is used up, the worker's SIGSTOP makes the child stop, the next poll sees it, and
      the job is about to be enqueued again. */
  lemma ExpiredQuantumPreempts(s: State, w: nat)
    requires w < |s.workers| && s.workers[w].Pausing?
    requires s.workers[w].ms == s.workers[w].job.timeQuantum && RunsInGroup(s, s.workers[w].job.pid)
    ensures
      var j := s.workers[w].job;
      var sent := Apply(s, Pause(w));
      && Enabled(sent, Deliver(j.pid)) && Enabled(Apply(sent, Deliver(j.pid)), Poll(w))
      && var seen := Apply(Apply(sent, Deliver(j.pid)), Poll(w));
         && seen.workers == s.workers[w := Requeueing(j)] && seen.jobs == s.jobs && seen.control == s.control
         && seen.procs == s.procs[j.pid := s.procs[j.pid].(st := Stopped(true), pendingStop := false)]
  {
    var Pausing(j, ms, count) := s.workers[w];
    StopIsSent(s, w, j, count);
    StopIsSeen(Apply(s, Pause(w)), w);
  }

  /** One step of an undisturbed run. */
  lemma Goes(s0: State, before: seq<Label>, s: State, l: Label, t: State) returns (run: seq<Label>)
    requires Leads(s0, before, s) && Undisturbed(before) && Enabled(s, l) && Apply(s, l) == t
    requires !l.SelfStop? && !l.Die?
    ensures Leads(s0, run, t) && Undisturbed(run) && run == before + [l]
  {
    run := Extended(s0, before, s, l, t);
  }

  /** A poll without news, and a sleep. */
  lemma SleepsOnce(s: State, w: nat, j: Job, ms: nat)
    requires w < |s.workers| && s.workers[w] == Polling(j, ms, 0) && RunsInGroup(s, j.pid) && ms < j.timeQuantum
    ensures Apply(s, Poll(w)) == s.(workers := s.workers[w := Pausing(j, ms, 0)])
    ensures
      var t := s.(workers := s.workers[w := Pausing(j, ms, 0)]);
      Apply(t, Pause(w)) == s.(workers := s.workers[w := Polling(j, ms + 1, 0)])
  {
    var t := s.(workers := s.workers[w := Pausing(j, ms, 0)]);
    assert t.workers[w := Polling(j, ms + 1, 0)] == s.workers[w := Polling(j, ms + 1, 0)];
  }

  /** The polls and sleeps of one quantum: two steps for each millisecond. */
  lemma {:induction false} SleepsThrough(s0: State, before: seq<Label>, s: State, w: nat, j: Job, ms: nat)
    returns (run: seq<Label>, t: State)
    requires Leads(s0, before, s) && Undisturbed(before)
    requires w < |s.workers| && s.workers[w] == Polling(j, ms, 0) && RunsInGroup(s, j.pid) && ms <= j.timeQuantum
    ensures Leads(s0, run, t) && Undisturbed(run) && |run| == |before| + 2 * (j.timeQuantum - ms)
    ensures t == s.(workers := s.workers[w := Polling(j, j.timeQuantum, 0)])
    decreases j.timeQuantum - ms
  {
    if ms == j.timeQuantum {
      run, t := before, s;
      assert s.workers[w := s.workers[w]] == s.workers;
    } else {
      var polled := s.(workers := s.workers[w := Pausing(j, ms, 0)]);
      var slept := s.(workers := s.workers[w := Polling(j, ms + 1, 0)]);
      SleepsOnce(s, w, j, ms);
      run := Goes(s0, before, s, Poll(w), polled);
      run := Goes(s0, run, polled, Pause(w), slept);
      run, t := SleepsThrough(s0, run, slept, w, j, ms + 1);
      assert slept.workers[w := Polling(j, j.timeQuantum, 0)] == s.workers[w := Polling(j, j.timeQuantum, 0)];
    }
  }

  lemma PollsInVain(s: State, j: Job)
    requires j.timeQuantum > 0 && s.workers == [Polling(j, j.timeQuantum, 0)] && RunsInGroup(s, j.pid)
    ensures Apply(s, Poll(0)) == s.(workers := [Pausing(j, j.timeQuantum, 0)])
  {
  }

  /** The poll, SIGSTOP, stop and poll that end it. */
  lemma StopsAndIsSeen(s0: State, before: seq<Label>, s: State, j: Job) returns (run: seq<Label>, t: State)
    requires Leads(s0, before, s) && Undisturbed(before)
    requires j.timeQuantum > 0 && s.workers == [Polling(j, j.timeQuantum, 0)] && RunsInGroup(s, j.pid)
    ensures Leads(s0, run, t) && Undisturbed(run) && |run| == |before| + 4
    ensures t.workers == [Requeueing(j)] && t.jobs == s.jobs && t.control == s.control
    ensures t.procs == s.procs[j.pid := s.procs[j.pid].(st := Stopped(true), pendingStop := false)]
  {
    var polled := s.(workers := [Pausing(j, j.timeQuantum, 0)]);
    PollsInVain(s, j);
    run := Goes(s0, before, s, Poll(0), polled);
    var sent := Apply(polled, Pause(0));
    run := Goes(s0, run, polled, Pause(0), sent);
    StopIsSent(polled, 0, j, 0);
    run, t := StopsAt(s0, run, sent, j);
  }

  lemma StopsAt(s0: State, before: seq<Label>, s: State, j: Job) returns (run: seq<Label>, t: State)
    requires Leads(s0, before, s) && Undisturbed(before)
    requires |s.workers| == 1 && s.workers[0].Polling? && s.workers[0].job == j
    requires RunsInGroup(s, j.pid) && s.procs[j.pid].pendingStop
    ensures Leads(s0, run, t) && Undisturbed(run) && |run| == |before| + 2
    ensures t.workers == [Requeueing(j)] && t.jobs == s.jobs && t.control == s.control
    ensures t.procs == s.procs[j.pid := s.procs[j.pid].(st := Stopped(true), pendingStop := false)]
  {
    StopIsSeen(s, 0);
    var stopped := Apply(s, Deliver(j.pid));
    run := Goes(s0, before, s, Deliver(j.pid), stopped);
    t := Apply(stopped, Poll(0));
    run := Goes(s0, run, stopped, Poll(0), t);
  }

  /** The first burst of a fresh job, up to its child's `setpgid`. */
  lemma StartsInGroup(policy: Policy, j: Job, p: int) returns (run: seq<Label>, t: State)
    requires FreshJob(j) && j.cmd.executable != "exit" && !IsBuiltin(j.cmd) && j.timeQuantum > 0 && p > 0
    ensures Leads(Initial(policy, 1), run, t) && Undisturbed(run)
    ensures t.control.Up? && t.jobs == [] && t.workers == [Polling(j.(pid := p, uniqueId := 1), 0, 0)]
    ensures |run| == 6
    ensures t.procs == map[p := Proc(j.id, Running, false, true)]
  {
    var s0 := Initial(policy, 1);
    var held;
    run, held := TakesFreshJob(policy, j);
    var cloned := LaunchStep(held, 0, Spawned(p));
    LaunchesIt(held, j, p);
    run := Goes(s0, run, held, Launch(0, Spawned(p)), cloned);
    t := cloned.(procs := map[p := Proc(j.id, Running, false, true)]);
    run := Goes(s0, run, cloned, SetGroup(p), t);
  }

  /** From the queue into the next burst. */
  lemma RunsOn(s0: State, before: seq<Label>, s: State, j: Job) returns (run: seq<Label>, t: State)
    requires Leads(s0, before, s) && Undisturbed(before) && s.control.Up?
    requires s.jobs == [j] && s.workers == [Checking] && !IsBuiltin(j.cmd) && j.timeQuantum > 0 && j.pid > 0
    ensures Leads(s0, run, t) && Undisturbed(run) && before < run
    ensures t.jobs == [] && t.workers == [Polling(j, 0, 0)] && t.procs == SendCont(s.procs, j.pid)
  {
    var entering := s.(workers := [Entering]);
    var held := s.(jobs := [], workers := [Holding(j)], log := s.log + [Taken(j.id, 0)]);
    t := ResumeStep(held, 0);
    run := Goes(s0, before, s, Check(0), entering);
    SoleJobIsTaken(entering, j);
    run := Goes(s0, run, entering, Lock(0), held);
    run := Goes(s0, run, held, Resume(0), t);
  }

  /** One undisturbed run brings job j back to the queue with its child p stopped, and a longer one
      brings it into its next burst with the child running. */
  ghost predicate ComesBack(policy: Policy, j: Job, p: int, run: seq<Label>, more: seq<Label>) {
    && Undisturbed(run) && Undisturbed(more) && run < more
    && ValidRun(Initial(policy, 1), run) && ValidRun(Initial(policy, 1), more)
    && var s, t := After(Initial(policy, 1), run), After(Initial(policy, 1), more);
       var back := j.(pid := p, uniqueId := 1, elapsedBursts := 1);
       && s.jobs == [back] && s.workers == [Checking] && p in s.procs && s.procs[p].st == Stopped(true)
       && t.jobs == [] && t.workers == [Polling(back, 0, 0)] && RunsInGroup(t, p)
  }

  /** For every policy and every preemptive job whose child computes for ever: a run, in which nothing
      else disturbs the child, from the submission to the job's return to the queue, one level down,
      after `time_quantum` sleeps; and on to its next burst, in which the child runs again. */
  lemma QuantumPreempts(policy: Policy, j: Job, p: int) returns (run: seq<Label>, more: seq<Label>)
    requires FreshJob(j) && j.cmd.executable != "exit" && !IsBuiltin(j.cmd) && j.timeQuantum > 0 && p > 0
    ensures ComesBack(policy, j, p, run, more) && |run| == 2 * j.timeQuantum + 11
  {
    var s0, j1 := Initial(policy, 1), j.(pid := p, uniqueId := 1);
    var s;
    run, s := StartsInGroup(policy, j, p);
    run, s := SleepsThrough(s0, run, s, 0, j1, 0);
    run, s := StopsAndIsSeen(s0, run, s, j1);
    SoleJobIsRequeued(s, j1);
    var queued := s.(jobs := [Demoted(j1)], workers := [Checking]);
    run := Goes(s0, run, s, Requeue(0, None), queued);
    var t;
    more, t := RunsOn(s0, run, queued, Demoted(j1));
  }
}
