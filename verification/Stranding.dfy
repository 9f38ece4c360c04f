/** When a job can be left without any worker while the pool is up: `start` never clears `stopping_`,
    src/WorkerPool.cpp:8-27 and src/InMemoryJobQueue.cpp:12-29. */
module Stranding {
  import opened Jobs
  import opened Engine
  import opened EngineFrames
  import opened EngineInvariant
  import opened EngineSteps
  import opened EngineSafety

  /** Nobody calls `WorkerPool::stop` in this run. */
  predicate NoStop(run: seq<Label>) {
    forall i :: 0 <= i < |run| ==> !run[i].StopClear?
  }

  /** Work is queued, the pool is up, and all workers have left. */
  predicate Deserted(s: State) {
    s.control.Up? && AllGone(s.workers) && s.jobs != []
  }

  ghost predicate CanDesert(s: State) {
    exists run :: ValidRun(s, run) && NoStop(run) && Deserted(After(s, run))
  }

  // ----- before the first stop it cannot happen -----

  lemma {:induction false} UpStaysUp(s: State, run: seq<Label>)
    requires ValidRun(s, run) && NoStop(run) && s.control.Up?
    ensures
      var t := After(s, run);
      t.control.Up? && t.stopping == s.stopping && t.threads == s.threads
    decreases |run|
  {
    if run != [] {
      UpStep(s, run[0]);
      UpStaysUp(Apply(s, run[0]), run[1..]);
    }
  }

  lemma UpStep(s: State, l: Label)
    requires Enabled(s, l) && s.control.Up? && !l.StopClear?
    ensures Apply(s, l).control.Up? && Apply(s, l).stopping == s.stopping && Apply(s, l).threads == s.threads
  {
    StepFrame(s, l);
  }

  lemma FreshPoolIsNotDeserted(s: State, run: seq<Label>)
    requires Reachable(s) && s.control.Up? && s.threads > 0 && !s.stopping && ValidRun(s, run) && NoStop(run)
    ensures !Deserted(After(s, run))
  {
    UpStaysUp(s, run);
    ReachableOn(s, run);
    ReachableInv(After(s, run));
    assert !After(s, run).workers[0].Gone?;
  }

  // ----- and after a stop it always can -----

  /** How much a worker has to do before it leaves; a queued job weighs 20. */
  function Weight(p: Phase): nat {
    match p
    case Gone => 0
    case Entering => 1
    case Woken => 1
    case Asleep => 1
    case Checking => 2
    case Settling(_, _) => 3
    case Reporting(_, _) => 4
    case Polling(_, _, _) => 5
    case Blocking(_) => 5
    case Pausing(_, _, _) => 6
    case Holding(_) => 7
    case Requeueing(_) => 23
  }

  function WeightSum(ws: seq<Phase>): nat {
    if ws == [] then 0 else WeightSum(ws[..|ws| - 1]) + Weight(ws[|ws| - 1])
  }

  function Load(s: State): nat {
    20 * |s.jobs| + WeightSum(s.workers)
  }

  lemma {:induction false} WeightSumUpdate(ws: seq<Phase>, w: nat, p: Phase)
    requires w < |ws|
    ensures WeightSum(ws[w := p]) + Weight(ws[w]) == WeightSum(ws) + Weight(p)
  {
    var n := |ws| - 1;
    if w < n {
      WeightSumUpdate(ws[..n], w, p);
      assert ws[w := p][..n] == ws[..n][w := p];
    } else {
      assert ws[w := p][..n] == ws[..n];
    }
  }

  /** A pool that was stopped before and is up again. */
  ghost predicate Restarted(s: State) {
    Inv(s) && s.control.Up? && s.stopping
  }

  /** Worker w's child, if it waits for one, has ended. */
  predicate NothingToAwait(s: State, w: nat) {
    w < |s.workers| && (s.workers[w].Polling? || s.workers[w].Blocking? ==>
      s.workers[w].job.pid in s.procs && s.procs[s.workers[w].job.pid].st.Zombie?)
  }

  /** Such a worker has a step, and the step lowers what it and the queue weigh. */
  lemma TurnLowersOwnLoad(s: State, w: nat)
    requires s.control.Up? && s.stopping && NoneAsleep(s.workers)
    requires NothingToAwait(s, w) && !s.workers[w].Gone?
    ensures
      var l := NextLabel(s, w, None);
      && Enabled(s, l) && Acts(l, w) && |Apply(s, l).workers| == |s.workers|
      && 20 * |Apply(s, l).jobs| + Weight(Apply(s, l).workers[w]) < 20 * |s.jobs| + Weight(s.workers[w])
  {
    var l := NextLabel(s, w, None);
    assert Enabled(s, l);
    if l.Poll? {
      PollOfZombie(s, w);
    } else {
      StepFrame(s, l);
      assert WorkerFrame(l, s, Apply(s, l), w);
    }
  }

  lemma PollOfZombie(s: State, w: nat)
    requires w < |s.workers| && s.workers[w].Polling? && NothingToAwait(s, w)
    ensures PollStep(s, w).jobs == s.jobs && PollStep(s, w).workers[w].Reporting?
  {
  }

  lemma OthersStay(s: State, l: Label, t: State, w: nat)
    requires Framed(s, l, t) && !l.Start? && NoneAsleep(s.workers) && w < |s.workers| && Acts(l, w)
    ensures |t.workers| == |s.workers| && t.workers == s.workers[w := t.workers[w]]
  {
    forall v | 0 <= v < |s.workers| && v != w ensures t.workers[v] == s.workers[v] {
      assert WorkerFrame(l, s, t, v);
    }
  }

  lemma TurnLowersLoad(s: State, w: nat)
    requires Restarted(s) && NothingToAwait(s, w) && !s.workers[w].Gone?
    ensures
      var l := NextLabel(s, w, None);
      Enabled(s, l) && !l.StopClear? && Restarted(Apply(s, l)) && Load(Apply(s, l)) < Load(s)
  {
    var l := NextLabel(s, w, None);
    TurnLowersOwnLoad(s, w);
    var t := Apply(s, l);
    StepFrame(s, l);
    OthersStay(s, l, t, w);
    WeightSumUpdate(s.workers, w, t.workers[w]);
    StepKeepsInv(s, l);
    UpStep(s, l);
  }

  /** The child of worker w dies. */
  lemma ChildDies(s: State, w: nat) returns (l: Label)
    requires Restarted(s) && w < |s.workers| && !NothingToAwait(s, w)
    ensures Enabled(s, l) && !l.StopClear? && Restarted(Apply(s, l)) && Load(Apply(s, l)) == Load(s)
    ensures Apply(s, l).workers == s.workers && NothingToAwait(Apply(s, l), w)
  {
    assert PhaseOK(s, s.workers[w]);
    l := Die(s.workers[w].job.pid, ExitedWith(0));
    StepKeepsInv(s, l);
  }

  lemma StepThen(s: State, l: Label, run: seq<Label>)
    requires Enabled(s, l) && !l.StopClear? && ValidRun(Apply(s, l), run) && NoStop(run)
    ensures ValidRun(s, [l] + run) && After(s, [l] + run) == After(Apply(s, l), run) && NoStop([l] + run)
  {
    assert ([l] + run)[1..] == run;
  }

  /** Left alone, the workers of such a pool serve what is queued and leave. */
  lemma {:induction false} Drain(s: State) returns (run: seq<Label>)
    requires Restarted(s)
    ensures ValidRun(s, run) && NoStop(run)
    ensures Restarted(After(s, run)) && AllGone(After(s, run).workers)
    decreases Load(s)
  {
    run := [];
    if !AllGone(s.workers) {
      var w :| 0 <= w < |s.workers| && !s.workers[w].Gone?;
      if NothingToAwait(s, w) {
        run := TakeTurn(s, w);
      } else {
        var l := ChildDies(s, w);
        run := TakeTurn(Apply(s, l), w);
        StepThen(s, l, run);
        run := [l] + run;
      }
    }
  }

  lemma {:induction false} TakeTurn(s: State, w: nat) returns (run: seq<Label>)
    requires Restarted(s) && NothingToAwait(s, w) && !s.workers[w].Gone?
    ensures ValidRun(s, run) && NoStop(run)
    ensures Restarted(After(s, run)) && AllGone(After(s, run).workers)
    decreases Load(s), 0
  {
    var l := NextLabel(s, w, None);
    TurnLowersLoad(s, w);
    run := Drain(Apply(s, l));
    StepThen(s, l, run);
    run := [l] + run;
  }

  lemma {:induction false} FreshId(log: seq<Event>) returns (id: JobId)
    ensures forall i :: 0 <= i < |log| ==> log[i].id < id
  {
    if log == [] {
      id := 0;
    } else {
      var n := |log| - 1;
      id := FreshId(log[..n]);
      if id <= log[n].id {
        id := log[n].id + 1;
      }
      assert forall i :: 0 <= i < n ==> log[..n][i] == log[i];
    }
  }

  lemma {:induction false} UnknownId(log: seq<Event>, id: JobId)
    requires forall i :: 0 <= i < |log| ==> log[i].id != id
    ensures H(log, id) == NO_HISTORY
  {
    if log != [] {
      UnknownId(log[..|log| - 1], id);
    }
  }

  /** A producer submits a job to a pool without workers. */
  lemma SubmitToNobody(s: State) returns (l: Label)
    requires s.control.Up? && AllGone(s.workers)
    ensures Enabled(s, l) && !l.StopClear? && Deserted(Apply(s, l))
  {
    var id := FreshId(s.log);
    UnknownId(s.log, id);
    l := Submit(Job(id, EMPTY_COMMAND, true, 0, -1, 0, 0, 0), None);
  }

  lemma RestartedPoolCanBeDeserted(s: State)
    requires Restarted(s)
    ensures CanDesert(s)
  {
    var run := Drain(s);
    var t := After(s, run);
    if t.jobs == [] {
      var l := SubmitToNobody(t);
      var longer := Extended(s, run, t, l, Apply(t, l));
      assert NoStop(longer) && Deserted(After(s, longer));
    } else {
      assert Deserted(After(s, run));
    }
  }

  /** The exact condition: while the pool is up, queued work can be left without any worker if and
      only if `stopping_` is set, that is, if the pool was stopped before. */
  lemma DesertedIffStoppedBefore(s: State)
    requires Reachable(s) && s.control.Up? && s.threads > 0
    ensures CanDesert(s) <==> s.stopping
  {
    if s.stopping {
      ReachableInv(s);
      RestartedPoolCanBeDeserted(s);
    } else {
      forall run | ValidRun(s, run) && NoStop(run) ensures !Deserted(After(s, run)) {
        FreshPoolIsNotDeserted(s, run);
      }
    }
  }
}
