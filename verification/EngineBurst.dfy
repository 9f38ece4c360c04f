/** A preemptive burst of the engine, interleaved with everything else, is one run of the polling loop
    that module Isolator specifies, on the answers that its own polls got. */
module EngineBurst {
  import opened Jobs
  import opened Engine
  import opened EngineFrames
  import opened EngineInvariant
  import opened EngineSteps
  import opened EngineSafety
  import I = Isolator

  predicate InLoop(s: State, w: nat) {
    w < |s.workers| && (s.workers[w].Polling? || s.workers[w].Pausing?)
  }

  /** What `waitpid` answers to worker w now. */
  function Answer(s: State, w: nat): I.Observation
    requires w < |s.workers| && s.workers[w].Polling?
  {
    var pid := s.workers[w].job.pid;
    if pid !in s.procs then I.Error
    else match s.procs[pid].st
      case Zombie(st) => I.Ended(st)
      case Stopped(reported) => if reported then I.Nothing else I.StopSeen
      case Running => I.Nothing
  }

  /** The answers to worker w's polls, until it leaves the loop. */
  function Answers(s: State, run: seq<Label>, w: nat): seq<I.Observation>
    requires ValidRun(s, run)
    decreases |run|
  {
    if run == [] || !InLoop(s, w) then []
    else (if run[0] == Poll(w) then [Answer(s, w)] else []) + Answers(Apply(s, run[0]), run[1..], w)
  }

  /** The phase with which worker w leaves the loop, or in which the run ends. */
  function Exit(s: State, run: seq<Label>, w: nat): Phase
    requires ValidRun(s, run) && w < |s.workers|
    decreases |run|
  {
    if run == [] || !InLoop(s, w) || w >= |Apply(s, run[0]).workers| then s.workers[w]
    else Exit(Apply(s, run[0]), run[1..], w)
  }

  // ----- counting the loop's actions -----

  function Sleeps(quantum: nat, n: nat): nat {
    if n < quantum then n else quantum
  }

  /** Among the loop's first n actions are so many sleeps, and the others are stop signals. */
  lemma {:induction false} PlanCounts(quantum: nat, n: nat)
    ensures multiset(I.Plan(quantum, n))[I.Sleep] == Sleeps(quantum, n)
    ensures multiset(I.Plan(quantum, n))[I.SigStop] == n - Sleeps(quantum, n)
  {
    if n > 0 {
      PlanCounts(quantum, n - 1);
      assert I.Plan(quantum, n) == I.Plan(quantum, n - 1) + [I.Plan(quantum, n)[n - 1]];
    }
  }

  /** Phase p of job j after n polls, all of them silent: the action for the last one has been taken,
      or is about to be. */
  predicate Working(p: Phase, j: Job, n: nat) {
    && j.timeQuantum > 0
    && (|| p == Polling(j, Sleeps(j.timeQuantum, n), n - Sleeps(j.timeQuantum, n))
        || (n > 0 && p == Pausing(j, Sleeps(j.timeQuantum, n - 1), n - 1 - Sleeps(j.timeQuantum, n - 1))))
  }

  /** The phase to which the loop's outcome leads. */
  predicate ExitFor(p: Phase, j: Job, r: I.Outcome) {
    match r
    case Preempted => p == Requeueing(j)
    case Finished(res) => p == Reporting(j, res.(output := Some(j.id)))
    case _ => false
  }

  /** After n silent polls and the answers obs the worker is in phase p: nothing but the last answer
      is news, and it decides. */
  predicate Computes(p: Phase, j: Job, n: nat, obs: seq<I.Observation>) {
    var news := I.FirstNews(obs);
    if news == |obs| then Working(p, j, n + |obs|)
    else news == |obs| - 1 && ExitFor(p, j, I.Decided(obs, news))
  }

  lemma SilenceGoesOn(p: Phase, j: Job, n: nat, obs: seq<I.Observation>)
    requires Computes(p, j, n + 1, obs)
    ensures Computes(p, j, n, [I.Nothing] + obs)
  {
    assert ([I.Nothing] + obs)[1..] == obs;
  }

  lemma NewsDecides(p: Phase, j: Job, n: nat, x: I.Observation)
    requires !x.Nothing? && ExitFor(p, j, I.Decided([x], 0))
    ensures Computes(p, j, n, [x])
  {
  }

  // ----- one step -----

  lemma OtherStep(s: State, l: Label, w: nat)
    requires Inv(s) && Enabled(s, l) && InLoop(s, w) && l != Poll(w) && l != Pause(w)
    ensures w < |Apply(s, l).workers| && Apply(s, l).workers[w] == s.workers[w]
  {
    StepFrame(s, l);
    assert !l.Start?;
    assert WorkerFrame(l, s, Apply(s, l), w);
  }

  lemma PauseActs(s: State, w: nat, j: Job, n: nat)
    requires Inv(s) && w < |s.workers| && s.workers[w].Pausing? && Working(s.workers[w], j, n)
    ensures Working(PauseStep(s, w).workers[w], j, n)
  {
  }

  lemma PollAnswers(s: State, w: nat, j: Job, n: nat)
    requires Inv(s) && w < |s.workers| && s.workers[w].Polling? && Working(s.workers[w], j, n)
    ensures
      var p := PollStep(s, w).workers[w];
      && |PollStep(s, w).workers| == |s.workers|
      && if Answer(s, w).Nothing? then Working(p, j, n + 1) else ExitFor(p, j, I.Decided([Answer(s, w)], 0))
  {
    assert PhaseOK(s, s.workers[w]);
  }

  // ----- a whole burst -----

  lemma LoopUnfolds(s: State, run: seq<Label>, w: nat)
    requires run != [] && ValidRun(s, run) && InLoop(s, w) && w < |Apply(s, run[0]).workers|
    ensures
      var t := Apply(s, run[0]);
      && Exit(s, run, w) == Exit(t, run[1..], w)
      && Answers(s, run, w)
         == if run[0] == Poll(w) then [Answer(s, w)] + Answers(t, run[1..], w) else Answers(t, run[1..], w)
  {
    assert [] + Answers(Apply(s, run[0]), run[1..], w) == Answers(Apply(s, run[0]), run[1..], w);
  }

  lemma PauseOrOtherStep(s: State, l: Label, w: nat, j: Job, n: nat)
    requires Inv(s) && Enabled(s, l) && w < |s.workers| && Working(s.workers[w], j, n) && l != Poll(w)
    ensures w < |Apply(s, l).workers| && Working(Apply(s, l).workers[w], j, n)
  {
    if l == Pause(w) {
      PauseActs(s, w, j, n);
    } else {
      OtherStep(s, l, w);
    }
  }

  lemma {:induction false} BurstGoesOn(s: State, run: seq<Label>, w: nat, j: Job, n: nat)
    requires Inv(s) && ValidRun(s, run) && w < |s.workers| && Working(s.workers[w], j, n)
    ensures Computes(Exit(s, run, w), j, n, Answers(s, run, w))
    decreases |run|
  {
    if run != [] {
      var t := Apply(s, run[0]);
      StepKeepsInv(s, run[0]);
      if run[0] == Poll(w) {
        PollAnswers(s, w, j, n);
        if Answer(s, w).Nothing? {
          BurstGoesOn(t, run[1..], w, j, n + 1);
        }
        PollGoesOn(s, run, w, j, n, t);
      } else {
        PauseOrOtherStep(s, run[0], w, j, n);
        LoopUnfolds(s, run, w);
        BurstGoesOn(t, run[1..], w, j, n);
      }
    }
  }

  /** A poll, and what follows it. */
  lemma PollGoesOn(s: State, run: seq<Label>, w: nat, j: Job, n: nat, t: State)
    requires ValidRun(s, run) && InLoop(s, w) && run != [] && run[0] == Poll(w)
    requires t == Apply(s, run[0]) && w < |t.workers|
    requires if Answer(s, w).Nothing? then Computes(Exit(t, run[1..], w), j, n + 1, Answers(t, run[1..], w))
             else ExitFor(t.workers[w], j, I.Decided([Answer(s, w)], 0))
    ensures Computes(Exit(s, run, w), j, n, Answers(s, run, w))
  {
    LoopUnfolds(s, run, w);
    if Answer(s, w).Nothing? {
      SilenceGoesOn(Exit(t, run[1..], w), j, n, Answers(t, run[1..], w));
    } else {
      NewsEndsTheLoop(t, run[1..], w);
      NewsDecides(t.workers[w], j, n, Answer(s, w));
    }
  }

  lemma NewsEndsTheLoop(t: State, rest: seq<Label>, w: nat)
    requires ValidRun(t, rest) && w < |t.workers| && !InLoop(t, w)
    ensures Answers(t, rest, w) == [] && Exit(t, rest, w) == t.workers[w]
  {
  }

  /** Whatever else happens meanwhile, a burst does what the polling loop does on the answers it got:
      the first news decides as it does there, and until then the sleeps and stop signals are those
      of the loop's plan. */
  lemma BurstIsPollLoop(s: State, run: seq<Label>, w: nat, j: Job)
    requires Reachable(s) && ValidRun(s, run) && w < |s.workers| && s.workers[w] == Polling(j, 0, 0)
    ensures
      var obs, p := Answers(s, run, w), Exit(s, run, w);
      var news := I.FirstNews(obs);
      && j.timeQuantum > 0 && news >= |obs| - 1
      && (I.Decided(obs, news).Preempted? <==> p == Requeueing(j))
      && (I.Decided(obs, news).Finished? <==> p.Reporting?)
      && (p.Reporting? ==> p == Reporting(j, I.Decided(obs, news).res.(output := Some(j.id))))
      && (p.Pausing? ==> obs != [])
      && (p.Polling? || p.Pausing? ==>
            var done := multiset(I.Plan(j.timeQuantum, if p.Pausing? then |obs| - 1 else |obs|));
            news == |obs| && p.job == j && p.ms == done[I.Sleep] && p.sent == done[I.SigStop])
  {
    ReachableInv(s);
    assert PhaseOK(s, s.workers[w]);
    BurstGoesOn(s, run, w, j, 0);
    var obs, p := Answers(s, run, w), Exit(s, run, w);
    if p.Polling? || p.Pausing? {
      PlanCounts(j.timeQuantum, if p.Pausing? then |obs| - 1 else |obs|);
    }
  }
}
