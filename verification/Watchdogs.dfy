/** The watchdogs of one `execute` call: the owner thread that starts, stops and destroys them,
    and one watcher thread each. src/TimeoutWatchdog.cpp, src/AnomalyWatchdog.cpp,
    src/CompositeWatchdog.cpp, src/Executor.cpp:24-27. */
module Watchdogs {
  import opened Jobs
  import opened Isolator

  datatype Kind = Timeout | Anomaly

  /** Unborn: no thread. Waiting: at or inside the timed wait. Sampling: an AnomalyWatchdog between
      its critical section and its decision. Dead: the thread function has returned. */
  datatype Watcher = Unborn | Waiting | Sampling | Dead

  /** `late` counts the kills that follow the reaping of the child, whose pid may by then be
      somebody else's. */
  datatype Dog = Dog(kind: Kind, running: bool, watcher: Watcher, joined: bool, kills: nat, late: nat)

  const NEW_ANOMALY := Dog(Anomaly, false, Unborn, false, 0, 0)

  /** What the owner still has to do. `Join(k)` is the second half of a stop that found the
      watchdog running. `Reap` is the `waitpid` that returns a terminal status, and `Hang` one that
      has not returned. */
  datatype Op = Begin(k: nat) | Stop(k: nat) | Join(k: nat) | Reap | Hang

  datatype State = State(dogs: seq<Dog>, todo: seq<Op>, reaped: bool)

  function Begins(n: nat): seq<Op> {
    seq(n, k requires 0 <= k => Begin(k))
  }

  function Stops(n: nat): seq<Op> {
    seq(n, k requires 0 <= k => Stop(k))
  }

  /** The CompositeWatchdog passes each call on to its n watchdogs in turn. */
  function Expand(n: nat, calls: seq<DogCall>): seq<Op> {
    if calls == [] then []
    else
      (match calls[0]
       case StartDog(_) => Begins(n)
       case Reaped => [Reap]
       case StopDog => Stops(n)) + Expand(n, calls[1..])
  }

  /** The owner's program in `execute`: what `isolateAndRun` calls, and then the destructors, which
      stop again. A builtin has no watchdogs. */
  function Program(n: nat, job: Job, spawn: Engine.Spawn, obs: seq<Observation>): seq<Op> {
    if Engine.IsBuiltin(job.cmd) then []
    else
      Expand(n, DogCalls(job, spawn, obs))
      + (if Executed(job, spawn, obs).Unfinished? then [Hang] else []) + Stops(n)
  }

  predicate Fresh(d: Dog) {
    !d.running && d.watcher.Unborn? && !d.joined && d.kills == 0 && d.late == 0
  }

  /** An `execute` call of this job that meets these answers begins. */
  predicate Starts(s: State, job: Job, spawn: Engine.Spawn, obs: seq<Observation>) {
    && s.todo == Program(|s.dogs|, job, spawn, obs) && !s.reaped
    && forall k :: 0 <= k < |s.dogs| ==> Fresh(s.dogs[k])
  }

  /** `expired`: the timed wait runs out. `suspicious`: the sampled system call is on the list. */
  datatype Label = Owner | Watch(k: nat, expired: bool, suspicious: bool)

  predicate InRange(op: Op, n: nat) {
    op.Begin? || op.Stop? || op.Join? ==> op.k < n
  }

  predicate Enabled(s: State, l: Label) {
    match l
    case Owner =>
      && s.todo != [] && InRange(s.todo[0], |s.dogs|) && !s.todo[0].Hang?
      && (s.todo[0].Join? ==> s.dogs[s.todo[0].k].watcher.Dead?)
    case Watch(k, _, _) => k < |s.dogs| && !s.dogs[k].watcher.Unborn? && !s.dogs[k].watcher.Dead?
  }

  function OwnerStep(s: State): State
    requires Enabled(s, Owner)
  {
    var op, rest := s.todo[0], s.todo[1..];
    match op
    case Begin(k) => s.(dogs := s.dogs[k := Started(s.dogs[k])], todo := rest)
    case Stop(k) =>
      if !s.dogs[k].running then s.(todo := rest)
      else s.(dogs := s.dogs[k := s.dogs[k].(running := false)], todo := [Join(k)] + rest)
    case Join(k) => s.(dogs := s.dogs[k := s.dogs[k].(joined := true)], todo := rest)
    case Reap => s.(todo := rest, reaped := true)
    case Hang => s
  }

  function Started(d: Dog): Dog {
    d.(running := true, watcher := Waiting)
  }

  function Killed(d: Dog, reaped: bool): Dog {
    d.(watcher := Dead, kills := d.kills + 1, late := if reaped then d.late + 1 else d.late)
  }

  /** One step of the watcher thread. The timed wait re-checks running_ under the lock, also when it
      runs out; the TimeoutWatchdog decides under that lock, the AnomalyWatchdog after it. */
  function WatchStep(d: Dog, expired: bool, suspicious: bool, reaped: bool): Dog {
    if d.watcher.Sampling? then
      if suspicious then Killed(d, reaped) else d.(watcher := Waiting)
    else if !d.running then d.(watcher := Dead)
    else if !expired then d
    else if d.kind.Timeout? then Killed(d, reaped)
    else d.(watcher := Sampling)
  }

  function Apply(s: State, l: Label): State
    requires Enabled(s, l)
  {
    match l
    case Owner => OwnerStep(s)
    case Watch(k, expired, suspicious) =>
      s.(dogs := s.dogs[k := WatchStep(s.dogs[k], expired, suspicious, s.reaped)])
  }

  predicate ValidRun(s: State, run: seq<Label>)
    decreases |run|
  {
    run == [] || (Enabled(s, run[0]) && ValidRun(Apply(s, run[0]), run[1..]))
  }

  function After(s: State, run: seq<Label>): State
    requires ValidRun(s, run)
    decreases |run|
  {
    if run == [] then s else After(Apply(s, run[0]), run[1..])
  }

  // ----- the invariant -----

  /** Starts come first and once each, and a join is only ever next. */
  ghost predicate Ordered(s: State) {
    && (forall i :: 0 <= i < |s.todo| ==> InRange(s.todo[i], |s.dogs|))
    && (forall i, j :: 0 <= i < j < |s.todo| && s.todo[j].Begin? ==> s.todo[i].Begin? && s.todo[i].k != s.todo[j].k)
    && (forall i :: 0 < i < |s.todo| ==> !s.todo[i].Join?)
  }

  /** A start concerns a fresh watchdog and is followed by a stop. */
  ghost predicate BeginsOK(s: State) {
    forall k: nat :: Begin(k) in s.todo ==> Stop(k) in s.todo && k < |s.dogs| && Fresh(s.dogs[k])
  }

  ghost predicate DogOK(s: State, k: nat)
    requires k < |s.dogs|
  {
    var d := s.dogs[k];
    && (d.running ==> !d.watcher.Unborn? && Stop(k) in s.todo && !d.joined)
    && (d.joined ==> d.watcher.Dead?)
    && (!d.running && !d.joined && !d.watcher.Unborn? ==> s.todo != [] && s.todo[0] == Join(k))
    && (d.watcher.Unborn? ==> !d.joined)
    && (d.watcher.Sampling? ==> d.kind.Anomaly?)
    && d.kills <= (if d.watcher.Dead? then 1 else 0)
    && (d.running && d.watcher.Dead? ==> d.kills == 1)
    && (s.todo != [] && s.todo[0] == Join(k) ==> !d.running && !d.watcher.Unborn? && !d.joined)
  }

  ghost predicate Inv(s: State) {
    Ordered(s) && BeginsOK(s) && forall k :: 0 <= k < |s.dogs| ==> DogOK(s, k)
  }

  /** The program by its parts. */
  function Shape(n: nat, cloned: bool, ended: bool, hung: bool): seq<Op> {
    (if cloned then Begins(n) else []) + (if ended then [Reap] + Stops(n) else [])
    + (if hung then [Hang] else []) + Stops(n)
  }

  lemma ExpandCalls(n: nat, pid: int, cloned: bool, ended: bool)
    ensures Expand(n, (if cloned then [StartDog(pid)] else []) + if ended then [Reaped, StopDog] else [])
            == (if cloned then Begins(n) else []) + if ended then [Reap] + Stops(n) else []
  {
    var tail := if ended then [Reaped, StopDog] else [];
    assert Expand(n, [StopDog]) == Stops(n) + Expand(n, []);
    assert [Reaped, StopDog][1..] == [StopDog];
    assert Expand(n, tail) == if ended then [Reap] + Stops(n) else [];
    if cloned {
      assert ([StartDog(pid)] + tail)[1..] == tail;
    } else {
      assert [] + tail == tail;
    }
  }

  lemma ProgramIsShape(n: nat, job: Job, spawn: Engine.Spawn, obs: seq<Observation>)
    requires !Engine.IsBuiltin(job.cmd)
    ensures Program(n, job, spawn, obs)
            == Shape(n, OpeningOf(job, spawn).Cloned?, OutcomeOf(job, spawn, obs).Finished?,
                     OutcomeOf(job, spawn, obs).Unfinished?)
  {
    ExpandCalls(n, if spawn.Spawned? then spawn.pid else 0, OpeningOf(job, spawn).Cloned?,
                OutcomeOf(job, spawn, obs).Finished?);
  }

  lemma ShapeAt(n: nat, cloned: bool, ended: bool, hung: bool)
    ensures
      var p := Shape(n, cloned, ended, hung);
      var b := if cloned then n else 0;
      && |p| >= b + n
      && (forall i :: 0 <= i < b ==> p[i] == Begin(i))
      && (forall i :: b <= i < |p| ==> InRange(p[i], n) && !p[i].Begin? && !p[i].Join?)
      && (forall k: nat :: k < n ==> p[|p| - n + k] == Stop(k))
  {
  }

  lemma StartTodo(s: State, cloned: bool, ended: bool, hung: bool)
    requires s.todo == Shape(|s.dogs|, cloned, ended, hung)
    requires forall k :: 0 <= k < |s.dogs| ==> Fresh(s.dogs[k])
    ensures Ordered(s) && BeginsOK(s)
  {
    var n := |s.dogs|;
    ShapeAt(n, cloned, ended, hung);
    forall k: nat | Begin(k) in s.todo ensures Stop(k) in s.todo && k < n && Fresh(s.dogs[k]) {
      assert s.todo[|s.todo| - n + k] == Stop(k);
    }
  }

  lemma StartInv(s: State, job: Job, spawn: Engine.Spawn, obs: seq<Observation>)
    requires Starts(s, job, spawn, obs)
    ensures Inv(s)
  {
    if !Engine.IsBuiltin(job.cmd) {
      var cloned, r := OpeningOf(job, spawn).Cloned?, OutcomeOf(job, spawn, obs);
      ProgramIsShape(|s.dogs|, job, spawn, obs);
      StartTodo(s, cloned, r.Finished?, r.Unfinished?);
      ShapeAt(|s.dogs|, cloned, r.Finished?, r.Unfinished?);
    }
    forall k | 0 <= k < |s.dogs| ensures DogOK(s, k) {
      assert Fresh(s.dogs[k]);
    }
  }

  lemma OwnerKeepsOrder(s: State)
    requires Ordered(s) && Enabled(s, Owner)
    ensures Ordered(OwnerStep(s))
  {
  }

  lemma OwnerKeepsBegins(s: State)
    requires Ordered(s) && BeginsOK(s) && Enabled(s, Owner)
    ensures BeginsOK(OwnerStep(s))
  {
    var t := OwnerStep(s);
    var op, rest := s.todo[0], s.todo[1..];
    assert s.todo == [op] + rest;
    forall k: nat | Begin(k) in t.todo ensures Stop(k) in t.todo && k < |t.dogs| && Fresh(t.dogs[k]) {
      assert Begin(k) in rest;
      assert op.Begin? && op.k != k;
    }
  }

  lemma OwnerKeepsDog(s: State, k: nat)
    requires Inv(s) && Enabled(s, Owner) && k < |s.dogs|
    ensures DogOK(OwnerStep(s), k)
  {
    var op, rest := s.todo[0], s.todo[1..];
    assert s.todo == [op] + rest;
    assert DogOK(s, k);
    assert Stop(k) in s.todo && op != Stop(k) ==> Stop(k) in rest;
    if op.Begin? {
      assert Stop(op.k) in s.todo;
    }
  }

  lemma OwnerKeepsInv(s: State)
    requires Inv(s) && Enabled(s, Owner)
    ensures Inv(OwnerStep(s))
  {
    OwnerKeepsOrder(s);
    OwnerKeepsBegins(s);
    forall k | 0 <= k < |s.dogs| ensures DogOK(OwnerStep(s), k) {
      OwnerKeepsDog(s, k);
    }
  }

  lemma WatchKeepsInv(s: State, k: nat, expired: bool, suspicious: bool)
    requires Inv(s) && Enabled(s, Watch(k, expired, suspicious))
    ensures Inv(Apply(s, Watch(k, expired, suspicious)))
  {
    var t := Apply(s, Watch(k, expired, suspicious));
    forall v | 0 <= v < |t.dogs| ensures DogOK(t, v) {
      assert DogOK(s, v);
    }
  }

  lemma {:induction false} RunKeepsInv(s: State, run: seq<Label>)
    requires Inv(s) && ValidRun(s, run)
    ensures Inv(After(s, run)) && |After(s, run).dogs| == |s.dogs|
    decreases |run|
  {
    if run != [] {
      match run[0] {
        case Owner => OwnerKeepsInv(s);
        case Watch(k, e, u) => WatchKeepsInv(s, k, e, u);
      }
      RunKeepsInv(Apply(s, run[0]), run[1..]);
    }
  }

  // ----- what follows for `execute` -----

  /** Each started watchdog makes at most one kill decision, and none after its thread was joined. It
      does not give up either: while it is not told to stop, its thread ends only with a kill. */
  lemma AtMostOneKill(s0: State, job: Job, spawn: Engine.Spawn, obs: seq<Observation>, run: seq<Label>, k: nat)
    requires Starts(s0, job, spawn, obs) && ValidRun(s0, run) && k < |s0.dogs|
    ensures |After(s0, run).dogs| == |s0.dogs| && After(s0, run).dogs[k].kills <= 1
    ensures After(s0, run).dogs[k].joined ==> After(s0, run).dogs[k].watcher.Dead?
    ensures After(s0, run).dogs[k].running && After(s0, run).dogs[k].watcher.Dead? ==>
      After(s0, run).dogs[k].kills == 1
  {
    StartInv(s0, job, spawn, obs);
    RunKeepsInv(s0, run);
    assert DogOK(After(s0, run), k);
  }

  /** No watcher outlives the `execute` call, whether or not `stop` was called explicitly: when the
      owner is done, every thread was never started or has been joined, and nothing can move. */
  lemma NoWatcherOutlivesExecute(s0: State, job: Job, spawn: Engine.Spawn, obs: seq<Observation>,
                                 run: seq<Label>, l: Label)
    requires Starts(s0, job, spawn, obs) && ValidRun(s0, run) && After(s0, run).todo == []
    ensures forall k :: 0 <= k < |After(s0, run).dogs| ==>
      After(s0, run).dogs[k].watcher.Unborn? || After(s0, run).dogs[k].joined
    ensures !Enabled(After(s0, run), l)
  {
    StartInv(s0, job, spawn, obs);
    RunKeepsInv(s0, run);
    var t := After(s0, run);
    forall k | 0 <= k < |t.dogs|
      ensures t.dogs[k].watcher.Unborn? || (t.dogs[k].joined && t.dogs[k].watcher.Dead?)
    {
      assert DogOK(t, k);
    }
  }

  /** Watchdog k can no longer kill: it was joined, or was never started and will not be. */
  ghost predicate Harmless(s: State, k: nat) {
    k < |s.dogs| && (s.dogs[k].joined || (s.dogs[k].watcher.Unborn? && Begin(k) !in s.todo))
  }

  lemma OwnerKeepsHarmless(s: State, k: nat)
    requires Inv(s) && Enabled(s, Owner) && Harmless(s, k)
    ensures Harmless(OwnerStep(s), k) && OwnerStep(s).dogs[k].kills == s.dogs[k].kills
  {
    assert DogOK(s, k);
    assert s.todo == [s.todo[0]] + s.todo[1..];
  }

  lemma StepKeepsHarmless(s: State, l: Label, k: nat)
    requires Inv(s) && Enabled(s, l) && Harmless(s, k)
    ensures Inv(Apply(s, l)) && |Apply(s, l).dogs| == |s.dogs|
    ensures Harmless(Apply(s, l), k) && Apply(s, l).dogs[k].kills == s.dogs[k].kills
  {
    match l
    case Owner =>
      OwnerKeepsInv(s);
      OwnerKeepsHarmless(s, k);
    case Watch(v, e, u) =>
      WatchKeepsInv(s, v, e, u);
      assert DogOK(s, k);
  }

  /** After `stop()` on watchdog k has returned, no continuation makes it kill. */
  lemma {:induction false} NoKillAfterStop(s: State, run: seq<Label>, k: nat)
    requires Inv(s) && ValidRun(s, run) && Harmless(s, k)
    ensures |After(s, run).dogs| == |s.dogs| && After(s, run).dogs[k].kills == s.dogs[k].kills
    decreases |run|
  {
    if run != [] {
      StepKeepsHarmless(s, run[0], k);
      NoKillAfterStop(Apply(s, run[0]), run[1..], k);
    }
  }

  /** Running_ has been cleared, and the watcher is not an AnomalyWatchdog past its critical section. */
  ghost predicate Flagged(s: State, k: nat) {
    k < |s.dogs| && !s.dogs[k].running && !s.dogs[k].watcher.Unborn? && !s.dogs[k].watcher.Sampling?
  }

  lemma StepKeepsFlagged(s: State, l: Label, k: nat)
    requires Inv(s) && Enabled(s, l) && Flagged(s, k)
    ensures Inv(Apply(s, l)) && |Apply(s, l).dogs| == |s.dogs|
    ensures Flagged(Apply(s, l), k) && Apply(s, l).dogs[k].kills == s.dogs[k].kills
  {
    match l
    case Owner =>
      OwnerKeepsInv(s);
      assert s.todo[0].Begin? ==> Begin(s.todo[0].k) in s.todo;
    case Watch(v, e, u) =>
      WatchKeepsInv(s, v, e, u);
  }

  /** The decision is made under the lock, or in the round that was begun before: from the moment
      that `stop` clears running_, even before it joins, a TimeoutWatchdog no longer kills, and an
      AnomalyWatchdog no longer kills unless it is sampling. */
  lemma {:induction false} NoKillOnceFlagged(s: State, run: seq<Label>, k: nat)
    requires Inv(s) && ValidRun(s, run) && Flagged(s, k)
    ensures |After(s, run).dogs| == |s.dogs| && After(s, run).dogs[k].kills == s.dogs[k].kills
    decreases |run|
  {
    if run != [] {
      StepKeepsFlagged(s, run[0], k);
      NoKillOnceFlagged(Apply(s, run[0]), run[1..], k);
    }
  }

  /** Some continuation makes watchdog k kill. */
  ghost predicate CanKill(s: State, k: nat)
    requires k < |s.dogs|
  {
    exists run :: ValidRun(s, run) && k < |After(s, run).dogs| && After(s, run).dogs[k].kills > s.dogs[k].kills
  }

  /** The exact condition: once running_ is cleared, a started watchdog can still kill if and only if
      it is sampling. */
  lemma KillsOnceFlaggedIffSampling(s: State, k: nat)
    requires Inv(s) && k < |s.dogs| && !s.dogs[k].running && !s.dogs[k].watcher.Unborn?
    ensures CanKill(s, k) <==> s.dogs[k].watcher.Sampling?
  {
    if s.dogs[k].watcher.Sampling? {
      var l := Watch(k, false, true);
      StepThen(s, l, []);
      assert After(s, [l] + []).dogs[k].kills > s.dogs[k].kills;
    } else {
      forall run | ValidRun(s, run)
        ensures k < |After(s, run).dogs| && After(s, run).dogs[k].kills == s.dogs[k].kills
      {
        NoKillOnceFlagged(s, run, k);
      }
    }
  }

  /** Such a state is reached by every call that reaps the child it cloned, here with one watchdog
      that samples when `stop` clears running_, and it kills after the reaping. */
  lemma {:induction false} SamplingMayStillKill(job: Job, spawn: Engine.Spawn, obs: seq<Observation>)
    returns (s0: State, run: seq<Label>)
    requires !Engine.IsBuiltin(job.cmd) && OpeningOf(job, spawn).Cloned? && OutcomeOf(job, spawn, obs).Finished?
    ensures Starts(s0, job, spawn, obs) && |s0.dogs| == 1 && |run| == 5 && ValidRun(s0, run)
    ensures ValidRun(s0, run[..4]) && After(s0, run[..4]).dogs == [Dog(Anomaly, false, Sampling, false, 0, 0)]
    ensures After(s0, run).dogs == [Dog(Anomaly, false, Dead, false, 1, 1)]
  {
    s0 := State([NEW_ANOMALY], Program(1, job, spawn, obs), false);
    ProgramIsShape(1, job, spawn, obs);
    assert s0.todo == [Begin(0), Reap, Stop(0), Stop(0)];
    run := SampleDuringStop(s0);
  }

  lemma SampleDuringStop(s0: State) returns (run: seq<Label>)
    requires s0 == State([NEW_ANOMALY], [Begin(0), Reap, Stop(0), Stop(0)], false)
    ensures |run| == 5 && ValidRun(s0, run)
    ensures ValidRun(s0, run[..4]) && After(s0, run[..4]).dogs == [Dog(Anomaly, false, Sampling, false, 0, 0)]
    ensures After(s0, run).dogs == [Dog(Anomaly, false, Dead, false, 1, 1)]
  {
    var a, b, c := Owner, Watch(0, true, false), Watch(0, false, true);
    var s1 := State([Dog(Anomaly, true, Waiting, false, 0, 0)], [Reap, Stop(0), Stop(0)], false);
    var s2 := s1.(dogs := [Dog(Anomaly, true, Sampling, false, 0, 0)]);
    var s3 := s2.(todo := [Stop(0), Stop(0)], reaped := true);
    var s4 := State([Dog(Anomaly, false, Sampling, false, 0, 0)], [Join(0), Stop(0)], true);
    var s5 := s4.(dogs := [Dog(Anomaly, false, Dead, false, 1, 1)]);
    assert Apply(s0, a) == s1 && Apply(s1, b) == s2 && Apply(s2, a) == s3;
    assert Apply(s3, a) == s4 && Apply(s4, c) == s5;
    run := [a, b, a, a, c];
    assert run[..4] == [a, b, a, a];
    StepThen(s4, c, []);
    StepThen(s3, a, []);
    StepThen(s3, a, [c]);
    StepThen(s2, a, [a]);
    StepThen(s2, a, [a, c]);
    StepThen(s1, b, [a, a]);
    StepThen(s1, b, [a, a, c]);
    StepThen(s0, a, [b, a, a]);
    StepThen(s0, a, [b, a, a, c]);
  }

  lemma StepThen(s: State, l: Label, run: seq<Label>)
    requires Enabled(s, l) && ValidRun(Apply(s, l), run)
    ensures ValidRun(s, [l] + run) && After(s, [l] + run) == After(Apply(s, l), run)
  {
    assert ([l] + run)[1..] == run;
  }

  /** `stop()` returns in such a state: its two exits are the early return and the end of the join. */
  lemma StopReturnsSafely(s: State)
    requires Inv(s) && Enabled(s, Owner)
    requires s.todo[0].Join? || (s.todo[0].Stop? && !s.dogs[s.todo[0].k].running)
    ensures Harmless(OwnerStep(s), s.todo[0].k)
  {
    var k := s.todo[0].k;
    assert DogOK(s, k);
    assert s.todo == [s.todo[0]] + s.todo[1..];
  }

  /** The join cannot hang: once running_ is false, every step of the watcher brings it closer to
      its end, and it can always take one. */
  function ToGo(d: Dog): nat {
    match d.watcher
    case Unborn => 0
    case Dead => 0
    case Waiting => 1
    case Sampling => 2
  }

  lemma JoinIsReached(s: State, k: nat, expired: bool, suspicious: bool)
    requires Inv(s) && s.todo != [] && s.todo[0] == Join(k)
    ensures Enabled(s, Owner) || Enabled(s, Watch(k, expired, suspicious))
    ensures Enabled(s, Watch(k, expired, suspicious)) ==>
      ToGo(Apply(s, Watch(k, expired, suspicious)).dogs[k]) < ToGo(s.dogs[k])
  {
    assert DogOK(s, k);
  }

  // ----- which bursts are watched -----

  /** A call that starts no watchdog makes no kill decision, however long it runs. */
  lemma {:induction false} NothingStarts(s: State, run: seq<Label>)
    requires ValidRun(s, run)
    requires forall i :: 0 <= i < |s.todo| ==> !s.todo[i].Begin? && !s.todo[i].Join?
    requires forall k :: 0 <= k < |s.dogs| ==> Fresh(s.dogs[k])
    ensures After(s, run).dogs == s.dogs
    decreases |run|
  {
    if run != [] {
      NothingStarts(Apply(s, run[0]), run[1..]);
    }
  }

  /** The owner starts the watchdogs from j on. */
  lemma {:induction false} StartAll(s: State, j: nat, rest: seq<Op>) returns (run: seq<Label>, t: State)
    requires j <= |s.dogs| && s.todo == Begins(|s.dogs|)[j..] + rest
    ensures ValidRun(s, run) && t == After(s, run)
    ensures t.todo == rest && t.reaped == s.reaped && |t.dogs| == |s.dogs|
    ensures forall k :: 0 <= k < |s.dogs| ==> t.dogs[k] == if k < j then s.dogs[k] else Started(s.dogs[k])
    decreases |s.dogs| - j
  {
    if j == |s.dogs| {
      run, t := [], s;
    } else {
      var m := OwnerStep(s);
      assert s.todo[1..] == Begins(|s.dogs|)[j + 1..] + rest;
      run, t := StartAll(m, j + 1, rest);
      StepThen(s, Owner, run);
      run := [Owner] + run;
    }
  }

  lemma {:induction false} RunThen(s: State, run: seq<Label>, more: seq<Label>)
    requires ValidRun(s, run) && ValidRun(After(s, run), more)
    ensures ValidRun(s, run + more) && After(s, run + more) == After(After(s, run), more)
    decreases |run|
  {
    if run == [] {
      assert run + more == more;
    } else {
      RunThen(Apply(s, run[0]), run[1..], more);
      assert (run + more)[1..] == run[1..] + more;
    }
  }

  /** A started watchdog that is left alone kills: a TimeoutWatchdog when its time is up, an
      AnomalyWatchdog after a suspicious sample. */
  lemma ItsTurn(s: State, k: nat) returns (run: seq<Label>)
    requires k < |s.dogs| && s.dogs[k].running && s.dogs[k].watcher.Waiting?
    ensures ValidRun(s, run) && After(s, run) == s.(dogs := s.dogs[k := Killed(s.dogs[k], s.reaped)])
  {
    var a, b := Watch(k, true, false), Watch(k, false, true);
    if s.dogs[k].kind.Timeout? {
      StepThen(s, a, []);
      run := [a] + [];
    } else {
      var m := Apply(s, a);
      assert Apply(m, b) == s.(dogs := s.dogs[k := Killed(s.dogs[k], s.reaped)]);
      StepThen(m, b, []);
      StepThen(s, a, [b]);
      run := [a] + [b];
    }
  }

  /** Every watchdog of a call can kill if and only if the call clones, which a call for a job with
      a pid does not. */
  lemma WatchedIffCloned(s0: State, job: Job, spawn: Engine.Spawn, obs: seq<Observation>, k: nat)
    requires Starts(s0, job, spawn, obs) && k < |s0.dogs|
    ensures CanKill(s0, k) <==> !Engine.IsBuiltin(job.cmd) && job.pid <= 0 && spawn.Spawned?
  {
    var n := |s0.dogs|;
    if !Engine.IsBuiltin(job.cmd) && job.pid <= 0 && spawn.Spawned? {
      var r := OutcomeOf(job, spawn, obs);
      ProgramIsShape(n, job, spawn, obs);
      var rest := ShapeSplit(n, r.Finished?, r.Unfinished?);
      var run, t := StartAll(s0, 0, rest);
      var more := ItsTurn(t, k);
      RunThen(s0, run, more);
      assert After(s0, run + more).dogs[k].kills > s0.dogs[k].kills;
    } else {
      UnclonedStartsNothing(n, job, spawn, obs);
      forall run | ValidRun(s0, run)
        ensures k < |After(s0, run).dogs| && After(s0, run).dogs[k].kills == s0.dogs[k].kills
      {
        NothingStarts(s0, run);
      }
    }
  }

  lemma ShapeSplit(n: nat, ended: bool, hung: bool) returns (rest: seq<Op>)
    ensures Shape(n, true, ended, hung) == Begins(n)[0..] + rest
    ensures ended ==> rest != [] && rest[0].Reap?
  {
    rest := (if ended then [Reap] + Stops(n) else []) + (if hung then [Hang] else []) + Stops(n);
    assert Shape(n, true, ended, hung) == Begins(n) + rest;
    assert Begins(n)[0..] == Begins(n);
  }

  lemma UnclonedStartsNothing(n: nat, job: Job, spawn: Engine.Spawn, obs: seq<Observation>)
    requires Engine.IsBuiltin(job.cmd) || !OpeningOf(job, spawn).Cloned?
    ensures
      var p := Program(n, job, spawn, obs);
      forall i :: 0 <= i < |p| ==> !p[i].Begin? && !p[i].Join?
  {
    if !Engine.IsBuiltin(job.cmd) {
      ProgramIsShape(n, job, spawn, obs);
      ShapeAt(n, false, OutcomeOf(job, spawn, obs).Finished?, OutcomeOf(job, spawn, obs).Unfinished?);
    }
  }

  /** Over the whole life of a job, exactly its first burst is watched. */
  lemma {:induction false} OnlyTheFirstBurstIsWatched(job: Job, bursts: seq<Burst>, i: nat, s0: State, k: nat)
    requires Lifetime(job, bursts) && i < |bursts|
    requires Starts(s0, JobAt(job, bursts, i), bursts[i].spawn, bursts[i].obs) && k < |s0.dogs|
    ensures CanKill(s0, k) <==> i == 0 && !Engine.IsBuiltin(job.cmd) && bursts[0].spawn.Spawned?
  {
    LaterBurstsHavePid(job, bursts, i);
    WatchedIffCloned(s0, JobAt(job, bursts, i), bursts[i].spawn, bursts[i].obs, k);
  }

  // ----- kills after the reaping -----

  ghost predicate CanKillLate(s: State, k: nat)
    requires k < |s.dogs|
  {
    exists run :: ValidRun(s, run) && k < |After(s, run).dogs| && After(s, run).dogs[k].late > s.dogs[k].late
  }

  lemma {:induction false} NeverReaped(s: State, run: seq<Label>, k: nat)
    requires ValidRun(s, run) && !s.reaped && k < |s.dogs|
    requires forall i :: 0 <= i < |s.todo| ==> !s.todo[i].Reap?
    ensures |After(s, run).dogs| == |s.dogs| && After(s, run).dogs[k].late == s.dogs[k].late
    decreases |run|
  {
    if run != [] {
      NeverReaped(Apply(s, run[0]), run[1..], k);
    }
  }

  lemma UnendedReapsNothing(n: nat, job: Job, spawn: Engine.Spawn, obs: seq<Observation>)
    requires Engine.IsBuiltin(job.cmd) || !OutcomeOf(job, spawn, obs).Finished?
    ensures
      var p := Program(n, job, spawn, obs);
      forall i :: 0 <= i < |p| ==> !p[i].Reap?
  {
    if !Engine.IsBuiltin(job.cmd) {
      ProgramIsShape(n, job, spawn, obs);
    }
  }

  lemma StartedReapKills(s0: State, n: nat, hung: bool, k: nat)
    requires n == |s0.dogs| && k < n && s0.todo == Shape(n, true, true, hung) && s0.dogs[k].late == 0
    ensures CanKillLate(s0, k)
  {
    var rest := ShapeSplit(n, true, hung);
    var run, t := StartAll(s0, 0, rest);
    var more := LateTurn(t, k);
    RunThen(s0, run, more);
    assert After(s0, run + more).dogs[k].late > 0;
  }

  /** A TimeoutWatchdog's time is up, or an AnomalyWatchdog's sample is in, when the child is reaped. */
  lemma LateTurn(s: State, k: nat) returns (run: seq<Label>)
    requires k < |s.dogs| && s.dogs[k].running && s.dogs[k].watcher.Waiting? && s.todo != [] && s.todo[0].Reap?
    ensures ValidRun(s, run) && |After(s, run).dogs| == |s.dogs|
    ensures After(s, run).dogs[k].late == s.dogs[k].late + 1
  {
    var a, b := Watch(k, true, false), Watch(k, false, true);
    if s.dogs[k].kind.Timeout? {
      var m := OwnerStep(s);
      StepThen(m, a, []);
      StepThen(s, Owner, [a]);
      run := [Owner] + [a];
    } else {
      var m := Apply(s, a);
      var u := OwnerStep(m);
      StepThen(u, b, []);
      StepThen(m, Owner, [b]);
      StepThen(s, a, [Owner, b]);
      run := [a] + [Owner, b];
    }
  }

  /** A kill can follow the reaping of the child if and only if the call reaps a child that it
      cloned: `stop` comes after `waitpid`. */
  lemma LateKillIffReapedClone(s0: State, job: Job, spawn: Engine.Spawn, obs: seq<Observation>, k: nat)
    requires Starts(s0, job, spawn, obs) && k < |s0.dogs|
    ensures CanKillLate(s0, k)
            <==> !Engine.IsBuiltin(job.cmd) && OpeningOf(job, spawn).Cloned? && OutcomeOf(job, spawn, obs).Finished?
  {
    var n := |s0.dogs|;
    if Engine.IsBuiltin(job.cmd) || !OutcomeOf(job, spawn, obs).Finished? {
      UnendedReapsNothing(n, job, spawn, obs);
      forall run | ValidRun(s0, run)
        ensures k < |After(s0, run).dogs| && After(s0, run).dogs[k].late == s0.dogs[k].late
      {
        NeverReaped(s0, run, k);
      }
    } else if !OpeningOf(job, spawn).Cloned? {
      UnclonedStartsNothing(n, job, spawn, obs);
      forall run | ValidRun(s0, run)
        ensures k < |After(s0, run).dogs| && After(s0, run).dogs[k].late == s0.dogs[k].late
      {
        NothingStarts(s0, run);
      }
    } else {
      ProgramIsShape(n, job, spawn, obs);
      StartedReapKills(s0, n, false, k);
    }
  }
}
