/** One call of `isolateAndRun`, src/LinuxNamespaceIsolator.cpp:144-331: clone or resume, wait, and
    decode. What `waitpid` returns, poll by poll, is an input. */
module Isolator {
  import opened Jobs
  import Engine

  /** One answer of `waitpid`: no news, a terminal status, a stop, or an error. */
  datatype Observation = Nothing | Ended(status: Status) | StopSeen | Error

  /** What the polling loop does after a poll without news. */
  datatype Action = Sleep | SigStop

  /** `Unfinished` means that the observations end before the call does. */
  datatype Outcome = Preempted | Finished(res: ExecResult) | Failed | Unfinished

  /** The first poll with news. */
  function FirstNews(obs: seq<Observation>): (n: nat)
    ensures n <= |obs|
    ensures forall i :: 0 <= i < n ==> obs[i].Nothing?
    ensures n < |obs| ==> !obs[n].Nothing?
  {
    if obs == [] || !obs[0].Nothing? then 0 else 1 + FirstNews(obs[1..])
  }

  /** The first answer that the blocking `waitpid` gives: stops and silence do not wake it. */
  function FirstEnd(obs: seq<Observation>): (n: nat)
    ensures n <= |obs|
    ensures forall i :: 0 <= i < n ==> obs[i].Nothing? || obs[i].StopSeen?
    ensures n < |obs| ==> obs[n].Ended? || obs[n].Error?
  {
    if obs == [] || obs[0].Ended? || obs[0].Error? then 0 else 1 + FirstEnd(obs[1..])
  }

  /** What an answer decides; the status is decoded as the blocking branch does it. */
  function Decided(obs: seq<Observation>, n: nat): Outcome {
    if n >= |obs| then Unfinished
    else match obs[n]
      case Ended(st) => Finished(DecodeBlocked(st))
      case StopSeen => Preempted
      case Error => Failed
      case Nothing => Unfinished
  }

  /** Exactly `quantum` sleeps, and then stop signals only. */
  function Plan(quantum: nat, polls: nat): (r: seq<Action>)
    ensures |r| == polls
    ensures forall i :: 0 <= i < polls ==> r[i] == if i < quantum then Sleep else SigStop
  {
    seq(polls, i => if i < quantum then Sleep else SigStop)
  }

  /** The polling loop. The first news decides; no SIGSTOP is sent before `quantum` one-millisecond
      sleeps; and if poll number d after the first SIGSTOP, which has index m = quantum + d, has
      news, the loop ends within quantum + 1 + d polls. */
  method PollLoop(quantum: int, obs: seq<Observation>) returns (r: Outcome, actions: seq<Action>, polls: nat)
    requires quantum > 0
    ensures r == Decided(obs, FirstNews(obs))
    ensures actions == Plan(quantum, FirstNews(obs))
    ensures polls == if FirstNews(obs) < |obs| then FirstNews(obs) + 1 else |obs|
    ensures forall m :: quantum < m < |obs| && !obs[m].Nothing? ==> !r.Unfinished? && polls <= m + 1
  {
    var elapsed := 0;
    actions, polls := [], 0;
    ghost var n := FirstNews(obs);
    while polls < |obs|
      invariant polls <= n && |actions| == polls
      invariant elapsed == if polls < quantum then polls else quantum
      invariant forall i :: 0 <= i < polls ==> actions[i] == if i < quantum then Sleep else SigStop
    {
      var w := obs[polls];
      polls := polls + 1;
      if w.Ended? {
        assert n == polls - 1;
        return Finished(DecodePolled(w.status)), actions, polls;
      } else if w.StopSeen? {
        assert n == polls - 1;
        return Preempted, actions, polls;
      } else if w.Error? {
        assert n == polls - 1;
        return Failed, actions, polls;
      }
      if elapsed >= quantum {
        actions := actions + [SigStop];
      } else {
        actions := actions + [Sleep];
        elapsed := elapsed + 1;
      }
    }
    r := Unfinished;
  }

  method BlockingWait(obs: seq<Observation>) returns (r: Outcome)
    ensures r == Decided(obs, FirstEnd(obs))
  {
    var i := 0;
    while i < |obs|
      invariant i <= FirstEnd(obs)
    {
      if obs[i].Ended? {
        assert i == FirstEnd(obs);
        return Finished(DecodeBlocked(obs[i].status));
      } else if obs[i].Error? {
        assert i == FirstEnd(obs);
        return Failed;
      }
      i := i + 1;
    }
    r := Unfinished;
  }

  // ----- preemption is transparent -----

  /** The observations of one preempted burst: silence, and then the stop. */
  predicate IsPreemptedBurst(obs: seq<Observation>) {
    obs != [] && FirstNews(obs) == |obs| - 1 && obs[|obs| - 1].StopSeen?
  }

  function Flatten(bursts: seq<seq<Observation>>): seq<Observation> {
    if bursts == [] then [] else bursts[0] + Flatten(bursts[1..])
  }

  lemma {:induction false} FirstEndSkips(a: seq<Observation>, b: seq<Observation>)
    requires forall i :: 0 <= i < |a| ==> a[i].Nothing? || a[i].StopSeen?
    ensures FirstEnd(a + b) == |a| + FirstEnd(b)
  {
    if a == [] {
      assert a + b == b;
    } else {
      assert (a + b)[1..] == a[1..] + b;
      FirstEndSkips(a[1..], b);
    }
  }

  lemma {:induction false} PreemptedBurstsDoNotWake(bursts: seq<seq<Observation>>)
    requires forall i :: 0 <= i < |bursts| ==> IsPreemptedBurst(bursts[i])
    ensures forall i :: 0 <= i < |Flatten(bursts)| ==> Flatten(bursts)[i].Nothing? || Flatten(bursts)[i].StopSeen?
  {
    if bursts != [] {
      PreemptedBurstsDoNotWake(bursts[1..]);
      var obs := bursts[0];
      assert forall i :: 0 <= i < |obs| ==> obs[i].Nothing? || obs[i].StopSeen?;
    }
  }

  /** However often and however quickly a job was preempted, its last burst decides what one
      non-preemptive wait over the same history would have decided. */
  lemma {:induction false} PreemptionIsTransparent(bursts: seq<seq<Observation>>, last: seq<Observation>)
    requires forall i :: 0 <= i < |bursts| ==> IsPreemptedBurst(bursts[i])
    requires FirstNews(last) < |last| && !last[FirstNews(last)].StopSeen?
    ensures Decided(last, FirstNews(last)) == Decided(Flatten(bursts) + last, FirstEnd(Flatten(bursts) + last))
  {
    PreemptedBurstsDoNotWake(bursts);
    SilenceDecidesNothing(Flatten(bursts), last);
  }

  lemma SilenceDecidesNothing(a: seq<Observation>, last: seq<Observation>)
    requires forall i :: 0 <= i < |a| ==> a[i].Nothing? || a[i].StopSeen?
    requires FirstNews(last) < |last| && !last[FirstNews(last)].StopSeen?
    ensures Decided(last, FirstNews(last)) == Decided(a + last, FirstEnd(a + last))
  {
    FirstEndSkips(a, last);
    FirstNewsEndsIt(last);
    DecidedLater(a, last, FirstEnd(last));
  }

  lemma {:induction false} FirstNewsEndsIt(obs: seq<Observation>)
    requires FirstNews(obs) < |obs| && !obs[FirstNews(obs)].StopSeen?
    ensures FirstEnd(obs) == FirstNews(obs)
  {
    if obs[0].Nothing? {
      FirstNewsEndsIt(obs[1..]);
    }
  }

  lemma DecidedLater(a: seq<Observation>, b: seq<Observation>, n: nat)
    ensures Decided(a + b, |a| + n) == Decided(b, n)
  {
  }

  // ----- the whole call -----

  datatype Opening = Refused | Cloned | Continued

  /** What the call does that its watchdog can tell. */
  datatype DogCall = StartDog(pid: int) | Reaped | StopDog

  function OpeningOf(job: Job, spawn: Engine.Spawn): Opening {
    if job.cmd.executable == "" then Refused
    else if job.pid > 0 then Continued
    else if spawn.Spawned? then Cloned
    else Refused
  }

  /** The job with the `pid` and `unique_id` that the call wrote through its references. */
  function JobAfter(job: Job, spawn: Engine.Spawn, counter: int): Job {
    if job.cmd.executable == "" || job.pid > 0 || spawn.NoPipe? then job
    else
      var numbered := if job.uniqueId == 0 then job.(uniqueId := counter) else job;
      if spawn.Spawned? then numbered.(pid := spawn.pid) else numbered
  }

  function OutcomeOf(job: Job, spawn: Engine.Spawn, obs: seq<Observation>): Outcome {
    if OpeningOf(job, spawn).Refused? then Failed
    else Decided(obs, if job.timeQuantum > 0 then FirstNews(obs) else FirstEnd(obs))
  }

  /** A stop preempts a job with a quantum, and passes a job without one by. */
  lemma QuantumDecidesTheWait(job: Job, spawn: Engine.Spawn, obs: seq<Observation>, n: nat)
    requires !OpeningOf(job, spawn).Refused? && n < |obs| && obs[n].StopSeen?
    requires forall i :: 0 <= i < n ==> obs[i].Nothing?
    ensures job.timeQuantum > 0 ==> OutcomeOf(job, spawn, obs) == Preempted
    ensures job.timeQuantum <= 0 ==> OutcomeOf(job, spawn, obs) == OutcomeOf(job, spawn, obs[n + 1..])
  {
    FirstNewsAt(obs, n);
    FirstEndSkips(obs[..n + 1], obs[n + 1..]);
    assert obs == obs[..n + 1] + obs[n + 1..];
    DecidedLater(obs[..n + 1], obs[n + 1..], FirstEnd(obs[n + 1..]));
  }

  lemma FirstNewsAt(obs: seq<Observation>, n: nat)
    requires n < |obs| && !obs[n].Nothing? && forall i :: 0 <= i < n ==> obs[i].Nothing?
    ensures FirstNews(obs) == n
  {
  }

  /** The watchdog is started exactly by a clone, and stopped exactly when the child was reaped. */
  function DogCalls(job: Job, spawn: Engine.Spawn, obs: seq<Observation>): seq<DogCall> {
    (if OpeningOf(job, spawn).Cloned? then [StartDog(spawn.pid)] else [])
    + if OutcomeOf(job, spawn, obs).Finished? then [Reaped, StopDog] else []
  }

  class LinuxNamespaceIsolator {
    var fileCounter: int

    constructor ()
      ensures fileCounter == 1
    {
      fileCounter := 1;
    }

    method IsolateAndRun(job: Job, spawn: Engine.Spawn, obs: seq<Observation>)
      returns (job': Job, opening: Opening, r: Outcome, calls: seq<DogCall>)
      requires fileCounter > 0
      modifies this
      ensures opening == OpeningOf(job, spawn) && job' == JobAfter(job, spawn, old(fileCounter))
      ensures r == OutcomeOf(job, spawn, obs) && calls == DogCalls(job, spawn, obs)
      // a first burst draws a number nobody had, unless the job has one; nothing else is written
      ensures job' == job.(pid := job'.pid, uniqueId := job'.uniqueId)
      ensures opening.Continued? ==> job' == job
      ensures job'.pid == if opening.Cloned? then spawn.pid else job.pid
      ensures job.cmd.executable != "" && job.pid <= 0 && !spawn.NoPipe? ==> job'.uniqueId != 0
      ensures if job'.uniqueId == job.uniqueId then fileCounter == old(fileCounter)
              else job.uniqueId == 0 && job'.uniqueId == old(fileCounter) && fileCounter == old(fileCounter) + 1
    {
      job', calls := job, [];
      if job.cmd.executable == "" {
        return job', Refused, Failed, calls;
      }
      if job.pid <= 0 {
        if spawn.NoPipe? {
          return job', Refused, Failed, calls;
        }
        if job.uniqueId == 0 {
          job' := job'.(uniqueId := fileCounter);
          fileCounter := fileCounter + 1;
        }
        if spawn.NoClone? {
          return job', Refused, Failed, calls;
        }
        job' := job'.(pid := spawn.pid);
        opening := Cloned;
        calls := calls + [StartDog(spawn.pid)];
      } else {
        opening := Continued;
      }
      if job.timeQuantum > 0 {
        var actions, polls;
        r, actions, polls := PollLoop(job.timeQuantum, obs);
      } else {
        r := BlockingWait(obs);
      }
      if r.Finished? {
        calls := calls + [Reaped];
        calls := calls + [StopDog];
        assert calls == DogCalls(job, spawn, obs);
      }
    }
  }

  // ----- the calls of one job -----

  /** `Executor::execute`: a builtin never reaches the isolator. */
  function Executed(job: Job, spawn: Engine.Spawn, obs: seq<Observation>): Outcome {
    if Engine.IsBuiltin(job.cmd) then Finished(Engine.BuiltinResult(job.cmd)) else OutcomeOf(job, spawn, obs)
  }

  /** What one `execute` call meets: the answers of `clone` and `waitpid`, and `file_counter`. */
  datatype Burst = Burst(spawn: Engine.Spawn, obs: seq<Observation>, counter: int)

  /** The job as it enters burst i: re-enqueued after every earlier one. */
  function JobAt(job: Job, bursts: seq<Burst>, i: nat): Job
    requires i <= |bursts|
  {
    if i == 0 then job
    else Demoted(JobAfter(JobAt(job, bursts, i - 1), bursts[i - 1].spawn, bursts[i - 1].counter))
  }

  predicate IsPreempted(job: Job, bursts: seq<Burst>, i: nat)
    requires i < |bursts|
  {
    Executed(JobAt(job, bursts, i), bursts[i].spawn, bursts[i].obs).Preempted?
  }

  /** The bursts of a submitted job: each one but the last was preempted. A clone has a positive pid. */
  predicate Lifetime(job: Job, bursts: seq<Burst>) {
    && FreshJob(job)
    && (forall i :: 0 <= i < |bursts| && bursts[i].spawn.Spawned? ==> bursts[i].spawn.pid > 0)
    && (forall i :: 0 <= i < |bursts| - 1 ==> IsPreempted(job, bursts, i))
  }

  lemma PreemptionNeedsAChild(job: Job, spawn: Engine.Spawn, obs: seq<Observation>, counter: int)
    requires Executed(job, spawn, obs).Preempted?
    ensures JobAfter(job, spawn, counter).cmd == job.cmd
    ensures job.pid > 0 ==> JobAfter(job, spawn, counter).pid == job.pid
    ensures job.pid <= 0 ==> spawn.Spawned? && JobAfter(job, spawn, counter).pid == spawn.pid
  {
  }

  lemma {:induction false} LaterBurstsHavePid(job: Job, bursts: seq<Burst>, i: nat)
    requires Lifetime(job, bursts) && i < |bursts|
    ensures JobAt(job, bursts, i).cmd == job.cmd
    ensures i > 0 ==> bursts[0].spawn.Spawned? && JobAt(job, bursts, i).pid == bursts[0].spawn.pid
  {
    if i > 0 {
      LaterBurstsHavePid(job, bursts, i - 1);
      var b := bursts[i - 1];
      assert IsPreempted(job, bursts, i - 1);
      PreemptionNeedsAChild(JobAt(job, bursts, i - 1), b.spawn, b.obs, b.counter);
    }
  }

  /** Only the first burst clones. */
  lemma LaterBurstsContinue(job: Job, bursts: seq<Burst>, i: nat)
    requires Lifetime(job, bursts) && i < |bursts|
    ensures OpeningOf(JobAt(job, bursts, i), bursts[i].spawn).Cloned?
            <==> i == 0 && job.cmd.executable != "" && bursts[0].spawn.Spawned?
  {
    LaterBurstsHavePid(job, bursts, i);
  }
}
