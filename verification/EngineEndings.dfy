/** What a run's labels have to do with its results: a reported result tells how the child that was
    cloned for the job really ended, and a promise goes to whoever asked for one. */
module EngineEndings {
  import opened Jobs
  import opened Schedulers
  import opened Engine
  import opened EngineFrames
  import opened EngineInvariant
  import opened EngineSteps
  import opened EngineSafety

  /** The state before step n. */
  function At(s: State, run: seq<Label>, n: nat): State
    requires ValidRun(s, run) && n <= |run|
    decreases n
  {
    if n == 0 then s else At(Apply(s, run[0]), run[1..], n - 1)
  }

  lemma {:induction false} AtStep(s: State, run: seq<Label>, n: nat)
    requires ValidRun(s, run) && n < |run|
    ensures Enabled(At(s, run, n), run[n]) && At(s, run, n + 1) == Apply(At(s, run, n), run[n])
    decreases n
  {
    if n > 0 {
      AtStep(Apply(s, run[0]), run[1..], n - 1);
    } else {
      assert At(Apply(s, run[0]), run[1..], 0) == Apply(s, run[0]);
    }
  }

  lemma {:induction false} AtEnd(s: State, run: seq<Label>)
    requires ValidRun(s, run)
    ensures At(s, run, |run|) == After(s, run)
    decreases |run|
  {
    if run != [] {
      AtEnd(Apply(s, run[0]), run[1..]);
    }
  }

  lemma {:induction false} AtKeepsInv(s: State, run: seq<Label>, n: nat)
    requires Inv(s) && ValidRun(s, run) && n <= |run|
    ensures Inv(At(s, run, n))
    decreases n
  {
    if n > 0 {
      StepKeepsInv(s, run[0]);
      AtKeepsInv(Apply(s, run[0]), run[1..], n - 1);
    }
  }

  // ----- where the log's entries come from -----

  /** Step n adds entry e. */
  predicate Logs(s: State, run: seq<Label>, n: nat, e: Event)
    requires ValidRun(s, run)
  {
    n < |run| && At(s, run, n + 1).log == At(s, run, n).log + [e]
  }

  lemma {:induction false} Origin(s: State, run: seq<Label>, n: nat, e: Event) returns (m: nat)
    requires ValidRun(s, run) && n <= |run| && s.log == [] && e in At(s, run, n).log
    ensures m < n && Logs(s, run, m, e)
  {
    assert n > 0;
    m := n - 1;
    AtStep(s, run, m);
    StepFrame(At(s, run, m), run[m]);
    var before, now := At(s, run, m).log, At(s, run, n).log;
    if e in before {
      m := Origin(s, run, m, e);
    } else {
      LastEntryIsNew(before, now, e);
    }
  }

  lemma LastEntryIsNew(before: seq<Event>, now: seq<Event>, e: Event)
    requires |before| <= |now| <= |before| + 1 && now[..|before|] == before
    requires e in now && e !in before
    ensures now == before + [e]
  {
    assert now == before + now[|before|..];
  }

  lemma {:induction false} EndingIsLogged(log: seq<Event>, id: JobId, st: Status)
    requires H(log, id).ending == Some(st)
    ensures Reaped(id, st) in log
  {
    var n := |log| - 1;
    if log[n] != Reaped(id, st) {
      EndingIsLogged(log[..n], id, st);
    }
  }

  lemma {:induction false} SubmissionIsLogged(log: seq<Event>, id: JobId)
    requires H(log, id).submits > 0
    ensures Submitted(id, H(log, id).cmd, H(log, id).hasPromise) in log
  {
    var n := |log| - 1;
    if log[n].id != id || !log[n].Submitted? {
      SubmissionIsLogged(log[..n], id);
    }
  }

  lemma {:induction false} NoCloneInLog(log: seq<Event>, id: JobId, e: Event)
    requires H(log, id).clones == 0 && e.Cloned? && e.id == id
    ensures e !in log
  {
    if log != [] {
      NoCloneInLog(log[..|log| - 1], id, e);
    }
  }

  // ----- the life of a child, on the labels -----

  /** This step clones child p for job id. */
  predicate Clones(s: State, l: Label, id: JobId, p: int) {
    && l.Launch? && l.spawn == Spawned(p) && l.w < |s.workers| && s.workers[l.w].Holding?
    && s.workers[l.w].job.id == id
  }

  predicate Kills(l: Label, p: int) {
    l.Die? && l.pid == p
  }

  /** A child that exists after a step existed before, for the same job, or was cloned in it; and it
      is dead only if it was, with the same status, or died in it. */
  lemma ChildStep(s: State, l: Label, p: int)
    requires Enabled(s, l) && p in Apply(s, l).procs
    ensures
      var q := Apply(s, l).procs[p];
      if p !in s.procs then Clones(s, l, q.owner, p) && !q.st.Zombie?
      else
        && q.owner == s.procs[p].owner
        && (s.procs[p].st.Zombie? ==> q.st == s.procs[p].st && !Kills(l, p))
        && (!s.procs[p].st.Zombie? && q.st.Zombie? ==> l == Die(p, q.st.status))
        && (!s.procs[p].st.Zombie? && !q.st.Zombie? ==> !Kills(l, p))
  {
    if l.Poll? {
      ChildOfPoll(s, l.w, p);
    } else if l.Launch? {
      ChildOfLaunch(s, l.w, l.spawn, p);
    } else if l.Pause? || l.Resume? {
      ChildOfSignal(s, l, p);
    }
  }

  lemma ChildOfSignal(s: State, l: Label, p: int)
    requires Enabled(s, l) && (l.Pause? || l.Resume?) && p in Apply(s, l).procs
    ensures p in s.procs && Apply(s, l).procs[p].owner == s.procs[p].owner
    ensures
      var q := Apply(s, l).procs[p].st;
      q.Zombie? || s.procs[p].st.Zombie? ==> q == s.procs[p].st
  {
  }

  lemma ChildOfPoll(s: State, w: nat, p: int)
    requires w < |s.workers| && s.workers[w].Polling? && p in PollStep(s, w).procs
    ensures p in s.procs && PollStep(s, w).procs[p].owner == s.procs[p].owner
    ensures
      var q := PollStep(s, w).procs[p].st;
      q.Zombie? || s.procs[p].st.Zombie? ==> q == s.procs[p].st
  {
  }

  lemma ChildOfLaunch(s: State, w: nat, spawn: Spawn, p: int)
    requires Enabled(s, Launch(w, spawn)) && p in LaunchStep(s, w, spawn).procs
    ensures
      var q := LaunchStep(s, w, spawn).procs[p];
      if p in s.procs then q == s.procs[p]
      else spawn == Spawned(p) && q.owner == s.workers[w].job.id && q.st.Running?
  {
  }

  /** No step from i + 1 to before n kills p. */
  predicate LivesUntil(run: seq<Label>, i: nat, n: nat, p: int) {
    n <= |run| && forall m :: i < m < n ==> !Kills(run[m], p)
  }

  /** A living child was cloned for its job, and nothing has killed it since. */
  lemma {:induction false} Birth(s: State, run: seq<Label>, n: nat, p: int) returns (i: nat)
    requires ValidRun(s, run) && n <= |run| && s.procs == map[]
    requires p in At(s, run, n).procs && !At(s, run, n).procs[p].st.Zombie?
    ensures i < n && Clones(At(s, run, i), run[i], At(s, run, n).procs[p].owner, p)
    ensures LivesUntil(run, i, n, p)
  {
    assert n > 0;
    i := n - 1;
    AtStep(s, run, i);
    ChildStep(At(s, run, i), run[i], p);
    if p in At(s, run, i).procs {
      i := Birth(s, run, n - 1, p);
    }
  }

  /** A dead child was cloned for its job at step i and died once since, at step k, with the status
      that it has. */
  lemma {:induction false} BirthAndDeath(s: State, run: seq<Label>, n: nat, p: int) returns (i: nat, k: nat)
    requires ValidRun(s, run) && n <= |run| && s.procs == map[]
    requires p in At(s, run, n).procs && At(s, run, n).procs[p].st.Zombie?
    ensures i < k < n && Clones(At(s, run, i), run[i], At(s, run, n).procs[p].owner, p)
    ensures run[k] == Die(p, At(s, run, n).procs[p].st.status)
    ensures LivesUntil(run, i, k, p) && LivesUntil(run, k, n, p)
  {
    assert n > 0;
    k := n - 1;
    AtStep(s, run, k);
    ChildStep(At(s, run, k), run[k], p);
    if At(s, run, k).procs[p].st.Zombie? {
      i, k := BirthAndDeath(s, run, n - 1, p);
    } else {
      i := Birth(s, run, n - 1, p);
    }
  }

  // ----- what was reaped is how it died -----

  /** Job id's child p is cloned at step i, dies at step k as st and at no other time before step n,
      in which it is reaped. */
  predicate Lives(s: State, run: seq<Label>, id: JobId, st: Status, p: int, i: nat, k: nat, n: nat)
    requires ValidRun(s, run)
  {
    && i < k < n < |run| && Logs(s, run, n, Reaped(id, st))
    && Clones(At(s, run, i), run[i], id, p) && run[k] == Die(p, st)
    && LivesUntil(run, i, k, p) && LivesUntil(run, k, n, p)
  }

  /** The step that logs a reaping finds the worker's own child dead, with this status. */
  lemma ReapingReads(s: State, l: Label, id: JobId, st: Status) returns (p: int)
    requires Inv(s) && Enabled(s, l) && Apply(s, l).log == s.log + [Reaped(id, st)]
    ensures p in s.procs && s.procs[p].owner == id && s.procs[p].st == Zombie(st)
  {
    var log := Apply(s, l).log;
    assert log[|s.log|] == Reaped(id, st);
    OnlyWaitsReap(s, l);
    assert PhaseOK(s, s.workers[l.w]);
    p := s.workers[l.w].job.pid;
  }

  lemma OnlyWaitsReap(s: State, l: Label)
    requires Enabled(s, l) && |Apply(s, l).log| > |s.log| && Apply(s, l).log[|s.log|].Reaped?
    ensures l.Poll? || l.Block?
  {
  }

  /** A child is reaped with the status with which it died, once, since it was cloned for the job. */
  lemma ReapedAsItDied(s: State, run: seq<Label>, id: JobId, st: Status) returns (p: int, i: nat, k: nat, n: nat)
    requires Inv(s) && s.procs == map[] && s.log == [] && ValidRun(s, run)
    requires Reaped(id, st) in After(s, run).log
    ensures Lives(s, run, id, st, p, i, k, n)
  {
    AtEnd(s, run);
    n := Origin(s, run, |run|, Reaped(id, st));
    AtStep(s, run, n);
    AtKeepsInv(s, run, n);
    p := ReapingReads(At(s, run, n), run[n], id, st);
    i, k := BirthAndDeath(s, run, n, p);
  }

  // ----- what is reported -----

  /** The result that src/WorkerPool.cpp:44-64 submits for a command, told from how its child ended. */
  predicate Tells(r: JobResult, id: JobId, cmd: Command, ending: Option<Status>) {
    && r.jobId == id && r.commandLine == cmd.executable
    && match ending
       case None =>
         && r.output == None && r.termSignal == 0
         && (if cmd.executable == "" then r.verdict == SUCCESS && r.exitCode == -1
             else if cmd.executable == "cd" then r.verdict == SUCCESS && r.exitCode == 0
             else r.verdict == FAILED && r.exitCode == -1)
       case Some(ExitedWith(c)) =>
         && r.output == Some(id) && r.termSignal == 0 && r.exitCode == c
         && r.verdict == (if c == 0 then SUCCESS else FAILED)
       case Some(KilledBy(g)) =>
         && r.output == Some(id) && r.termSignal == g && r.exitCode == -1
         && r.verdict == (if g == 9 then TIMEOUT else if g == 31 then SECCOMP_VIOLATION
                          else if g == 0 then FAILED else KILLED)
  }

  lemma ExpectedResultTells(id: JobId, cmd: Command, ending: Option<Status>)
    ensures Tells(ExpectedResult(id, cmd, ending), id, cmd, ending)
  {
  }

  /** How a run dealt with job j: no child was cloned for it, or just one, which was reaped as it
      died. */
  ghost predicate EndedOnLabels(s: State, run: seq<Label>, j: Job, ending: Option<Status>)
    requires ValidRun(s, run)
  {
    match ending
    case None => forall n, p :: 0 <= n < |run| ==> !Clones(At(s, run, n), run[n], j.id, p)
    case Some(st) => exists p, i, k, n :: Lives(s, run, j.id, st, p, i, k, n)
  }

  /** Step m submits j. */
  predicate Submits(run: seq<Label>, m: nat, j: Job) {
    m < |run| && run[m].Submit? && run[m].job == j
  }

  lemma SubmissionStep(s: State, l: Label, id: JobId, cmd: Command, hasPromise: bool)
    requires Enabled(s, l) && Apply(s, l).log == s.log + [Submitted(id, cmd, hasPromise)]
    ensures l.Submit? && l.job.id == id && l.job.cmd == cmd && l.job.hasPromise == hasPromise
  {
    StepFrame(s, l);
    assert Apply(s, l).log[|s.log|] == Submitted(id, cmd, hasPromise);
  }

  lemma CloneStep(s: State, l: Label, id: JobId, p: int) returns (e: Event)
    requires Enabled(s, l) && Clones(s, l, id, p)
    ensures e.Cloned? && e.id == id && e in Apply(s, l).log
  {
    e := Apply(s, l).log[|s.log|];
  }

  lemma {:induction false} LogOnlyGrows(s: State, run: seq<Label>, n: nat, e: Event)
    requires ValidRun(s, run) && n <= |run| && e in At(s, run, n).log
    ensures e in After(s, run).log
    decreases |run| - n
  {
    if n == |run| {
      AtEnd(s, run);
    } else {
      AtStep(s, run, n);
      StepFrame(At(s, run, n), run[n]);
      var before, now := At(s, run, n).log, At(s, run, n + 1).log;
      assert forall x :: 0 <= x < |before| ==> now[..|before|][x] == now[x];
      LogOnlyGrows(s, run, n + 1, e);
    }
  }

  lemma NeverCloned(s: State, run: seq<Label>, id: JobId)
    requires ValidRun(s, run) && H(After(s, run).log, id).clones == 0
    ensures forall n, p :: 0 <= n < |run| ==> !Clones(At(s, run, n), run[n], id, p)
  {
    forall n, p | 0 <= n < |run| ensures !Clones(At(s, run, n), run[n], id, p) {
      if Clones(At(s, run, n), run[n], id, p) {
        AtStep(s, run, n);
        var e := CloneStep(At(s, run, n), run[n], id, p);
        LogOnlyGrows(s, run, n + 1, e);
        NoCloneInLog(After(s, run).log, id, e);
      }
    }
  }

  /** The main result: in every run of the engine, a job that was reported was submitted, as j; its
      result and its promise tell how the one child that was cloned for it died, if there was one;
      and its promise, if it has one, is fulfilled exactly when it is settled. */
  lemma ReportedAsItEnded(policy: Policy, threads: nat, run: seq<Label>, id: JobId)
    returns (j: Job, m: nat, ending: Option<Status>)
    requires ValidRun(Initial(policy, threads), run)
    requires H(After(Initial(policy, threads), run).log, id).reports > 0
    ensures Submits(run, m, j) && j.id == id && EndedOnLabels(Initial(policy, threads), run, j, ending)
    ensures j.cmd.executable == "" || j.cmd.executable == "cd" ==> ending == None
    ensures
      var h := H(After(Initial(policy, threads), run).log, id);
      && h.reports == 1 && h.result.Some? && Tells(h.result.value, id, j.cmd, ending)
      && (h.promise.Some? <==> j.hasPromise && h.settles == 1)
      && (h.promise.Some? ==> h.promise.value == if h.result.value.verdict.SUCCESS? then 0 else 1)
  {
    var s := Initial(policy, threads);
    var t := After(s, run);
    assert Reachable(t);
    EveryJournalIsClean(t, id);
    ReachableInv(t);
    assert IdOK(t, id);
    InitialInv(policy, threads);
    var h := H(t.log, id);
    SubmissionIsLogged(t.log, id);
    AtEnd(s, run);
    m := Origin(s, run, |run|, Submitted(id, h.cmd, h.hasPromise));
    AtStep(s, run, m);
    SubmissionStep(At(s, run, m), run[m], id, h.cmd, h.hasPromise);
    j, ending := run[m].job, h.ending;
    ExpectedResultTells(id, h.cmd, ending);
    if ending.Some? {
      EndingIsLogged(t.log, id, ending.value);
      var p, i, k, n := ReapedAsItDied(s, run, id, ending.value);
    } else {
      NeverCloned(s, run, id);
    }
  }
}
