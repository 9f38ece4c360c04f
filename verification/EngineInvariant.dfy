/** One inductive invariant that ties queue, workers, wait set, children, capture files and the
    history of every job together, and the proof that every step keeps it. */
module EngineInvariant {
  import opened Jobs
  import opened Schedulers
  import opened Engine

  // ----- counting -----

  predicate Carries(p: Phase) {
    !p.Checking? && !p.Entering? && !p.Asleep? && !p.Woken? && !p.Gone?
  }

  predicate Executing(p: Phase) {
    p.Polling? || p.Pausing? || p.Blocking?
  }

  function One(b: bool): nat {
    if b then 1 else 0
  }

  function InQueue(q: seq<Job>, id: JobId): nat {
    if q == [] then 0 else InQueue(q[..|q| - 1], id) + One(q[|q| - 1].id == id)
  }

  function AtWorkers(ws: seq<Phase>, id: JobId): nat {
    if ws == [] then 0
    else AtWorkers(ws[..|ws| - 1], id) + One(Carries(ws[|ws| - 1]) && ws[|ws| - 1].job.id == id)
  }

  function WokenCount(ws: seq<Phase>): nat {
    if ws == [] then 0 else WokenCount(ws[..|ws| - 1]) + One(ws[|ws| - 1].Woken?)
  }

  // ----- one job, wherever it is -----

  /** The job's own fields agree with its history, and it has neither ended nor been reported. */
  predicate Live(s: State, j: Job, preempts: int) {
    var h := H(s.log, j.id);
    && h.submits == 1 && h.cmd == j.cmd && h.hasPromise == j.hasPromise && h.settles == 0 && h.stray == 0
    && h.reaps == 0 && h.ending == None && h.reports == 0 && h.result == None
    && j.elapsedBursts >= 0 && h.preempts == preempts
    && h.clones == One(j.pid > 0)
    && (if j.pid > 0 then h.pid == j.pid && h.uid == j.uniqueId && j.uniqueId > 0
        else j.uniqueId == 0 && j.elapsedBursts == 0)
    && (j.timeQuantum <= 0 ==> h.preempts == 0)
    && (j.pid > 0 ==> !IsBuiltin(j.cmd))
  }

  /** The unique id, once given, names the job's own files. */
  predicate OwnsFile(s: State, j: Job) {
    j.uniqueId >= 0 && (j.uniqueId > 0 ==> j.uniqueId in s.files && s.files[j.uniqueId] == j.id)
  }

  predicate OwnsChild(s: State, j: Job) {
    j.pid in s.procs && s.procs[j.pid].owner == j.id
  }

  /** A child between bursts is stopped, with its stop already seen, or dead. */
  predicate Parked(s: State, j: Job) {
    OwnsChild(s, j) && (s.procs[j.pid].st.Zombie? || s.procs[j.pid].st == Stopped(true))
  }

  predicate QueuedOK(s: State, j: Job) {
    && Live(s, j, j.elapsedBursts) && H(s.log, j.id).takes == j.elapsedBursts
    && OwnsFile(s, j) && (j.pid > 0 ==> Parked(s, j))
  }

  /** A stop that was already reported survives SIGCONT only in a child that has no group yet. */
  predicate BurstOK(s: State, j: Job) {
    && Live(s, j, j.elapsedBursts) && H(s.log, j.id).takes == j.elapsedBursts + 1
    && OwnsFile(s, j) && j.pid > 0 && OwnsChild(s, j)
    && (s.procs[j.pid].st == Stopped(true) ==> !s.procs[j.pid].grouped)
  }

  /** A stop that is waiting to be acted upon was sent in this very burst, after its quantum. */
  predicate StopIsFresh(s: State, j: Job, ms: nat, sent: nat) {
    && j.timeQuantum > 0 && ms <= j.timeQuantum
    && (sent > 0 ==> ms == j.timeQuantum)
    && (j.pid in s.procs && s.procs[j.pid].st.Running? && s.procs[j.pid].pendingStop ==> sent > 0)
  }

  /** What `execute` must return for a job: told from its command and the way its child ended, if
      there was one. The status is decoded as the non-preemptive branch does it. */
  function ExpectedRun(id: JobId, cmd: Command, ending: Option<Status>): ExecResult {
    match ending
    case None => if IsBuiltin(cmd) then BuiltinResult(cmd) else DEFAULT_RESULT
    case Some(st) => DecodeBlocked(st).(output := Some(id))
  }

  function ExpectedResult(id: JobId, cmd: Command, ending: Option<Status>): JobResult {
    var r := ExpectedRun(id, cmd, ending);
    JobResult(id, r.exitCode, r.termSignal, VerdictOf(r), cmd.executable, r.output)
  }

  /** How the result of a burst relates to the way the child ended. */
  predicate ResultOK(h: History, j: Job, r: ExecResult) {
    && h.submits == 1 && h.cmd == j.cmd && h.hasPromise == j.hasPromise && h.settles == 0 && h.stray == 0
    && h.preempts >= 0 && h.takes == h.preempts + 1
    && (j.timeQuantum <= 0 ==> h.preempts == 0)
    && h.reaps == h.clones <= 1 && (h.ending.Some? <==> h.reaps == 1)
    && r == ExpectedRun(j.id, h.cmd, h.ending)
  }

  predicate PhaseOK(s: State, p: Phase) {
    match p
    case Holding(j) =>
      && Live(s, j, j.elapsedBursts) && H(s.log, j.id).takes == j.elapsedBursts + 1
      && OwnsFile(s, j) && (j.pid > 0 ==> Parked(s, j))
    case Polling(j, ms, sent) => BurstOK(s, j) && StopIsFresh(s, j, ms, sent)
    case Pausing(j, ms, sent) => BurstOK(s, j) && StopIsFresh(s, j, ms, sent)
    case Blocking(j) =>
      && BurstOK(s, j) && j.timeQuantum <= 0
      && (s.procs[j.pid].st.Running? ==> !s.procs[j.pid].pendingStop)
    case Requeueing(j) =>
      && Live(s, j, j.elapsedBursts + 1) && H(s.log, j.id).takes == j.elapsedBursts + 1
      && OwnsFile(s, j) && j.pid > 0 && Parked(s, j)
    case Reporting(j, r) =>
      var h := H(s.log, j.id);
      ResultOK(h, j, r) && h.reports == 0 && h.result == None
    case Settling(j, r) =>
      var h := H(s.log, j.id);
      ResultOK(h, j, r) && h.reports == 1 && h.result == Some(ResultFor(j, r))
    case _ => true
  }

  /** A job whose loop iteration is over: reported once, settled once, never again live. */
  predicate ClosedOK(id: JobId, h: History) {
    && h.submits == 1 && h.settles == 1 && h.reports == 1 && h.stray == 0
    && h.takes == h.preempts + 1
    && h.reaps == h.clones <= 1 && (h.ending.Some? <==> h.reaps == 1)
    && h.result == Some(ExpectedResult(id, h.cmd, h.ending))
    && h.promise == if h.hasPromise then Some(PromiseValue(ExpectedRun(id, h.cmd, h.ending))) else None
  }

  predicate IdOK(s: State, id: JobId) {
    var h := H(s.log, id);
    && (h.submits == 0 ==> h == NO_HISTORY)
    && (h.settles > 0 ==> ClosedOK(id, h))
    && (h.clones > 0 ==> h.uid in s.files && s.files[h.uid] == id && !IsBuiltin(h.cmd))
  }

  // ----- the invariant -----

  /** Every submitted job is in exactly one of: the queue, a worker's hands, the settled jobs. */
  ghost predicate Accounted(s: State) {
    forall id: JobId {:trigger H(s.log, id)} ::
      InQueue(s.jobs, id) + AtWorkers(s.workers, id) + H(s.log, id).settles == H(s.log, id).submits <= 1
  }

  ghost predicate JobsOK(s: State) {
    && (forall i :: 0 <= i < |s.jobs| ==> QueuedOK(s, s.jobs[i]))
    && (forall w :: 0 <= w < |s.workers| ==> PhaseOK(s, s.workers[w]))
    && (forall id: JobId :: IdOK(s, id))
  }

  predicate HeldBy(ws: seq<Phase>, w: int, pid: int) {
    0 <= w < |ws| && Executing(ws[w]) && ws[w].job.pid == pid
  }

  /** A child that runs is being waited for by some worker. */
  ghost predicate RunningIsHeld(s: State) {
    forall p :: p in s.procs && s.procs[p].st.Running? ==> exists w :: HeldBy(s.workers, w, p)
  }

  ghost predicate TablesOK(s: State) {
    && s.nextUid >= 1
    && (forall u :: u in s.files ==> 0 < u < s.nextUid)
    && (forall p :: p in s.procs ==> p > 0 && (s.procs[p].pendingStop ==> s.procs[p].grouped))
  }

  /** No wake-up is lost. */
  ghost predicate WakeupsOK(s: State) {
    && (s.control.Down? ==> AllGone(s.workers))
    && (s.workers == [] || |s.workers| == s.threads)
    && (s.control.Up? ==> |s.workers| == s.threads)
    && (s.control.Flagged? || s.control.Draining? ==> s.stopping)
    && (s.stopping && !s.control.Flagged? ==> NoneAsleep(s.workers))
    && (!s.stopping && !NoneAsleep(s.workers) ==> |s.jobs| <= WokenCount(s.workers))
    && (s.control.Up? && !s.stopping ==> forall w :: 0 <= w < |s.workers| ==> !s.workers[w].Gone?)
  }

  ghost predicate Inv(s: State) {
    Accounted(s) && JobsOK(s) && RunningIsHeld(s) && TablesOK(s) && WakeupsOK(s)
  }

  lemma InitialInv(policy: Policy, threads: nat)
    ensures Inv(Initial(policy, threads))
  {
  }

  // ----- lemmas about counting -----

  lemma HSnoc(log: seq<Event>, e: Event, id: JobId)
    ensures H(log + [e], id) == if e.id == id then Note(H(log, id), e) else H(log, id)
  {
    assert (log + [e])[..|log|] == log;
  }

  /** One more entry, or none. */
  lemma LogGrowth(log: seq<Event>, log': seq<Event>, id: JobId)
    requires |log| <= |log'| <= |log| + 1 && log'[..|log|] == log
    ensures H(log', id) ==
            if |log'| == |log| || log'[|log|].id != id then H(log, id) else Note(H(log, id), log'[|log|])
  {
    if |log'| == |log| {
      assert log' == log;
    } else {
      assert log' == log + [log'[|log|]];
      HSnoc(log, log'[|log|], id);
    }
  }

  lemma InQueueSnoc(q: seq<Job>, j: Job, id: JobId)
    ensures InQueue(q + [j], id) == InQueue(q, id) + One(j.id == id)
  {
    assert (q + [j])[..|q|] == q;
  }

  lemma {:induction false} InQueueConcat(a: seq<Job>, b: seq<Job>, id: JobId)
    ensures InQueue(a + b, id) == InQueue(a, id) + InQueue(b, id)
  {
    if b == [] {
      assert a + b == a;
    } else {
      var n := |b| - 1;
      InQueueConcat(a, b[..n], id);
      assert a + b == (a + b[..n]) + [b[n]];
      InQueueSnoc(a + b[..n], b[n], id);
    }
  }

  lemma InQueueWithout(q: seq<Job>, i: nat, id: JobId)
    requires i < |q|
    ensures InQueue(q, id) == InQueue(Without(q, i), id) + One(q[i].id == id)
  {
    var a, b := q[..i], q[i + 1..];
    assert q == (a + [q[i]]) + b;
    InQueueConcat(a + [q[i]], b, id);
    InQueueSnoc(a, q[i], id);
    InQueueConcat(a, b, id);
  }

  lemma {:induction false} AtWorkersUpdate(ws: seq<Phase>, w: nat, p: Phase, id: JobId)
    requires w < |ws|
    ensures AtWorkers(ws[w := p], id) + One(Carries(ws[w]) && ws[w].job.id == id)
            == AtWorkers(ws, id) + One(Carries(p) && p.job.id == id)
  {
    var n := |ws| - 1;
    if w < n {
      AtWorkersUpdate(ws[..n], w, p, id);
      assert ws[w := p][..n] == ws[..n][w := p];
    } else {
      assert ws[w := p][..n] == ws[..n];
    }
  }

  lemma {:induction false} WokenCountUpdate(ws: seq<Phase>, w: nat, p: Phase)
    requires w < |ws|
    ensures WokenCount(ws[w := p]) + One(ws[w].Woken?) == WokenCount(ws) + One(p.Woken?)
  {
    var n := |ws| - 1;
    if w < n {
      WokenCountUpdate(ws[..n], w, p);
      assert ws[w := p][..n] == ws[..n][w := p];
    } else {
      assert ws[w := p][..n] == ws[..n];
    }
  }

  lemma {:induction false} NobodyCarries(ws: seq<Phase>, id: JobId)
    requires forall w :: 0 <= w < |ws| ==> !Carries(ws[w])
    ensures AtWorkers(ws, id) == 0
  {
    if ws != [] {
      NobodyCarries(ws[..|ws| - 1], id);
    }
  }

  lemma WakeKeepsCarriers(ws: seq<Phase>, wake: Option<nat>, id: JobId)
    requires CanWake(ws, wake)
    ensures AtWorkers(Wake(ws, wake), id) == AtWorkers(ws, id)
  {
    if wake.Some? {
      AtWorkersUpdate(ws, wake.value, Woken, id);
    }
  }

  lemma {:induction false} WakeAllKeepsCarriers(ws: seq<Phase>, id: JobId)
    ensures AtWorkers(WakeAll(ws), id) == AtWorkers(ws, id)
  {
    if ws != [] {
      var n := |ws| - 1;
      WakeAllKeepsCarriers(ws[..n], id);
      assert WakeAll(ws)[..n] == WakeAll(ws[..n]);
    }
  }

  // ----- the three places hold distinct jobs -----

  lemma {:induction false} CountedInQueue(q: seq<Job>, i: nat)
    requires i < |q|
    ensures InQueue(q, q[i].id) >= 1
  {
    InQueueWithout(q, i, q[i].id);
  }

  lemma CountedAtWorkers(ws: seq<Phase>, w: nat)
    requires w < |ws| && Carries(ws[w])
    ensures AtWorkers(ws, ws[w].job.id) >= 1
  {
    AtWorkersUpdate(ws, w, Gone, ws[w].job.id);
  }

  lemma QueueHasNoDuplicates(s: State, i: nat, k: nat)
    requires Accounted(s) && i < k < |s.jobs|
    ensures s.jobs[i].id != s.jobs[k].id
  {
    var id := s.jobs[i].id;
    assert H(s.log, id).submits <= 1;
    InQueueWithout(s.jobs, k, id);
    assert Without(s.jobs, k)[i] == s.jobs[i];
    CountedInQueue(Without(s.jobs, k), i);
  }

  lemma QueuedIsNotHeld(s: State, i: nat, w: nat)
    requires Accounted(s) && i < |s.jobs| && w < |s.workers| && Carries(s.workers[w])
    ensures s.jobs[i].id != s.workers[w].job.id
  {
    assert H(s.log, s.jobs[i].id).submits <= 1;
    CountedInQueue(s.jobs, i);
    CountedAtWorkers(s.workers, w);
  }

  lemma HoldersAreDistinct(s: State, w: nat, v: nat)
    requires Accounted(s) && w < |s.workers| && v < |s.workers| && w != v
    requires Carries(s.workers[w]) && Carries(s.workers[v])
    ensures s.workers[w].job.id != s.workers[v].job.id
  {
    var id := s.workers[w].job.id;
    assert H(s.log, id).submits <= 1;
    AtWorkersUpdate(s.workers, w, Gone, id);
    CountedAtWorkers(s.workers[w := Gone], v);
  }

  lemma HeldIsLive(s: State, w: nat)
    requires Accounted(s) && w < |s.workers| && Carries(s.workers[w])
    ensures H(s.log, s.workers[w].job.id).settles == 0
    ensures H(s.log, s.workers[w].job.id).submits == 1
  {
    CountedAtWorkers(s.workers, w);
    assert H(s.log, s.workers[w].job.id).submits <= 1;
  }

  /** Nothing but job x is touched between s and t. */
  ghost predicate OnlyTouches(s: State, t: State, x: JobId) {
    && (forall id: JobId {:trigger H(t.log, id)} :: id != x ==> H(t.log, id) == H(s.log, id))
    && (forall p :: p in s.procs && s.procs[p].owner != x ==> p in t.procs && t.procs[p] == s.procs[p])
    && (forall u :: u in s.files ==> u in t.files && t.files[u] == s.files[u])
  }

  lemma OtherQueuedKept(s: State, t: State, x: JobId, j: Job)
    requires OnlyTouches(s, t, x) && j.id != x && QueuedOK(s, j)
    ensures QueuedOK(t, j)
  {
  }

  lemma OtherPhaseKept(s: State, t: State, x: JobId, p: Phase)
    requires OnlyTouches(s, t, x) && PhaseOK(s, p) && (Carries(p) ==> p.job.id != x)
    ensures PhaseOK(t, p)
  {
  }

  /** A step in which worker w works on the job it carries, and keeps carrying it. */
  ghost predicate LocalStep(s: State, t: State, w: nat) {
    && w < |s.workers| && |t.workers| == |s.workers|
    && Carries(s.workers[w]) && Carries(t.workers[w]) && t.workers[w].job.id == s.workers[w].job.id
    && t.workers == s.workers[w := t.workers[w]]
    && t.jobs == s.jobs
    && OnlyTouches(s, t, s.workers[w].job.id)
  }

  lemma LocalStepKeepsJobs(s: State, t: State, w: nat)
    requires Accounted(s) && JobsOK(s) && LocalStep(s, t, w)
    requires PhaseOK(t, t.workers[w])
    requires H(t.log, s.workers[w].job.id).submits == 1 && H(t.log, s.workers[w].job.id).settles == 0
    requires IdOK(t, s.workers[w].job.id)
    ensures JobsOK(t)
  {
    var x := s.workers[w].job.id;
    forall i | 0 <= i < |t.jobs| ensures QueuedOK(t, t.jobs[i]) {
      QueuedIsNotHeld(s, i, w);
      OtherQueuedKept(s, t, x, s.jobs[i]);
    }
    forall v | 0 <= v < |t.workers| ensures PhaseOK(t, t.workers[v]) {
      if v != w {
        if Carries(s.workers[v]) {
          HoldersAreDistinct(s, w, v);
        }
        OtherPhaseKept(s, t, x, s.workers[v]);
      }
    }
    forall id: JobId ensures IdOK(t, id) {
      assert IdOK(s, id);
    }
  }

  lemma LocalStepKeepsAccount(s: State, t: State, w: nat)
    requires Accounted(s) && LocalStep(s, t, w)
    requires H(t.log, s.workers[w].job.id).submits == 1 && H(t.log, s.workers[w].job.id).settles == 0
    ensures Accounted(t)
  {
    var x := s.workers[w].job.id;
    HeldIsLive(s, w);
    forall id: JobId
      ensures InQueue(t.jobs, id) + AtWorkers(t.workers, id) + H(t.log, id).settles == H(t.log, id).submits <= 1
    {
      AtWorkersUpdate(s.workers, w, t.workers[w], id);
      assert H(s.log, id).submits <= 1;
    }
  }
}
