/** The worker pool, the job queue and the sandboxed children as one concurrent state machine.
    A label names the thread that moves and carries every choice that the program does not make
    itself, so a run is a sequence of labels. Each critical section, each system call and each
    kernel event is one step. */
module Engine {
  import opened Jobs
  import opened Schedulers
  import opened JobQueue

  // ----- the kernel's view of a child -----

  /** `reported` tells whether the stop has already been returned by `waitpid`. */
  datatype ProcState = Running | Stopped(reported: bool) | Zombie(status: Status)

  /** A child until it is reaped. `grouped` becomes true at the child's `setpgid(0, 0)`; before
      that `kill(-pid, ...)` reaches nobody. `pendingStop` is a SIGSTOP not yet acted upon. */
  datatype Proc = Proc(owner: JobId, st: ProcState, pendingStop: bool, grouped: bool)

  type Procs = map<int, Proc>

  /** kill(-pid, SIGSTOP) */
  function SendStop(procs: Procs, pid: int): Procs {
    if pid in procs && procs[pid].grouped && !procs[pid].st.Zombie?
    then procs[pid := procs[pid].(pendingStop := true)]
    else procs
  }

  /** kill(-pid, SIGCONT): resumes a stopped group and discards its pending stop signals. */
  function SendCont(procs: Procs, pid: int): Procs {
    if pid in procs && procs[pid].grouped && !procs[pid].st.Zombie?
    then procs[pid := procs[pid].(st := Running, pendingStop := false)]
    else procs
  }

  // ----- threads -----

  /** Where a worker stands in `workerLoop`. `ms` is `elapsed_ms`; `sent` counts the SIGSTOPs of
      the present burst. */
  datatype Phase =
    | Checking                              // about to read running_
    | Entering                              // about to take the queue's lock
    | Asleep                                // in the condition variable's wait set
    | Woken                                 // notified, about to take the lock again
    | Holding(job: Job)                     // dequeued, about to execute
    | Polling(job: Job, ms: nat, sent: nat) // about to call waitpid(WNOHANG | WUNTRACED)
    | Pausing(job: Job, ms: nat, sent: nat) // waitpid saw nothing
    | Blocking(job: Job)                    // in waitpid(pid, &status, 0)
    | Requeueing(job: Job)                  // preempted, about to enqueue
    | Reporting(job: Job, res: ExecResult)  // about to submit the result
    | Settling(job: Job, res: ExecResult)   // about to fulfil the promise
    | Gone                                  // left workerLoop

  /** Where the controlling thread stands in `start` and `stop`; running_ is true in Up only. */
  datatype Control = Down | Up | Cleared | Flagged | Draining

  datatype Event =
    | Submitted(id: JobId, cmd: Command, hasPromise: bool)
    | Taken(id: JobId, worker: nat)
    | Cloned(id: JobId, pid: int, uid: int)
    | Resumed(id: JobId, pid: int)
    | StopSent(id: JobId, pid: int)
    | Preempted(id: JobId)
    | Reaped(id: JobId, status: Status)
    | Reported(id: JobId, result: JobResult)
    | Settled(id: JobId, promise: Option<int>)

  /** `files` maps a unique id to the job whose child writes /tmp/isolyx_out_<id>. `log` is the
      history of the run; nothing but the freshness of submitted ids depends on it. */
  datatype State = State(
    policy: Policy,
    threads: nat,
    control: Control,
    jobs: seq<Job>,
    stopping: bool,
    workers: seq<Phase>,
    procs: Procs,
    nextUid: int,
    files: map<int, JobId>,
    log: seq<Event>)

  function Initial(policy: Policy, threads: nat): State {
    State(policy, threads, Down, [], false, [], map[], 1, map[], [])
  }

  datatype Spawn = NoPipe | NoClone | Spawned(pid: int)

  datatype Label =
    | Start | StopClear | StopFlag | StopNotify | StopJoined
    | Submit(job: Job, wake: Option<nat>)
    | Check(w: nat) | Lock(w: nat) | Spurious(w: nat)
    | Builtin(w: nat) | Launch(w: nat, spawn: Spawn) | Resume(w: nat)
    | Poll(w: nat) | Pause(w: nat) | Block(w: nat)
    | Requeue(w: nat, wake: Option<nat>)
    | Report(w: nat) | Settle(w: nat)
    | SetGroup(pid: int) | Deliver(pid: int) | SelfStop(pid: int) | Die(pid: int, status: Status)

  // ----- guards -----

  predicate AllGone(ws: seq<Phase>) {
    forall w :: 0 <= w < |ws| ==> ws[w].Gone?
  }

  predicate NoneAsleep(ws: seq<Phase>) {
    forall w :: 0 <= w < |ws| ==> !ws[w].Asleep?
  }

  /** `notify_one` wakes some sleeper if there is one. */
  predicate CanWake(ws: seq<Phase>, wake: Option<nat>) {
    match wake
    case None => NoneAsleep(ws)
    case Some(v) => v < |ws| && ws[v].Asleep?
  }

  /** `cd` and the empty command are answered without a sandbox. */
  predicate IsBuiltin(cmd: Command) {
    cmd.executable == "" || cmd.executable == "cd"
  }

  /** Ids are handed out once (`next_job_id++`), and `exit` ends the program. */
  predicate CanSubmit(s: State, j: Job) {
    && FreshJob(j) && j.cmd.executable != "exit"
    && H(s.log, j.id).submits == 0
  }

  predicate Enabled(s: State, l: Label) {
    match l
    case Start => s.control.Down?
    case StopClear => s.control.Up?
    case StopFlag => s.control.Cleared?
    case StopNotify => s.control.Flagged?
    case StopJoined => s.control.Draining? && AllGone(s.workers)
    case Submit(j, wake) => CanSubmit(s, j) && CanWake(s.workers, wake)
    case Check(w) => w < |s.workers| && s.workers[w].Checking?
    case Lock(w) => w < |s.workers| && (s.workers[w].Entering? || s.workers[w].Woken?)
    case Spurious(w) => w < |s.workers| && s.workers[w].Asleep?
    case Builtin(w) => w < |s.workers| && s.workers[w].Holding? && IsBuiltin(s.workers[w].job.cmd)
    case Launch(w, spawn) =>
      && w < |s.workers| && s.workers[w].Holding? && !IsBuiltin(s.workers[w].job.cmd)
      && s.workers[w].job.pid <= 0
      && (spawn.Spawned? ==> spawn.pid > 0 && spawn.pid !in s.procs)
    case Resume(w) =>
      && w < |s.workers| && s.workers[w].Holding? && !IsBuiltin(s.workers[w].job.cmd)
      && s.workers[w].job.pid > 0
    case Poll(w) => w < |s.workers| && s.workers[w].Polling?
    case Pause(w) => w < |s.workers| && s.workers[w].Pausing?
    case Block(w) =>
      && w < |s.workers| && s.workers[w].Blocking?
      && (s.workers[w].job.pid in s.procs ==> s.procs[s.workers[w].job.pid].st.Zombie?)
    case Requeue(w, wake) => w < |s.workers| && s.workers[w].Requeueing? && CanWake(s.workers, wake)
    case Report(w) => w < |s.workers| && s.workers[w].Reporting?
    case Settle(w) => w < |s.workers| && s.workers[w].Settling?
    case SetGroup(p) => p in s.procs && !s.procs[p].grouped && s.procs[p].st.Running?
    case Deliver(p) => p in s.procs && s.procs[p].st.Running? && s.procs[p].pendingStop
    case SelfStop(p) => p in s.procs && s.procs[p].st.Running?
    case Die(p, _) => p in s.procs && !s.procs[p].st.Zombie?
  }

  // ----- effects -----

  function Wake(ws: seq<Phase>, wake: Option<nat>): (r: seq<Phase>)
    requires CanWake(ws, wake)
    ensures |r| == |ws|
  {
    match wake
    case None => ws
    case Some(v) => ws[v := Woken]
  }

  function WakeAll(ws: seq<Phase>): (r: seq<Phase>)
    ensures |r| == |ws|
    ensures forall w :: 0 <= w < |ws| ==> r[w] == if ws[w].Asleep? then Woken else ws[w]
  {
    seq(|ws|, w requires 0 <= w < |ws| => if ws[w].Asleep? then Woken else ws[w])
  }

  /** Phase p for worker w, and event e in the log. */
  function Move(s: State, w: nat, p: Phase): State
    requires w < |s.workers|
  {
    s.(workers := s.workers[w := p])
  }

  function Log(s: State, e: Event): State {
    s.(log := s.log + [e])
  }

  /** The critical section of `dequeue`. */
  function LockStep(s: State, w: nat): State
    requires w < |s.workers|
  {
    match DequeueOutcome(s.policy, s.jobs, s.stopping)
    case MustWait => Move(s, w, Asleep)
    case Ended => Move(s, w, Gone)
    case Got(j) => Log(Move(s, w, Holding(j)), Taken(j.id, w)).(jobs := Rest(s.policy, s.jobs))
  }

  function BuiltinResult(cmd: Command): ExecResult {
    if cmd.executable == "" then DEFAULT_RESULT.(success := true)
    else DEFAULT_RESULT.(success := true, exitCode := 0)
  }

  /** The phase in which a burst waits for its child. */
  function Await(j: Job): Phase {
    if j.timeQuantum > 0 then Polling(j, 0, 0) else Blocking(j)
  }

  /** The first burst, src/LinuxNamespaceIsolator.cpp:153-192. */
  function LaunchStep(s: State, w: nat, spawn: Spawn): State
    requires w < |s.workers| && s.workers[w].Holding?
  {
    var j := s.workers[w].job;
    if spawn.NoPipe? then Move(s, w, Reporting(j, DEFAULT_RESULT))
    else
      var uid := if j.uniqueId == 0 then s.nextUid else j.uniqueId;
      var s1 := s.(nextUid := if j.uniqueId == 0 then s.nextUid + 1 else s.nextUid,
                   files := s.files[uid := j.id]);
      if spawn.NoClone? then Move(s1, w, Reporting(j.(uniqueId := uid), DEFAULT_RESULT))
      else
        var j1 := j.(pid := spawn.pid, uniqueId := uid);
        Log(Move(s1, w, Await(j1)), Cloned(j.id, spawn.pid, uid))
          .(procs := s.procs[spawn.pid := Proc(j.id, Running, false, false)])
  }

  /** Reading and deleting the capture files named after the unique id. */
  function Collect(s: State, j: Job, r: ExecResult): ExecResult {
    if j.uniqueId > 0 && j.uniqueId in s.files then r.(output := Some(s.files[j.uniqueId])) else r
  }

  /** A terminal status was returned: the child is reaped. */
  function ReapStep(s: State, w: nat, j: Job, st: Status, r: ExecResult): State
    requires w < |s.workers|
  {
    Log(Move(s, w, Reporting(j, Collect(s, j, r))), Reaped(j.id, st)).(procs := s.procs - {j.pid})
  }

  function PollStep(s: State, w: nat): State
    requires w < |s.workers| && s.workers[w].Polling?
  {
    var Polling(j, ms, sent) := s.workers[w];
    if j.pid !in s.procs then Move(s, w, Reporting(j, DEFAULT_RESULT))
    else match s.procs[j.pid].st
      case Zombie(st) => ReapStep(s, w, j, st, DecodePolled(st))
      case Stopped(reported) =>
        if reported then Move(s, w, Pausing(j, ms, sent))
        else
          Log(Move(s, w, Requeueing(j)), Preempted(j.id))
            .(procs := s.procs[j.pid := s.procs[j.pid].(st := Stopped(true))])
      case Running => Move(s, w, Pausing(j, ms, sent))
  }

  function PauseStep(s: State, w: nat): State
    requires w < |s.workers| && s.workers[w].Pausing?
  {
    var Pausing(j, ms, sent) := s.workers[w];
    if ms >= j.timeQuantum then
      Log(Move(s, w, Polling(j, ms, sent + 1)), StopSent(j.id, j.pid)).(procs := SendStop(s.procs, j.pid))
    else
      Move(s, w, Polling(j, ms + 1, sent))
  }

  function BlockStep(s: State, w: nat): State
    requires Enabled(s, Block(w))
  {
    var j := s.workers[w].job;
    if j.pid !in s.procs then Move(s, w, Reporting(j, DEFAULT_RESULT))
    else
      var st := s.procs[j.pid].st.status;
      ReapStep(s, w, j, st, DecodeBlocked(st))
  }

  /** A later burst, src/LinuxNamespaceIsolator.cpp:246-249. */
  function ResumeStep(s: State, w: nat): State
    requires w < |s.workers| && s.workers[w].Holding?
  {
    var j := s.workers[w].job;
    Log(Move(s, w, Await(j)), Resumed(j.id, j.pid)).(procs := SendCont(s.procs, j.pid))
  }

  function SubmitStep(s: State, j: Job, wake: Option<nat>): State
    requires CanWake(s.workers, wake)
  {
    Log(s, Submitted(j.id, j.cmd, j.hasPromise)).(jobs := s.jobs + [j], workers := Wake(s.workers, wake))
  }

  function RequeueStep(s: State, w: nat, wake: Option<nat>): State
    requires w < |s.workers| && s.workers[w].Requeueing? && CanWake(s.workers, wake)
  {
    s.(jobs := s.jobs + [Demoted(s.workers[w].job)], workers := Wake(s.workers, wake)[w := Checking])
  }

  function ReportStep(s: State, w: nat): State
    requires w < |s.workers| && s.workers[w].Reporting?
  {
    var Reporting(j, r) := s.workers[w];
    Log(Move(s, w, Settling(j, r)), Reported(j.id, ResultFor(j, r)))
  }

  function SettleStep(s: State, w: nat): State
    requires w < |s.workers| && s.workers[w].Settling?
  {
    var Settling(j, r) := s.workers[w];
    Log(Move(s, w, Checking), Settled(j.id, if j.hasPromise then Some(PromiseValue(r)) else None))
  }

  /** The next kernel state of a child that moves on its own. */
  function KernelStep(p: Proc, l: Label): Proc {
    match l
    case SetGroup(_) => p.(grouped := true)
    case Deliver(_) => p.(st := Stopped(false), pendingStop := false)
    case SelfStop(_) => p.(st := Stopped(false))
    case Die(_, status) => p.(st := Zombie(status))
    case _ => p
  }

  function Apply(s: State, l: Label): State
    requires Enabled(s, l)
  {
    match l
    case Start => s.(control := Up, workers := seq(s.threads, _ => Checking))
    case StopClear => s.(control := Cleared)
    case StopFlag => s.(control := Flagged, stopping := true)
    case StopNotify => s.(control := Draining, workers := WakeAll(s.workers))
    case StopJoined => s.(control := Down)
    case Submit(j, wake) => SubmitStep(s, j, wake)
    case Check(w) => Move(s, w, if s.control.Up? then Entering else Gone)
    case Lock(w) => LockStep(s, w)
    case Spurious(w) => Move(s, w, Woken)
    case Builtin(w) => Move(s, w, Reporting(s.workers[w].job, BuiltinResult(s.workers[w].job.cmd)))
    case Launch(w, spawn) => LaunchStep(s, w, spawn)
    case Resume(w) => ResumeStep(s, w)
    case Poll(w) => PollStep(s, w)
    case Pause(w) => PauseStep(s, w)
    case Block(w) => BlockStep(s, w)
    case Requeue(w, wake) => RequeueStep(s, w, wake)
    case Report(w) => ReportStep(s, w)
    case Settle(w) => SettleStep(s, w)
    case SetGroup(p) => s.(procs := s.procs[p := KernelStep(s.procs[p], l)])
    case Deliver(p) => s.(procs := s.procs[p := KernelStep(s.procs[p], l)])
    case SelfStop(p) => s.(procs := s.procs[p := KernelStep(s.procs[p], l)])
    case Die(p, _) => s.(procs := s.procs[p := KernelStep(s.procs[p], l)])
  }

  // ----- runs -----

  predicate ValidRun(s: State, run: seq<Label>)
    decreases |run|
  {
    run == [] || (Enabled(s, run[0]) && ValidRun(Apply(s, run[0]), run[1..]))
  }

  function After(s: State, run: seq<Label>): State
    requires ValidRun(s, run)
    decreases |run|
  {
    if run == [] then s else After(Apply(s, run[0]), run[1..])
  }

  // ----- what the log says about one job -----

  /** Counts of the events of one job. `stray` counts signals sent to anything but its own clone. */
  datatype History = History(
    submits: nat, cmd: Command, hasPromise: bool, takes: nat,
    clones: nat, pid: int, uid: int, stray: nat,
    preempts: nat, reaps: nat, ending: Option<Status>,
    reports: nat, result: Option<JobResult>,
    settles: nat, promise: Option<int>)

  const NO_HISTORY := History(0, EMPTY_COMMAND, false, 0, 0, 0, 0, 0, 0, 0, None, 0, None, 0, None)

  function Signalled(h: History, pid: int): History {
    if h.clones == 1 && pid == h.pid && h.reaps == 0 then h else h.(stray := h.stray + 1)
  }

  function Note(h: History, e: Event): History {
    match e
    case Submitted(_, cmd, hasPromise) => h.(submits := h.submits + 1, cmd := cmd, hasPromise := hasPromise)
    case Taken(_, _) => h.(takes := h.takes + 1)
    case Cloned(_, pid, uid) => h.(clones := h.clones + 1, pid := pid, uid := uid)
    case Resumed(_, pid) => Signalled(h, pid)
    case StopSent(_, pid) => Signalled(h, pid)
    case Preempted(_) => h.(preempts := h.preempts + 1)
    case Reaped(_, st) => h.(reaps := h.reaps + 1, ending := Some(st))
    case Reported(_, r) => h.(reports := h.reports + 1, result := Some(r))
    case Settled(_, p) => h.(settles := h.settles + 1, promise := p)
  }

  function H(log: seq<Event>, id: JobId): History {
    if log == [] then NO_HISTORY
    else
      var h := H(log[..|log| - 1], id);
      var e := log[|log| - 1];
      if e.id == id then Note(h, e) else h
  }
}
