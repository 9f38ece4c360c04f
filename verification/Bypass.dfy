/** How often MLFQ may serve other jobs before a waiting one, on the whole concurrent engine:
    src/MLFQScheduler.cpp:4-14 and src/WorkerPool.cpp:38-41. */
module Bypass {
  import opened Jobs
  import opened Schedulers
  import opened Engine
  import opened EngineFrames
  import opened EngineInvariant
  import opened EngineSteps
  import opened EngineSafety

  function Key(j: Job): int {
    Rank(Mlfq, j)
  }

  function Positive(n: int): nat {
    if n < 0 then 0 else n
  }

  /** Dispatches still open to a queued job before a job of key k; `tie` is 1 ahead of that job
      and 0 behind it. Only the watched jobs count. */
  ghost function Weight(x: Job, k: int, tie: nat, watch: iset<JobId>): nat {
    if x.id !in watch then 0
    else if Key(x) == k then tie
    else Positive(k - Key(x))
  }

  /** A job in a worker's hands comes back one level lower, behind the waiting job. */
  ghost function HeldWeight(p: Phase, k: int, watch: iset<JobId>): nat {
    if Carries(p) && !p.Reporting? && !p.Settling? && p.job.id in watch then Positive(k - Key(p.job) - 1) else 0
  }

  ghost function Sum(q: seq<Job>, k: int, tie: nat, watch: iset<JobId>): nat {
    if q == [] then 0 else Sum(q[..|q| - 1], k, tie, watch) + Weight(q[|q| - 1], k, tie, watch)
  }

  ghost function HeldSum(ws: seq<Phase>, k: int, watch: iset<JobId>): nat {
    if ws == [] then 0 else HeldSum(ws[..|ws| - 1], k, watch) + HeldWeight(ws[|ws| - 1], k, watch)
  }

  /** What is queued around position pos, seen from the job there. */
  ghost function QueueSum(q: seq<Job>, pos: nat, k: int, watch: iset<JobId>): nat
    requires pos < |q|
  {
    Sum(q[..pos], k, 1, watch) + Sum(q[pos + 1..], k, 0, watch)
  }

  /** The potential of the job at queue position pos. */
  ghost function Potential(s: State, pos: nat, watch: iset<JobId>): nat
    requires pos < |s.jobs|
  {
    var k := Key(s.jobs[pos]);
    QueueSum(s.jobs, pos, k, watch) + HeldSum(s.workers, k, watch)
  }

  // ----- sums -----

  lemma SumSnoc(q: seq<Job>, x: Job, k: int, tie: nat, watch: iset<JobId>)
    ensures Sum(q + [x], k, tie, watch) == Sum(q, k, tie, watch) + Weight(x, k, tie, watch)
  {
    assert (q + [x])[..|q|] == q;
  }

  lemma {:induction false} SumConcat(a: seq<Job>, b: seq<Job>, k: int, tie: nat, watch: iset<JobId>)
    ensures Sum(a + b, k, tie, watch) == Sum(a, k, tie, watch) + Sum(b, k, tie, watch)
  {
    if b == [] {
      assert a + b == a;
    } else {
      var n := |b| - 1;
      SumConcat(a, b[..n], k, tie, watch);
      assert a + b == (a + b[..n]) + [b[n]];
      SumSnoc(a + b[..n], b[n], k, tie, watch);
    }
  }

  lemma SumWithout(q: seq<Job>, i: nat, k: int, tie: nat, watch: iset<JobId>)
    requires i < |q|
    ensures Sum(q, k, tie, watch) == Sum(Without(q, i), k, tie, watch) + Weight(q[i], k, tie, watch)
  {
    var a, b := q[..i], q[i + 1..];
    assert q == (a + [q[i]]) + b;
    SumConcat(a + [q[i]], b, k, tie, watch);
    SumSnoc(a, q[i], k, tie, watch);
    SumConcat(a, b, k, tie, watch);
  }

  lemma {:induction false} HeldSumUpdate(ws: seq<Phase>, w: nat, p: Phase, k: int, watch: iset<JobId>)
    requires w < |ws|
    ensures HeldSum(ws[w := p], k, watch) + HeldWeight(ws[w], k, watch)
            == HeldSum(ws, k, watch) + HeldWeight(p, k, watch)
  {
    var n := |ws| - 1;
    if w < n {
      HeldSumUpdate(ws[..n], w, p, k, watch);
      assert ws[w := p][..n] == ws[..n][w := p];
    } else {
      assert ws[w := p][..n] == ws[..n];
    }
  }

  lemma {:induction false} SameHeldSum(ws: seq<Phase>, vs: seq<Phase>, k: int, watch: iset<JobId>)
    requires |ws| == |vs|
    requires forall w :: 0 <= w < |ws| ==> HeldWeight(ws[w], k, watch) == HeldWeight(vs[w], k, watch)
    ensures HeldSum(ws, k, watch) == HeldSum(vs, k, watch)
  {
    if ws != [] {
      var n := |ws| - 1;
      SameHeldSum(ws[..n], vs[..n], k, watch);
    }
  }

  lemma {:induction false} NothingHeld(ws: seq<Phase>, k: int, watch: iset<JobId>)
    requires forall w :: 0 <= w < |ws| ==> HeldWeight(ws[w], k, watch) == 0
    ensures HeldSum(ws, k, watch) == 0
  {
    if ws != [] {
      NothingHeld(ws[..|ws| - 1], k, watch);
    }
  }

  lemma {:induction false} NothingQueued(q: seq<Job>, k: int, tie: nat, watch: iset<JobId>)
    requires forall i :: 0 <= i < |q| ==> Weight(q[i], k, tie, watch) == 0
    ensures Sum(q, k, tie, watch) == 0
  {
    if q != [] {
      NothingQueued(q[..|q| - 1], k, tie, watch);
    }
  }

  // ----- one step -----

  predicate Dispatches(s: State, l: Label) {
    l.Lock? && s.jobs != []
  }

  /** Dispatches of watched jobs in this step. */
  ghost function Served(s: State, l: Label, watch: iset<JobId>): nat {
    if Dispatches(s, l) && Next(Mlfq, s.jobs).id in watch then 1 else 0
  }

  /** Potential brought in by a watched arrival. */
  ghost function Arrival(l: Label, k: int, watch: iset<JobId>): nat {
    if l.Submit? then Weight(l.job, k, 0, watch) else 0
  }

  /** Dispatches that a watched job gives up by ending early. */
  ghost function Forfeit(s: State, l: Label, k: int, watch: iset<JobId>): nat
    requires Enabled(s, l)
  {
    if (l.Builtin? || l.Launch? || l.Poll? || l.Block?) && Apply(s, l).workers[l.w].Reporting?
    then HeldWeight(s.workers[l.w], k, watch)
    else 0
  }

  /** The waiting job at pos is not the one dispatched. */
  predicate Passes(s: State, l: Label, pos: nat) {
    s.policy == Mlfq && pos < |s.jobs| && Enabled(s, l) && (Dispatches(s, l) ==> Choice(Mlfq, s.jobs) != pos)
  }

  function NewPos(s: State, l: Label, pos: nat): int {
    if Dispatches(s, l) && Choice(Mlfq, s.jobs) < pos then pos - 1 else pos
  }

  lemma TakeAhead(q: seq<Job>, c: nat, pos: nat, k: int, watch: iset<JobId>)
    requires c < pos < |q|
    ensures Without(q, c)[pos - 1] == q[pos]
    ensures QueueSum(Without(q, c), pos - 1, k, watch) + Weight(q[c], k, 1, watch) == QueueSum(q, pos, k, watch)
  {
    var q' := Without(q, c);
    assert q'[..pos - 1] == Without(q[..pos], c);
    assert q'[pos..] == q[pos + 1..];
    SumWithout(q[..pos], c, k, 1, watch);
  }

  lemma TakeBehind(q: seq<Job>, c: nat, pos: nat, k: int, watch: iset<JobId>)
    requires pos < c < |q|
    ensures Without(q, c)[pos] == q[pos]
    ensures QueueSum(Without(q, c), pos, k, watch) + Weight(q[c], k, 0, watch) == QueueSum(q, pos, k, watch)
  {
    var q' := Without(q, c);
    assert q'[..pos] == q[..pos];
    assert q'[pos + 1..] == Without(q[pos + 1..], c - pos - 1);
    SumWithout(q[pos + 1..], c - pos - 1, k, 0, watch);
  }

  /** Taking x from either side of the waiting job costs that side exactly one dispatch more than
      x still has when it comes back. */
  lemma TakeChangesSums(q: seq<Job>, c: nat, pos: nat, watch: iset<JobId>)
    requires c < |q| && pos < |q| && c != pos && c == Choice(Mlfq, q)
    ensures
      var k := Key(q[pos]);
      var q', pos' := Without(q, c), if c < pos then pos - 1 else pos;
      && pos' < |q'| && q'[pos'] == q[pos]
      && QueueSum(q', pos', k, watch) + (if q[c].id in watch then 1 + Positive(k - Key(q[c]) - 1) else 0)
         == QueueSum(q, pos, k, watch)
  {
    var k := Key(q[pos]);
    assert Key(q[c]) <= k;
    if c < pos {
      TakeAhead(q, c, pos, k, watch);
    } else {
      assert Key(q[c]) < k;
      TakeBehind(q, c, pos, k, watch);
    }
  }

  /** What x still has when it comes back is with the worker that took it. */
  lemma TakenJobIsHeld(ws: seq<Phase>, w: nat, x: Job, k: int, watch: iset<JobId>)
    requires w < |ws| && !Carries(ws[w])
    ensures HeldSum(ws[w := Holding(x)], k, watch)
            == HeldSum(ws, k, watch) + if x.id in watch then Positive(k - Key(x) - 1) else 0
  {
    HeldSumUpdate(ws, w, Holding(x), k, watch);
  }

  /** Queue and hands together lose exactly the dispatch that is made. */
  lemma TakeAccount(q: seq<Job>, ws: seq<Phase>, w: nat, c: nat, pos: nat, watch: iset<JobId>)
    requires c < |q| && pos < |q| && c != pos && c == Choice(Mlfq, q) && w < |ws| && !Carries(ws[w])
    ensures
      var k := Key(q[pos]);
      var q', pos' := Without(q, c), if c < pos then pos - 1 else pos;
      && pos' < |q'| && q'[pos'] == q[pos]
      && QueueSum(q', pos', k, watch) + HeldSum(ws[w := Holding(q[c])], k, watch) + (if q[c].id in watch then 1 else 0)
         == QueueSum(q, pos, k, watch) + HeldSum(ws, k, watch)
  {
    TakeChangesSums(q, c, pos, watch);
    TakenJobIsHeld(ws, w, q[c], Key(q[pos]), watch);
  }

  lemma TakeSpendsPotential(s: State, w: nat, pos: nat, watch: iset<JobId>)
    requires Passes(s, Lock(w), pos) && s.jobs != []
    ensures
      var t, pos' := LockStep(s, w), NewPos(s, Lock(w), pos);
      && 0 <= pos' < |t.jobs| && t.jobs[pos'] == s.jobs[pos]
      && Potential(t, pos', watch) + Served(s, Lock(w), watch) == Potential(s, pos, watch)
  {
    TakeAccount(s.jobs, s.workers, w, Choice(Mlfq, s.jobs), pos, watch);
  }

  lemma AddChangesSum(q: seq<Job>, x: Job, pos: nat, watch: iset<JobId>)
    requires pos < |q|
    ensures
      var k := Key(q[pos]);
      && (q + [x])[pos] == q[pos]
      && QueueSum(q + [x], pos, k, watch) == QueueSum(q, pos, k, watch) + Weight(x, k, 0, watch)
  {
    assert (q + [x])[..pos] == q[..pos];
    assert (q + [x])[pos + 1..] == q[pos + 1..] + [x];
    SumSnoc(q[pos + 1..], x, Key(q[pos]), 0, watch);
  }

  lemma WakeKeepsHeldSum(ws: seq<Phase>, wake: Option<nat>, k: int, watch: iset<JobId>)
    requires CanWake(ws, wake)
    ensures HeldSum(Wake(ws, wake), k, watch) == HeldSum(ws, k, watch)
  {
    if wake.Some? {
      HeldSumUpdate(ws, wake.value, Woken, k, watch);
    }
  }

  lemma SubmitAddsArrival(s: State, x: Job, wake: Option<nat>, pos: nat, watch: iset<JobId>)
    requires pos < |s.jobs| && CanWake(s.workers, wake)
    ensures
      var t := SubmitStep(s, x, wake);
      Potential(t, pos, watch) == Potential(s, pos, watch) + Weight(x, Key(s.jobs[pos]), 0, watch)
  {
    AddChangesSum(s.jobs, x, pos, watch);
    WakeKeepsHeldSum(s.workers, wake, Key(s.jobs[pos]), watch);
  }

  lemma RequeueKeepsPotential(s: State, w: nat, wake: Option<nat>, pos: nat, watch: iset<JobId>)
    requires pos < |s.jobs| && w < |s.workers| && s.workers[w].Requeueing? && CanWake(s.workers, wake)
    ensures Potential(RequeueStep(s, w, wake), pos, watch) == Potential(s, pos, watch)
  {
    var k := Key(s.jobs[pos]);
    AddChangesSum(s.jobs, Demoted(s.workers[w].job), pos, watch);
    WakeKeepsHeldSum(s.workers, wake, k, watch);
    HeldSumUpdate(Wake(s.workers, wake), w, Checking, k, watch);
  }

  /** The account of one step: potential left, dispatches of watched jobs and dispatches given up
      add up to the potential before and what arrived. */
  ghost predicate Balanced(s: State, l: Label, pos: nat, watch: iset<JobId>)
    requires Passes(s, l, pos)
  {
    var t, pos' := Apply(s, l), NewPos(s, l, pos);
    var k := Key(s.jobs[pos]);
    && 0 <= pos' < |t.jobs| && t.jobs[pos'] == s.jobs[pos]
    && Potential(t, pos', watch) + Served(s, l, watch) + Forfeit(s, l, k, watch)
       == Potential(s, pos, watch) + Arrival(l, k, watch)
  }

  /** A worker that neither dequeues nor enqueues keeps its weight, unless its job ends. */
  lemma EdgeKeepsWeight(s: State, p: Phase, q: Phase, k: int, watch: iset<JobId>)
    requires Edge(s, p, q) && !p.Entering? && !p.Woken? && !p.Requeueing?
    ensures HeldWeight(q, k, watch) == if q.Reporting? then 0 else HeldWeight(p, k, watch)
  {
  }

  predicate IsWorkerMove(l: Label) {
    || l.Check? || l.Builtin? || l.Launch? || l.Resume?
    || l.Poll? || l.Pause? || l.Block? || l.Report? || l.Settle?
  }

  /** The sum over all workers changes only at worker w. */
  lemma HeldSumMoves(s: State, l: Label, t: State, w: nat, k: int, watch: iset<JobId>)
    requires Framed(s, l, t) && !l.Start? && w < |s.workers| && Acts(l, w)
    ensures HeldSum(t.workers, k, watch) + HeldWeight(s.workers[w], k, watch)
            == HeldSum(s.workers, k, watch) + HeldWeight(t.workers[w], k, watch)
  {
    var mid := s.workers[w := t.workers[w]];
    forall v | 0 <= v < |mid| ensures HeldWeight(mid[v], k, watch) == HeldWeight(t.workers[v], k, watch) {
      assert WorkerFrame(l, s, t, v);
    }
    HeldSumUpdate(s.workers, w, t.workers[w], k, watch);
    SameHeldSum(mid, t.workers, k, watch);
  }

  lemma WorkerMoveForfeits(s: State, l: Label, k: int, watch: iset<JobId>)
    requires Enabled(s, l) && IsWorkerMove(l)
    ensures Apply(s, l).jobs == s.jobs
    ensures HeldSum(Apply(s, l).workers, k, watch) + Forfeit(s, l, k, watch) == HeldSum(s.workers, k, watch)
  {
    var t := Apply(s, l);
    StepFrame(s, l);
    assert WorkerFrame(l, s, t, l.w);
    HeldSumMoves(s, l, t, l.w, k, watch);
    EdgeKeepsWeight(s, s.workers[l.w], t.workers[l.w], k, watch);
  }

  lemma WorkerMoveIsBalanced(s: State, l: Label, pos: nat, watch: iset<JobId>)
    requires Passes(s, l, pos) && IsWorkerMove(l)
    ensures Balanced(s, l, pos, watch)
  {
    WorkerMoveForfeits(s, l, Key(s.jobs[pos]), watch);
  }

  predicate IsOutsideMove(l: Label) {
    || l.Start? || l.StopClear? || l.StopFlag? || l.StopNotify? || l.StopJoined? || l.Spurious?
    || l.SetGroup? || l.Deliver? || l.SelfStop? || l.Die?
  }

  lemma OutsideMoveKeepsHeld(s: State, l: Label, k: int, watch: iset<JobId>)
    requires WakeupsOK(s) && Enabled(s, l) && IsOutsideMove(l)
    ensures Apply(s, l).jobs == s.jobs && HeldSum(Apply(s, l).workers, k, watch) == HeldSum(s.workers, k, watch)
  {
    var t := Apply(s, l);
    StepFrame(s, l);
    if l.Start? {
      NothingHeld(s.workers, k, watch);
      NothingHeld(t.workers, k, watch);
    } else {
      forall v | 0 <= v < |t.workers| ensures HeldWeight(t.workers[v], k, watch) == HeldWeight(s.workers[v], k, watch) {
        assert WorkerFrame(l, s, t, v);
      }
      SameHeldSum(t.workers, s.workers, k, watch);
    }
  }

  lemma TakeIsBalanced(s: State, w: nat, pos: nat, watch: iset<JobId>)
    requires Passes(s, Lock(w), pos)
    ensures Balanced(s, Lock(w), pos, watch)
  {
    TakeSpendsPotential(s, w, pos, watch);
  }

  lemma QueueMoveIsBalanced(s: State, l: Label, pos: nat, watch: iset<JobId>)
    requires Passes(s, l, pos) && (l.Submit? || l.Requeue?)
    ensures Balanced(s, l, pos, watch)
  {
    if l.Submit? {
      SubmitAddsArrival(s, l.job, l.wake, pos, watch);
    } else {
      RequeueKeepsPotential(s, l.w, l.wake, pos, watch);
    }
  }

  lemma StepIsBalanced(s: State, l: Label, pos: nat, watch: iset<JobId>)
    requires WakeupsOK(s) && Passes(s, l, pos)
    ensures Balanced(s, l, pos, watch)
  {
    if IsWorkerMove(l) {
      WorkerMoveIsBalanced(s, l, pos, watch);
    } else if IsOutsideMove(l) {
      OutsideMoveKeepsHeld(s, l, Key(s.jobs[pos]), watch);
    } else if l.Lock? {
      TakeIsBalanced(s, l.w, pos, watch);
    } else {
      QueueMoveIsBalanced(s, l, pos, watch);
    }
  }

  // ----- whole runs -----

  /** The job at pos is queued in every state of the run. */
  predicate KeepsWaiting(s: State, run: seq<Label>, pos: int)
    decreases |run|
  {
    && 0 <= pos < |s.jobs| && s.policy == Mlfq
    && (run != [] ==> Passes(s, run[0], pos) && KeepsWaiting(Apply(s, run[0]), run[1..], NewPos(s, run[0], pos)))
  }

  ghost function ServedIn(s: State, run: seq<Label>, pos: int, watch: iset<JobId>): nat
    requires KeepsWaiting(s, run, pos)
    decreases |run|
  {
    if run == [] then 0
    else Served(s, run[0], watch) + ServedIn(Apply(s, run[0]), run[1..], NewPos(s, run[0], pos), watch)
  }

  ghost function ForfeitIn(s: State, run: seq<Label>, pos: int, k: int, watch: iset<JobId>): nat
    requires KeepsWaiting(s, run, pos)
    decreases |run|
  {
    if run == [] then 0
    else
      Forfeit(s, run[0], k, watch)
      + ForfeitIn(Apply(s, run[0]), run[1..], NewPos(s, run[0], pos), k, watch)
  }

  ghost function ArrivalIn(run: seq<Label>, k: int, watch: iset<JobId>): nat {
    if run == [] then 0 else Arrival(run[0], k, watch) + ArrivalIn(run[1..], k, watch)
  }

  function LastPos(s: State, run: seq<Label>, pos: int): (r: int)
    requires KeepsWaiting(s, run, pos)
    decreases |run|
  {
    if run == [] then pos else LastPos(Apply(s, run[0]), run[1..], NewPos(s, run[0], pos))
  }

  lemma {:induction false} WaitingIsValid(s: State, run: seq<Label>, pos: int)
    requires KeepsWaiting(s, run, pos)
    ensures ValidRun(s, run)
    decreases |run|
  {
    if run != [] {
      WaitingIsValid(Apply(s, run[0]), run[1..], NewPos(s, run[0], pos));
    }
  }

  /** The bypass law: over every run in which the job waits, the dispatches of other jobs are paid
      for, one by one, from its potential and from arrivals of smaller key. */
  lemma {:induction false} BypassLaw(s: State, run: seq<Label>, pos: int, watch: iset<JobId>)
    requires Inv(s) && KeepsWaiting(s, run, pos)
    ensures ValidRun(s, run)
    ensures
      var t, last := After(s, run), LastPos(s, run, pos);
      var k := Key(s.jobs[pos]);
      && 0 <= last < |t.jobs| && t.jobs[last] == s.jobs[pos]
      && Potential(t, last, watch) + ServedIn(s, run, pos, watch) + ForfeitIn(s, run, pos, k, watch)
         == Potential(s, pos, watch) + ArrivalIn(run, k, watch)
    decreases |run|
  {
    WaitingIsValid(s, run, pos);
    if run != [] {
      var l := run[0];
      StepIsBalanced(s, l, pos, watch);
      StepKeepsInv(s, l);
      BypassLaw(Apply(s, l), run[1..], NewPos(s, l, pos), watch);
    }
  }

  // ----- one other job -----

  lemma {:induction false} SumOfOne(q: seq<Job>, m: nat, k: int, tie: nat)
    requires m < |q|
    requires forall i :: 0 <= i < |q| && i != m ==> q[i].id != q[m].id
    ensures Sum(q, k, tie, iset{q[m].id}) == Weight(q[m], k, tie, iset{q[m].id})
  {
    var watch := iset{q[m].id};
    SumWithout(q, m, k, tie, watch);
    NothingQueued(Without(q, m), k, tie, watch);
  }

  lemma {:induction false} NoSecondArrival(s: State, run: seq<Label>, k: int, id: JobId)
    requires ValidRun(s, run) && H(s.log, id).submits > 0
    ensures ArrivalIn(run, k, iset{id}) == 0
    decreases |run|
  {
    if run != [] {
      SubmitsOnlyGrow(s, run[0], id);
      NoSecondArrival(Apply(s, run[0]), run[1..], k, id);
    }
  }

  lemma SubmitsOnlyGrow(s: State, l: Label, id: JobId)
    requires Enabled(s, l)
    ensures H(Apply(s, l).log, id).submits >= H(s.log, id).submits
  {
    StepFrame(s, l);
    LogGrowth(s.log, Apply(s, l).log, id);
  }

  lemma PotentialOfQueuedJob(s: State, pos: nat, m: nat)
    requires Inv(s) && pos < |s.jobs| && m < |s.jobs| && m != pos
    ensures
      var x := s.jobs[m];
      Potential(s, pos, iset{x.id}) == Weight(x, Key(s.jobs[pos]), One(m < pos), iset{x.id})
  {
    var x := s.jobs[m];
    var k, watch := Key(s.jobs[pos]), iset{x.id};
    QueuedOnce(s, m);
    NothingHeld(s.workers, k, watch);
    QueueSumOfOne(s.jobs, pos, m, k);
  }

  lemma QueueSumOfOne(q: seq<Job>, pos: nat, m: nat, k: int)
    requires pos < |q| && m < |q| && m != pos
    requires forall i :: 0 <= i < |q| && i != m ==> q[i].id != q[m].id
    ensures QueueSum(q, pos, k, iset{q[m].id}) == Weight(q[m], k, One(m < pos), iset{q[m].id})
  {
    var ahead, behind := q[..pos], q[pos + 1..];
    if m < pos {
      SumOfOne(ahead, m, k, 1);
      NothingQueued(behind, k, 0, iset{q[m].id});
    } else {
      SumOfOne(behind, m - pos - 1, k, 0);
      NothingQueued(ahead, k, 1, iset{q[m].id});
    }
  }

  /** A job queued beside the waiting one, at position m, is dispatched before it at most
      k - key times if its key is smaller, once if its key is equal and it stands ahead, and never
      otherwise. */
  lemma QueuedJobBypassBound(s: State, run: seq<Label>, pos: nat, m: nat)
    requires Reachable(s) && KeepsWaiting(s, run, pos) && m < |s.jobs| && m != pos
    ensures
      var k, key := Key(s.jobs[pos]), Key(s.jobs[m]);
      ServedIn(s, run, pos, iset{s.jobs[m].id})
      <= if key < k then k - key else if key == k && m < pos then 1 else 0
  {
    ReachableInv(s);
    var x := s.jobs[m];
    WaitingIsValid(s, run, pos);
    ServedWithinPotential(s, run, pos, iset{x.id});
    QueuedOnce(s, m);
    NoSecondArrival(s, run, Key(s.jobs[pos]), x.id);
    PotentialOfQueuedJob(s, pos, m);
  }

  /** The job at position m is nowhere else. */
  lemma QueuedOnce(s: State, m: nat)
    requires Inv(s) && m < |s.jobs|
    ensures forall i :: 0 <= i < |s.jobs| && i != m ==> s.jobs[i].id != s.jobs[m].id
    ensures forall w :: 0 <= w < |s.workers| && Carries(s.workers[w]) ==> s.workers[w].job.id != s.jobs[m].id
    ensures H(s.log, s.jobs[m].id).submits == 1
  {
    forall i | 0 <= i < |s.jobs| && i != m ensures s.jobs[i].id != s.jobs[m].id {
      if i < m {
        QueueHasNoDuplicates(s, i, m);
      } else {
        QueueHasNoDuplicates(s, m, i);
      }
    }
    forall w | 0 <= w < |s.workers| && Carries(s.workers[w]) ensures s.workers[w].job.id != s.jobs[m].id {
      QueuedIsNotHeld(s, m, w);
    }
    assert QueuedOK(s, s.jobs[m]);
  }

  lemma UnknownJobHasNoPotential(s: State, pos: nat, id: JobId)
    requires Inv(s) && pos < |s.jobs| && H(s.log, id).submits == 0
    ensures Potential(s, pos, iset{id}) == 0
  {
    var k, watch := Key(s.jobs[pos]), iset{id};
    assert InQueue(s.jobs, id) + AtWorkers(s.workers, id) + H(s.log, id).settles == H(s.log, id).submits;
    forall i | 0 <= i < |s.jobs| ensures s.jobs[i].id != id {
      CountedInQueue(s.jobs, i);
    }
    forall w | 0 <= w < |s.workers| && Carries(s.workers[w]) ensures s.workers[w].job.id != id {
      CountedAtWorkers(s.workers, w);
    }
    NothingHeld(s.workers, k, watch);
    NothingQueued(s.jobs[..pos], k, 1, watch);
    NothingQueued(s.jobs[pos + 1..], k, 0, watch);
  }

  /** A job that arrives later with a key of at least k is never dispatched before it. */
  lemma {:induction false} LateArrivalNeverBypasses(s: State, run: seq<Label>, pos: nat, id: JobId)
    requires Reachable(s) && KeepsWaiting(s, run, pos) && H(s.log, id).submits == 0
    requires forall i :: 0 <= i < |run| && run[i].Submit? && run[i].job.id == id ==> Key(run[i].job) >= Key(s.jobs[pos])
    ensures ServedIn(s, run, pos, iset{id}) == 0
  {
    ReachableInv(s);
    UnknownJobHasNoPotential(s, pos, id);
    HarmlessArrivals(run, Key(s.jobs[pos]), iset{id});
    ServedWithinPotential(s, run, pos, iset{id});
  }

  lemma {:induction false} ServedWithinPotential(s: State, run: seq<Label>, pos: nat, watch: iset<JobId>)
    requires Inv(s) && KeepsWaiting(s, run, pos)
    ensures ServedIn(s, run, pos, watch) <= Potential(s, pos, watch) + ArrivalIn(run, Key(s.jobs[pos]), watch)
  {
    BypassLaw(s, run, pos, watch);
  }

  lemma {:induction false} HarmlessArrivals(run: seq<Label>, k: int, watch: iset<JobId>)
    requires forall i :: 0 <= i < |run| && run[i].Submit? && run[i].job.id in watch ==> Key(run[i].job) >= k
    ensures ArrivalIn(run, k, watch) == 0
  {
    if run != [] {
      assert Arrival(run[0], k, watch) == 0;
      HarmlessArrivals(run[1..], k, watch);
    }
  }

  /** No starvation: without arrivals of smaller key, the job waits for at most as many dispatches
      of the watched jobs, all others for instance, as its potential says. */
  lemma WaitingIsBounded(s: State, run: seq<Label>, pos: nat, watch: iset<JobId>)
    requires Reachable(s) && KeepsWaiting(s, run, pos)
    requires forall i :: 0 <= i < |run| && run[i].Submit? ==> Key(run[i].job) >= Key(s.jobs[pos])
    ensures ServedIn(s, run, pos, watch) <= Potential(s, pos, watch)
  {
    ReachableInv(s);
    ServedWithinPotential(s, run, pos, watch);
    HarmlessArrivals(run, Key(s.jobs[pos]), watch);
  }

  /** A job in a worker's hands, which comes back one level lower, bypasses at most k - key - 1 times. */
  lemma HeldJobBypassBound(s: State, run: seq<Label>, pos: nat, w: nat)
    requires Reachable(s) && KeepsWaiting(s, run, pos) && w < |s.workers| && Carries(s.workers[w])
    ensures
      var x := s.workers[w].job;
      ServedIn(s, run, pos, iset{x.id}) <= Positive(Key(s.jobs[pos]) - Key(x) - 1)
  {
    ReachableInv(s);
    var x := s.workers[w].job;
    WaitingIsValid(s, run, pos);
    ServedWithinPotential(s, run, pos, iset{x.id});
    HeldIsLive(s, w);
    NoSecondArrival(s, run, Key(s.jobs[pos]), x.id);
    PotentialOfHeldJob(s, pos, w);
  }

  lemma PotentialOfHeldJob(s: State, pos: nat, w: nat)
    requires Inv(s) && pos < |s.jobs| && w < |s.workers| && Carries(s.workers[w])
    ensures
      var x := s.workers[w].job;
      Potential(s, pos, iset{x.id}) == HeldWeight(s.workers[w], Key(s.jobs[pos]), iset{x.id})
  {
    var x := s.workers[w].job;
    var k, watch := Key(s.jobs[pos]), iset{x.id};
    forall i | 0 <= i < |s.jobs| ensures s.jobs[i].id != x.id {
      QueuedIsNotHeld(s, i, w);
    }
    NothingQueued(s.jobs[..pos], k, 1, watch);
    NothingQueued(s.jobs[pos + 1..], k, 0, watch);
    var others := s.workers[w := Gone];
    forall v | 0 <= v < |others| && Carries(others[v]) ensures others[v].job.id != x.id {
      HoldersAreDistinct(s, w, v);
    }
    NothingHeld(others, k, watch);
    HeldSumUpdate(s.workers, w, Gone, k, watch);
  }
}
