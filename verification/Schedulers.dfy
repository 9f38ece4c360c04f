/** The three selection policies over one flat deque. `std::min_element` and `std::max_element`
    return the first extreme element, so every policy picks the first job of least rank. */
module Schedulers {
  import opened Jobs

  datatype Policy = Fifo | HighestPriority | Mlfq

  function Rank(policy: Policy, j: Job): int {
    match policy
    case Fifo => 0
    case HighestPriority => -j.priority
    case Mlfq => j.priority + j.elapsedBursts
  }

  /** Index i holds the least rank, and every earlier job ranks strictly above it. */
  predicate IsFirstLeast(policy: Policy, q: seq<Job>, i: int) {
    && 0 <= i < |q|
    && (forall k :: 0 <= k < |q| ==> Rank(policy, q[i]) <= Rank(policy, q[k]))
    && (forall k :: 0 <= k < i ==> Rank(policy, q[i]) < Rank(policy, q[k]))
  }

  function Choice(policy: Policy, q: seq<Job>): (i: nat)
    requires q != []
    ensures IsFirstLeast(policy, q, i)
  {
    if |q| == 1 then 0
    else
      var last := |q| - 1;
      var i := Choice(policy, q[..last]);
      if Rank(policy, q[last]) < Rank(policy, q[i]) then last else i
  }

  lemma ChoiceIsTheFirstLeast(policy: Policy, q: seq<Job>, i: nat)
    requires IsFirstLeast(policy, q, i)
    ensures i == Choice(policy, q)
  {
  }

  /** The first job of highest priority is taken and erased. */
  predicate TakesHighest(q: seq<Job>, j: Job, q': seq<Job>) {
    exists c :: 0 <= c < |q| && FirstHighest(q, c) && j == q[c] && q' == q[..c] + q[c + 1..]
  }

  predicate FirstHighest(q: seq<Job>, c: int) {
    && 0 <= c < |q|
    && (forall k :: 0 <= k < |q| ==> q[k].priority <= q[c].priority)
    && (forall k :: 0 <= k < c ==> q[k].priority < q[c].priority)
  }

  /** The first job of least priority number plus bursts so far is taken and erased. */
  predicate TakesLeastKey(q: seq<Job>, j: Job, q': seq<Job>) {
    exists c :: 0 <= c < |q| && FirstLeastKey(q, c) && j == q[c] && q' == q[..c] + q[c + 1..]
  }

  predicate FirstLeastKey(q: seq<Job>, c: int) {
    && 0 <= c < |q|
    && (forall k :: 0 <= k < |q| ==> q[c].priority + q[c].elapsedBursts <= q[k].priority + q[k].elapsedBursts)
    && (forall k :: 0 <= k < c ==> q[c].priority + q[c].elapsedBursts < q[k].priority + q[k].elapsedBursts)
  }

  /** The least rank, told in the fields of the jobs. */
  lemma FirstLeastByFields(q: seq<Job>, c: int)
    ensures IsFirstLeast(HighestPriority, q, c) ==> FirstHighest(q, c)
    ensures IsFirstLeast(Mlfq, q, c) ==> FirstLeastKey(q, c)
  {
  }

  /** `erase` at index i. */
  function Without(q: seq<Job>, i: nat): (r: seq<Job>)
    requires i < |q|
    ensures |r| == |q| - 1
    ensures forall k :: 0 <= k < |r| ==> r[k] == if k < i then q[k] else q[k + 1]
  {
    q[..i] + q[i + 1..]
  }

  function Next(policy: Policy, q: seq<Job>): Job
    requires q != []
  {
    q[Choice(policy, q)]
  }

  function Rest(policy: Policy, q: seq<Job>): (r: seq<Job>)
    requires q != []
    ensures |r| == |q| - 1
  {
    Without(q, Choice(policy, q))
  }

  /** What the scan of the priority scheduler finds, in terms of the policy and of the jobs' fields. */
  lemma PriorityTakes(q: seq<Job>, c: int)
    requires IsFirstLeast(HighestPriority, q, c)
    ensures q[c] == Next(HighestPriority, q) && q[..c] + q[c + 1..] == Rest(HighestPriority, q)
    ensures TakesHighest(q, Next(HighestPriority, q), Rest(HighestPriority, q))
  {
    ChoiceIsTheFirstLeast(HighestPriority, q, c);
    FirstLeastByFields(q, c);
  }

  /** The same for MLFQ. */
  lemma MlfqTakes(q: seq<Job>, c: int)
    requires IsFirstLeast(Mlfq, q, c)
    ensures q[c] == Next(Mlfq, q) && q[..c] + q[c + 1..] == Rest(Mlfq, q)
    ensures TakesLeastKey(q, Next(Mlfq, q), Rest(Mlfq, q))
  {
    ChoiceIsTheFirstLeast(Mlfq, q, c);
    FirstLeastByFields(q, c);
  }

  /** The `std::deque<Job>&` that every scheduler mutates for its caller. */
  class JobDeque {
    var items: seq<Job>

    constructor ()
      ensures items == []
    {
      items := [];
    }
  }

  /** All four `addJob` bodies are the same push at the back. */
  method AddJob(jobs: JobDeque, job: Job)
    modifies jobs
    ensures jobs.items == old(jobs.items) + [job]
  {
    jobs.items := jobs.items + [job];
  }

  method MlfqGetNextJob(jobs: JobDeque) returns (job: Job)
    requires jobs.items != []
    modifies jobs
    ensures job == Next(Mlfq, old(jobs.items))
    ensures jobs.items == Rest(Mlfq, old(jobs.items))
    ensures TakesLeastKey(old(jobs.items), job, jobs.items)
  {
    var q := jobs.items;
    var it := 0;
    var i := 1;
    while i < |q|
      invariant 1 <= i <= |q| && 0 <= it < i
      invariant IsFirstLeast(Mlfq, q[..i], it)
    {
      assert q[..i + 1] == q[..i] + [q[i]];
      if q[i].priority + q[i].elapsedBursts < q[it].priority + q[it].elapsedBursts {
        it := i;
      }
      i := i + 1;
    }
    assert q[..i] == q;
    MlfqTakes(q, it);
    job := q[it];
    jobs.items := q[..it] + q[it + 1..];
  }

  method PriorityGetNextJob(jobs: JobDeque) returns (job: Job)
    requires jobs.items != []
    modifies jobs
    ensures job == Next(HighestPriority, old(jobs.items))
    ensures jobs.items == Rest(HighestPriority, old(jobs.items))
    ensures TakesHighest(old(jobs.items), job, jobs.items)
  {
    var q := jobs.items;
    var it := 0;
    var i := 1;
    while i < |q|
      invariant 1 <= i <= |q| && 0 <= it < i
      invariant IsFirstLeast(HighestPriority, q[..i], it)
    {
      assert q[..i + 1] == q[..i] + [q[i]];
      if q[it].priority < q[i].priority {
        it := i;
      }
      i := i + 1;
    }
    assert q[..i] == q;
    PriorityTakes(q, it);
    job := q[it];
    jobs.items := q[..it] + q[it + 1..];
  }

  /** Round Robin and first-come-first-served have the same body. */
  method FifoGetNextJob(jobs: JobDeque) returns (job: Job)
    requires jobs.items != []
    modifies jobs
    ensures job == Next(Fifo, old(jobs.items)) == old(jobs.items)[0]
    ensures jobs.items == Rest(Fifo, old(jobs.items)) == old(jobs.items)[1..]
  {
    ChoiceIsTheFirstLeast(Fifo, jobs.items, 0);
    job := jobs.items[0];
    jobs.items := jobs.items[1..];
  }

  /** The call through `IScheduler`. */
  method GetNextJob(policy: Policy, jobs: JobDeque) returns (j: Job)
    requires jobs.items != []
    modifies jobs
    ensures j == Next(policy, old(jobs.items))
    ensures jobs.items == Rest(policy, old(jobs.items))
  {
    match policy {
      case Fifo => j := FifoGetNextJob(jobs);
      case HighestPriority => j := PriorityGetNextJob(jobs);
      case Mlfq => j := MlfqGetNextJob(jobs);
    }
  }
}
