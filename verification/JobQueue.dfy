/** src/InMemoryJobQueue.cpp: the monitor. Each method here is one critical section; the
    interleaving of critical sections, waits and wake-ups is the subject of module Engine. */
module JobQueue {
  import opened Jobs
  import opened Schedulers

  /** What a thread inside `dequeue` finds when it holds the lock. */
  datatype Outcome = MustWait | Ended | Got(job: Job)

  /** The wait predicate and the two exits of `dequeue`. */
  function DequeueOutcome(policy: Policy, jobs: seq<Job>, stopping: bool): Outcome {
    if jobs == [] && !stopping then MustWait
    else if stopping && jobs == [] then Ended
    else Got(Next(policy, jobs))
  }

  class InMemoryJobQueue {
    const policy: Policy
    const jobs: JobDeque
    var stopping: bool
    /** The threads in the wait set of `cv_`. */
    var asleep: set<nat>

    constructor (policy: Policy)
      ensures this.policy == policy && fresh(jobs)
      ensures jobs.items == [] && !stopping && asleep == {}
    {
      this.policy := policy;
      jobs := new JobDeque();
      stopping := false;
      asleep := {};
    }

    /** `notify_one` wakes some sleeper if there is one. */
    method Enqueue(job: Job) returns (woken: Option<nat>)
      modifies this`asleep, jobs
      ensures jobs.items == old(jobs.items) + [job]
      ensures woken == None <==> old(asleep) == {}
      ensures match woken
              case None => asleep == old(asleep)
              case Some(t) => t in old(asleep) && asleep == old(asleep) - {t}
    {
      AddJob(jobs, job);
      woken := None;
      if asleep != {} {
        var t :| t in asleep;
        asleep := asleep - {t};
        woken := Some(t);
      }
    }

    /** The body of `dequeue` after thread `me` has taken the lock, up to the next release of it. */
    method TryDequeue(me: nat) returns (r: Outcome)
      modifies this`asleep, jobs
      ensures r == DequeueOutcome(policy, old(jobs.items), stopping)
      ensures jobs.items == if r.Got? then Rest(policy, old(jobs.items)) else old(jobs.items)
      ensures r.MustWait? <==> old(jobs.items) == [] && !stopping
      ensures r.Ended? <==> old(jobs.items) == [] && stopping
      ensures asleep == if r.MustWait? then old(asleep) + {me} else old(asleep)
    {
      if !(jobs.items != [] || stopping) {
        asleep := asleep + {me};
        return MustWait;
      }
      if stopping && jobs.items == [] {
        return Ended;
      }
      var j := GetNextJob(policy, jobs);
      r := Got(j);
    }

    /** The flag is set under the lock; `notify_all` follows it. */
    method Stop()
      modifies this
      ensures stopping && asleep == {} && jobs.items == old(jobs.items)
    {
      stopping := true;
      asleep := {};
    }
  }
}
