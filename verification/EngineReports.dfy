/** What a run reports, as a whole: the multiset of results depends only on the submitted commands and
    on how their children ended, not on policy, threads or interleaving. */
module EngineReports {
  import opened Jobs
  import opened Engine
  import opened EngineFrames
  import opened EngineInvariant
  import opened EngineSafety

  /** The results in the order in which they were submitted to the collector. */
  function ReportsOf(log: seq<Event>): seq<JobResult> {
    if log == [] then []
    else
      var n := |log| - 1;
      ReportsOf(log[..n]) + if log[n].Reported? then [log[n].result] else []
  }

  /** Every result names the job for which it was reported. */
  predicate Tagged(log: seq<Event>) {
    forall i :: 0 <= i < |log| && log[i].Reported? ==> log[i].result.jobId == log[i].id
  }

  lemma {:induction false} RunKeepsTags(s: State, run: seq<Label>)
    requires ValidRun(s, run) && Tagged(s.log)
    ensures Tagged(After(s, run).log)
    decreases |run|
  {
    if run != [] {
      StepFrame(s, run[0]);
      TagsGrow(s.log, Apply(s, run[0]).log);
      RunKeepsTags(Apply(s, run[0]), run[1..]);
    }
  }

  lemma TagsGrow(log: seq<Event>, log': seq<Event>)
    requires Tagged(log) && |log| <= |log'| <= |log| + 1 && log'[..|log|] == log
    requires |log'| > |log| && log'[|log|].Reported? ==> log'[|log|].result.jobId == log'[|log|].id
    ensures Tagged(log')
  {
    forall i | 0 <= i < |log'| && log'[i].Reported? ensures log'[i].result.jobId == log'[i].id {
      if i < |log| {
        assert log'[..|log|][i] == log[i];
      }
    }
  }

  lemma ReachableIsTagged(s: State)
    requires Reachable(s)
    ensures Tagged(s.log)
  {
    var policy, threads, run :|
      ValidRun(Initial(policy, threads), run) && s == After(Initial(policy, threads), run);
    RunKeepsTags(Initial(policy, threads), run);
  }

  /** The history h counts result r as reported. */
  predicate Tells(h: History, r: JobResult) {
    h.reports == 1 && h.result == Some(r)
  }

  lemma NoteCounts(h: History, e: Event, r: JobResult)
    requires e.Reported? ==> e.result.jobId == e.id
    requires h.reports + One(e.Reported? && e.id == r.jobId) <= 1
    ensures One(Tells(h, r)) + One(e.Reported? && e.result == r)
            == One(Tells(if e.id == r.jobId then Note(h, e) else h, r))
  {
  }

  lemma CountSnoc(a: seq<JobResult>, e: Event, r: JobResult)
    ensures multiset(a + if e.Reported? then [e.result] else [])[r]
            == multiset(a)[r] + One(e.Reported? && e.result == r)
  {
  }

  /** A result was reported as often as the history of its job says. */
  lemma {:induction false} ReportsAreCounted(log: seq<Event>, r: JobResult)
    requires Tagged(log) && H(log, r.jobId).reports <= 1
    ensures multiset(ReportsOf(log))[r] == One(Tells(H(log, r.jobId), r))
  {
    if log != [] {
      var before, e := log[..|log| - 1], log[|log| - 1];
      assert Tagged(before);
      ReportsAreCounted(before, r);
      CountSnoc(ReportsOf(before), e, r);
      NoteCounts(H(before, r.jobId), e, r);
    }
  }

  /** Job id was submitted with the same command in both runs, and if it was submitted at all, it was
      reported and its child, if any, ended in the same way. */
  predicate SameWorkload(s: State, t: State, id: JobId) {
    var h, g := H(s.log, id), H(t.log, id);
    && h.submits == g.submits && h.cmd == g.cmd
    && (h.submits > 0 ==> h.reports == 1 && g.reports == 1 && h.ending == g.ending)
  }

  lemma SameCount(s: State, t: State, r: JobResult)
    requires Reachable(s) && Reachable(t) && SameWorkload(s, t, r.jobId)
    ensures multiset(ReportsOf(s.log))[r] == multiset(ReportsOf(t.log))[r]
  {
    ReachableInv(s);
    ReachableInv(t);
    assert IdOK(s, r.jobId) && IdOK(t, r.jobId);
    EveryJournalIsClean(s, r.jobId);
    EveryJournalIsClean(t, r.jobId);
    ReachableIsTagged(s);
    ReachableIsTagged(t);
    ReportsAreCounted(s.log, r);
    ReportsAreCounted(t.log, r);
  }

  /** Any two runs, under any policies and numbers of threads, that bring the same jobs to the same
      endings report the same multiset of results. */
  lemma ReportsAreSchedulerIndependent(s: State, t: State)
    requires Reachable(s) && Reachable(t)
    requires forall id: JobId :: SameWorkload(s, t, id)
    ensures multiset(ReportsOf(s.log)) == multiset(ReportsOf(t.log))
  {
    forall r: JobResult ensures multiset(ReportsOf(s.log))[r] == multiset(ReportsOf(t.log))[r] {
      SameCount(s, t, r);
    }
    SameMultisets(multiset(ReportsOf(s.log)), multiset(ReportsOf(t.log)));
  }

  lemma SameMultisets(a: multiset<JobResult>, b: multiset<JobResult>)
    requires forall r: JobResult :: a[r] == b[r]
    ensures a == b
  {
  }
}
