/** The flat deque seen as a family of FIFO levels, one per rank. For MLFQ the rank is
    `priority + elapsed_bursts`, so a level is a feedback queue. */
module Levels {
  import opened Jobs
  import opened Schedulers

  /** The jobs of rank k, in deque order. */
  function Level(policy: Policy, q: seq<Job>, k: int): seq<Job> {
    if q == [] then []
    else
      var front := Level(policy, q[..|q| - 1], k);
      var j := q[|q| - 1];
      if Rank(policy, j) == k then front + [j] else front
  }

  lemma LevelSnoc(policy: Policy, q: seq<Job>, j: Job, k: int)
    ensures Level(policy, q + [j], k) == Level(policy, q, k) + if Rank(policy, j) == k then [j] else []
  {
    assert (q + [j])[..|q|] == q;
  }

  lemma {:induction false} LevelConcat(policy: Policy, a: seq<Job>, b: seq<Job>, k: int)
    ensures Level(policy, a + b, k) == Level(policy, a, k) + Level(policy, b, k)
  {
    if b == [] {
      assert a + b == a;
    } else {
      var n := |b| - 1;
      LevelConcat(policy, a, b[..n], k);
      assert a + b == (a + b[..n]) + [b[n]];
      LevelSnoc(policy, a + b[..n], b[n], k);
    }
  }

  lemma {:induction false} LevelEmpty(policy: Policy, q: seq<Job>, k: int)
    ensures Level(policy, q, k) == [] <==> forall i :: 0 <= i < |q| ==> Rank(policy, q[i]) != k
  {
    if q != [] {
      var n := |q| - 1;
      LevelEmpty(policy, q[..n], k);
      if forall i :: 0 <= i < n ==> Rank(policy, q[..n][i]) != k {
        assert forall i :: 0 <= i < |q| && i != n ==> q[i] == q[..n][i];
      } else {
        var i :| 0 <= i < n && Rank(policy, q[..n][i]) == k;
        assert q[i] == q[..n][i];
      }
    }
  }

  /** Erasing the chosen job removes the head of its own level and touches no other level. */
  lemma PopTakesHead(policy: Policy, q: seq<Job>, k: int)
    requires q != []
    ensures
      var j := Next(policy, q);
      if Rank(policy, j) == k
      then Level(policy, q, k) == [j] + Level(policy, Rest(policy, q), k)
      else Level(policy, q, k) == Level(policy, Rest(policy, q), k)
  {
    var c := Choice(policy, q);
    var a, j, b := q[..c], q[c], q[c + 1..];
    assert q == (a + [j]) + b;
    assert Rest(policy, q) == a + b;
    assert forall i :: 0 <= i < |a| ==> Rank(policy, j) < Rank(policy, a[i]);
    EraseFromLevel(policy, a, j, b, k);
  }

  lemma EraseFromLevel(policy: Policy, a: seq<Job>, j: Job, b: seq<Job>, k: int)
    requires forall i :: 0 <= i < |a| ==> Rank(policy, j) < Rank(policy, a[i])
    ensures Level(policy, (a + [j]) + b, k)
            == (if Rank(policy, j) == k then [j] else []) + Level(policy, a + b, k)
  {
    LevelConcat(policy, a + [j], b, k);
    LevelSnoc(policy, a, j, k);
    LevelConcat(policy, a, b, k);
    if Rank(policy, j) == k {
      LevelEmpty(policy, a, k);
    }
  }

  // ----- the flat deque refines real multi-level queues -----

  /** The reference structure: only non-empty levels are stored. */
  type MultiLevel = map<int, seq<Job>>

  function Ranks(policy: Policy, q: seq<Job>): set<int> {
    set i | 0 <= i < |q| :: Rank(policy, q[i])
  }

  function Abstract(policy: Policy, q: seq<Job>): MultiLevel {
    map k | k in Ranks(policy, q) :: Level(policy, q, k)
  }

  function Push(m: MultiLevel, k: int, j: Job): MultiLevel {
    m[k := (if k in m then m[k] else []) + [j]]
  }

  predicate IsLowest(m: MultiLevel, k: int) {
    k in m && forall k' :: k' in m ==> k <= k'
  }

  /** Taking the head of level k; the level disappears with its last job. */
  function PopLevel(m: MultiLevel, k: int): MultiLevel
    requires k in m && m[k] != []
  {
    if |m[k]| == 1 then m - {k} else m[k := m[k][1..]]
  }

  lemma AddJobRefinesPush(policy: Policy, q: seq<Job>, j: Job)
    ensures Abstract(policy, q + [j]) == Push(Abstract(policy, q), Rank(policy, j), j)
  {
    var q' := q + [j];
    var r := Rank(policy, j);
    assert Ranks(policy, q') == Ranks(policy, q) + {r} by {
      assert forall i :: 0 <= i < |q| ==> q'[i] == q[i];
      assert q'[|q|] == j;
    }
    var m, m' := Push(Abstract(policy, q), r, j), Abstract(policy, q');
    forall k | k in m' ensures m'[k] == m[k] {
      LevelSnoc(policy, q, j, k);
      LevelEmpty(policy, q, k);
    }
    assert m'.Keys == m.Keys;
  }

  lemma RanksAreTheStoredLevels(policy: Policy, q: seq<Job>)
    ensures forall k :: k in Abstract(policy, q) <==> Level(policy, q, k) != []
  {
    forall k ensures k in Abstract(policy, q) <==> Level(policy, q, k) != [] {
      LevelEmpty(policy, q, k);
    }
  }

  lemma GetNextJobRefinesPop(policy: Policy, q: seq<Job>)
    requires q != []
    ensures
      var m := Abstract(policy, q);
      var j := Next(policy, q);
      var k := Rank(policy, j);
      && IsLowest(m, k)
      && m[k] != [] && m[k][0] == j
      && Abstract(policy, Rest(policy, q)) == PopLevel(m, k)
  {
    var m := Abstract(policy, q);
    var m' := Abstract(policy, Rest(policy, q));
    var k := Rank(policy, Next(policy, q));
    RanksAreTheStoredLevels(policy, q);
    RanksAreTheStoredLevels(policy, Rest(policy, q));
    PopTakesHead(policy, q, k);
    assert m[k] == [Next(policy, q)] + Level(policy, Rest(policy, q), k);
    forall k' ensures k' in m' <==> k' in PopLevel(m, k)
              ensures k' in m' ==> m'[k'] == PopLevel(m, k)[k']
    {
      PopTakesHead(policy, q, k');
    }
  }

  /** A client run: adds, and gets that yield nothing when there is no job. */
  datatype Op = Add(job: Job) | Get

  function FlatRun(policy: Policy, q: seq<Job>, ops: seq<Op>): seq<Job>
    decreases |ops|
  {
    if ops == [] then []
    else match ops[0]
      case Add(j) => FlatRun(policy, q + [j], ops[1..])
      case Get =>
        if q == [] then FlatRun(policy, q, ops[1..])
        else [Next(policy, q)] + FlatRun(policy, Rest(policy, q), ops[1..])
  }

  /** The same run on the reference structure, told only by its own rules. */
  ghost predicate LevelRun(policy: Policy, m: MultiLevel, ops: seq<Op>, out: seq<Job>)
    decreases |ops|
  {
    if ops == [] then out == []
    else match ops[0]
      case Add(j) => LevelRun(policy, Push(m, Rank(policy, j), j), ops[1..], out)
      case Get =>
        if m == map[] then LevelRun(policy, m, ops[1..], out)
        else
          exists k ::
            && IsLowest(m, k) && m[k] != [] && out != [] && out[0] == m[k][0]
            && LevelRun(policy, PopLevel(m, k), ops[1..], out[1..])
  }

  lemma {:induction false} FlatDequeRefinesLevels(policy: Policy, q: seq<Job>, ops: seq<Op>)
    ensures LevelRun(policy, Abstract(policy, q), ops, FlatRun(policy, q, ops))
    decreases |ops|
  {
    if ops != [] {
      match ops[0]
      case Add(j) =>
        AddJobRefinesPush(policy, q, j);
        FlatDequeRefinesLevels(policy, q + [j], ops[1..]);
      case Get =>
        if q == [] {
          FlatDequeRefinesLevels(policy, q, ops[1..]);
        } else {
          var m := Abstract(policy, q);
          var k := Rank(policy, Next(policy, q));
          GetNextJobRefinesPop(policy, q);
          FlatDequeRefinesLevels(policy, Rest(policy, q), ops[1..]);
          var out := FlatRun(policy, q, ops);
          assert out[1..] == FlatRun(policy, Rest(policy, q), ops[1..]);
          assert IsLowest(m, k);
        }
    }
  }

  /** The reference structure leaves no freedom: at most one output per run. */
  lemma {:induction false} LevelRunIsDeterministic(
      policy: Policy, m: MultiLevel, ops: seq<Op>, out1: seq<Job>, out2: seq<Job>)
    requires LevelRun(policy, m, ops, out1) && LevelRun(policy, m, ops, out2)
    ensures out1 == out2
    decreases |ops|
  {
    if ops != [] {
      match ops[0]
      case Add(j) =>
        LevelRunIsDeterministic(policy, Push(m, Rank(policy, j), j), ops[1..], out1, out2);
      case Get =>
        if m == map[] {
          LevelRunIsDeterministic(policy, m, ops[1..], out1, out2);
        } else {
          var k :|
            && IsLowest(m, k) && m[k] != [] && out1 != [] && out1[0] == m[k][0]
            && LevelRun(policy, PopLevel(m, k), ops[1..], out1[1..]);
          LevelRunIsDeterministic(policy, PopLevel(m, k), ops[1..], out1[1..], out2[1..]);
          assert out1 == [out1[0]] + out1[1..];
          assert out2 == [out2[0]] + out2[1..];
        }
    }
  }

  /** A preempted MLFQ job reappears at the tail of the next level down; every other level is
      what the dispatch left. */
  lemma PreemptedJobDropsOneLevel(q: seq<Job>, k: int)
    requires q != []
    ensures
      var j := Next(Mlfq, q);
      var rest := Rest(Mlfq, q);
      var back := rest + [Demoted(j)];
      var r := Rank(Mlfq, j);
      && (k == r + 1 ==> Level(Mlfq, back, k) == Level(Mlfq, q, k) + [Demoted(j)])
      && (k == r ==> [j] + Level(Mlfq, back, k) == Level(Mlfq, q, k))
      && (k != r && k != r + 1 ==> Level(Mlfq, back, k) == Level(Mlfq, q, k))
  {
    var j := Next(Mlfq, q);
    PopTakesHead(Mlfq, q, k);
    LevelSnoc(Mlfq, Rest(Mlfq, q), Demoted(j), k);
  }

  // ----- draining a queue is a stable sort -----

  function Drain(policy: Policy, q: seq<Job>): seq<Job>
    decreases |q|
  {
    if q == [] then [] else [Next(policy, q)] + Drain(policy, Rest(policy, q))
  }

  predicate SortedByRank(policy: Policy, q: seq<Job>) {
    forall i, j :: 0 <= i < j < |q| ==> Rank(policy, q[i]) <= Rank(policy, q[j])
  }

  /** Stably sorted form of q: in rank order, and each rank keeps exactly q's jobs in q's order. */
  ghost predicate IsStableSortOf(policy: Policy, sorted: seq<Job>, q: seq<Job>) {
    && SortedByRank(policy, sorted)
    && forall k :: Level(policy, sorted, k) == Level(policy, q, k)
  }

  lemma RestKeepsJobs(policy: Policy, q: seq<Job>)
    requires q != []
    ensures multiset(q) == multiset{Next(policy, q)} + multiset(Rest(policy, q))
  {
    var c := Choice(policy, q);
    assert q == q[..c] + [q[c]] + q[c + 1..];
  }

  lemma {:induction false} DrainKeepsJobs(policy: Policy, q: seq<Job>)
    ensures multiset(Drain(policy, q)) == multiset(q)
    decreases |q|
  {
    if q != [] {
      RestKeepsJobs(policy, q);
      DrainKeepsJobs(policy, Rest(policy, q));
    }
  }

  lemma {:induction false} DrainKeepsLevels(policy: Policy, q: seq<Job>, k: int)
    ensures Level(policy, Drain(policy, q), k) == Level(policy, q, k)
    decreases |q|
  {
    if q != [] {
      var rest := Rest(policy, q);
      DrainKeepsLevels(policy, rest, k);
      PopTakesHead(policy, q, k);
      HeadOfLevel(policy, Drain(policy, q), k);
      assert Drain(policy, q)[1..] == Drain(policy, rest);
    }
  }

  lemma {:induction false} DrainIsSorted(policy: Policy, q: seq<Job>)
    ensures SortedByRank(policy, Drain(policy, q))
    decreases |q|
  {
    if q != [] {
      var j, rest := Next(policy, q), Rest(policy, q);
      var tail := Drain(policy, rest);
      DrainIsSorted(policy, rest);
      DrainKeepsJobs(policy, rest);
      forall i | 0 <= i < |tail| ensures Rank(policy, j) <= Rank(policy, tail[i]) {
        assert tail[i] in multiset(rest);
      }
    }
  }

  lemma DrainIsStableSort(policy: Policy, q: seq<Job>)
    ensures IsStableSortOf(policy, Drain(policy, q), q)
    ensures multiset(Drain(policy, q)) == multiset(q)
  {
    DrainIsSorted(policy, q);
    DrainKeepsJobs(policy, q);
    forall k ensures Level(policy, Drain(policy, q), k) == Level(policy, q, k) {
      DrainKeepsLevels(policy, q, k);
    }
  }

  lemma LowestNonEmptyLevelIsFirst(policy: Policy, s: seq<Job>, t: seq<Job>)
    requires s != [] && t != [] && SortedByRank(policy, s) && SortedByRank(policy, t)
    requires forall k :: Level(policy, s, k) == Level(policy, t, k)
    ensures s[0] == t[0]
    ensures forall k :: Level(policy, s[1..], k) == Level(policy, t[1..], k)
  {
    LevelEmpty(policy, t, Rank(policy, s[0]));
    LevelEmpty(policy, s, Rank(policy, s[0]));
    LevelEmpty(policy, s, Rank(policy, t[0]));
    LevelEmpty(policy, t, Rank(policy, t[0]));
    forall k
      ensures Level(policy, s, k) == (if Rank(policy, s[0]) == k then [s[0]] else []) + Level(policy, s[1..], k)
      ensures Level(policy, t, k) == (if Rank(policy, t[0]) == k then [t[0]] else []) + Level(policy, t[1..], k)
    {
      HeadOfLevel(policy, s, k);
      HeadOfLevel(policy, t, k);
    }
    var r := Rank(policy, s[0]);
    assert Level(policy, s, r)[0] == s[0];
    assert Level(policy, t, r)[0] == t[0];
    forall k ensures Level(policy, s[1..], k) == Level(policy, t[1..], k) {
      if Rank(policy, s[0]) == k {
        assert Level(policy, s, k)[1..] == Level(policy, s[1..], k);
        assert Level(policy, t, k)[1..] == Level(policy, t[1..], k);
      } else {
        assert Level(policy, s, k) == Level(policy, s[1..], k);
        assert Level(policy, t, k) == Level(policy, t[1..], k);
      }
    }
  }

  lemma HeadOfLevel(policy: Policy, s: seq<Job>, k: int)
    requires s != []
    ensures Level(policy, s, k) == (if Rank(policy, s[0]) == k then [s[0]] else []) + Level(policy, s[1..], k)
  {
    assert s == [s[0]] + s[1..];
    LevelConcat(policy, [s[0]], s[1..], k);
    LevelSnoc(policy, [], s[0], k);
    assert [] + [s[0]] == [s[0]];
  }

  /** The stable sort is unique, so the drain is determined by the contents alone. */
  lemma {:induction false} StableSortIsUnique(policy: Policy, s: seq<Job>, t: seq<Job>)
    requires SortedByRank(policy, s) && SortedByRank(policy, t)
    requires forall k :: Level(policy, s, k) == Level(policy, t, k)
    ensures s == t
    decreases |s|
  {
    if s == [] {
      if t != [] {
        LevelEmpty(policy, t, Rank(policy, t[0]));
        LevelEmpty(policy, s, Rank(policy, t[0]));
      }
    } else {
      LevelEmpty(policy, s, Rank(policy, s[0]));
      LevelEmpty(policy, t, Rank(policy, s[0]));
      LowestNonEmptyLevelIsFirst(policy, s, t);
      StableSortIsUnique(policy, s[1..], t[1..]);
      assert s == [s[0]] + s[1..];
      assert t == [t[0]] + t[1..];
    }
  }

  lemma DrainIsTheStableSort(policy: Policy, q: seq<Job>, sorted: seq<Job>)
    ensures IsStableSortOf(policy, sorted, q) <==> sorted == Drain(policy, q)
  {
    DrainIsStableSort(policy, q);
    if IsStableSortOf(policy, sorted, q) {
      StableSortIsUnique(policy, sorted, Drain(policy, q));
    }
  }

  // ----- draining, in terms of the jobs' fields -----

  /** The jobs of priority p, in order. */
  function OfPriority(q: seq<Job>, p: int): seq<Job> {
    if q == [] then []
    else OfPriority(q[..|q| - 1], p) + if q[|q| - 1].priority == p then [q[|q| - 1]] else []
  }

  /** The jobs whose priority number and bursts so far add up to k, in order. */
  function OfKey(q: seq<Job>, k: int): seq<Job> {
    if q == [] then []
    else
      var j := q[|q| - 1];
      OfKey(q[..|q| - 1], k) + if j.priority + j.elapsedBursts == k then [j] else []
  }

  /** Priorities never rise, and jobs of equal priority keep their order. */
  ghost predicate IsPriorityOrderOf(out: seq<Job>, q: seq<Job>) {
    && multiset(out) == multiset(q)
    && (forall i, k :: 0 <= i < k < |out| ==> out[k].priority <= out[i].priority)
    && (forall p :: OfPriority(out, p) == OfPriority(q, p))
  }

  /** Keys never fall, and jobs of equal key keep their order. */
  ghost predicate IsKeyOrderOf(out: seq<Job>, q: seq<Job>) {
    && multiset(out) == multiset(q)
    && (forall i, k :: 0 <= i < k < |out| ==>
          out[i].priority + out[i].elapsedBursts <= out[k].priority + out[k].elapsedBursts)
    && (forall k :: OfKey(out, k) == OfKey(q, k))
  }

  lemma {:induction false} LevelByFields(q: seq<Job>, n: int)
    ensures Level(HighestPriority, q, -n) == OfPriority(q, n)
    ensures Level(Mlfq, q, n) == OfKey(q, n)
  {
    if q != [] {
      LevelByFields(q[..|q| - 1], n);
    }
  }

  /** The stable sort by rank, told in the jobs' fields. */
  lemma PriorityDrainByFields(q: seq<Job>)
    ensures IsPriorityOrderOf(Drain(HighestPriority, q), q)
  {
    var out := Drain(HighestPriority, q);
    DrainIsStableSort(HighestPriority, q);
    RanksByFields(out);
    forall p ensures OfPriority(out, p) == OfPriority(q, p) {
      assert Level(HighestPriority, out, -p) == Level(HighestPriority, q, -p);
      LevelByFields(q, p);
      LevelByFields(out, p);
    }
  }

  lemma MlfqDrainByFields(q: seq<Job>)
    ensures IsKeyOrderOf(Drain(Mlfq, q), q)
  {
    var out := Drain(Mlfq, q);
    DrainIsStableSort(Mlfq, q);
    RanksByFields(out);
    forall k ensures OfKey(out, k) == OfKey(q, k) {
      assert Level(Mlfq, out, k) == Level(Mlfq, q, k);
      LevelByFields(q, k);
      LevelByFields(out, k);
    }
  }

  lemma RanksByFields(q: seq<Job>)
    ensures SortedByRank(HighestPriority, q) ==>
      forall i, k :: 0 <= i < k < |q| ==> q[k].priority <= q[i].priority
    ensures SortedByRank(Mlfq, q) ==> forall i, k :: 0 <= i < k < |q| ==>
      q[i].priority + q[i].elapsedBursts <= q[k].priority + q[k].elapsedBursts
  {
    assert forall i :: 0 <= i < |q| ==> Rank(HighestPriority, q[i]) == -q[i].priority;
    assert forall i :: 0 <= i < |q| ==> Rank(Mlfq, q[i]) == q[i].priority + q[i].elapsedBursts;
  }

  lemma DrainedOne(policy: Policy, q: seq<Job>, out: seq<Job>, j: Job, q': seq<Job>)
    requires q != [] && j == Next(policy, q) && q' == Rest(policy, q)
    ensures (out + [j]) + Drain(policy, q') == out + Drain(policy, q)
  {
    assert Drain(policy, q) == [j] + Drain(policy, q');
  }

  /** `getNextJob` until the deque is empty, as the workers do when nobody adds. */
  method DrainMlfq(jobs: JobDeque) returns (out: seq<Job>)
    modifies jobs
    ensures jobs.items == []
    ensures IsStableSortOf(Mlfq, out, old(jobs.items))
    ensures IsKeyOrderOf(out, old(jobs.items))
  {
    out := [];
    while jobs.items != []
      invariant out + Drain(Mlfq, jobs.items) == Drain(Mlfq, old(jobs.items))
      decreases |jobs.items|
    {
      ghost var before := jobs.items;
      var j := MlfqGetNextJob(jobs);
      DrainedOne(Mlfq, before, out, j, jobs.items);
      out := out + [j];
    }
    assert out == Drain(Mlfq, old(jobs.items));
    DrainIsStableSort(Mlfq, old(jobs.items));
    MlfqDrainByFields(old(jobs.items));
  }

  method DrainPriority(jobs: JobDeque) returns (out: seq<Job>)
    modifies jobs
    ensures jobs.items == []
    ensures IsStableSortOf(HighestPriority, out, old(jobs.items))
    ensures IsPriorityOrderOf(out, old(jobs.items))
  {
    out := [];
    while jobs.items != []
      invariant out + Drain(HighestPriority, jobs.items) == Drain(HighestPriority, old(jobs.items))
      decreases |jobs.items|
    {
      ghost var before := jobs.items;
      var j := PriorityGetNextJob(jobs);
      DrainedOne(HighestPriority, before, out, j, jobs.items);
      out := out + [j];
    }
    assert out == Drain(HighestPriority, old(jobs.items));
    DrainIsStableSort(HighestPriority, old(jobs.items));
    PriorityDrainByFields(old(jobs.items));
  }
}
