/** The descriptor plumbing of `executePipeline`, src/Executor.cpp:66-150, for runs in which `pipe`
    and `fork` succeed. Any descriptor may be closed in the parent, and opening a redirect file may
    fail. */
module Pipeline {
  import opened Jobs

  /** What a descriptor refers to. Pipe i connects stage i to stage i + 1. */
  datatype Desc =
    | Other(n: int)
    | ReadEnd(pipe: nat)
    | WriteEnd(pipe: nat)
    | InFile(name: string)
    | OutFile(name: string)

  type FdTable = map<int, Desc>

  /** The files that can be opened. */
  type Disk = set<string>

  /** Pipes are yet to be made. */
  predicate NoPipes(t: FdTable) {
    forall fd :: fd in t ==> !t[fd].ReadEnd? && !t[fd].WriteEnd?
  }

  predicate Opens(name: string, disk: Disk) {
    name != "" && name in disk
  }

  // ----- what each stage should see -----

  function Inherited(parent: FdTable, fd: int): Option<Desc> {
    if fd in parent then Some(parent[fd]) else None
  }

  function Stdin(parent: FdTable, cmds: seq<Command>, disk: Disk, i: nat): Option<Desc>
    requires i < |cmds|
  {
    if Opens(cmds[i].redirectInput, disk) then Some(InFile(cmds[i].redirectInput))
    else if i > 0 then Some(ReadEnd(i - 1))
    else Inherited(parent, 0)
  }

  function Stdout(parent: FdTable, cmds: seq<Command>, disk: Disk, i: nat): Option<Desc>
    requires i < |cmds|
  {
    if Opens(cmds[i].redirectOutput, disk) then Some(OutFile(cmds[i].redirectOutput))
    else if i < |cmds| - 1 then Some(WriteEnd(i))
    else Inherited(parent, 1)
  }

  function Put(t: FdTable, fd: int, d: Option<Desc>): FdTable {
    match d
    case None => t - {fd}
    case Some(x) => t[fd := x]
  }

  /** The whole table that stage i should have at `execvp`: the parent's, but for descriptors 0 and 1. */
  function StageTable(parent: FdTable, cmds: seq<Command>, disk: Disk, i: nat): FdTable
    requires i < |cmds|
  {
    Put(Put(parent, 0, Stdin(parent, cmds, disk, i)), 1, Stdout(parent, cmds, disk, i))
  }

  // ----- system calls -----

  /** The least descriptor from fd on that t leaves free; `rest` are t's descriptors from fd on. */
  function FreeFrom(t: FdTable, fd: nat, rest: set<int>): (r: int)
    requires forall f :: f in rest <==> f in t && f >= fd
    requires forall f :: 0 <= f < fd ==> f in t
    ensures r >= 0 && r !in t && forall f :: 0 <= f < r ==> f in t
    decreases rest
  {
    if fd in rest then FreeFrom(t, fd + 1, rest - {fd}) else fd
  }

  /** POSIX hands out the lowest free descriptor. */
  function Free(t: FdTable): (r: int)
    ensures r >= 0 && r !in t && forall f :: 0 <= f < r ==> f in t
  {
    FreeFrom(t, 0, set f | f in t && f >= 0)
  }

  /** dup2(from, to); close(from). If both are the same descriptor, `dup2` does nothing and `close`
      closes it. */
  function Rewire(t: FdTable, from: int, to: int): FdTable
    requires from in t
  {
    t[to := t[from]] - {from}
  }

  /** Opening a redirect file and moving it to descriptor `to`; on failure `dup2(-1, to)` and
      `close(-1)` do nothing. */
  function Redirected(t: FdTable, name: string, file: Desc, to: int, disk: Disk): FdTable {
    if Opens(name, disk) then Rewire(t[Free(t) := file], Free(t), to) else t
  }

  method LowestFree(t: FdTable) returns (fd: int)
    ensures fd == Free(t)
  {
    fd := 0;
    ghost var seen := {};
    while fd in t
      invariant fd >= 0 && fd !in seen
      invariant forall f :: f in seen <==> 0 <= f < fd
      invariant seen <= t.Keys
      decreases t.Keys - seen
    {
      seen := seen + {fd};
      fd := fd + 1;
    }
    FreeIsUnique(t, fd);
  }

  lemma FreeIsUnique(t: FdTable, fd: int)
    requires fd >= 0 && fd !in t && forall f :: 0 <= f < fd ==> f in t
    ensures fd == Free(t)
  {
  }

  method Redirect(t: FdTable, name: string, file: Desc, to: int, disk: Disk) returns (t': FdTable)
    ensures t' == Redirected(t, name, file, to, disk)
  {
    t' := t;
    if name != "" && name in disk {
      var fd := LowestFree(t);
      t' := t'[fd := file];
      t' := Rewire(t', fd, to);
    }
  }

  // ----- one stage -----

  /** The descriptors at hand when stage i is forked: the previous read end, unless i is the first,
      and the new pipe, unless it is the last. */
  datatype Ends = Ends(first: bool, last: bool, prevFd: int, rd: int, wr: int)

  predicate Forkable(t: FdTable, e: Ends) {
    && (!e.first ==> e.prevFd in t)
    && (!e.last ==> e.rd in t && e.wr in t && e.rd != e.wr && e.wr != 0)
    && (!e.first && !e.last ==> e.prevFd != e.rd && e.prevFd != e.wr)
  }

  /** Lines 91-100: the pipe ends are moved to descriptors 0 and 1. */
  function Piped(t: FdTable, e: Ends): FdTable
    requires Forkable(t, e)
  {
    var t1 := if e.first then t else Rewire(t, e.prevFd, 0);
    if e.last then t1 else Rewire(t1, e.wr, 1) - {e.rd}
  }

  /** Lines 88-111: what the child does between `fork` and `execvp`. */
  function ChildTable(t: FdTable, e: Ends, cmd: Command, disk: Disk): FdTable
    requires Forkable(t, e)
  {
    var t1 := Redirected(Piped(t, e), cmd.redirectOutput, OutFile(cmd.redirectOutput), 1, disk);
    Redirected(t1, cmd.redirectInput, InFile(cmd.redirectInput), 0, disk)
  }

  method ChildSetup(t: FdTable, e: Ends, cmd: Command, disk: Disk) returns (t': FdTable)
    requires Forkable(t, e)
    ensures t' == ChildTable(t, e, cmd, disk)
  {
    t' := t;
    if !e.first {
      t' := Rewire(t', e.prevFd, 0);
    }
    if !e.last {
      t' := Rewire(t', e.wr, 1);
      t' := t' - {e.rd};
    }
    t' := Redirect(t', cmd.redirectOutput, OutFile(cmd.redirectOutput), 1, disk);
    t' := Redirect(t', cmd.redirectInput, InFile(cmd.redirectInput), 0, disk);
  }

  // ----- the whole loop -----

  /** The parent's `prev_fd` before stage i: the lowest descriptor that was free at the last `pipe`. */
  function PrevFd(parent: FdTable, i: nat): (r: int)
    ensures i > 0 ==> r >= 0 && r !in parent
    decreases i, 0
  {
    if i == 0 then -1 else Free(Current(parent, i - 1))
  }

  /** What the parent holds before stage i: its own table and the read end of the previous pipe. */
  function Current(parent: FdTable, i: nat): (r: FdTable)
    ensures forall fd :: fd in parent ==> fd in r
    decreases i, 1
  {
    if i == 0 then parent else parent[PrevFd(parent, i) := ReadEnd(i - 1)]
  }

  /** Lines 73-79: the new pipe takes the two lowest free descriptors. */
  function EndsOf(parent: FdTable, i: nat, last: bool): Ends {
    if last then Ends(i == 0, true, PrevFd(parent, i), -1, -1)
    else
      var cur := Current(parent, i);
      var rd := Free(cur);
      Ends(i == 0, false, PrevFd(parent, i), rd, Free(cur[rd := ReadEnd(i)]))
  }

  /** The table that stage i inherits at `fork`. */
  function AtFork(parent: FdTable, i: nat, last: bool): FdTable {
    var cur := Current(parent, i);
    var e := EndsOf(parent, i, last);
    if last then cur else cur[e.rd := ReadEnd(i)][e.wr := WriteEnd(i)]
  }

  lemma EndsAreForkable(parent: FdTable, i: nat, last: bool)
    ensures Forkable(AtFork(parent, i, last), EndsOf(parent, i, last))
    ensures !last ==>
      var e := EndsOf(parent, i, last);
      0 <= e.rd < e.wr && e.rd !in parent && e.wr !in parent
  {
    var e := EndsOf(parent, i, last);
    if !last {
      assert e.wr !in Current(parent, i) && e.wr != e.rd;
    }
  }

  /** The table of stage i at `execvp`. */
  function StageChild(parent: FdTable, cmds: seq<Command>, disk: Disk, i: nat): FdTable
    requires i < |cmds|
  {
    var last := i == |cmds| - 1;
    EndsAreForkable(parent, i, last);
    ChildTable(AtFork(parent, i, last), EndsOf(parent, i, last), cmds[i], disk)
  }

  /** Lines 69-134: one iteration. The parent closes what it handed on and keeps the new read end. */
  method Stage(parent: FdTable, cur: FdTable, cmds: seq<Command>, disk: Disk, i: nat, prevFd: int)
    returns (next: FdTable, child: FdTable, newPrev: int)
    requires i < |cmds| && cur == Current(parent, i) && prevFd == PrevFd(parent, i)
    ensures child == StageChild(parent, cmds, disk, i)
    ensures i < |cmds| - 1 ==> next == Current(parent, i + 1) && newPrev == PrevFd(parent, i + 1)
    ensures i == |cmds| - 1 ==> next == parent
  {
    next, newPrev := cur, prevFd;
    var last := i == |cmds| - 1;
    EndsAreForkable(parent, i, last);
    var rd, wr := -1, -1;
    if !last {
      rd := LowestFree(next);
      next := next[rd := ReadEnd(i)];
      wr := LowestFree(next);
      next := next[wr := WriteEnd(i)];
    }
    child := ChildSetup(next, Ends(i == 0, last, prevFd, rd, wr), cmds[i], disk);
    if i > 0 {
      next := next - {prevFd};
    }
    if !last {
      newPrev := rd;
      next := next - {wr};
      assert next == parent[rd := ReadEnd(i)];
    } else {
      assert next == parent;
    }
  }

  /** These are the tables of the first stages. */
  predicate Wired(parent: FdTable, cmds: seq<Command>, disk: Disk, children: seq<FdTable>) {
    |children| <= |cmds| && forall i :: 0 <= i < |children| ==> children[i] == StageChild(parent, cmds, disk, i)
  }

  lemma WiredSnoc(parent: FdTable, cmds: seq<Command>, disk: Disk, children: seq<FdTable>, child: FdTable)
    requires Wired(parent, cmds, disk, children) && |children| < |cmds|
    requires child == StageChild(parent, cmds, disk, |children|)
    ensures Wired(parent, cmds, disk, children + [child])
  {
  }

  /** Lines 66-134, which the source enters with two or more commands. No stage gets anything but
      its own standard input and output, and all of them get both exactly if descriptors 0 and 1
      were open in the parent. */
  method SetUp(parent: FdTable, cmds: seq<Command>, disk: Disk) returns (final: FdTable, children: seq<FdTable>)
    requires |cmds| >= 2
    ensures final == parent && |children| == |cmds|
    ensures Wired(parent, cmds, disk, children)
    ensures forall i :: 0 <= i < |cmds| ==> Within(children[i], StageTable(parent, cmds, disk, i))
    ensures (forall i :: 0 <= i < |cmds| ==> children[i] == StageTable(parent, cmds, disk, i))
            <==> 0 in parent && 1 in parent
  {
    final, children := ForkStages(parent, cmds, disk);
    WiringIsExact(parent, cmds, disk, children);
  }

  method ForkStages(parent: FdTable, cmds: seq<Command>, disk: Disk) returns (final: FdTable, children: seq<FdTable>)
    requires |cmds| >= 2
    ensures final == parent && |children| == |cmds| && Wired(parent, cmds, disk, children)
  {
    final, children := parent, [];
    var prevFd, i := -1, 0;
    while i < |cmds|
      invariant i == |children| <= |cmds|
      invariant if i == |cmds| then final == parent else final == Current(parent, i) && prevFd == PrevFd(parent, i)
      invariant Wired(parent, cmds, disk, children)
    {
      var child;
      final, child, prevFd := Stage(parent, final, cmds, disk, i, prevFd);
      WiredSnoc(parent, cmds, disk, children, child);
      children := children + [child];
      i := i + 1;
    }
  }

  // ----- what a stage gets, whatever is open in the parent -----

  /** t lacks at most descriptors of u, and differs in none. */
  predicate Within(t: FdTable, u: FdTable) {
    forall fd :: fd in t ==> fd in u && t[fd] == u[fd]
  }

  /** A redirect replaces descriptor `to`, or, where `to` is what `open` returns, leaves it closed. */
  lemma RedirectedIs(t: FdTable, name: string, file: Desc, to: int, disk: Disk)
    ensures Redirected(t, name, file, to, disk)
            == if !Opens(name, disk) then t else if to == Free(t) then t - {to} else t[to := file]
  {
    if Opens(name, disk) {
      var f := Free(t);
      if f == to {
        assert t[f := file][to := file] - {f} == t - {to};
      } else {
        assert t[f := file][to := file] - {f} == t[to := file];
      }
    }
  }

  /** What 0 and 1 hold once the pipe ends have moved, and that all else is the parent's. Each pipe
      end is closed by its own number, which may be 0 or 1. */
  lemma PipedAt(parent: FdTable, i: nat, last: bool, fd: int)
    ensures Forkable(AtFork(parent, i, last), EndsOf(parent, i, last))
    ensures
      var e := EndsOf(parent, i, last);
      Inherited(Piped(AtFork(parent, i, last), e), fd)
      == if fd == 0 && (e.rd == 0 || (i > 0 && e.prevFd == 0)) then None
         else if fd == 0 && i > 0 then Some(ReadEnd(i - 1))
         else if fd == 1 && !last && (e.rd == 1 || e.wr == 1) then None
         else if fd == 1 && !last then Some(WriteEnd(i))
         else Inherited(parent, fd)
  {
    EndsAreForkable(parent, i, last);
  }

  /** Before redirects, p has at fd what stage i should have there, or lacks it if fd is 0 or 1. */
  predicate Fits(p: FdTable, parent: FdTable, i: nat, last: bool, fd: int) {
    if fd == 0 then fd in p ==> Some(p[fd]) == if i > 0 then Some(ReadEnd(i - 1)) else Inherited(parent, 0)
    else if fd == 1 then fd in p ==> Some(p[fd]) == if last then Inherited(parent, 1) else Some(WriteEnd(i))
    else Inherited(p, fd) == Inherited(parent, fd)
  }

  /** The part of `ChildTable` after the pipe ends have moved. */
  lemma RedirectsFit(parent: FdTable, cmds: seq<Command>, disk: Disk, i: nat, last: bool, p: FdTable)
    requires i < |cmds| && last == (i == |cmds| - 1)
    requires forall fd :: Fits(p, parent, i, last, fd)
    ensures
      var t := Redirected(p, cmds[i].redirectOutput, OutFile(cmds[i].redirectOutput), 1, disk);
      var c := Redirected(t, cmds[i].redirectInput, InFile(cmds[i].redirectInput), 0, disk);
      Within(c, StageTable(parent, cmds, disk, i)) && forall fd :: fd in parent && fd != 0 && fd != 1 ==> fd in c
  {
    var out, inp := cmds[i].redirectOutput, cmds[i].redirectInput;
    var t := Redirected(p, out, OutFile(out), 1, disk);
    RedirectedIs(p, out, OutFile(out), 1, disk);
    RedirectedIs(t, inp, InFile(inp), 0, disk);
    var c := Redirected(t, inp, InFile(inp), 0, disk);
    var u := StageTable(parent, cmds, disk, i);
    forall fd
      ensures fd in c ==> fd in u && c[fd] == u[fd]
      ensures fd in parent && fd != 0 && fd != 1 ==> fd in c
    {
      assert Fits(p, parent, i, last, fd);
    }
  }

  /** A stage gets what it should have, or lacks descriptor 0 or 1. */
  lemma {:induction false} StageIsWithin(parent: FdTable, cmds: seq<Command>, disk: Disk, i: nat)
    requires i < |cmds|
    ensures Within(StageChild(parent, cmds, disk, i), StageTable(parent, cmds, disk, i))
    ensures forall fd :: fd in parent && fd != 0 && fd != 1 ==> fd in StageChild(parent, cmds, disk, i)
  {
    var last := i == |cmds| - 1;
    EndsAreForkable(parent, i, last);
    var p := Piped(AtFork(parent, i, last), EndsOf(parent, i, last));
    forall fd
      ensures Fits(p, parent, i, last, fd)
    {
      PipedAt(parent, i, last, fd);
    }
    RedirectsFit(parent, cmds, disk, i, last, p);
  }

  /** With 0 and 1 open in the parent no pipe end has these numbers, and nothing is lost. */
  lemma {:induction false} OpenParentStage(parent: FdTable, cmds: seq<Command>, disk: Disk, i: nat)
    requires i < |cmds| && 0 in parent && 1 in parent
    ensures StageChild(parent, cmds, disk, i) == StageTable(parent, cmds, disk, i)
  {
    var last := i == |cmds| - 1;
    EndsAreForkable(parent, i, last);
    var e := EndsOf(parent, i, last);
    var p := Piped(AtFork(parent, i, last), e);
    PipedAt(parent, i, last, 0);
    PipedAt(parent, i, last, 1);
    assert 0 in p && 1 in p;
    var out := cmds[i].redirectOutput;
    RedirectedIs(p, out, OutFile(out), 1, disk);
    RedirectedIs(Redirected(p, out, OutFile(out), 1, disk), cmds[i].redirectInput,
                 InFile(cmds[i].redirectInput), 0, disk);
    StageIsWithin(parent, cmds, disk, i);
    assert StageChild(parent, cmds, disk, i).Keys == StageTable(parent, cmds, disk, i).Keys;
  }

  /** With 0 closed, the first pipe's read end is descriptor 0, which stage 1 moves to itself and
      then closes. A file for its standard input is opened as 0 and closed in the same way. */
  lemma {:induction false} ClosedStdinFailsStageOne(parent: FdTable, cmds: seq<Command>, disk: Disk)
    requires |cmds| >= 2 && 0 !in parent
    ensures 0 !in StageChild(parent, cmds, disk, 1)
    ensures 0 in StageTable(parent, cmds, disk, 1)
  {
    var last := 1 == |cmds| - 1;
    assert PrevFd(parent, 1) == 0 by {
      FreeIsUnique(parent, 0);
      assert Current(parent, 0) == parent;
    }
    PipedAt(parent, 1, last, 0);
    var p := Piped(AtFork(parent, 1, last), EndsOf(parent, 1, last));
    assert 0 !in p;
    var out := cmds[1].redirectOutput;
    var t := Redirected(p, out, OutFile(out), 1, disk);
    RedirectedIs(p, out, OutFile(out), 1, disk);
    FreeIsUnique(t, 0);
    RedirectedIs(t, cmds[1].redirectInput, InFile(cmds[1].redirectInput), 0, disk);
  }

  /** With 1 closed, the first pipe's read end is descriptor 1, over which stage 0 moves its write
      end and which it then closes. A file for its standard output is opened as 1 and closed too. */
  lemma {:induction false} ClosedStdoutFailsStageZero(parent: FdTable, cmds: seq<Command>, disk: Disk)
    requires |cmds| >= 2 && 0 in parent && 1 !in parent
    ensures 1 !in StageChild(parent, cmds, disk, 0)
    ensures 1 in StageTable(parent, cmds, disk, 0)
  {
    assert EndsOf(parent, 0, false).rd == 1 by {
      FreeIsUnique(parent, 1);
      assert Current(parent, 0) == parent;
    }
    PipedAt(parent, 0, false, 0);
    PipedAt(parent, 0, false, 1);
    var p := Piped(AtFork(parent, 0, false), EndsOf(parent, 0, false));
    assert 0 in p && 1 !in p;
    FreeIsUnique(p, 1);
    var out := cmds[0].redirectOutput;
    var t := Redirected(p, out, OutFile(out), 1, disk);
    RedirectedIs(p, out, OutFile(out), 1, disk);
    RedirectedIs(t, cmds[0].redirectInput, InFile(cmds[0].redirectInput), 0, disk);
  }

  /** The exact condition for the wiring. */
  lemma {:induction false} WiringIsExact(parent: FdTable, cmds: seq<Command>, disk: Disk, children: seq<FdTable>)
    requires |cmds| == |children| >= 2 && Wired(parent, cmds, disk, children)
    ensures forall i :: 0 <= i < |cmds| ==> Within(children[i], StageTable(parent, cmds, disk, i))
    ensures (forall i :: 0 <= i < |cmds| ==> children[i] == StageTable(parent, cmds, disk, i))
            <==> 0 in parent && 1 in parent
  {
    forall i | 0 <= i < |cmds|
      ensures Within(children[i], StageTable(parent, cmds, disk, i))
    {
      StageIsWithin(parent, cmds, disk, i);
    }
    if 0 in parent && 1 in parent {
      forall i | 0 <= i < |cmds|
        ensures children[i] == StageTable(parent, cmds, disk, i)
      {
        OpenParentStage(parent, cmds, disk, i);
      }
    } else if 0 !in parent {
      ClosedStdinFailsStageOne(parent, cmds, disk);
      assert children[1] == StageChild(parent, cmds, disk, 1);
    } else {
      ClosedStdoutFailsStageZero(parent, cmds, disk);
      assert children[0] == StageChild(parent, cmds, disk, 0);
    }
  }

  /** What stands at 0 and 1 in stage i, told from the command alone: a file that can be opened, else
      the neighbour's pipe, else what the parent has. */
  lemma StageSees(parent: FdTable, cmds: seq<Command>, disk: Disk, i: nat)
    requires i < |cmds| && 0 in parent && 1 in parent
    ensures
      var c, t := cmds[i], StageChild(parent, cmds, disk, i);
      && 0 in t && 1 in t
      && t[0] == (if c.redirectInput != "" && c.redirectInput in disk then InFile(c.redirectInput)
                  else if i > 0 then ReadEnd(i - 1) else parent[0])
      && t[1] == (if c.redirectOutput != "" && c.redirectOutput in disk then OutFile(c.redirectOutput)
                  else if i + 1 < |cmds| then WriteEnd(i) else parent[1])
  {
    OpenParentStage(parent, cmds, disk, i);
  }

  // ----- who holds the pipes -----

  predicate Holds(t: FdTable, fd: int, d: Desc) {
    fd in t && t[fd] == d
  }

  /** Pipe i can be written by stage i alone, through its standard output. */
  lemma {:induction false} WriteEndHasOneHolder(parent: FdTable, cmds: seq<Command>, disk: Disk,
                                                i: nat, j: nat, fd: int)
    requires NoPipes(parent) && j < |cmds|
    ensures Holds(StageChild(parent, cmds, disk, j), fd, WriteEnd(i)) ==>
              j == i < |cmds| - 1 && fd == 1 && !Opens(cmds[j].redirectOutput, disk)
    ensures 0 in parent && 1 in parent && j == i < |cmds| - 1 && fd == 1 && !Opens(cmds[j].redirectOutput, disk) ==>
              Holds(StageChild(parent, cmds, disk, j), fd, WriteEnd(i))
  {
    StageIsWithin(parent, cmds, disk, j);
    if 0 in parent && 1 in parent {
      OpenParentStage(parent, cmds, disk, j);
    }
  }

  /** Pipe i can be read by stage i + 1 alone, through its standard input. */
  lemma {:induction false} ReadEndHasOneHolder(parent: FdTable, cmds: seq<Command>, disk: Disk,
                                                i: nat, j: nat, fd: int)
    requires NoPipes(parent) && j < |cmds|
    ensures Holds(StageChild(parent, cmds, disk, j), fd, ReadEnd(i)) ==>
              j == i + 1 && fd == 0 && !Opens(cmds[j].redirectInput, disk)
    ensures 0 in parent && 1 in parent && j == i + 1 && fd == 0 && !Opens(cmds[j].redirectInput, disk) ==>
              Holds(StageChild(parent, cmds, disk, j), fd, ReadEnd(i))
  {
    StageIsWithin(parent, cmds, disk, j);
    if 0 in parent && 1 in parent {
      OpenParentStage(parent, cmds, disk, j);
    }
  }

  /** Somebody who has not exited can write into pipe i. */
  predicate HasWriter(tables: seq<FdTable>, gone: set<nat>, i: nat) {
    exists j, fd :: 0 <= j < |tables| && j !in gone && fd in tables[j] && tables[j][fd] == WriteEnd(i)
  }

  /** Once stage i has exited, the reader of pipe i meets the end of file: neither a stage nor the
      parent can write into it. */
  lemma {:induction false} EndOfFilePropagates(parent: FdTable, cmds: seq<Command>, disk: Disk, tables: seq<FdTable>,
                            gone: set<nat>, i: nat)
    requires NoPipes(parent) && |tables| == |cmds| + 1 && tables[|cmds|] == parent
    requires Wired(parent, cmds, disk, tables[..|cmds|])
    requires i in gone
    ensures !HasWriter(tables, gone, i)
  {
    forall j, fd | 0 <= j < |tables| && fd in tables[j] && tables[j][fd] == WriteEnd(i)
      ensures j in gone
    {
      if j < |cmds| {
        assert tables[..|cmds|][j] == StageChild(parent, cmds, disk, j);
        WriteEndHasOneHolder(parent, cmds, disk, i, j, fd);
      }
    }
  }

  // ----- the wait -----

  /** Lines 136-150: the last child's status decides, unless the pipeline runs in the background. */
  method WaitAll(children: seq<int>, statuses: map<int, Status>, background: bool) returns (r: ExecResult)
    requires |children| > 1
    requires forall i, j :: 0 <= i < j < |children| ==> children[i] != children[j]
    requires forall i :: 0 <= i < |children| ==> children[i] in statuses
    ensures background ==> r == DEFAULT_RESULT.(success := true)
    ensures !background ==> r == DecodeBlocked(statuses[children[|children| - 1]])
  {
    r := DEFAULT_RESULT.(success := true);
    if !background {
      var i := 0;
      while i < |children|
        invariant i <= |children|
        invariant i < |children| ==> r == DEFAULT_RESULT.(success := true)
        invariant i == |children| ==> r == DecodeBlocked(statuses[children[|children| - 1]])
      {
        var st := statuses[children[i]];
        if children[i] == children[|children| - 1] {
          if st.ExitedWith? {
            r := r.(exitCode := st.code, success := st.code == 0);
          } else {
            r := r.(termSignal := st.signal, success := false);
          }
        }
        i := i + 1;
      }
    }
  }
}
