/** Preemption, compaction and swapping cannot be observed: after `n` instructions a process has the
    registers and the memory that the logical machine gives it, however the kernel interleaved them, and
    across the system calls that hand it back as it was. */
module Transparency {
  import opened Common
  import opened Holes
  import opened Isa
  import opened Memory
  import opened SwapSpace
  import opened Kernel
  import opened Isolation
  import opened Machines

  /** Kernel memory, and how process `p` stands: loaded in some CPU or not. */
  datatype Machine = Machine(kernel: State, status: Outcome, loaded: Option<Context>)

  /** `Return` is the answer to a system call that leaves registers and memory alone: the mutex calls,
      SLEEP and INIT_PROC. */
  datatype Event = Load | Exec | Save | Return | Do(op: Op)

  /** One instruction of the loaded process; on anything but a failed fetch the context is stored. */
  ghost predicate Executed(a: Machine, p: nat, b: Machine)
    requires p in a.kernel.procs && a.loaded.Some? && a.kernel.maxSegment > 0
  {
    var c, prog := a.loaded.value, a.kernel.procs[p].program;
    var x := PhysExec(prog, c.regs, c.table, a.kernel.maxSegment, a.kernel.flat);
    var after := Context(x.regs, c.table);
    var s := a.kernel.(flat := x.mem);
    && (c.regs.pc < |prog| ==> !ReadsNegative(prog[c.regs.pc], c.regs, c.table, a.kernel.maxSegment))
    && match x.outcome
       case Running => b == Machine(s, Running, Some(after))
       case Stuck => b == Machine(s, Stuck, None)
       case _ => b == Machine(WithContext(s, p, after), x.outcome, None)
  }

  /** What the rest of the machine may do meanwhile: anything for others, and suspend or resume the
      process itself while no CPU has it. Memory is compacted only while contexts are stored. */
  ghost predicate Allowed(a: Machine, p: nat, op: Op, b: Machine)
    requires p in a.kernel.procs
  {
    if op == Op.Suspend(p) || op == Op.Resume(p) then a.loaded.None?
    else
      && !Concerns(a.kernel, op, p)
      && (a.loaded.Some? && p in b.kernel.procs ==> b.kernel.procs[p].table == a.kernel.procs[p].table)
  }

  ghost predicate Next(a: Machine, p: nat, e: Event, b: Machine) {
    && p in a.kernel.procs && a.kernel.maxSegment > 0
    && match e
       case Load =>
         && a.status.Running? && a.loaded.None? && a.kernel.procs[p].suspended == []
         && b == a.(loaded := Some(Context(a.kernel.procs[p].regs, a.kernel.procs[p].table)))
       case Exec => a.loaded.Some? && Executed(a, p, b)
       case Save => a.loaded.Some? && b == a.(kernel := WithContext(a.kernel, p, a.loaded.value), loaded := None)
       case Return => a.status.Trap? && a.loaded.None? && b == a.(status := Running)
       case Do(op) => Step(a.kernel, op, b.kernel) && b == a.(kernel := b.kernel) && Allowed(a, p, op, b)
  }

  /** All the memory of a process, resident or in swap. */
  function Owned(s: State, p: nat): seq<LogicalSegment>
    requires p in s.procs
  {
    ImageOf(s, p).table + ImageOf(s, p).suspended
  }

  /** `status` is how the logical machine stands, or the call it stopped at has been answered. */
  predicate Answers(status: Outcome, l: Outcome) {
    status == l || (status.Running? && l.Trap?)
  }

  /** The machine is where the logical machine is. */
  ghost predicate Follows(a: Machine, p: nat, prog: seq<Instruction>, m: nat, l: LogicalState) {
    && Inv(a.kernel) && a.kernel.maxSegment == m && p in a.kernel.procs
    && var q := a.kernel.procs[p];
    && q.program == prog && Answers(a.status, l.outcome)
    && (q.table == [] || q.suspended == [])
    && Owned(a.kernel, p) == l.mem
    && match a.loaded
       case Some(c) => a.status.Running? && c.regs == l.regs && c.table == q.table && q.suspended == []
       case None => !a.status.Stuck? ==> q.regs == l.regs
  }

  // ----------------------------------------------------------- one event

  lemma ResumeFailsClean(s: State, pid: nat, t: State)
    requires Inv(s) && ResumeSafe(s, pid) && ResumedStep(s, pid, t, false)
    ensures t == s
  {
    if pid in s.procs {
      var ss := s.procs[pid].suspended;
      if ss != [] {
        PlacesNone(s.holes, s.best, ss);
        assert ss[..0] == [];
        assert t.flat == s.flat;
      }
    }
  }

  lemma MaxKept(s: State, op: Op, t: State)
    requires Step(s, op, t)
    ensures t.maxSegment == s.maxSegment
  {
    hide Released, ReleasedAll, DiskKept, SavedIn, Loaded, CompactedBy, IsChoice, RunsOutAt;
    if op.Alloc? {
      var ok :| Allocated(s, op.pid, op.id, op.size, t, ok);
      AllocKeepsMax(s, op.pid, op.id, op.size, t, ok);
    }
  }

  lemma AllocKeepsMax(s: State, pid: nat, id: nat, size: nat, t: State, ok: bool)
    requires Allocated(s, pid, id, size, t, ok)
    ensures t.maxSegment == s.maxSegment
  {
    hide Released, IsChoice, TotalSize;
  }

  lemma DoFollows(a: Machine, p: nat, op: Op, b: Machine, prog: seq<Instruction>, m: nat, l: LogicalState)
    requires m > 0 && Follows(a, p, prog, m, l) && Next(a, p, Do(op), b)
    requires op != Op.Suspend(p) && op != Op.Resume(p)
    ensures Follows(b, p, prog, m, l)
  {
    hide Inv, Step, Concerns, ImageOf;
    StepIsolates(a.kernel, op, b.kernel, p);
    StepKeepsInv(a.kernel, op, b.kernel);
    MaxKept(a.kernel, op, b.kernel);
    SameLengths(a.kernel, b.kernel, p);
  }

  lemma SameLengths(s: State, t: State, p: nat)
    requires p in s.procs && p in t.procs && ImageOf(t, p) == ImageOf(s, p)
    ensures |t.procs[p].table| == |s.procs[p].table| && |t.procs[p].suspended| == |s.procs[p].suspended|
  {
    assert |ImageOf(t, p).table| == |ImageOf(s, p).table| && |ImageOf(t, p).suspended| == |ImageOf(s, p).suspended|;
  }

  /** The process has the same memory, whichever side of swap it is on. */
  ghost predicate SameOwned(s: State, t: State, p: nat) {
    && p in s.procs && p in t.procs && t.maxSegment == s.maxSegment
    && Owned(t, p) == Owned(s, p)
    && (t.procs[p].table == [] || t.procs[p].suspended == [])
    && t.procs[p].regs == s.procs[p].regs && t.procs[p].program == s.procs[p].program
  }

  lemma OwnSuspended(s: State, p: nat, t: State, ok: bool)
    requires Inv(s) && p in s.procs && SuspendSafe(s, p) && SuspendedStep(s, p, t, ok)
    requires s.procs[p].table == [] || s.procs[p].suspended == []
    ensures SameOwned(s, t, p)
  {
    hide Inv, DiskKept, SavedIn, ReleasedAll, SwapImage, TableImage, SuspendSafe, BlocksNeeded;
    if ok {
      SuspendedImages(s, p, t, p);
      ImageLengths(s, p);
      EmptySide(ImageOf(s, p).table, ImageOf(s, p).suspended);
    } else {
      SuspendFailsClean(s, p, t);
    }
  }

  lemma ImageLengths(s: State, p: nat)
    requires p in s.procs
    ensures |ImageOf(s, p).table| == |s.procs[p].table| && |ImageOf(s, p).suspended| == |s.procs[p].suspended|
  {
  }

  lemma OwnResumed(s: State, p: nat, t: State, ok: bool)
    requires Inv(s) && p in s.procs && ResumeSafe(s, p) && ResumedStep(s, p, t, ok)
    requires s.procs[p].table == [] || s.procs[p].suspended == []
    ensures SameOwned(s, t, p)
  {
    hide Inv, Loaded, PlaceAll, SwapImage, TableImage, ResumeSafe;
    if ok {
      ResumedImages(s, p, t, p);
      ImageLengths(s, p);
      EmptySide(ImageOf(s, p).table, ImageOf(s, p).suspended);
    } else {
      ResumeFailsClean(s, p, t);
    }
  }

  lemma EmptySide<T>(x: seq<T>, y: seq<T>)
    requires x == [] || y == []
    ensures y + x == x + y && [] + (y + x) == x + y && (x + y) + [] == x + y
  {
  }

  lemma OwnFollows(a: Machine, p: nat, op: Op, b: Machine, prog: seq<Instruction>, m: nat, l: LogicalState)
    requires m > 0 && Follows(a, p, prog, m, l) && Next(a, p, Do(op), b)
    requires op == Op.Suspend(p) || op == Op.Resume(p)
    ensures Follows(b, p, prog, m, l)
  {
    hide Inv, SuspendedStep, ResumedStep, SuspendSafe, ResumeSafe, Owned;
    StepKeepsInv(a.kernel, op, b.kernel);
    var ok :| Effect(a.kernel, op, b.kernel, ok);
    if op == Op.Suspend(p) {
      OwnSuspended(a.kernel, p, b.kernel, ok);
    } else {
      OwnResumed(a.kernel, p, b.kernel, ok);
    }
  }

  /** An instruction of the loaded process does what the logical machine says. */
  lemma ExecFollows(a: Machine, p: nat, b: Machine, prog: seq<Instruction>, m: nat, l: LogicalState)
    requires m > 0 && Follows(a, p, prog, m, l) && Next(a, p, Exec, b)
    ensures Goes(l.outcome) && Follows(b, p, prog, m, LogicalExec(prog, l.regs, l.mem, m))
  {
    hide Inv, PhysStep, LogicalStep, ReadsNegative, TableImage, SwapImage;
    var s, c := a.kernel, a.loaded.value;
    WholeTable(s, p);
    assert l.mem == TableImage(s.flat, s.procs[p].table);
    if c.regs.pc < |prog| {
      StepRefinesIff(prog[c.regs.pc], c.regs, s, p);
    }
    var x := PhysExec(prog, c.regs, c.table, m, s.flat);
    assert Agree(x, c.table, LogicalExec(prog, l.regs, l.mem, m));
    WholeTable(b.kernel, p);
    RewrittenInv(s, b.kernel);
  }

  lemma WholeTable(s: State, p: nat)
    requires p in s.procs && s.procs[p].suspended == []
    ensures Owned(s, p) == TableImage(s.flat, s.procs[p].table)
  {
  }

  lemma NextFollows(a: Machine, p: nat, e: Event, b: Machine, prog: seq<Instruction>, m: nat, l: LogicalState)
    requires m > 0 && Follows(a, p, prog, m, l) && Next(a, p, e, b)
    ensures Follows(b, p, prog, m, if e.Exec? then LogicalExec(prog, l.regs, l.mem, m) else l)
    ensures e.Exec? ==> Goes(l.outcome)
  {
    match e
    case Load =>
    case Exec => ExecFollows(a, p, b, prog, m, l);
    case Save => SaveFollows(a, p, b, prog, m, l);
    case Return =>
    case Do(op) =>
      if op == Op.Suspend(p) || op == Op.Resume(p) {
        OwnFollows(a, p, op, b, prog, m, l);
      } else {
        DoFollows(a, p, op, b, prog, m, l);
      }
  }

  lemma SaveFollows(a: Machine, p: nat, b: Machine, prog: seq<Instruction>, m: nat, l: LogicalState)
    requires m > 0 && Follows(a, p, prog, m, l) && Next(a, p, Save, b)
    ensures Follows(b, p, prog, m, l)
  {
    hide Inv;
    RewrittenInv(a.kernel, b.kernel);
  }

  /** What a whole turn on a CPU leaves, from loading the context to saving it, is where the logical machine
      is after as many instructions: the answers of the scheduler only decide how many. */
  lemma CycleFollows(s: State, p: nat, n: nat, prog: seq<Instruction>, m: nat, l: LogicalState)
    requires m > 0 && Follows(Machine(s, Running, None), p, prog, m, l) && s.procs[p].suspended == []
    requires forall k :: 0 <= k < n ==> NonNegative(s, p, s.procs[p].regs, k)
    ensures var q := s.procs[p];
            var x := PhysRun(prog, q.table, m, Result(Running, q.regs, s.flat), n);
            Follows(Machine(Ended(s, p, x, q.table), x.outcome, None), p, prog, m,
                    LogicalRun(prog, m, l.(outcome := Running), n))
  {
    hide Inv, PhysRun, LogicalRun, NonNegative, TableImage, SwapImage;
    var q := s.procs[p];
    WholeTable(s, p);
    assert l.(outcome := Running) == Result(Running, q.regs, TableImage(s.flat, q.table));
    RunRefines(s, p, q.regs, n);
    var x := PhysRun(prog, q.table, m, Result(Running, q.regs, s.flat), n);
    var t := Ended(s, p, x, q.table);
    RewrittenInv(s.(flat := x.mem), t);
    WholeTable(t, p);
  }

  // ----------------------------------------------------------- runs

  ghost predicate Run(ms: seq<Machine>, es: seq<Event>, p: nat) {
    |ms| == |es| + 1 && forall i :: 0 <= i < |es| ==> Next(ms[i], p, es[i], ms[i + 1])
  }

  function Execs(es: seq<Event>): nat {
    if es == [] then 0 else Execs(es[..|es| - 1]) + if es[|es| - 1].Exec? then 1 else 0
  }

  /** Faults and failed fetches end a process; a system call does not. */
  predicate Goes(o: Outcome) {
    o.Running? || o.Trap?
  }

  /** `n` instructions of a whole program: it goes on after each system call. */
  function LogicalProgram(prog: seq<Instruction>, m: nat, l: LogicalState, n: nat): LogicalState
    requires m > 0
  {
    if n == 0 then l
    else
      var k := LogicalProgram(prog, m, l, n - 1);
      if Goes(k.outcome) then LogicalExec(prog, k.regs, k.mem, m) else k
  }

  /** However loads, saves, answers and the work of the kernel are interleaved with its instructions, a
      process is where the logical machine is after the same number of instructions. */
  lemma {:induction false} Transparent(ms: seq<Machine>, es: seq<Event>, p: nat, prog: seq<Instruction>, m: nat,
                                       l: LogicalState)
    requires m > 0 && Run(ms, es, p) && Follows(ms[0], p, prog, m, l)
    ensures Follows(ms[|es|], p, prog, m, LogicalProgram(prog, m, l, Execs(es)))
  {
    hide Next, Follows, LogicalExec, Goes;
    if es != [] {
      var n := |es| - 1;
      Transparent(ms[..n + 1], es[..n], p, prog, m, l);
      NextFollows(ms[n], p, es[n], ms[n + 1], prog, m, LogicalProgram(prog, m, l, Execs(es[..n])));
    }
  }

  /** What a process could tell about itself. After a failed fetch nobody holds its registers. */
  datatype View = View(outcome: Outcome, regs: Option<Registers>, mem: seq<LogicalSegment>)

  function ViewOf(a: Machine, p: nat): View
    requires p in a.kernel.procs
  {
    View(a.status,
         if a.status.Stuck? then None
         else if a.loaded.Some? then Some(a.loaded.value.regs)
         else Some(a.kernel.procs[p].regs),
         Owned(a.kernel, p))
  }

  /** The same, except that of a system call one may have the answer already. */
  predicate Alike(v: View, w: View) {
    && v.regs == w.regs && v.mem == w.mem
    && (Answers(v.outcome, w.outcome) || Answers(w.outcome, v.outcome))
  }

  /** Two runs that start alike and execute as many instructions end alike, whatever the interrupts,
      compactions, suspensions, delays of answers and the other processes did in each. */
  lemma Unobservable(ms: seq<Machine>, es: seq<Event>, ns: seq<Machine>, fs: seq<Event>, p: nat,
                     prog: seq<Instruction>, m: nat, l: LogicalState)
    requires m > 0 && |ms| == |es| + 1 && |ns| == |fs| + 1
    requires Run(ms, es, p) && Run(ns, fs, p) && Execs(es) == Execs(fs)
    requires Follows(ms[0], p, prog, m, l) && Follows(ns[0], p, prog, m, l)
    ensures p in ms[|es|].kernel.procs && p in ns[|fs|].kernel.procs
    ensures Alike(ViewOf(ms[|es|], p), ViewOf(ns[|fs|], p))
  {
    hide Follows, LogicalProgram, Run, Execs, ViewOf;
    Transparent(ms, es, p, prog, m, l);
    Transparent(ns, fs, p, prog, m, l);
    FollowedView(ms[|es|], p, prog, m, LogicalProgram(prog, m, l, Execs(es)));
    FollowedView(ns[|fs|], p, prog, m, LogicalProgram(prog, m, l, Execs(fs)));
  }

  lemma FollowedView(a: Machine, p: nat, prog: seq<Instruction>, m: nat, l: LogicalState)
    requires Follows(a, p, prog, m, l)
    ensures p in a.kernel.procs && Answers(a.status, l.outcome)
    ensures ViewOf(a, p) == View(a.status, if l.outcome.Stuck? then None else Some(l.regs), l.mem)
  {
  }
}
