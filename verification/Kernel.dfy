/** The operations of kernel memory as steps, and what holds after any number of them. */
module Kernel {
  import opened Common
  import opened Holes
  import opened Isa
  import opened Memory
  import opened Partitions
  import opened Compaction
  import opened SwapSpace

  datatype Op =
    | Create(pid: nat, program: Option<seq<Instruction>>)
    | ConnectStick(contents: seq<byte>)
    | ConnectSwap(blockSize: nat, disk: seq<seq<byte>>)
    | Alloc(pid: nat, id: nat, size: nat)
    | Free(pid: nat, id: nat)
    | Finalize(pid: nat)
    | Suspend(pid: nat)
    | Resume(pid: nat)
    | Write(at: nat, data: seq<byte>)
    | StoreContext(pid: nat, regs: Registers, table: seq<Segment>)

  /** What the callers of kernel memory see to. */
  ghost predicate Enabled(s: State, op: Op) {
    match op
    case Create(pid, program) => pid !in s.procs
    case ConnectStick(contents) => |contents| > 0 && |s.flat| + |contents| < 0x8000_0000
    case ConnectSwap(blockSize, disk) =>
      !s.swap.connected && blockSize > 0 && forall b :: 0 <= b < |disk| ==> |disk[b]| == blockSize
    case Alloc(pid, id, size) => size > 0
    case Suspend(pid) => SuspendSafe(s, pid)
    case Resume(pid) => ResumeSafe(s, pid)
    case StoreContext(pid, regs, table) => pid in s.procs ==> table == s.procs[pid].table
    case _ => true
  }

  ghost predicate Effect(s: State, op: Op, t: State, ok: bool) {
    match op
    case Create(pid, program) => if program.Some? then ok && Created(s, pid, program.value, t) else !ok && t == s
    case ConnectStick(contents) => ok && StickConnected(s, contents, t)
    case ConnectSwap(blockSize, disk) => ok && SwapConnected(s, blockSize, disk, t)
    case Alloc(pid, id, size) => Allocated(s, pid, id, size, t, ok)
    case Free(pid, id) => Freed(s, pid, id, t, ok)
    case Finalize(pid) => Finalized(s, pid, t, ok)
    case Suspend(pid) => SuspendedStep(s, pid, t, ok)
    case Resume(pid) => ResumedStep(s, pid, t, ok)
    case Write(at, data) => ok == (data == [] || at + |data| <= |s.flat|) && Written(s, at, data, t)
    case StoreContext(pid, regs, table) => ContextStored(s, pid, regs, table, t, ok)
  }

  ghost predicate Step(s: State, op: Op, t: State) {
    Enabled(s, op) && exists ok :: Effect(s, op, t, ok)
  }

  // ----------------------------------------------------------- allocation is complete

  lemma {:induction false} HoleWithinTotal(hs: seq<Hole>, i: nat)
    requires i < |hs|
    ensures hs[i].size <= TotalSize(hs)
  {
    if i < |hs| - 1 { HoleWithinTotal(hs[..|hs| - 1], i); }
  }

  lemma FitsInTotal(hs: seq<Hole>, size: nat)
    requires Fits(hs, size)
    ensures size <= TotalSize(hs)
  {
    var h :| h in hs && h.size >= size;
    var i :| 0 <= i < |hs| && hs[i] == h;
    HoleWithinTotal(hs, i);
  }

  /** After a compaction a hole is as large as all the free bytes together. */
  lemma CompactionFits(s: State, c: State, size: nat)
    requires Partition(s) && Compacted(s, c) && 0 < size <= TotalSize(s.holes)
    ensures Fits(c.holes, size)
  {
    hide Partition, Compacted, TotalSize;
    CompactedFree(s, c);
    assert c.holes[0] in c.holes && c.holes[0].size >= size;
  }

  lemma CompactedKeys(s: State, c: State)
    requires Compacted(s, c)
    ensures c.procs.Keys == s.procs.Keys
  {
  }

  lemma HolesAddUp(hs: seq<Hole>)
    requires Canonical(hs)
    ensures hs != [] <==> TotalSize(hs) > 0
  {
    if hs != [] { HoleWithinTotal(hs, 0); }
  }

  lemma FitsNothing(hs: seq<Hole>)
    ensures Fits(hs, 0) <==> hs != []
  {
    if hs != [] { assert hs[0] in hs; }
  }

  /** With nothing free there is nothing free after a compaction either. */
  lemma CompactionOfFull(s: State, c: State)
    requires Partition(s) && Compacted(s, c) && s.holes == []
    ensures c.holes == []
  {
    hide Partition, Compacted;
    CompactedFree(s, c);
  }

  /** MEM_ALLOC fails only for an unknown process, an oversized segment, or a memory that is full:
      fragmentation never makes it fail, so the error after compaction is never reported. A request of 0
      bytes needs a hole to point to. */
  lemma AllocComplete(s: State, pid: nat, id: nat, size: nat, t: State, ok: bool)
    requires Inv(s) && Allocated(s, pid, id, size, t, ok)
    ensures ok <==> pid in s.procs && size <= s.maxSegment && size <= TotalSize(s.holes) && 0 < TotalSize(s.holes)
  {
    hide Inv, TotalSize, Compacted, Canonical, Fits;
    InvPartition(s);
    InvHoles(s);
    HolesAddUp(s.holes);
    FitsNothing(s.holes);
    if size <= s.maxSegment {
      if Fits(s.holes, size) {
        FitsInTotal(s.holes, size);
      } else if size <= TotalSize(s.holes) {
        var c :| Compacted(s, c) && if Fits(c.holes, size) then Placed(c, pid, id, size, t, ok) else !ok && t == c;
        if size > 0 {
          CompactionFits(s, c, size);
          CompactedKeys(s, c);
        } else {
          CompactionOfFull(s, c);
        }
      }
    }
  }

  // ----------------------------------------------------------- every step keeps the invariant

  lemma CompactedInv(s: State, t: State)
    requires Inv(s) && Compacted(s, t)
    ensures Inv(t)
  {
    var keys :| CompactedBy(s, keys, t);
    CompactedPartition(s, keys, t);
    SameSwap(s, t);
  }

  /** Nothing about swap depends on the layout of memory. */
  lemma SameSwap(s: State, t: State)
    requires Inv(s) && t.swap == s.swap && t.procs.Keys == s.procs.Keys
    requires forall p :: p in s.procs ==> t.procs[p].suspended == s.procs[p].suspended
    ensures Conserved(t) && Whole(t.swap) && forall p :: p in t.procs ==> Sized(t.swap, t.procs[p].suspended)
  {
    forall p, b ensures Holds(t, p, b) <==> Holds(s, p, b) {}
    forall b | 0 <= b < |t.swap.disk| && b !in t.swap.free ensures exists p :: Holds(t, p, b) {
      var p :| Holds(s, p, b);
      assert Holds(t, p, b);
    }
  }

  lemma PlacedInv(s: State, pid: nat, id: nat, size: nat, t: State, ok: bool)
    requires Inv(s) && size > 0 && Placed(s, pid, id, size, t, ok)
    ensures Inv(t)
  {
    if pid in s.procs {
      var k: nat :| IsChoice(s.holes, s.best, size, Some(k)) &&
                    t == WithSegment(s.(holes := Occupy(s.holes, k, size)), pid, Segment(id, s.holes[k].base, size));
      PlacedAtInv(s, pid, id, size, k, t);
    }
  }

  lemma PlacedAtInv(s: State, pid: nat, id: nat, size: nat, k: nat, t: State)
    requires Inv(s) && pid in s.procs && 0 < size && k < |s.holes| && size <= s.holes[k].size
    requires t == WithSegment(s.(holes := Occupy(s.holes, k, size)), pid, Segment(id, s.holes[k].base, size))
    ensures Inv(t)
  {
    PlacedPartition(s, pid, id, size, k, t);
    SameSwap(s, t);
  }

  lemma AllocatedInv(s: State, pid: nat, id: nat, size: nat, t: State, ok: bool)
    requires Inv(s) && size > 0 && Allocated(s, pid, id, size, t, ok)
    ensures Inv(t)
  {
    if size <= s.maxSegment {
      if Fits(s.holes, size) {
        PlacedInv(s, pid, id, size, t, ok);
      } else if size <= TotalSize(s.holes) {
        var c :| Compacted(s, c) && if Fits(c.holes, size) then Placed(c, pid, id, size, t, ok) else !ok && t == c;
        CompactedInv(s, c);
        if Fits(c.holes, size) { PlacedInv(c, pid, id, size, t, ok); }
      }
    }
  }

  lemma EmptySegment(s: State, pid: nat, id: nat, t: State, ok: bool)
    requires pid in s.procs && Placed(s, pid, id, 0, t, ok)
    ensures !Inv(t)
  {
    var k := Ref(pid, |s.procs[pid].table|);
    assert IsRef(t, k) && At(t, k).limit == 0;
  }

  lemma EmptyRequest(s: State, pid: nat, id: nat, t: State, ok: bool)
    requires Inv(s) && pid in s.procs && Allocated(s, pid, id, 0, t, ok)
    ensures Inv(t) <==> s.holes == []
  {
    hide Inv, Partition, TotalSize, Compacted, Canonical, Placed, Fits;
    FitsNothing(s.holes);
    if Fits(s.holes, 0) {
      EmptySegment(s, pid, id, t, ok);
    } else {
      InvPartition(s);
      var c :| Compacted(s, c) && if Fits(c.holes, 0) then Placed(c, pid, id, 0, t, ok) else !ok && t == c;
      CompactionOfFull(s, c);
      FitsNothing(c.holes);
      CompactedInv(s, c);
    }
  }

  /** MEM_ALLOC keeps the invariant exactly unless it makes a segment of 0 bytes. */
  lemma AllocKeepsInvIff(s: State, pid: nat, id: nat, size: nat, t: State, ok: bool)
    requires Inv(s) && pid in s.procs && Allocated(s, pid, id, size, t, ok)
    ensures Inv(t) <==> size > 0 || s.holes == []
  {
    hide Inv, Allocated;
    if size > 0 {
      AllocatedInv(s, pid, id, size, t, ok);
    } else {
      EmptyRequest(s, pid, id, t, ok);
    }
  }

  lemma FreedInv(s: State, pid: nat, id: nat, t: State, ok: bool)
    requires Inv(s) && Freed(s, pid, id, t, ok)
    ensures Inv(t)
  {
    if ok {
      FreedPartition(s, pid, FindSegment(s.procs[pid].table, id).value, t);
      SameSwap(s, t);
    }
  }

  lemma FinalizedInv(s: State, pid: nat, t: State, ok: bool)
    requires Inv(s) && Finalized(s, pid, t, ok)
    ensures Inv(t)
  {
    if ok {
      ClearedPartition(s, pid, t);
      ReturnedConserved(s, pid, t);
      forall p | p in t.procs ensures Sized(t.swap, t.procs[p].suspended) {
        assert Sized(s.swap, s.procs[p].suspended);
      }
    }
  }

  /** The number is new, or the process that has it owns neither memory nor swap. */
  predicate CreateSafe(s: State, pid: nat) {
    pid in s.procs ==> s.procs[pid].table == [] && s.procs[pid].suspended == []
  }

  lemma CreatedInv(s: State, pid: nat, program: seq<Instruction>, t: State)
    requires Inv(s) && Created(s, pid, program, t) && CreateSafe(s, pid)
    ensures Inv(t)
  {
    assert forall k :: IsRef(t, k) <==> IsRef(s, k);
    assert forall k :: IsRef(t, k) ==> At(t, k) == At(s, k);
    forall a | Used(s, a) ensures Used(t, a) {
      var k := UsedAt(s, a);
      assert IsRef(t, k) && At(t, k).Has(a);
    }
    forall p, b ensures Holds(t, p, b) <==> Holds(s, p, b) {}
    forall b | 0 <= b < |t.swap.disk| && b !in t.swap.free ensures exists p :: Holds(t, p, b) {
      var p :| Holds(s, p, b);
      assert Holds(t, p, b);
    }
  }

  /** A number used twice loses the memory of its first process, which neither a hole nor a segment names. */
  lemma SegmentsLost(s: State, pid: nat, program: seq<Instruction>, t: State)
    requires Partition(s) && Created(s, pid, program, t) && pid in s.procs && s.procs[pid].table != []
    ensures !Partition(t)
  {
    hide Canonical;
    var first, a := Ref(pid, 0), s.procs[pid].table[0].base;
    assert IsRef(s, first) && At(s, first).Has(a);
    forall k | IsRef(t, k) ensures !At(t, k).Has(a) {
      assert IsRef(s, k) && At(s, k) == At(t, k) && k != first && Apart(At(s, k), At(s, first));
    }
    assert 0 <= a < |t.flat| && !IsFree(t.holes, a) && !Used(t, a);
  }

  lemma BlocksLost(s: State, pid: nat, program: seq<Instruction>, t: State)
    requires Inv(s) && Created(s, pid, program, t) && pid in s.procs && s.procs[pid].suspended != []
    ensures !Conserved(t)
  {
    hide Partition;
    var g := s.procs[pid].suspended[0];
    assert Sized(s.swap, s.procs[pid].suspended) && g in s.procs[pid].suspended;
    assert |g.blocks| > 0;
    var b := g.blocks[0];
    BlocksOfMember(s.procs[pid].suspended, 0, b);
    assert Holds(s, pid, b);
    if exists p :: Holds(t, p, b) {
      var p :| Holds(t, p, b);
      assert p != pid && Holds(s, p, b);
    }
  }

  /** Creating a process leaves a sound state exactly when that holds. */
  lemma CreateKeepsInvIff(s: State, pid: nat, program: seq<Instruction>, t: State)
    requires Inv(s) && Created(s, pid, program, t)
    ensures Inv(t) <==> CreateSafe(s, pid)
  {
    hide Created, Partition, Conserved;
    if CreateSafe(s, pid) {
      CreatedInv(s, pid, program, t);
    } else if s.procs[pid].table != [] {
      SegmentsLost(s, pid, program, t);
    } else {
      BlocksLost(s, pid, program, t);
    }
  }

  lemma SwapConnectedInv(s: State, blockSize: nat, disk: seq<seq<byte>>, t: State)
    requires Inv(s) && Enabled(s, ConnectSwap(blockSize, disk)) && SwapConnected(s, blockSize, disk, t)
    ensures Inv(t)
  {
    SamePartition(s, t);
    forall p | p in s.procs ensures s.procs[p].suspended == [] { assert Sized(s.swap, s.procs[p].suspended); }
    forall b | 0 <= b < |disk| ensures b in t.swap.free { assert t.swap.free[b] == b; }
  }

  lemma GrownInv(s: State, contents: seq<byte>, t: State)
    requires Inv(s) && StickConnected(s, contents, t) && |contents| > 0 && |t.flat| < 0x8000_0000
    ensures Inv(t)
  {
    GrownPartition(s, contents, t);
    SameSwap(s, t);
  }

  lemma RewrittenInv(s: State, t: State)
    requires Inv(s) && |t.flat| == |s.flat| && t == s.(flat := t.flat, procs := t.procs)
    requires t.procs.Keys == s.procs.Keys
    requires forall p :: p in s.procs ==> t.procs[p] == s.procs[p].(regs := t.procs[p].regs)
    ensures Inv(t)
  {
    SamePartition(s, t);
    SameSwap(s, t);
  }

  /** Every operation of kernel memory keeps the invariant: memory stays partitioned between holes
      and segments, and swap between the free list and suspended segments. */
  lemma StepKeepsInv(s: State, op: Op, t: State)
    requires Inv(s) && Step(s, op, t)
    ensures Inv(t)
  {
    hide Inv, Created, SwapConnected, Allocated, Freed, Finalized, SuspendedStep, ResumedStep;
    var ok :| Effect(s, op, t, ok);
    match op
    case Create(pid, program) => if program.Some? { CreatedInv(s, pid, program.value, t); }
    case ConnectStick(contents) => GrownInv(s, contents, t);
    case ConnectSwap(blockSize, disk) => SwapConnectedInv(s, blockSize, disk, t);
    case Alloc(pid, id, size) => AllocatedInv(s, pid, id, size, t, ok);
    case Free(pid, id) => FreedInv(s, pid, id, t, ok);
    case Finalize(pid) => FinalizedInv(s, pid, t, ok);
    case Suspend(pid) => SuspendKeepsInvIff(s, pid, t, ok);
    case Resume(pid) => ResumeKeepsInvIff(s, pid, t, ok);
    case Write(at, data) => RewrittenInv(s, t);
    case StoreContext(pid, regs, table) => RewrittenInv(s, t);
  }

  // ----------------------------------------------------------- runs

  function Initial(maxSegment: nat, best: bool): State {
    State(maxSegment, best, [], map[], [], Swap(false, 0, [], []))
  }

  /** `states` is a run of kernel memory, one operation between each two. */
  ghost predicate Run(states: seq<State>, ops: seq<Op>) {
    && |states| == |ops| + 1
    && 0 < states[0].maxSegment < 0x8000_0000
    && states[0] == Initial(states[0].maxSegment, states[0].best)
    && forall i :: 0 <= i < |ops| ==> Step(states[i], ops[i], states[i + 1])
  }

  /** In every reachable state of every run the invariant holds. */
  lemma {:induction false} RunKeepsInv(states: seq<State>, ops: seq<Op>, i: nat)
    requires Run(states, ops) && i < |states|
    ensures Inv(states[i])
  {
    if i > 0 {
      RunKeepsInv(states, ops, i - 1);
      StepKeepsInv(states[i - 1], ops[i - 1], states[i]);
    }
  }
}
