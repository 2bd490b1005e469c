/** What the requests to kernel memory answer, and what they do to the process they are for: said of tables, holes
    and blocks, and of every process's registers and program. */
module Answers {
  import opened Common
  import opened Holes
  import opened Memory
  import opened Compaction
  import opened Kernel

  // ----------------------------------------------------------- who is there, and its context

  /** A process is there from its creation to its end. */
  lemma ProcessLaw(s: State, op: Op, t: State, ok: bool)
    requires Effect(s, op, t, ok)
    ensures t.procs.Keys == match op
            case Create(pid, program) => if program.Some? then s.procs.Keys + {pid} else s.procs.Keys
            case Finalize(pid) => s.procs.Keys - {pid}
            case _ => s.procs.Keys
  {
    hide ReleasedAll, Released, DiskKept, SavedIn, Loaded, IsChoice, TotalSize, RunsOutAt;
    if op.Alloc? { AllocatedProcesses(s, op.pid, op.id, op.size, t, ok); }
  }

  lemma AllocatedProcesses(s: State, pid: nat, id: nat, size: nat, t: State, ok: bool)
    requires Allocated(s, pid, id, size, t, ok)
    ensures t.procs.Keys == s.procs.Keys
    ensures forall q :: q in s.procs ==> SameContext(s, t, q) && t.procs[q].suspended == s.procs[q].suspended
  {
    hide IsChoice, TotalSize, Enumerates;
  }

  ghost predicate SameContext(s: State, t: State, q: nat)
    requires q in s.procs && q in t.procs
  {
    t.procs[q].regs == s.procs[q].regs && t.procs[q].program == s.procs[q].program
  }

  /** Registers change only where a CPU stores them, and a program never does: not by any allocation, release,
      compaction, suspension or resumption, of its own or of others. */
  lemma ContextLaw(s: State, op: Op, t: State, ok: bool, q: nat)
    requires Effect(s, op, t, ok) && q in s.procs && q in t.procs && !(op.Create? && op.pid == q)
    ensures t.procs[q].program == s.procs[q].program
    ensures t.procs[q].regs == if op.StoreContext? && op.pid == q then op.regs else s.procs[q].regs
  {
    hide ReleasedAll, Released, DiskKept, SavedIn, Loaded, IsChoice, TotalSize, RunsOutAt, PlaceAll, Rebuilt;
    if op.Alloc? { AllocatedProcesses(s, op.pid, op.id, op.size, t, ok); }
  }

  // ----------------------------------------------------------- allocation

  /** The hole the strategy asks for: of those that are large enough a smallest one, or a largest, and of equal ones
      the lowest. */
  ghost predicate Chosen(hs: seq<Hole>, best: bool, size: nat, h: Hole) {
    && h in hs && size <= h.size
    && forall g :: g in hs && size <= g.size ==>
         && (if best then h.size <= g.size else g.size <= h.size)
         && (g.size == h.size ==> h.base <= g.base)
  }

  lemma ChoiceChosen(hs: seq<Hole>, best: bool, size: nat, k: nat)
    requires Canonical(hs) && IsChoice(hs, best, size, Some(k))
    ensures Chosen(hs, best, size, hs[k])
  {
    forall g | g in hs && size <= g.size
      ensures if best then hs[k].size <= g.size else g.size <= hs[k].size
      ensures g.size == hs[k].size ==> hs[k].base <= g.base
    {
      var i :| 0 <= i < |hs| && hs[i] == g;
    }
  }

  /** While some hole is large enough a new segment is at the start of the one the strategy asks for, at the end of
      its process's table, and nothing moves. */
  lemma FitLaw(s: State, pid: nat, id: nat, size: nat, t: State, ok: bool)
    requires Inv(s) && Allocated(s, pid, id, size, t, ok)
    requires pid in s.procs && size <= s.maxSegment && exists h :: h in s.holes && size <= h.size
    ensures ok && t.flat == s.flat && pid in t.procs
    ensures exists h :: Chosen(s.holes, s.best, size, h) &&
                        t.procs[pid].table == s.procs[pid].table + [Segment(id, h.base, size)]
    ensures forall q :: q in s.procs && q != pid ==> q in t.procs && t.procs[q] == s.procs[q]
  {
    hide Inv, Canonical, Occupy;
    InvHoles(s);
    var h :| h in s.holes && size <= h.size;
    assert Fits(s.holes, size);
    var k: nat :| IsChoice(s.holes, s.best, size, Some(k)) &&
                  t == WithSegment(s.(holes := Occupy(s.holes, k, size)), pid, Segment(id, s.holes[k].base, size));
    ChoiceChosen(s.holes, s.best, size, k);
  }

  /** When no hole is large enough but all of them together are, memory is compacted and the new segment is right above
      everything else. */
  lemma CompactedLaw(s: State, pid: nat, id: nat, size: nat, t: State, ok: bool)
    requires Inv(s) && Allocated(s, pid, id, size, t, ok)
    requires pid in s.procs && 0 < size <= s.maxSegment && size <= TotalSize(s.holes)
    requires forall h :: h in s.holes ==> h.size < size
    ensures ok && TotalSize(s.holes) <= |s.flat| && pid in t.procs
    ensures exists c :: Compacted(s, c) && pid in c.procs &&
                        t.procs[pid].table == c.procs[pid].table + [Segment(id, |s.flat| - TotalSize(s.holes), size)]
  {
    hide Inv, Partition, TotalSize, Compacted, Placed;
    InvPartition(s);
    assert !Fits(s.holes, size);
    var c :| Compacted(s, c) && if Fits(c.holes, size) then Placed(c, pid, id, size, t, ok) else !ok && t == c;
    CompactedFree(s, c);
    CompactionFits(s, c, size);
    CompactedKeys(s, c);
    TopPlaced(c, pid, id, size, t, ok, |s.flat| - TotalSize(s.holes), |s.flat|);
  }

  lemma TopPlaced(c: State, pid: nat, id: nat, size: nat, t: State, ok: bool, used: nat, total: nat)
    requires Placed(c, pid, id, size, t, ok) && pid in c.procs && c.holes == TopHole(used, total)
    ensures ok && pid in t.procs && t.procs[pid].table == c.procs[pid].table + [Segment(id, used, size)]
  {
  }

  // ----------------------------------------------------------- release

  /** MEM_FREE answers yes exactly when the process has a segment of that id; then the addresses of the first such
      segment are free, and no others become so. */
  lemma FreeLaw(s: State, pid: nat, id: nat, t: State, ok: bool)
    requires Freed(s, pid, id, t, ok)
    ensures ok <==> pid in s.procs && exists g :: g in s.procs[pid].table && g.id == id
    ensures if !ok then t == s
            else exists i :: 0 <= i < |s.procs[pid].table| && pid in t.procs &&
                   var g := s.procs[pid].table[i];
                   && g.id == id && (forall j :: 0 <= j < i ==> s.procs[pid].table[j].id != id)
                   && t.procs[pid].table == RemoveAt(s.procs[pid].table, i)
                   && (forall a :: IsFree(t.holes, a) <==> IsFree(s.holes, a) || g.Has(a))
  {
    hide IsFree, Canonical;
    if pid in s.procs {
      var found := FindSegment(s.procs[pid].table, id);
      if found.Some? { assert s.procs[pid].table[found.value] in s.procs[pid].table; }
    }
  }

  /** The end of a process gives back all it has, memory and blocks, and takes nothing from anyone else. */
  lemma FinalizeLaw(s: State, pid: nat, t: State, ok: bool)
    requires Finalized(s, pid, t, ok)
    ensures ok <==> pid in s.procs
    ensures pid !in t.procs && forall q :: q in s.procs && q != pid ==> q in t.procs && t.procs[q] == s.procs[q]
    ensures ok ==> forall a :: IsFree(t.holes, a) <==>
                                 IsFree(s.holes, a) || exists g :: g in s.procs[pid].table && g.Has(a)
    ensures ok ==> forall b :: b in t.swap.free <==>
                                 b in s.swap.free || exists g :: g in s.procs[pid].suspended && b in g.blocks
    ensures t.flat == s.flat && t.swap.disk == s.swap.disk
  {
    hide IsFree, Canonical;
    if ok {
      forall a ensures InTable(s.procs[pid].table, a) <==> exists g :: g in s.procs[pid].table && g.Has(a) {}
      forall b
        ensures b in Suspended(s, pid) <==> exists g :: g in s.procs[pid].suspended && b in g.blocks
      {
        BlocksMember(s.procs[pid].suspended, b);
      }
    }
  }

  lemma {:induction false} BlocksMember(ss: seq<SwapSegment>, b: nat)
    ensures b in BlocksOf(ss) <==> exists g :: g in ss && b in g.blocks
  {
    if ss != [] {
      var front, last := ss[..|ss| - 1], ss[|ss| - 1];
      assert ss == front + [last];
      BlocksMember(front, b);
    }
  }

  // ----------------------------------------------------------- suspension

  /** `n` is the least number of blocks of `size` bytes that hold `limit` bytes. */
  ghost predicate Least(limit: nat, size: nat, n: nat) {
    n * size >= limit && forall k: nat :: k < n ==> k * size < limit
  }

  function Sum(ns: seq<nat>): nat {
    if ns == [] then 0 else Sum(ns[..|ns| - 1]) + ns[|ns| - 1]
  }

  lemma BlocksLeast(limit: nat, size: nat, n: nat)
    requires size > 0 && Least(limit, size, n)
    ensures n == BlocksFor(limit, size)
  {
    var q := BlocksFor(limit, size);
    assert limit + size - 1 == q * size + (limit + size - 1) % size;
    assert limit <= q * size < limit + size;
    if n < q { NextMultiple(n, q, size); }
  }

  lemma NextMultiple(a: nat, b: nat, size: nat)
    requires a < b
    ensures a * size + size <= b * size
  {
    assert (a + 1) * size <= b * size;
  }

  lemma {:induction false} NeededSum(table: seq<Segment>, size: nat, ns: seq<nat>)
    requires size > 0 && |ns| == |table| && forall i :: 0 <= i < |ns| ==> Least(table[i].limit, size, ns[i])
    ensures BlocksNeeded(table, size) == Sum(ns)
  {
    hide Least;
    if table != [] {
      var n := |table| - 1;
      NeededSum(table[..n], size, ns[..n]);
      BlocksLeast(table[n].limit, size, ns[n]);
    }
  }

  /** A suspension succeeds exactly when swap has as many free blocks as the segments take, each rounded up to whole
      blocks. Then the process has no memory left, and one record for each segment after those it had; otherwise its
      tables are as they were. */
  lemma SuspendLaw(s: State, pid: nat, t: State, ok: bool, ns: seq<nat>)
    requires Inv(s) && SuspendedStep(s, pid, t, ok)
    requires pid in s.procs && s.swap.connected ==>
               |ns| == |s.procs[pid].table| &&
               forall i :: 0 <= i < |ns| ==> Least(s.procs[pid].table[i].limit, s.swap.blockSize, ns[i])
    ensures ok <==> pid in s.procs && s.swap.connected && Sum(ns) <= |s.swap.free|
    ensures !ok ==> t.procs == s.procs && t.flat == s.flat
    ensures ok ==> pid in t.procs && t.procs[pid].table == [] && t.flat == s.flat
    ensures ok ==> var old_, new_ := s.procs[pid].suspended, t.procs[pid].suspended;
                   && |new_| == |old_| + |s.procs[pid].table| && new_[..|old_|] == old_
                   && forall i :: 0 <= i < |s.procs[pid].table| ==>
                        var g := new_[|old_| + i];
                        g.id == s.procs[pid].table[i].id && g.size == s.procs[pid].table[i].limit
    ensures ok ==> forall q :: q in s.procs && q != pid ==> q in t.procs && t.procs[q] == s.procs[q]
  {
    hide Inv, ReleasedAll, DiskKept, Least, BlocksNeeded, Sum, Sized, SwapBytes, BlocksOf;
    InvSwap(s);
    if pid in s.procs && s.swap.connected {
      NeededSum(s.procs[pid].table, s.swap.blockSize, ns);
      if ok {
        var n := |s.procs[pid].suspended|;
        var new_ := t.procs[pid].suspended;
        forall i | 0 <= i < |s.procs[pid].table| ensures new_[n..][i] == new_[n + i] {}
      }
    }
  }

  lemma {:induction false} SumGrows(ns: seq<nat>, n: nat)
    requires n <= |ns|
    ensures Sum(ns[..n]) <= Sum(ns)
    decreases |ns|
  {
    if n == |ns| {
      assert ns[..n] == ns;
    } else {
      assert ns[..|ns| - 1][..n] == ns[..n];
      SumGrows(ns[..|ns| - 1], n);
    }
  }

  /** Swap has room for the first `n` segments and not for the next one, and the memory of those is free. */
  ghost predicate StopsAt(s: State, pid: nat, ns: seq<nat>, n: nat, t: State)
    requires pid in s.procs && |ns| == |s.procs[pid].table|
  {
    && n < |ns| && Sum(ns[..n]) <= |s.swap.free| < Sum(ns[..n + 1])
    && forall a :: IsFree(t.holes, a) <==> IsFree(s.holes, a) || exists i :: 0 <= i < n && s.procs[pid].table[i].Has(a)
  }

  /** A suspension that fails has come to the first segment swap has no room for: the memory of those before it is
      free already, and swap has the free blocks it had. */
  lemma SuspendStops(s: State, pid: nat, t: State, ns: seq<nat>)
    requires Inv(s) && SuspendedStep(s, pid, t, false) && pid in s.procs && s.swap.connected
    requires |ns| == |s.procs[pid].table| &&
             forall i :: 0 <= i < |ns| ==> Least(s.procs[pid].table[i].limit, s.swap.blockSize, ns[i])
    ensures exists n: nat :: StopsAt(s, pid, ns, n, t)
    ensures multiset(t.swap.free) == multiset(s.swap.free)
  {
    hide Inv, DiskKept, Least, BlocksNeeded, Sum, Canonical, IsFree;
    InvSwap(s);
    var table, size := s.procs[pid].table, s.swap.blockSize;
    var n: nat :| RunsOutAt(s, pid, n) && SuspendedPart(s, pid, n, t);
    NeededSum(table[..n], size, ns[..n]);
    NeededSum(table[..n + 1], size, ns[..n + 1]);
    var need := BlocksNeeded(table[..n], size);
    assert s.swap.free == s.swap.free[..need] + s.swap.free[need..];
    forall a ensures InTable(table[..n], a) <==> exists i :: 0 <= i < n && table[i].Has(a) { InFront(table, n, a); }
    assert StopsAt(s, pid, ns, n, t);
  }

  lemma InFront(table: seq<Segment>, n: nat, a: int)
    requires n <= |table|
    ensures InTable(table[..n], a) <==> exists i :: 0 <= i < n && table[i].Has(a)
  {
    if InTable(table[..n], a) {
      var g :| g in table[..n] && g.Has(a);
      var i :| 0 <= i < n && table[..n][i] == g;
    }
    if i :| 0 <= i < n && table[i].Has(a) { assert table[..n][i] in table[..n]; }
  }

  // ----------------------------------------------------------- resumption

  /** Where segments of these sizes go, one after the other: each to the hole the strategy asks for among what is free
      then, until one finds none. `frees` are the free lists in between. */
  ghost predicate InTurn(hs: seq<Hole>, best: bool, sizes: seq<nat>, bases: seq<nat>, frees: seq<seq<Hole>>) {
    && |bases| <= |sizes| && |frees| == |bases| + 1 && frees[0] == hs
    && (forall i :: 0 <= i < |frees| ==> Canonical(frees[i]))
    && (forall i :: 0 <= i < |bases| ==>
          && (exists h :: Chosen(frees[i], best, sizes[i], h) && h.base == bases[i])
          && forall a :: IsFree(frees[i + 1], a) <==> IsFree(frees[i], a) && !(bases[i] <= a < bases[i] + sizes[i]))
    && (|bases| < |sizes| ==> forall h :: h in frees[|bases|] ==> h.size < sizes[|bases|])
  }

  function Sizes(ss: seq<SwapSegment>): seq<nat> {
    seq(|ss|, i requires 0 <= i < |ss| => ss[i].size)
  }

  lemma {:induction false} PlacedInTurn(hs: seq<Hole>, best: bool, ss: seq<SwapSegment>) returns (frees: seq<seq<Hole>>)
    requires Canonical(hs) && forall g :: g in ss ==> g.size > 0
    ensures InTurn(hs, best, Sizes(ss), PlaceAll(hs, best, ss).0, frees)
    ensures frees[|frees| - 1] == PlaceAll(hs, best, ss).1
  {
    hide Canonical, InTurn, Choose, IsChoice, Occupy, IsFree;
    if ss == [] {
      frees := [hs];
      NobodyInTurn(hs, best);
      assert Sizes(ss) == [];
    } else {
      var n := |ss| - 1;
      var front, size := ss[..n], ss[n].size;
      assert Sizes(ss) == Sizes(front) + [size];
      var r := PlaceAll(hs, best, front);
      frees := PlacedInTurn(hs, best, front);
      TurnShape(hs, best, Sizes(front), r.0, frees);
      var k := Choose(r.1, best, size);
      if |r.0| < n {
        LaterInTurn(hs, best, Sizes(front), r.0, frees, size);
      } else if k.None? {
        NoHole(r.1, best, size);
        LastInTurn(hs, best, Sizes(front), r.0, frees, size);
      } else {
        TakenHole(r.1, best, size, k.value);
        NextInTurn(hs, best, Sizes(front), r.0, frees, size, r.1[k.value], Occupy(r.1, k.value, size));
        frees := frees + [Occupy(r.1, k.value, size)];
      }
    }
  }

  lemma NobodyInTurn(hs: seq<Hole>, best: bool)
    requires Canonical(hs)
    ensures InTurn(hs, best, [], [], [hs])
  {
  }

  lemma TurnShape(hs: seq<Hole>, best: bool, sizes: seq<nat>, bases: seq<nat>, frees: seq<seq<Hole>>)
    requires InTurn(hs, best, sizes, bases, frees)
    ensures |bases| <= |sizes| && |frees| == |bases| + 1 && Canonical(frees[|bases|])
  {
  }

  lemma NoHole(hs: seq<Hole>, best: bool, size: nat)
    requires IsChoice(hs, best, size, None)
    ensures forall h :: h in hs ==> h.size < size
  {
  }

  lemma TakenHole(hs: seq<Hole>, best: bool, size: nat, k: nat)
    requires Canonical(hs) && IsChoice(hs, best, size, Some(k))
    ensures k < |hs| && size <= hs[k].size && Chosen(hs, best, size, hs[k]) && Canonical(Occupy(hs, k, size))
    ensures forall a :: IsFree(Occupy(hs, k, size), a) <==> IsFree(hs, a) && !(hs[k].base <= a < hs[k].base + size)
  {
    hide Canonical, IsFree, Occupy;
    ChoiceChosen(hs, best, size, k);
    OccupyTakes(hs, k, size);
  }

  lemma LaterInTurn(hs: seq<Hole>, best: bool, sizes: seq<nat>, bases: seq<nat>, frees: seq<seq<Hole>>, size: nat)
    requires InTurn(hs, best, sizes, bases, frees) && |bases| < |sizes|
    ensures InTurn(hs, best, sizes + [size], bases, frees)
  {
    hide IsFree, Canonical, Chosen;
    assert forall i :: 0 <= i < |sizes| ==> (sizes + [size])[i] == sizes[i];
  }

  lemma LastInTurn(hs: seq<Hole>, best: bool, sizes: seq<nat>, bases: seq<nat>, frees: seq<seq<Hole>>, size: nat)
    requires InTurn(hs, best, sizes, bases, frees) && |bases| == |sizes|
    requires forall h :: h in frees[|bases|] ==> h.size < size
    ensures InTurn(hs, best, sizes + [size], bases, frees)
  {
    hide IsFree, Canonical, Chosen;
    assert forall i :: 0 <= i < |sizes| ==> (sizes + [size])[i] == sizes[i];
  }

  lemma NextInTurn(hs: seq<Hole>, best: bool, sizes: seq<nat>, bases: seq<nat>, frees: seq<seq<Hole>>, size: nat,
                   h: Hole, next: seq<Hole>)
    requires InTurn(hs, best, sizes, bases, frees) && |bases| == |sizes|
    requires Chosen(frees[|bases|], best, size, h) && Canonical(next)
    requires forall a :: IsFree(next, a) <==> IsFree(frees[|bases|], a) && !(h.base <= a < h.base + size)
    ensures InTurn(hs, best, sizes + [size], bases + [h.base], frees + [next])
  {
    hide IsFree, Canonical, Chosen;
    var more, places, lists := sizes + [size], bases + [h.base], frees + [next];
    forall i | 0 <= i < |places|
      ensures exists g :: Chosen(lists[i], best, more[i], g) && g.base == places[i]
      ensures forall a :: IsFree(lists[i + 1], a) <==> IsFree(lists[i], a) && !(places[i] <= a < places[i] + more[i])
    {
      if i < |bases| {
        assert lists[i] == frees[i] && lists[i + 1] == frees[i + 1] && more[i] == sizes[i] && places[i] == bases[i];
      } else {
        assert lists[i] == frees[|bases|] && lists[i + 1] == next && more[i] == size && places[i] == h.base;
      }
    }
  }

  /** A resumption puts the segments back in turn and succeeds exactly when each finds a hole. Then they follow the
      process's other segments in their order, and it has no record left; otherwise its tables are as they were. */
  lemma ResumeLaw(s: State, pid: nat, t: State, ok: bool) returns (bases: seq<nat>, frees: seq<seq<Hole>>)
    requires Inv(s) && ResumedStep(s, pid, t, ok)
    ensures ok ==> pid in s.procs
    ensures pid in s.procs ==> InTurn(s.holes, s.best, Sizes(s.procs[pid].suspended), bases, frees)
    ensures pid in s.procs ==> (ok <==> |bases| == |s.procs[pid].suspended|)
    ensures !ok ==> t.procs == s.procs && t.holes == s.holes
    ensures pid in s.procs ==>
              |bases| <= |s.procs[pid].suspended| &&
              forall b :: b in t.swap.free <==>
                b in s.swap.free || exists g :: g in s.procs[pid].suspended[..|bases|] && b in g.blocks
    ensures ok ==> pid in t.procs && t.procs[pid].suspended == []
    ensures ok ==> var old_, new_, ss := s.procs[pid].table, t.procs[pid].table, s.procs[pid].suspended;
                   && |new_| == |old_| + |ss| && new_[..|old_|] == old_
                   && forall i :: 0 <= i < |ss| ==> new_[|old_| + i] == Segment(ss[i].id, bases[i], ss[i].size)
    ensures ok ==> forall q :: q in s.procs && q != pid ==> q in t.procs && t.procs[q] == s.procs[q]
  {
    hide Inv, Canonical, IsFree, Chosen, InTurn, PlaceAll, Loaded, Sized;
    bases, frees := [], [];
    if pid in s.procs {
      InvHoles(s);
      RecordSizes(s, pid);
      bases := PlaceAll(s.holes, s.best, s.procs[pid].suspended).0;
      frees := PlacedInTurn(s.holes, s.best, s.procs[pid].suspended);
      var ss := s.procs[pid].suspended;
      assert |bases| == |ss| ==> ss[..|bases|] == ss;
      forall b ensures b in BlocksOf(ss[..|bases|]) <==> exists g :: g in ss[..|bases|] && b in g.blocks {
        BlocksMember(ss[..|bases|], b);
      }
    }
  }

  lemma RecordSizes(s: State, pid: nat)
    requires Inv(s) && pid in s.procs
    ensures forall g :: g in s.procs[pid].suspended ==> g.size > 0
  {
    assert Sized(s.swap, s.procs[pid].suspended);
  }
}
