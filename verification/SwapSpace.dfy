/** Suspension and resumption: swap blocks are conserved and memory comes back as it was. */
module SwapSpace {
  import opened Common
  import opened Holes
  import opened Memory
  import opened Partitions

  // ----------------------------------------------------------- lists of blocks

  lemma {:induction false} BlocksOfConcat(a: seq<SwapSegment>, b: seq<SwapSegment>)
    ensures BlocksOf(a + b) == BlocksOf(a) + BlocksOf(b)
  {
    if b == [] {
      assert a + b == a;
    } else {
      var front, last := b[..|b| - 1], b[|b| - 1];
      BlocksOfConcat(a, front);
      var n := |a + b| - 1;
      assert (a + b)[..n] == a + front && (a + b)[n] == last;
      assert BlocksOf(a + b) == (BlocksOf(a) + BlocksOf(front)) + last.blocks;
      assert BlocksOf(a + b) == BlocksOf(a) + (BlocksOf(front) + last.blocks);
    }
  }

  lemma {:induction false} BlocksOfMember(ss: seq<SwapSegment>, i: nat, b: nat)
    requires i < |ss| && b in ss[i].blocks
    ensures b in BlocksOf(ss)
  {
    if i < |ss| - 1 { BlocksOfMember(ss[..|ss| - 1], i, b); }
  }

  lemma NoDupParts<T>(s: seq<T>, n: nat)
    requires NoDup(s) && n <= |s|
    ensures NoDup(s[..n]) && NoDup(s[n..])
    ensures forall x :: x in s <==> x in s[..n] || x in s[n..]
    ensures forall x :: x in s[..n] ==> x !in s[n..]
  {
    assert s == s[..n] + s[n..];
  }

  lemma NoDupJoin<T>(a: seq<T>, b: seq<T>)
    requires NoDup(a) && NoDup(b) && forall x :: x in a ==> x !in b
    ensures NoDup(a + b)
  {
    forall i, j | 0 <= i < j < |a + b| ensures (a + b)[i] != (a + b)[j] {
      if i < |a| <= j { assert a[i] in a && b[j - |a|] in b; }
    }
  }

  // ----------------------------------------------------------- conservation

  /** Blocks move from the free list to one process. */
  lemma TakenConserved(s: State, pid: nat, n: nat, t: State)
    requires Conserved(s) && pid in s.procs && n <= |s.swap.free|
    requires |t.swap.disk| == |s.swap.disk| && t.swap.free == s.swap.free[n..]
    requires t.procs.Keys == s.procs.Keys
    requires forall q :: q in s.procs && q != pid ==> Suspended(t, q) == Suspended(s, q)
    requires Suspended(t, pid) == Suspended(s, pid) + s.swap.free[..n]
    ensures Conserved(t)
  {
    NoDupParts(s.swap.free, n);
    forall b | b in Suspended(s, pid) ensures b !in s.swap.free[..n] { assert Holds(s, pid, b); }
    NoDupJoin(Suspended(s, pid), s.swap.free[..n]);
    forall q, b ensures Holds(t, q, b) <==> Holds(s, q, b) || (q == pid && b in s.swap.free[..n]) {}
    hide Holds, Suspended;
    forall b | 0 <= b < |t.swap.disk| ensures b in t.swap.free || exists p :: Holds(t, p, b) {
      if b in s.swap.free[..n] {
        assert Holds(t, pid, b);
      } else if b !in s.swap.free {
        var p :| Holds(s, p, b);
        assert Holds(t, p, b);
      }
    }
  }

  /** A process gives all its blocks back: it is resumed, or it ends. */
  lemma ReturnedConserved(s: State, pid: nat, t: State)
    requires Conserved(s) && pid in s.procs
    requires |t.swap.disk| == |s.swap.disk| && t.swap.free == s.swap.free + Suspended(s, pid)
    requires forall q :: q in t.procs && q != pid <==> q in s.procs && q != pid
    requires forall q :: q in t.procs && q != pid ==> Suspended(t, q) == Suspended(s, q)
    requires pid in t.procs ==> Suspended(t, pid) == []
    ensures Conserved(t)
  {
    forall b ensures b in Suspended(s, pid) <==> Holds(s, pid, b) {}
    NoDupJoin(s.swap.free, Suspended(s, pid));
    forall q, b ensures Holds(t, q, b) <==> q != pid && Holds(s, q, b) {}
    hide Holds;
    forall b | 0 <= b < |t.swap.disk| ensures b in t.swap.free || exists p :: Holds(t, p, b) {
      if b !in t.swap.free {
        var p :| Holds(s, p, b);
        assert Holds(t, p, b);
      }
    }
  }

  // ----------------------------------------------------------- bytes in swap

  lemma {:induction false} GatherSame(disk: seq<seq<byte>>, new_: seq<seq<byte>>, blocks: seq<nat>)
    requires |disk| == |new_| && forall b :: b in blocks && b < |disk| ==> new_[b] == disk[b]
    ensures Gather(new_, blocks) == Gather(disk, blocks)
  {
    if blocks != [] {
      var last := blocks[|blocks| - 1];
      assert last in blocks;
      GatherSame(disk, new_, blocks[..|blocks| - 1]);
    }
  }

  lemma SwapImageSame(disk: seq<seq<byte>>, new_: seq<seq<byte>>, ss: seq<SwapSegment>)
    requires |disk| == |new_| && forall b :: b in BlocksOf(ss) && b < |disk| ==> new_[b] == disk[b]
    ensures SwapImage(new_, ss) == SwapImage(disk, ss)
  {
    forall i | 0 <= i < |ss| ensures SwapBytes(new_, ss[i]) == SwapBytes(disk, ss[i]) {
      forall b | b in ss[i].blocks && b < |disk| ensures new_[b] == disk[b] { BlocksOfMember(ss, i, b); }
      GatherSame(disk, new_, ss[i].blocks);
    }
  }

  /** Memory outside `table` may change without its process noticing. */
  lemma TableImageSame(flat: seq<byte>, new_: seq<byte>, table: seq<Segment>)
    requires |new_| == |flat| && forall a :: 0 <= a < |flat| && InTable(table, a) ==> new_[a] == flat[a]
    ensures TableImage(new_, table) == TableImage(flat, table)
  {
    forall i | 0 <= i < |table| ensures Bytes(new_, table[i]) == Bytes(flat, table[i]) {
      forall a | table[i].Has(a) && 0 <= a < |flat| ensures new_[a] == flat[a] { assert InTable(table, a); }
    }
  }

  lemma TableNotFree(s: State, q: nat, a: int)
    requires Partition(s) && q in s.procs && InTable(s.procs[q].table, a)
    ensures !IsFree(s.holes, a)
  {
    var table := s.procs[q].table;
    var g :| g in table && g.Has(a);
    var i :| 0 <= i < |table| && table[i] == g;
    assert At(s, Ref(q, i)) == g;
  }

  // ----------------------------------------------------------- suspending

  lemma SuspendedConserved(s: State, pid: nat, t: State)
    requires Inv(s) && pid in s.procs && s.swap.connected
    requires BlocksNeeded(s.procs[pid].table, s.swap.blockSize) <= |s.swap.free|
    requires SuspendedAll(s, pid, t)
    ensures Conserved(t)
  {
    var old_, all := s.procs[pid].suspended, t.procs[pid].suspended;
    assert all == old_ + all[|old_|..];
    BlocksOfConcat(old_, all[|old_|..]);
    TakenConserved(s, pid, BlocksNeeded(s.procs[pid].table, s.swap.blockSize), t);
  }

  lemma SuspendedInv(s: State, pid: nat, t: State)
    requires Inv(s) && pid in s.procs && s.swap.connected
    requires BlocksNeeded(s.procs[pid].table, s.swap.blockSize) <= |s.swap.free|
    requires SuspendedAll(s, pid, t)
    ensures Inv(t)
  {
    hide Conserved, Partition, BlocksFor, ReleasedAll, SwapBytes, BlocksOf;
    SuspendedConserved(s, pid, t);
    ClearedPartition(s, pid, t);
    var old_, all := s.procs[pid].suspended, t.procs[pid].suspended;
    forall g | g in all ensures g.size > 0 && |g.blocks| == BlocksFor(g.size, s.swap.blockSize) {
      assert all == old_ + all[|old_|..];
      if g in old_ { assert Sized(s.swap, old_); } else { assert g in all[|old_|..]; }
    }
    forall p | p in t.procs ensures Sized(t.swap, t.procs[p].suspended) {
      if p != pid { assert Sized(s.swap, s.procs[p].suspended); }
    }
  }

  /** Suspension hides a process's memory in swap, whole and in order, and no other process notices. */
  lemma SuspendedImages(s: State, pid: nat, t: State, q: nat)
    requires Inv(s) && pid in s.procs && s.swap.connected
    requires BlocksNeeded(s.procs[pid].table, s.swap.blockSize) <= |s.swap.free|
    requires SuspendedAll(s, pid, t) && q in s.procs
    ensures q in t.procs
    ensures q != pid ==> SameImage(s, t, q)
    ensures q == pid ==> ImageOf(t, q) == Image([], ImageOf(s, q).suspended + ImageOf(s, q).table)
  {
    var need := BlocksNeeded(s.procs[pid].table, s.swap.blockSize);
    NoDupParts(s.swap.free, need);
    forall b | b in Suspended(s, q) ensures b !in s.swap.free { assert Holds(s, q, b); }
    SwapImageSame(s.swap.disk, t.swap.disk, s.procs[q].suspended);
    if q == pid { HiddenInSwap(s, pid, t); }
  }

  lemma HiddenInSwap(s: State, pid: nat, t: State)
    requires pid in s.procs && s.swap.blockSize > 0
    requires BlocksNeeded(s.procs[pid].table, s.swap.blockSize) <= |s.swap.free|
    requires SuspendedAll(s, pid, t)
    requires SwapImage(t.swap.disk, s.procs[pid].suspended) == SwapImage(s.swap.disk, s.procs[pid].suspended)
    ensures ImageOf(t, pid) == Image([], ImageOf(s, pid).suspended + ImageOf(s, pid).table)
  {
    hide SwapBytes, Bytes, ReleasedAll, DiskKept, BlocksNeeded, BlocksOf, Sized;
    var old_, all := s.procs[pid].suspended, t.procs[pid].suspended;
    var new_ := all[|old_|..];
    assert all == old_ + new_;
    var blocks := s.swap.free[..BlocksNeeded(s.procs[pid].table, s.swap.blockSize)];
    SavedImage(s.flat, s.procs[pid].table, t.swap, blocks, new_);
    SwapImageConcat(t.swap.disk, old_, new_);
  }

  lemma SavedImage(flat: seq<byte>, table: seq<Segment>, swap: Swap, used: seq<nat>, ss: seq<SwapSegment>)
    requires SavedIn(flat, table, swap, used, ss)
    ensures SwapImage(swap.disk, ss) == TableImage(flat, table)
  {
  }

  lemma SwapImageConcat(disk: seq<seq<byte>>, a: seq<SwapSegment>, b: seq<SwapSegment>)
    ensures SwapImage(disk, a + b) == SwapImage(disk, a) + SwapImage(disk, b)
  {
  }

  // ----------------------------------------------------------- placing several segments

  ghost predicate Positive(ss: seq<SwapSegment>) {
    forall g :: g in ss ==> g.size > 0
  }

  lemma {:induction false} PlaceAllTakes(hs: seq<Hole>, best: bool, ss: seq<SwapSegment>)
    requires Canonical(hs) && Positive(ss)
    ensures Canonical(PlaceAll(hs, best, ss).1)
    ensures forall a :: IsFree(PlaceAll(hs, best, ss).1, a) <==>
                          IsFree(hs, a) && !InPlaces(PlaceAll(hs, best, ss).0, ss, a)
    ensures forall a :: InPlaces(PlaceAll(hs, best, ss).0, ss, a) ==> IsFree(hs, a)
  {
    if ss != [] {
      var n := |ss| - 1;
      var r := PlaceAll(hs, best, ss[..n]);
      PlaceAllTakes(hs, best, ss[..n]);
      forall a ensures InPlaces(r.0, ss[..n], a) <==> InPlaces(r.0, ss, a) {
        if InPlaces(r.0, ss, a) {
          var i :| 0 <= i < |r.0| && i < |ss| && r.0[i] <= a < r.0[i] + ss[i].size;
          assert ss[..n][i] == ss[i];
        }
        if InPlaces(r.0, ss[..n], a) {
          var i :| 0 <= i < |r.0| && i < n && r.0[i] <= a < r.0[i] + ss[..n][i].size;
          assert ss[..n][i] == ss[i];
        }
      }
      var k := Choose(r.1, best, ss[n].size);
      if |r.0| == n && k.Some? {
        OnePlaceMore(r.1, k.value, r.0, ss);
      }
    }
  }

  lemma OnePlaceMore(hs: seq<Hole>, k: nat, bases: seq<nat>, ss: seq<SwapSegment>)
    requires Canonical(hs) && |ss| == |bases| + 1 && k < |hs|
    requires 0 < ss[|bases|].size <= hs[k].size
    ensures Canonical(Occupy(hs, k, ss[|bases|].size))
    ensures forall a :: IsFree(Occupy(hs, k, ss[|bases|].size), a) <==>
                        IsFree(hs, a) && !(hs[k].base <= a < hs[k].base + ss[|bases|].size)
    ensures forall a :: hs[k].base <= a < hs[k].base + ss[|bases|].size ==> IsFree(hs, a)
    ensures forall a :: InPlaces(bases + [hs[k].base], ss, a) <==>
                        InPlaces(bases, ss, a) || hs[k].base <= a < hs[k].base + ss[|bases|].size
  {
    var n := |bases|;
    OccupyTakes(hs, k, ss[n].size);
    forall a | hs[k].base <= a < hs[k].base + ss[n].size ensures IsFree(hs, a) {
      assert hs[k] in hs && hs[k].Has(a);
    }
    var more := bases + [hs[k].base];
    forall a ensures InPlaces(more, ss, a) <==> InPlaces(bases, ss, a) || more[n] <= a < more[n] + ss[n].size {
      if InPlaces(more, ss, a) {
        var i :| 0 <= i < |more| && i < |ss| && more[i] <= a < more[i] + ss[i].size;
        assert i < n ==> bases[i] == more[i];
      }
      if InPlaces(bases, ss, a) {
        var i :| 0 <= i < |bases| && i < |ss| && bases[i] <= a < bases[i] + ss[i].size;
        assert bases[i] == more[i];
      }
    }
  }

  /** The state in which `pid` got back the segments `ss`, as far as the layout goes. */
  function WithPlaced(s: State, pid: nat, ss: seq<SwapSegment>): State
    requires pid in s.procs && |PlaceAll(s.holes, s.best, ss).0| == |ss|
  {
    var r := PlaceAll(s.holes, s.best, ss);
    s.(holes := r.1, procs := s.procs[pid := s.procs[pid].(table := s.procs[pid].table + Rebuilt(r.0, ss))])
  }

  lemma {:induction false} PlaceAllPartition(s: State, pid: nat, ss: seq<SwapSegment>)
    requires Partition(s) && pid in s.procs && Positive(ss)
    requires |PlaceAll(s.holes, s.best, ss).0| == |ss|
    ensures Partition(WithPlaced(s, pid, ss))
  {
    if ss == [] {
      var p := s.procs[pid];
      assert p.table + Rebuilt([], ss) == p.table;
      assert s.procs[pid := p] == s.procs;
    } else {
      var n := |ss| - 1;
      PlaceAllPartition(s, pid, ss[..n]);
      var k, g := PlacedLast(s, pid, ss);
      PlacedPartition(WithPlaced(s, pid, ss[..n]), pid, ss[n].id, ss[n].size, k, WithPlaced(s, pid, ss));
    }
  }

  lemma PlacedLast(s: State, pid: nat, ss: seq<SwapSegment>) returns (k: nat, g: Segment)
    requires pid in s.procs && ss != [] && |PlaceAll(s.holes, s.best, ss).0| == |ss|
    ensures |PlaceAll(s.holes, s.best, ss[..|ss| - 1]).0| == |ss| - 1
    ensures var m, last := WithPlaced(s, pid, ss[..|ss| - 1]), ss[|ss| - 1];
            k < |m.holes| && m.holes[k].size >= last.size && g == Segment(last.id, m.holes[k].base, last.size) &&
            WithPlaced(s, pid, ss) == WithSegment(m.(holes := Occupy(m.holes, k, last.size)), pid, g)
  {
    var n := |ss| - 1;
    var r := PlaceAll(s.holes, s.best, ss[..n]);
    k := Choose(r.1, s.best, ss[n].size).value;
    g := Segment(ss[n].id, r.1[k].base, ss[n].size);
    assert Rebuilt(r.0 + [r.1[k].base], ss) == Rebuilt(r.0, ss[..n]) + [g];
    var m := WithPlaced(s, pid, ss[..n]);
    var t := WithPlaced(s, pid, ss);
    assert t.procs[pid].table == m.procs[pid].table + [g];
    assert t.procs == m.procs[pid := m.procs[pid].(table := m.procs[pid].table + [g])];
  }

  // ----------------------------------------------------------- resuming

  lemma ResumedUntouched(s: State, pid: nat, t: State, ok: bool, q: nat)
    requires Inv(s) && pid in s.procs && ResumedStep(s, pid, t, ok) && q in s.procs
    ensures TableImage(t.flat, s.procs[q].table) == TableImage(s.flat, s.procs[q].table)
  {
    var ss := s.procs[pid].suspended;
    assert Sized(s.swap, ss);
    PlaceAllTakes(s.holes, s.best, ss);
    forall a | 0 <= a < |s.flat| && InTable(s.procs[q].table, a) ensures t.flat[a] == s.flat[a] {
      TableNotFree(s, q, a);
    }
    TableImageSame(s.flat, t.flat, s.procs[q].table);
  }

  lemma SamePartition(s: State, t: State)
    requires Partition(s) && t.holes == s.holes && |t.flat| == |s.flat| && t.procs.Keys == s.procs.Keys
    requires forall p :: p in s.procs ==> t.procs[p].table == s.procs[p].table
    ensures Partition(t)
  {
    assert forall k :: IsRef(t, k) <==> IsRef(s, k);
    assert forall k :: IsRef(t, k) ==> At(t, k) == At(s, k);
    forall a | Used(s, a) ensures Used(t, a) {
      var k := UsedAt(s, a);
      assert IsRef(t, k) && At(t, k).Has(a);
    }
  }

  lemma ResumedInv(s: State, pid: nat, t: State)
    requires Inv(s) && pid in s.procs && ResumedStep(s, pid, t, true)
    ensures Inv(t)
  {
    hide Conserved, Partition, BlocksFor;
    var ss := s.procs[pid].suspended;
    assert Sized(s.swap, ss);
    PlaceAllPartition(s, pid, ss);
    SamePartition(WithPlaced(s, pid, ss), t);
    ReturnedConserved(s, pid, t);
    forall p | p in t.procs ensures Sized(t.swap, t.procs[p].suspended) {
      if p != pid { assert Sized(s.swap, s.procs[p].suspended); }
    }
  }

  /** Resumption brings back what swap kept, whole and in order, wherever the segments land. */
  lemma ResumedImages(s: State, pid: nat, t: State, q: nat)
    requires Inv(s) && pid in s.procs && ResumedStep(s, pid, t, true) && q in s.procs
    ensures q in t.procs
    ensures q != pid ==> SameImage(s, t, q)
    ensures q == pid ==> ImageOf(t, q) == Image(ImageOf(s, q).table + ImageOf(s, q).suspended, [])
  {
    ResumedUntouched(s, pid, t, true, q);
    if q == pid { BackInTable(s, pid, t); }
  }

  lemma BackInTable(s: State, pid: nat, t: State)
    requires pid in s.procs && ResumedStep(s, pid, t, true)
    requires TableImage(t.flat, s.procs[pid].table) == TableImage(s.flat, s.procs[pid].table)
    ensures ImageOf(t, pid) == Image(ImageOf(s, pid).table + ImageOf(s, pid).suspended, [])
  {
    var p := s.procs[pid];
    var bases := PlaceAll(s.holes, s.best, p.suspended).0;
    var new_ := Rebuilt(bases, p.suspended);
    assert TableImage(t.flat, new_) == SwapImage(s.swap.disk, p.suspended);
    assert TableImage(t.flat, p.table + new_) == TableImage(t.flat, p.table) + TableImage(t.flat, new_);
  }

  /** Suspending and later resuming gives a process its memory back: same ids, sizes, order and bytes,
      whatever happened to the rest of the machine in between. */
  lemma SuspendResumeRoundTrip(s: State, pid: nat, t: State, u: State, v: State)
    requires Inv(s) && pid in s.procs && s.procs[pid].suspended == []
    requires SuspendedStep(s, pid, t, true)
    requires Inv(u) && pid in u.procs && pid in t.procs && ImageOf(u, pid) == ImageOf(t, pid)
    requires ResumedStep(u, pid, v, true)
    ensures pid in v.procs && ImageOf(v, pid) == ImageOf(s, pid)
  {
    SuspendedImages(s, pid, t, pid);
    ResumedImages(u, pid, v, pid);
    assert ImageOf(s, pid).suspended == [];
    assert [] + ImageOf(s, pid).table == ImageOf(s, pid).table;
  }

  // ----------------------------------------------------------- when a failure does no harm

  lemma {:induction false} BlocksNeededGrows(table: seq<Segment>, blockSize: nat, i: nat, j: nat)
    requires blockSize > 0 && i <= j <= |table|
    ensures BlocksNeeded(table[..i], blockSize) <= BlocksNeeded(table[..j], blockSize)
    decreases j - i
  {
    if i < j {
      assert table[..j][..j - 1] == table[..j - 1];
      BlocksNeededGrows(table, blockSize, i, j - 1);
    }
  }

  /** The whole table fits in free swap, or not even its first segment does. */
  predicate SuspendSafe(s: State, pid: nat) {
    pid in s.procs && s.swap.connected && s.swap.blockSize > 0 && s.procs[pid].table != [] ==>
      || BlocksNeeded(s.procs[pid].table, s.swap.blockSize) <= |s.swap.free|
      || BlocksFor(s.procs[pid].table[0].limit, s.swap.blockSize) > |s.swap.free|
  }

  lemma NothingReleased(s: State, pid: nat, t: State)
    requires Inv(s) && pid in s.procs && s.swap.connected
    requires RunsOutAt(s, pid, 0) && SuspendedPart(s, pid, 0, t)
    ensures t == s
  {
    assert s.procs[pid].table[..0] == [];
    CanonicalUnique(t.holes, s.holes);
    assert s.swap.free[0..] + s.swap.free[..0] == s.swap.free;
    assert t.swap.disk == s.swap.disk;
  }

  lemma ReleasedButKept(s: State, pid: nat, n: nat, t: State)
    requires Inv(s) && pid in s.procs && s.swap.connected && 0 < n <= |s.procs[pid].table|
    requires BlocksNeeded(s.procs[pid].table[..n], s.swap.blockSize) <= |s.swap.free|
    requires SuspendedPart(s, pid, n, t)
    ensures !Inv(t)
  {
    var table := s.procs[pid].table;
    var k := Ref(pid, 0);
    assert IsRef(s, k) && At(s, k) == table[0] == table[..n][0] && table[0].limit > 0;
    assert InTable(table[..n], table[0].base);
    assert IsRef(t, k) && At(t, k).Has(table[0].base) && IsFree(t.holes, table[0].base);
  }

  /** Exactly when `op_suspender_proceso` leaves a sound state behind: unless some but not all of
      the segments fit in swap. */
  lemma SuspendKeepsInvIff(s: State, pid: nat, t: State, ok: bool)
    requires Inv(s) && SuspendedStep(s, pid, t, ok)
    ensures Inv(t) <==> SuspendSafe(s, pid)
  {
    hide Inv, SuspendedAll, SuspendedPart, BlocksFor;
    InvSwap(s);
    if pid in s.procs && s.swap.connected {
      var table, bs := s.procs[pid].table, s.swap.blockSize;
      if BlocksNeeded(table, bs) <= |s.swap.free| {
        SuspendedInv(s, pid, t);
      } else {
        var n :| RunsOutAt(s, pid, n) && SuspendedPart(s, pid, n, t);
        assert table[..1][..0] == [] && table[..1][0] == table[0];
        assert BlocksNeeded(table[..1], bs) == BlocksFor(table[0].limit, bs);
        if n == 0 {
          NothingReleased(s, pid, t);
        } else {
          BlocksNeededGrows(table, bs, 1, n);
          ReleasedButKept(s, pid, n, t);
        }
      }
    }
  }

  /** Every suspended segment finds a hole in turn, or not even the first one does. */
  predicate ResumeSafe(s: State, pid: nat) {
    pid in s.procs && s.procs[pid].suspended != [] ==>
      || |PlaceAll(s.holes, s.best, s.procs[pid].suspended).0| == |s.procs[pid].suspended|
      || Choose(s.holes, s.best, s.procs[pid].suspended[0].size).None?
  }

  lemma {:induction false} PlacesNone(hs: seq<Hole>, best: bool, ss: seq<SwapSegment>)
    requires ss != []
    ensures |PlaceAll(hs, best, ss).0| == 0 <==> Choose(hs, best, ss[0].size).None?
  {
    var n := |ss| - 1;
    if n == 0 {
      assert ss[..0] == [];
    } else {
      PlacesNone(hs, best, ss[..n]);
    }
  }

  lemma BlocksForPositive(size: nat, blockSize: nat)
    requires size > 0 && blockSize > 0
    ensures BlocksFor(size, blockSize) > 0
  {
    assert (size + blockSize - 1) / blockSize >= blockSize / blockSize == 1;
  }

  /** Exactly when `op_reanudar_proceso` leaves a sound state behind: unless some but not all of
      the segments found a hole. */
  lemma ResumeKeepsInvIff(s: State, pid: nat, t: State, ok: bool)
    requires Inv(s) && ResumedStep(s, pid, t, ok)
    ensures Inv(t) <==> ResumeSafe(s, pid)
  {
    if pid in s.procs {
      var ss := s.procs[pid].suspended;
      var bases := PlaceAll(s.holes, s.best, ss).0;
      if ok {
        ResumedInv(s, pid, t);
      } else {
        PlacesNone(s.holes, s.best, ss);
        if bases == [] {
          assert ss[..0] == [];
          assert t.flat == s.flat;
          assert t == s;
        } else {
          assert Sized(s.swap, ss) && ss[0] in ss;
          BlocksForPositive(ss[0].size, s.swap.blockSize);
          var b := ss[0].blocks[0];
          BlocksOfMember(ss, 0, b);
          assert ss[..|bases|][0] == ss[0];
          BlocksOfMember(ss[..|bases|], 0, b);
          assert Holds(t, pid, b) && b in t.swap.free;
        }
      }
    }
  }
}
