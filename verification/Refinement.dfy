/** Facts about memory states that the handlers of KernelMemory.dfy lean on, one turn of a loop at a time. */
module Refinement {
  import opened Common
  import opened Holes
  import opened Memory
  import opened Compaction
  import opened Kernel
  import opened Isa
  import Sticks

  lemma InitialInv(maxSegment: nat, best: bool)
    requires 0 < maxSegment < 0x8000_0000
    ensures Inv(Initial(maxSegment, best))
  {
  }

  lemma InvBounds(s: State)
    requires Inv(s)
    ensures Canonical(s.holes)
    ensures forall a :: IsFree(s.holes, a) ==> a < |s.flat|
  {
    forall a | IsFree(s.holes, a) ensures a < |s.flat| {
      var i := FreeAt(s.holes, a);
      assert s.holes[i] in s.holes;
    }
  }

  lemma SegmentNotFree(s: State, pid: nat, i: nat)
    requires Inv(s) && pid in s.procs && i < |s.procs[pid].table|
    ensures var g := s.procs[pid].table[i];
            g.limit > 0 && g.End() <= |s.flat| && forall a :: g.Has(a) ==> !IsFree(s.holes, a)
    ensures Canonical(s.holes)
  {
    var k := Ref(pid, i);
    assert IsRef(s, k) && At(s, k) == s.procs[pid].table[i];
  }

  lemma StoredInv(s: State, pid: nat, regs: Registers, table: seq<Segment>, t: State, ok: bool)
    requires Inv(s) && ContextStored(s, pid, regs, table, t, ok)
    requires pid in s.procs ==> table == s.procs[pid].table
    ensures Inv(t)
  {
    RewrittenInv(s, t);
  }

  // ----------------------------------------------------------- collecting and sorting segments

  predicate AllKnown(procs: map<nat, Process>, keys: seq<Ref>) {
    forall k :: k in keys ==> Known(procs, k)
  }

  function RefsOf(pid: nat, n: nat): seq<Ref> {
    seq(n, i requires 0 <= i < n => Ref(pid, i))
  }

  function InsertKey(procs: map<nat, Process>, keys: seq<Ref>, k: Ref): (r: seq<Ref>)
    requires AllKnown(procs, keys) && Known(procs, k)
    ensures forall x :: x in r <==> x in keys || x == k
  {
    if keys == [] || Named(procs, keys[|keys| - 1]).base <= Named(procs, k).base then keys + [k]
    else
      var front, last := keys[..|keys| - 1], keys[|keys| - 1];
      assert keys == front + [last];
      InsertKey(procs, front, k) + [last]
  }

  /** `list_sort(g_segs_compactar, cmp_segs_base)`. */
  function SortKeys(procs: map<nat, Process>, keys: seq<Ref>): (r: seq<Ref>)
    requires AllKnown(procs, keys)
    ensures forall x :: x in r <==> x in keys
  {
    if keys == [] then []
    else
      var front, last := keys[..|keys| - 1], keys[|keys| - 1];
      assert keys == front + [last];
      InsertKey(procs, SortKeys(procs, front), last)
  }

  ghost predicate Ascending(procs: map<nat, Process>, keys: seq<Ref>) {
    && AllKnown(procs, keys)
    && forall i, j :: 0 <= i < j < |keys| ==> Named(procs, keys[i]).base < Named(procs, keys[j]).base
  }

  lemma AscendAppend(procs: map<nat, Process>, keys: seq<Ref>, k: Ref)
    requires Ascending(procs, keys) && Known(procs, k)
    requires forall x :: x in keys ==> Named(procs, x).base < Named(procs, k).base
    ensures Ascending(procs, keys + [k])
  {
  }

  lemma AscendFront(procs: map<nat, Process>, keys: seq<Ref>)
    requires Ascending(procs, keys) && keys != []
    ensures var front, last := keys[..|keys| - 1], keys[|keys| - 1];
            && Ascending(procs, front) && Known(procs, last) && keys == front + [last]
            && forall x :: x in front ==> Known(procs, x) && Named(procs, x).base < Named(procs, last).base
  {
  }

  lemma {:induction false} InsertAscends(procs: map<nat, Process>, keys: seq<Ref>, k: Ref)
    requires Ascending(procs, keys) && Known(procs, k)
    requires forall x :: x in keys ==> Known(procs, x) && Named(procs, x).base != Named(procs, k).base
    ensures AllKnown(procs, keys) && Ascending(procs, InsertKey(procs, keys, k))
  {
    if keys == [] {
      AscendAppend(procs, keys, k);
    } else {
      AscendFront(procs, keys);
      var front, last := keys[..|keys| - 1], keys[|keys| - 1];
      assert last in keys;
      if Named(procs, last).base <= Named(procs, k).base {
        AscendAppend(procs, keys, k);
      } else {
        InsertAscends(procs, front, k);
        AscendAppend(procs, InsertKey(procs, front, k), last);
      }
    }
  }

  lemma {:induction false} SortAscends(procs: map<nat, Process>, keys: seq<Ref>)
    requires AllKnown(procs, keys) && NoDup(keys)
    requires forall x, y :: x in keys && y in keys && x != y ==> Named(procs, x).base != Named(procs, y).base
    ensures Ascending(procs, SortKeys(procs, keys))
  {
    if keys != [] {
      var front, last := keys[..|keys| - 1], keys[|keys| - 1];
      assert keys == front + [last];
      SortAscends(procs, front);
      InsertAscends(procs, SortKeys(procs, front), last);
    }
  }

  lemma SortEnumerates(s: State, keys: seq<Ref>)
    requires Partition(s) && NoDup(keys) && forall k :: k in keys <==> IsRef(s, k)
    ensures AllKnown(s.procs, keys) && Enumerates(s, SortKeys(s.procs, keys))
  {
    forall x, y | x in keys && y in keys && x != y ensures Named(s.procs, x).base != Named(s.procs, y).base {
      assert IsRef(s, x) && IsRef(s, y) && Apart(At(s, x), At(s, y));
    }
    SortAscends(s.procs, keys);
  }

  // ----------------------------------------------------------- sliding segments down

  /** One turn of the compaction loop. */
  function Moved(m: State, k: Ref, offset: nat): State
    requires IsRef(m, k)
  {
    var g := At(m, k);
    if g.base == offset then m
    else
      var table := m.procs[k.pid].table[k.index := g.(base := offset)];
      m.(flat := Sticks.Overwrite(m.flat, offset, Bytes(m.flat, g)),
         procs := m.procs[k.pid := m.procs[k.pid].(table := table)])
  }

  /** Where the segment number `i` goes: the total size of those before it. */
  function Packed(s: State, keys: seq<Ref>, i: nat): nat
    requires Enumerates(s, keys) && i <= |keys|
  {
    TotalSize(Spans(s, keys)[..i])
  }

  /** The first `i` segments are packed, the rest of memory and of the tables is as it was. */
  ghost predicate Slid(s: State, keys: seq<Ref>, i: nat, m: State)
    requires Enumerates(s, keys) && i <= |keys|
  {
    && SameTables(s, m) && m.holes == s.holes
    && (forall j :: 0 <= j < |keys| ==> IsRef(m, keys[j]))
    && (forall j :: 0 <= j < i ==>
          && At(m, keys[j]) == At(s, keys[j]).(base := Packed(s, keys, j))
          && Bytes(m.flat, At(m, keys[j])) == Bytes(s.flat, At(s, keys[j])))
    && (forall j :: i <= j < |keys| ==> At(m, keys[j]) == At(s, keys[j]))
    && (forall a :: Packed(s, keys, i) <= a < |s.flat| ==> m.flat[a] == s.flat[a])
  }

  lemma SlidNone(s: State, keys: seq<Ref>)
    requires Enumerates(s, keys)
    ensures Slid(s, keys, 0, s) && Packed(s, keys, 0) == 0
  {
    assert Spans(s, keys)[..0] == [];
  }

  lemma MovedTables(s: State, keys: seq<Ref>, i: nat, m: State, offset: nat)
    requires Enumerates(s, keys) && i < |keys| && Slid(s, keys, i, m)
    ensures var n := Moved(m, keys[i], offset);
            && SameTables(s, n) && n.holes == s.holes
            && IsRef(n, keys[i]) && At(n, keys[i]) == At(s, keys[i]).(base := offset)
            && forall j :: 0 <= j < |keys| ==> IsRef(n, keys[j]) && (j != i ==> At(n, keys[j]) == At(m, keys[j]))
  {
    hide Packed, Bytes;
    forall j | 0 <= j < |keys| && j != i ensures keys[j] != keys[i] {
      if j < i { assert At(s, keys[j]).base < At(s, keys[i]).base; }
    }
  }

  lemma PackedStep(s: State, keys: seq<Ref>, i: nat)
    requires Enumerates(s, keys) && i < |keys|
    ensures Packed(s, keys, i + 1) == Packed(s, keys, i) + At(s, keys[i]).limit
  {
    hide TotalSize;
    PrefixStep(Spans(s, keys), i);
  }

  lemma PackedBefore(s: State, keys: seq<Ref>, j: nat, i: nat)
    requires Enumerates(s, keys) && j < i <= |keys|
    ensures Packed(s, keys, j) + At(s, keys[j]).limit <= Packed(s, keys, i)
  {
    hide TotalSize;
    PackedStep(s, keys, j);
    PrefixMonotone(Spans(s, keys), j + 1, i);
  }

  lemma PackedBelow(s: State, keys: seq<Ref>, i: nat)
    requires Partition(s) && Enumerates(s, keys) && i < |keys|
    ensures Packed(s, keys, i) <= At(s, keys[i]).base && At(s, keys[i]).End() <= |s.flat|
  {
    hide TotalSize;
    SpansOrdered(s, keys);
    PrefixBelow(Spans(s, keys), i);
    assert IsRef(s, keys[i]);
  }

  /** The copy lands below everything still to be moved, and its source is still intact. */
  lemma SlideRoom(s: State, keys: seq<Ref>, i: nat)
    requires Partition(s) && Enumerates(s, keys) && i < |keys|
    ensures Packed(s, keys, i) <= At(s, keys[i]).base && At(s, keys[i]).End() <= |s.flat|
    ensures Packed(s, keys, i + 1) == Packed(s, keys, i) + At(s, keys[i]).limit
    ensures forall j :: 0 <= j < i ==> Packed(s, keys, j) + At(s, keys[j]).limit <= Packed(s, keys, i)
    ensures forall j :: i < j < |keys| ==> Packed(s, keys, i + 1) <= At(s, keys[j]).base
  {
    hide Partition, Packed;
    PackedBelow(s, keys, i);
    PackedStep(s, keys, i);
    forall j | i < j < |keys| ensures Packed(s, keys, i + 1) <= At(s, keys[j]).base {
      PackedBelow(s, keys, j);
      PackedBefore(s, keys, i, j);
    }
    forall j | 0 <= j < i ensures Packed(s, keys, j) + At(s, keys[j]).limit <= Packed(s, keys, i) {
      PackedBefore(s, keys, j, i);
    }
  }

  lemma MovedBytes(flat: seq<byte>, g: Segment, offset: nat, h: Segment)
    requires offset <= g.base && g.End() <= |flat|
    ensures var new_ := Sticks.Overwrite(flat, offset, Bytes(flat, g));
            && Bytes(new_, g.(base := offset)) == Bytes(flat, g)
            && (h.End() <= offset ==> Bytes(new_, h) == Bytes(flat, h))
            && forall a :: offset + g.limit <= a < |flat| ==> new_[a] == flat[a]
  {
  }

  lemma SlideOne(s: State, keys: seq<Ref>, i: nat, m: State)
    requires Partition(s) && Enumerates(s, keys) && i < |keys| && Slid(s, keys, i, m)
    ensures Slid(s, keys, i + 1, Moved(m, keys[i], Packed(s, keys, i)))
  {
    hide Partition, Packed, Enumerates, Bytes;
    var offset := Packed(s, keys, i);
    var n := Moved(m, keys[i], offset);
    MovedTables(s, keys, i, m, offset);
    SlideRoom(s, keys, i);
    var g := At(s, keys[i]);
    StillThere(s, m, g, offset);
    MovedBytes(m.flat, g, offset, g);
    forall j | 0 <= j < i ensures Bytes(n.flat, At(n, keys[j])) == Bytes(s.flat, At(s, keys[j])) {
      MovedBytes(m.flat, g, offset, At(m, keys[j]));
    }
  }

  lemma StillThere(s: State, m: State, g: Segment, from: nat)
    requires |m.flat| == |s.flat| && from <= g.base && forall a :: from <= a < |s.flat| ==> m.flat[a] == s.flat[a]
    ensures Bytes(m.flat, g) == Bytes(s.flat, g)
  {
  }

  lemma SlideTurn(s: State, keys: seq<Ref>, i: nat, m: State)
    requires Partition(s) && Enumerates(s, keys) && i < |keys| && Slid(s, keys, i, m)
    ensures Known(m.procs, keys[i]) && Named(m.procs, keys[i]).End() <= |m.flat|
    ensures Slid(s, keys, i + 1, Moved(m, keys[i], Packed(s, keys, i)))
    ensures Packed(s, keys, i + 1) == Packed(s, keys, i) + Named(m.procs, keys[i]).limit
  {
    SlideRoom(s, keys, i);
    SlideOne(s, keys, i, m);
    assert IsRef(s, keys[i]);
  }

  lemma SlidSize(s: State, keys: seq<Ref>, m: State)
    requires Enumerates(s, keys) && Slid(s, keys, |keys|, m)
    ensures |m.flat| == |s.flat|
  {
  }

  lemma SlidAll(s: State, keys: seq<Ref>, m: State, t: State)
    requires Enumerates(s, keys) && Slid(s, keys, |keys|, m)
    requires t == m.(holes := TopHole(Packed(s, keys, |keys|), |s.flat|))
    ensures CompactedBy(s, keys, t)
  {
    assert Spans(s, keys)[..|keys|] == Spans(s, keys);
  }
}
