/** Compaction keeps the partition and every process's memory, and makes allocation complete. */
module Compaction {
  import opened Holes
  import opened Memory
  import opened Partitions

  // ----------------------------------------------------------- sums over prefixes

  lemma PrefixStep(hs: seq<Hole>, i: nat)
    requires i < |hs|
    ensures TotalSize(hs[..i + 1]) == TotalSize(hs[..i]) + hs[i].size
  {
    assert hs[..i + 1][..i] == hs[..i];
  }

  lemma {:induction false} PrefixMonotone(hs: seq<Hole>, i: nat, j: nat)
    requires i <= j <= |hs|
    ensures TotalSize(hs[..i]) <= TotalSize(hs[..j])
    decreases j - i
  {
    if i < j {
      PrefixStep(hs, j - 1);
      PrefixMonotone(hs, i, j - 1);
    }
  }

  lemma {:induction false} PrefixHolding(hs: seq<Hole>, a: int, n: nat) returns (i: nat)
    requires n <= |hs| && 0 <= a < TotalSize(hs[..n])
    ensures i < n && TotalSize(hs[..i]) <= a < TotalSize(hs[..i]) + hs[i].size
    decreases n
  {
    PrefixStep(hs, n - 1);
    if TotalSize(hs[..n - 1]) <= a { i := n - 1; } else { i := PrefixHolding(hs, a, n - 1); }
  }

  // ----------------------------------------------------------- segments in address order

  lemma SpansOrdered(s: State, keys: seq<Ref>)
    requires Partition(s) && Enumerates(s, keys)
    ensures Ordered(Spans(s, keys))
    ensures keys != [] ==> Spans(s, keys)[|keys| - 1].End() <= |s.flat|
  {
    forall i, j | 0 <= i < j < |keys| ensures Spans(s, keys)[i].End() <= Spans(s, keys)[j].base {
      assert IsRef(s, keys[i]) && IsRef(s, keys[j]) && keys[i] != keys[j];
      assert Apart(At(s, keys[i]), At(s, keys[j]));
    }
    forall i | 0 <= i < |keys| ensures Spans(s, keys)[i].size > 0 && Spans(s, keys)[i].End() <= |s.flat| {
      assert IsRef(s, keys[i]);
    }
  }

  lemma SpansAddresses(s: State, keys: seq<Ref>, a: int)
    requires Enumerates(s, keys)
    ensures IsFree(Spans(s, keys), a) <==> Used(s, a)
  {
    var hs := Spans(s, keys);
    if IsFree(hs, a) {
      var i := FreeAt(hs, a);
      assert IsRef(s, keys[i]) && At(s, keys[i]).Has(a);
    }
    if Used(s, a) {
      var k := UsedAt(s, a);
      var i :| 0 <= i < |keys| && keys[i] == k;
      assert hs[i].Has(a);
    }
  }

  lemma FreeAndUsed(s: State, keys: seq<Ref>)
    requires Partition(s) && Enumerates(s, keys)
    ensures FreeBelow(Spans(s, keys), |s.flat|) !! FreeBelow(s.holes, |s.flat|)
    ensures FreeBelow(Spans(s, keys), |s.flat|) + FreeBelow(s.holes, |s.flat|) == Addresses(Hole(0, |s.flat|))
  {
    var n := |s.flat|;
    var hs := Spans(s, keys);
    forall a ensures IsFree(hs, a) <==> Used(s, a) { SpansAddresses(s, keys, a); }
    forall a | Used(s, a) ensures !IsFree(s.holes, a) { var k := UsedAt(s, a); }
    forall a ensures a in FreeBelow(hs, n) + FreeBelow(s.holes, n) <==> a in Addresses(Hole(0, n)) {
      assert Hole(0, n).Has(a) <==> 0 <= a < n;
    }
  }

  /** Bytes in segments and bytes in holes add up to the whole memory. */
  lemma Accounting(s: State, keys: seq<Ref>)
    requires Partition(s) && Enumerates(s, keys)
    ensures TotalSize(Spans(s, keys)) + TotalSize(s.holes) == |s.flat|
  {
    var n := |s.flat|;
    SpansOrdered(s, keys);
    FreeAndUsed(s, keys);
    if s.holes != [] { assert s.holes[|s.holes| - 1] in s.holes; }
    hide FreeBelow, Addresses, TotalSize;
    TotalSizeCounts(Spans(s, keys), n);
    TotalSizeCounts(s.holes, n);
    AddressesCount(Hole(0, n));
    DisjointSizes(FreeBelow(Spans(s, keys), n), FreeBelow(s.holes, n));
  }

  // ----------------------------------------------------------- the compacted state

  lemma CompactedRefs(s: State, keys: seq<Ref>, t: State)
    requires CompactedBy(s, keys, t)
    ensures forall k :: IsRef(t, k) <==> IsRef(s, k)
    ensures forall k :: IsRef(t, k) ==> exists i :: 0 <= i < |keys| && keys[i] == k
  {
    forall k | IsRef(s, k) ensures exists i :: 0 <= i < |keys| && keys[i] == k { assert k in keys; }
  }

  lemma PackedApart(s: State, keys: seq<Ref>, t: State, i: nat, j: nat)
    requires CompactedBy(s, keys, t) && i < j < |keys|
    ensures At(t, keys[i]).End() <= At(t, keys[j]).base
  {
    PrefixStep(Spans(s, keys), i);
    PrefixMonotone(Spans(s, keys), i + 1, j);
  }

  lemma PackedBounds(s: State, keys: seq<Ref>, t: State, i: nat)
    requires CompactedBy(s, keys, t) && i < |keys|
    ensures At(t, keys[i]).End() <= TotalSize(Spans(s, keys))
  {
    var hs := Spans(s, keys);
    PrefixStep(hs, i);
    PrefixMonotone(hs, i + 1, |hs|);
    assert hs[..|hs|] == hs;
  }

  lemma CompactedShape(s: State, keys: seq<Ref>, t: State)
    requires CompactedBy(s, keys, t)
    ensures t.holes == TopHole(TotalSize(Spans(s, keys)), |s.flat|) && |t.flat| == |s.flat|
    ensures |Spans(s, keys)| == |keys| && forall i :: 0 <= i < |keys| ==>
              IsRef(s, keys[i]) && IsRef(t, keys[i]) && Spans(s, keys)[i].size == At(s, keys[i]).limit &&
              At(t, keys[i]).limit == At(s, keys[i]).limit && At(t, keys[i]).base == TotalSize(Spans(s, keys)[..i])
  {
  }

  lemma PackedSegments(s: State, keys: seq<Ref>, t: State)
    requires Partition(s) && CompactedBy(s, keys, t)
    ensures forall k :: IsRef(t, k) ==> At(t, k).limit > 0 && At(t, k).End() <= TotalSize(Spans(s, keys))
    ensures forall k, j :: IsRef(t, k) && IsRef(t, j) && k != j ==> Apart(At(t, k), At(t, j))
  {
    hide CompactedBy, TotalSize, Enumerates;
    CompactedRefs(s, keys, t);
    CompactedShape(s, keys, t);
    forall k | IsRef(t, k) ensures At(t, k).limit > 0 && At(t, k).End() <= TotalSize(Spans(s, keys)) {
      var i :| 0 <= i < |keys| && keys[i] == k;
      PackedBounds(s, keys, t, i);
      assert IsRef(s, k) && At(s, k).limit > 0;
    }
    forall k, j | IsRef(t, k) && IsRef(t, j) && k != j ensures Apart(At(t, k), At(t, j)) {
      var x :| 0 <= x < |keys| && keys[x] == k;
      var y :| 0 <= y < |keys| && keys[y] == j;
      if x < y { PackedApart(s, keys, t, x, y); } else { PackedApart(s, keys, t, y, x); }
    }
  }

  lemma PackedCover(s: State, keys: seq<Ref>, t: State, a: int)
    requires CompactedBy(s, keys, t) && 0 <= a < TotalSize(Spans(s, keys))
    ensures Used(t, a)
  {
    var hs := Spans(s, keys);
    CompactedShape(s, keys, t);
    assert hs[..|hs|] == hs;
    hide TotalSize, Spans, CompactedBy, Enumerates;
    var i := PrefixHolding(hs, a, |hs|);
    assert IsRef(t, keys[i]) && At(t, keys[i]).Has(a);
  }

  lemma CompactedPartition(s: State, keys: seq<Ref>, t: State)
    requires Partition(s) && CompactedBy(s, keys, t)
    ensures Partition(t)
  {
    var used := TotalSize(Spans(s, keys));
    Accounting(s, keys);
    PackedSegments(s, keys, t);
    CompactedShape(s, keys, t);
    TopHoleFree(used, |s.flat|);
    forall a | 0 <= a < used ensures Used(t, a) { PackedCover(s, keys, t, a); }
    hide TotalSize, Spans, CompactedBy, Enumerates, Used, IsFree, Canonical, TopHole;
    forall k, a | IsRef(t, k) && At(t, k).Has(a) ensures !IsFree(t.holes, a) {
      assert At(t, k).End() <= used;
    }
  }

  lemma TopHoleFree(used: nat, total: nat)
    requires used <= total
    ensures Canonical(TopHole(used, total))
    ensures forall h :: h in TopHole(used, total) ==> h.End() <= total
    ensures forall a :: IsFree(TopHole(used, total), a) <==> used <= a < total
  {
    forall a | used <= a < total ensures IsFree(TopHole(used, total), a) {
      assert TopHole(used, total)[0].Has(a);
    }
  }

  /** Compaction gathers all the free bytes, and only those, in at most one hole. */
  lemma CompactedFree(s: State, t: State)
    requires Partition(s) && Compacted(s, t)
    ensures TotalSize(t.holes) == TotalSize(s.holes)
    ensures TotalSize(s.holes) <= |s.flat| && t.holes == TopHole(|s.flat| - TotalSize(s.holes), |s.flat|)
  {
    var keys :| CompactedBy(s, keys, t);
    Accounting(s, keys);
    if t.holes != [] { assert t.holes[..0] == []; }
  }

  lemma {:induction false} PrefixBelow(hs: seq<Hole>, i: nat)
    requires Ordered(hs) && i < |hs|
    ensures TotalSize(hs[..i]) <= hs[i].base
    decreases i
  {
    if i == 0 {
      assert hs[..0] == [];
    } else {
      PrefixBelow(hs, i - 1);
      PrefixStep(hs, i - 1);
      assert hs[i - 1].End() <= hs[i].base;
    }
  }

  /** Segments only slide down. */
  lemma SlidesDown(s: State, t: State, k: Ref)
    requires Partition(s) && Compacted(s, t) && IsRef(s, k)
    ensures IsRef(t, k) && At(t, k).base <= At(s, k).base
  {
    var keys :| CompactedBy(s, keys, t);
    assert k in keys;
    var i :| 0 <= i < |keys| && keys[i] == k;
    SpansOrdered(s, keys);
    PrefixBelow(Spans(s, keys), i);
  }

  /** Segments keep their address order. */
  lemma OrderKept(s: State, t: State, k: Ref, j: Ref)
    requires Partition(s) && Compacted(s, t) && IsRef(s, k) && IsRef(s, j)
    ensures IsRef(t, k) && IsRef(t, j)
    ensures At(s, k).base < At(s, j).base <==> At(t, k).base < At(t, j).base
  {
    var keys :| CompactedBy(s, keys, t);
    CompactedRefs(s, keys, t);
    var x :| 0 <= x < |keys| && keys[x] == k;
    var y :| 0 <= y < |keys| && keys[y] == j;
    assert At(s, keys[x]).limit > 0 && At(s, keys[y]).limit > 0;
    if x < y { PackedApart(s, keys, t, x, y); }
    if y < x { PackedApart(s, keys, t, y, x); }
  }

  /** No process can tell that memory was compacted. */
  lemma CompactedImages(s: State, t: State, q: nat)
    requires Compacted(s, t)
    ensures SameImage(s, t, q)
  {
    hide TotalSize;
    var keys :| CompactedBy(s, keys, t);
    if q in s.procs {
      var a, b := s.procs[q].table, t.procs[q].table;
      forall i | 0 <= i < |a| ensures b[i].id == a[i].id && Bytes(t.flat, b[i]) == Bytes(s.flat, a[i]) {
        assert IsRef(s, Ref(q, i)) && At(s, Ref(q, i)) == a[i];
        assert Ref(q, i) in keys;
        var x :| 0 <= x < |keys| && keys[x] == Ref(q, i);
        assert At(t, keys[x]) == b[i];
      }
      assert TableImage(t.flat, b) == TableImage(s.flat, a);
    }
  }
}
