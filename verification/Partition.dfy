/** Every operation keeps holes and segments a partition of physical memory. */
module Partitions {
  import opened Common
  import opened Holes
  import opened Memory

  lemma UsedAt(s: State, a: int) returns (k: Ref)
    requires Used(s, a)
    ensures IsRef(s, k) && At(s, k).Has(a)
  {
    k :| IsRef(s, k) && At(s, k).Has(a);
  }

  lemma ApartIfDisjoint(g: Segment, h: Segment)
    requires g.limit > 0 && h.limit > 0 && forall a :: h.Has(a) ==> !g.Has(a)
    ensures Apart(g, h)
  {
    var a := if g.base < h.base then h.base else g.base;
    assert h.Has(a) ==> !g.Has(a);
  }

  // ----------------------------------------------------------- placing a segment

  lemma OccupyEnds(hs: seq<Hole>, k: nat, size: nat)
    requires k < |hs| && size <= hs[k].size
    ensures forall h :: h in Occupy(hs, k, size) ==> h in hs || h.End() == hs[k].End()
  {
  }

  lemma PlacedPartition(s: State, pid: nat, id: nat, size: nat, k: nat, t: State)
    requires Partition(s) && pid in s.procs && size > 0
    requires k < |s.holes| && s.holes[k].size >= size
    requires t == WithSegment(s.(holes := Occupy(s.holes, k, size)), pid, Segment(id, s.holes[k].base, size))
    ensures Partition(t)
  {
    hide Occupy, Canonical;
    var g := Segment(id, s.holes[k].base, size);
    var new_ := Ref(pid, |s.procs[pid].table|);
    OccupyTakes(s.holes, k, size);
    OccupyEnds(s.holes, k, size);
    assert s.holes[k] in s.holes;
    assert forall a :: g.Has(a) ==> s.holes[k].Has(a);
    assert forall j :: IsRef(t, j) && j != new_ ==> IsRef(s, j) && At(t, j) == At(s, j);
    assert IsRef(t, new_) && At(t, new_) == g;
    forall j | IsRef(s, j) ensures Apart(At(s, j), g) {
      forall a | g.Has(a) ensures !At(s, j).Has(a) { assert IsFree(s.holes, a); }
      ApartIfDisjoint(At(s, j), g);
    }
    forall a | 0 <= a < |t.flat| ensures IsFree(t.holes, a) || Used(t, a) {
      if Used(s, a) {
        var j := UsedAt(s, a);
        assert IsRef(t, j) && At(t, j).Has(a);
      }
      assert g.Has(a) ==> At(t, new_).Has(a);
    }
  }

  // ----------------------------------------------------------- giving memory back

  lemma ReleasedBounds(hs: seq<Hole>, n: nat)
    requires Canonical(hs) && forall a :: IsFree(hs, a) ==> a < n
    ensures forall h :: h in hs ==> h.End() <= n
  {
    forall h | h in hs ensures h.End() <= n {
      var i :| 0 <= i < |hs| && hs[i] == h;
      assert h.Has(h.End() - 1) && IsFree(hs, h.End() - 1);
    }
  }

  /** Where entry `j` of the shortened tables was before entry `i` of `pid` was removed. */
  function Before(j: Ref, pid: nat, i: nat): Ref {
    if j.pid == pid && j.index >= i then Ref(pid, j.index + 1) else j
  }

  /** Dropping one entry of one table: the other entries stay, each at its new place. */
  lemma RemovedRefs(s: State, pid: nat, i: nat, t: State)
    requires pid in s.procs && i < |s.procs[pid].table|
    requires t.procs == s.procs[pid := s.procs[pid].(table := RemoveAt(s.procs[pid].table, i))]
    ensures forall j :: IsRef(t, j) ==>
              Before(j, pid, i) != Ref(pid, i) && IsRef(s, Before(j, pid, i)) && At(t, j) == At(s, Before(j, pid, i))
    ensures forall j :: IsRef(s, j) && j != Ref(pid, i) ==>
              exists b :: IsRef(t, b) && Before(b, pid, i) == j
  {
    forall j | IsRef(s, j) && j != Ref(pid, i) ensures exists b :: IsRef(t, b) && Before(b, pid, i) == j {
      var b := if j.pid == pid && j.index > i then Ref(pid, j.index - 1) else j;
      assert IsRef(t, b) && Before(b, pid, i) == j;
    }
  }

  lemma FreedPartition(s: State, pid: nat, i: nat, t: State)
    requires Partition(s) && pid in s.procs && i < |s.procs[pid].table|
    requires t == s.(holes := t.holes, procs := s.procs[pid := s.procs[pid].(table := RemoveAt(s.procs[pid].table, i))])
    requires Released(s.holes, Hole(s.procs[pid].table[i].base, s.procs[pid].table[i].limit), t.holes)
    ensures Partition(t)
  {
    var gone := Ref(pid, i);
    var g := At(s, gone);
    RemovedRefs(s, pid, i, t);
    ReleasedBounds(t.holes, |t.flat|);
    forall j, k | IsRef(t, j) && IsRef(t, k) && j != k ensures Apart(At(t, j), At(t, k)) {
      assert Before(j, pid, i) != Before(k, pid, i);
    }
    forall j, a | IsRef(t, j) && At(t, j).Has(a) ensures !IsFree(t.holes, a) {
      assert Apart(At(s, Before(j, pid, i)), g);
    }
    forall a | 0 <= a < |t.flat| ensures IsFree(t.holes, a) || Used(t, a) {
      if !IsFree(t.holes, a) {
        assert !Hole(g.base, g.limit).Has(a);
        var j := UsedAt(s, a);
        var b :| IsRef(t, b) && Before(b, pid, i) == j;
        assert At(t, b).Has(a);
      }
    }
  }

  /** Emptying (or dropping) one whole table and releasing all of it. */
  lemma ClearedPartition(s: State, pid: nat, t: State)
    requires Partition(s) && pid in s.procs
    requires |t.flat| == |s.flat|
    requires forall j :: IsRef(t, j) <==> IsRef(s, j) && j.pid != pid
    requires forall j :: IsRef(t, j) ==> At(t, j) == At(s, j)
    requires ReleasedAll(s.holes, s.procs[pid].table, t.holes)
    ensures Partition(t)
  {
    var table := s.procs[pid].table;
    forall j, a | IsRef(s, j) && At(s, j).Has(a) ensures InTable(table, a) <==> j.pid == pid {
      if j.pid == pid {
        assert table[j.index] in table;
      }
      if InTable(table, a) {
        var g :| g in table && g.Has(a);
        var i :| 0 <= i < |table| && table[i] == g;
        assert At(s, Ref(pid, i)) == g;
        assert j == Ref(pid, i) || Apart(At(s, j), g);
      }
    }
    forall a | InTable(table, a) ensures a < |t.flat| {
      var g :| g in table && g.Has(a);
      var i :| 0 <= i < |table| && table[i] == g;
      assert At(s, Ref(pid, i)) == g;
    }
    ReleasedBounds(t.holes, |t.flat|);
    forall a | 0 <= a < |t.flat| ensures IsFree(t.holes, a) || Used(t, a) {
      if !IsFree(t.holes, a) {
        var j := UsedAt(s, a);
        assert IsRef(t, j);
      }
    }
  }

  lemma GrownPartition(s: State, contents: seq<byte>, t: State)
    requires Partition(s) && |contents| > 0 && StickConnected(s, contents, t)
    ensures Partition(t)
  {
    assert forall k :: IsRef(t, k) <==> IsRef(s, k);
    assert forall k :: IsRef(t, k) ==> At(t, k) == At(s, k);
    var h := Hole(|s.flat|, |contents|);
    forall a | IsFree(t.holes, a) ensures a < |t.flat| {
      if IsFree(s.holes, a) { var i := FreeAt(s.holes, a); assert s.holes[i] in s.holes; }
    }
    ReleasedBounds(t.holes, |t.flat|);
    forall a | 0 <= a < |t.flat| ensures IsFree(t.holes, a) || Used(t, a) {
      if a < |s.flat| && !IsFree(s.holes, a) {
        var k := UsedAt(s, a);
        assert IsRef(t, k) && At(t, k).Has(a);
      } else if a >= |s.flat| {
        assert h.Has(a);
      }
    }
  }
}
