/** The free list of kernel_memory/src/kernelmemory.c: holes sorted by base, fused when they touch. */
module Holes {
  import opened Common

  datatype Hole = Hole(base: nat, size: nat) {
    predicate Has(a: int) {
      base <= a < base + size
    }

    function End(): nat {
      base + size
    }
  }

  /** Address `a` is free. */
  ghost predicate IsFree(hs: seq<Hole>, a: int) {
    exists h :: h in hs && h.Has(a)
  }

  /** In address order and without overlap. */
  ghost predicate Ordered(hs: seq<Hole>) {
    && (forall i :: 0 <= i < |hs| ==> hs[i].size > 0)
    && (forall i, j :: 0 <= i < j < |hs| ==> hs[i].End() <= hs[j].base)
  }

  /** In address order, nonempty, and no two holes touch. */
  ghost predicate Canonical(hs: seq<Hole>) {
    && (forall i :: 0 <= i < |hs| ==> hs[i].size > 0)
    && (forall i, j :: 0 <= i < j < |hs| ==> hs[i].End() < hs[j].base)
  }

  ghost predicate SameAddresses(hs: seq<Hole>, gs: seq<Hole>) {
    forall a :: IsFree(hs, a) <==> IsFree(gs, a)
  }

  /** `gs` is the canonical free list of the addresses of `hs` together with those of `h`. */
  ghost predicate Released(hs: seq<Hole>, h: Hole, gs: seq<Hole>) {
    && Canonical(gs)
    && forall a :: IsFree(gs, a) <==> IsFree(hs, a) || h.Has(a)
  }

  lemma FreeAt(hs: seq<Hole>, a: int) returns (i: nat)
    requires IsFree(hs, a)
    ensures i < |hs| && hs[i].Has(a)
  {
    var h :| h in hs && h.Has(a);
    i :| i < |hs| && hs[i] == h;
  }

  // ----------------------------------------------------------- uniqueness

  lemma FirstIsLeast(hs: seq<Hole>, a: int)
    requires Ordered(hs) && IsFree(hs, a)
    ensures hs != [] && hs[0].base <= a
  {
    var i := FreeAt(hs, a);
  }

  lemma FirstGap(hs: seq<Hole>)
    requires Canonical(hs) && hs != []
    ensures IsFree(hs, hs[0].base) && !IsFree(hs, hs[0].End())
  {
    assert hs[0] in hs && hs[0].Has(hs[0].base);
    if IsFree(hs, hs[0].End()) {
      var i := FreeAt(hs, hs[0].End());
    }
  }

  lemma TailAddresses(hs: seq<Hole>, a: int)
    requires Ordered(hs) && hs != []
    ensures IsFree(hs[1..], a) <==> IsFree(hs, a) && a >= hs[0].End()
  {
    if IsFree(hs, a) && a >= hs[0].End() {
      var i := FreeAt(hs, a);
      assert hs[1..][i - 1] == hs[i];
    }
    if IsFree(hs[1..], a) {
      var i := FreeAt(hs[1..], a);
      assert hs[i + 1] in hs;
    }
  }

  /** A set of free addresses has only one canonical free list. */
  lemma {:induction false} CanonicalUnique(hs: seq<Hole>, gs: seq<Hole>)
    requires Canonical(hs) && Canonical(gs) && SameAddresses(hs, gs)
    ensures hs == gs
  {
    if hs == [] || gs == [] {
      if hs != [] { FirstGap(hs); }
      if gs != [] { FirstGap(gs); }
    } else {
      FirstGap(hs);
      FirstGap(gs);
      FirstIsLeast(hs, gs[0].base);
      FirstIsLeast(gs, hs[0].base);
      if hs[0].size < gs[0].size {
        assert gs[0] in gs && gs[0].Has(hs[0].End());
      }
      assert hs[0] == gs[0];
      forall a ensures IsFree(hs[1..], a) <==> IsFree(gs[1..], a) {
        TailAddresses(hs, a);
        TailAddresses(gs, a);
      }
      CanonicalUnique(hs[1..], gs[1..]);
      assert hs == [hs[0]] + hs[1..] && gs == [gs[0]] + gs[1..];
    }
  }

  // ----------------------------------------------------------- total size

  function TotalSize(hs: seq<Hole>): nat {
    if hs == [] then 0 else TotalSize(hs[..|hs| - 1]) + hs[|hs| - 1].size
  }

  ghost function Addresses(h: Hole): set<int> {
    set a: int | h.base <= a < h.End() && h.Has(a)
  }

  lemma {:induction false} AddressesCount(h: Hole)
    ensures |Addresses(h)| == h.size
    decreases h.size
  {
    if h.size > 0 {
      var g := Hole(h.base, h.size - 1);
      AddressesCount(g);
      forall a ensures a in Addresses(h) <==> a in Addresses(g) + {g.End()} {
        assert h.Has(a) <==> g.Has(a) || a == g.End();
      }
      assert Addresses(h) == Addresses(g) + {g.End()};
    }
  }

  ghost function FreeBelow(hs: seq<Hole>, n: nat): set<int> {
    set a: int | 0 <= a < n && IsFree(hs, a)
  }

  lemma FreeBelowSplits(front: seq<Hole>, last: Hole, n: nat)
    requires Ordered(front + [last]) && last.End() <= n
    ensures FreeBelow(front + [last], n) == FreeBelow(front, n) + Addresses(last)
    ensures FreeBelow(front, n) !! Addresses(last)
  {
    var hs := front + [last];
    forall a ensures IsFree(hs, a) <==> IsFree(front, a) || last.Has(a) {
      if last.Has(a) { assert last in hs; }
    }
    forall a | IsFree(front, a) ensures !last.Has(a) {
      var i := FreeAt(front, a);
      assert hs[i] == front[i] && hs[|front|] == last;
    }
  }

  lemma DisjointSizes(a: set<int>, b: set<int>)
    requires a !! b
    ensures |a + b| == |a| + |b|
  {
  }

  lemma TotalSplits(hs: seq<Hole>, n: nat)
    ensures if hs == [] then TotalSize(hs) == 0 && FreeBelow(hs, n) == {}
            else TotalSize(hs) == TotalSize(hs[..|hs| - 1]) + hs[|hs| - 1].size
  {
  }

  lemma OrderedFront(front: seq<Hole>, last: Hole)
    requires Ordered(front + [last])
    ensures Ordered(front) && (front == [] || front[|front| - 1].End() <= last.base)
  {
    var hs := front + [last];
    assert hs[..|front|] == front && hs[|front|] == last;
  }

  /** The sizes of an ordered list add up to the number of its addresses: nothing is counted twice. */
  lemma {:induction false} TotalSizeCounts(hs: seq<Hole>, n: nat)
    requires Ordered(hs) && (hs == [] || hs[|hs| - 1].End() <= n)
    ensures TotalSize(hs) == |FreeBelow(hs, n)|
  {
    hide IsFree, FreeBelow, Addresses, TotalSize, Ordered;
    TotalSplits(hs, n);
    if hs != [] {
      var front, last := hs[..|hs| - 1], hs[|hs| - 1];
      assert hs == front + [last];
      OrderedFront(front, last);
      TotalSizeCounts(front, n);
      AddressesCount(last);
      FreeBelowSplits(front, last, n);
      DisjointSizes(FreeBelow(front, n), Addresses(last));
    }
  }

  // ----------------------------------------------------------- choosing a hole

  /** `r` is what `seleccionar_hueco` promises: the first of the smallest holes that fit under
      best fit, the first of the largest under worst fit, and nothing only when no hole fits. */
  ghost predicate IsChoice(hs: seq<Hole>, best: bool, size: nat, r: Option<nat>) {
    match r
    case None => forall i :: 0 <= i < |hs| ==> hs[i].size < size
    case Some(k) =>
      && k < |hs| && hs[k].size >= size
      && (forall i :: 0 <= i < |hs| && hs[i].size >= size ==>
            if best then hs[k].size <= hs[i].size else hs[i].size <= hs[k].size)
      && (forall i :: 0 <= i < k ==> hs[i].size < size || hs[i].size != hs[k].size)
  }

  lemma ChoiceUnique(hs: seq<Hole>, best: bool, size: nat, r: Option<nat>, q: Option<nat>)
    requires IsChoice(hs, best, size, r) && IsChoice(hs, best, size, q)
    ensures r == q
  {
    if r.Some? && q.Some? {
      assert hs[r.value].size == hs[q.value].size;
    }
  }

  // ----------------------------------------------------------- taking part of a hole

  function Occupy(hs: seq<Hole>, k: nat, size: nat): seq<Hole>
    requires k < |hs| && size <= hs[k].size
  {
    if hs[k].size == size then RemoveAt(hs, k)
    else hs[k := Hole(hs[k].base + size, hs[k].size - size)]
  }

  lemma OccupyKeepsOrder(hs: seq<Hole>, k: nat, size: nat)
    requires Canonical(hs) && k < |hs| && size <= hs[k].size
    ensures Canonical(Occupy(hs, k, size))
  {
    var gs := Occupy(hs, k, size);
    if hs[k].size != size {
      forall i, j | 0 <= i < j < |gs| ensures gs[i].End() < gs[j].base {
        assert gs[i].End() == hs[i].End() && gs[j].base >= hs[j].base;
      }
    }
  }

  lemma OccupyTakes(hs: seq<Hole>, k: nat, size: nat)
    requires Canonical(hs) && k < |hs| && size <= hs[k].size
    ensures Canonical(Occupy(hs, k, size))
    ensures forall a :: IsFree(Occupy(hs, k, size), a) <==>
                        IsFree(hs, a) && !(hs[k].base <= a < hs[k].base + size)
  {
    hide Canonical, IsFree, Occupy;
    OccupyKeepsOrder(hs, k, size);
    forall a ensures IsFree(Occupy(hs, k, size), a) <==> IsFree(hs, a) && !(hs[k].base <= a < hs[k].base + size) {
      if IsFree(Occupy(hs, k, size), a) { StillFree(hs, k, size, a); }
      if IsFree(hs, a) && !(hs[k].base <= a < hs[k].base + size) { NotTaken(hs, k, size, a); }
    }
  }

  lemma StillFree(hs: seq<Hole>, k: nat, size: nat, a: int)
    requires Canonical(hs) && k < |hs| && size <= hs[k].size && IsFree(Occupy(hs, k, size), a)
    ensures IsFree(hs, a) && !(hs[k].base <= a < hs[k].base + size)
  {
    var i := FreeAt(Occupy(hs, k, size), a);
    var j := if hs[k].size == size && i >= k then i + 1 else i;
    assert hs[j].Has(a) && hs[j] in hs;
  }

  lemma NotTaken(hs: seq<Hole>, k: nat, size: nat, a: int)
    requires Canonical(hs) && k < |hs| && size <= hs[k].size
    requires IsFree(hs, a) && !(hs[k].base <= a < hs[k].base + size)
    ensures IsFree(Occupy(hs, k, size), a)
  {
    var gs := Occupy(hs, k, size);
    var i := FreeAt(hs, a);
    var j := if hs[k].size == size && i > k then i - 1 else i;
    assert gs[j].Has(a) && gs[j] in gs;
  }

  /** Taking a hole and giving it back leaves the very same list. */
  lemma OccupyReleaseUndo(hs: seq<Hole>, k: nat, size: nat, gs: seq<Hole>)
    requires Canonical(hs) && k < |hs| && 0 < size <= hs[k].size
    requires Released(Occupy(hs, k, size), Hole(hs[k].base, size), gs)
    ensures gs == hs
  {
    OccupyTakes(hs, k, size);
    assert hs[k] in hs;
    forall a ensures IsFree(gs, a) <==> IsFree(hs, a) {
      if Hole(hs[k].base, size).Has(a) { assert hs[k].Has(a); }
    }
    CanonicalUnique(gs, hs);
  }

  // ----------------------------------------------------------- sorting and fusing

  function InsertByBase(hs: seq<Hole>, h: Hole): seq<Hole> {
    if hs == [] || hs[|hs| - 1].base <= h.base then hs + [h]
    else InsertByBase(hs[..|hs| - 1], h) + [hs[|hs| - 1]]
  }

  /** `list_sort(g_huecos, cmp_huecos_base)`. */
  function SortByBase(hs: seq<Hole>): seq<Hole> {
    if hs == [] then [] else InsertByBase(SortByBase(hs[..|hs| - 1]), hs[|hs| - 1])
  }

  lemma InsertLast(hs: seq<Hole>, h: Hole)
    requires hs == [] || hs[|hs| - 1].base <= h.base
    ensures InsertByBase(hs, h) == hs + [h]
  {
  }

  lemma {:induction false} SortSorted(hs: seq<Hole>)
    requires Ordered(hs)
    ensures SortByBase(hs) == hs
  {
    hide InsertByBase;
    if hs != [] {
      var front, last := hs[..|hs| - 1], hs[|hs| - 1];
      SortSorted(front);
      assert front == [] || front[|front| - 1].End() <= last.base;
      InsertLast(front, last);
    }
  }

  lemma {:induction false} InsertMembers(hs: seq<Hole>, h: Hole, g: Hole)
    ensures g in InsertByBase(hs, h) <==> g in hs || g == h
  {
    if hs == [] || hs[|hs| - 1].base <= h.base {
    } else {
      InsertMembers(hs[..|hs| - 1], h, g);
      assert hs == hs[..|hs| - 1] + [hs[|hs| - 1]];
    }
  }

  lemma InsertAddresses(hs: seq<Hole>, h: Hole, a: int)
    ensures IsFree(InsertByBase(hs, h), a) <==> IsFree(hs, a) || h.Has(a)
  {
    forall g ensures g in InsertByBase(hs, h) <==> g in hs || g == h { InsertMembers(hs, h, g); }
  }

  lemma OrderedAppend(hs: seq<Hole>, h: Hole)
    requires Ordered(hs) && h.size > 0 && forall i :: 0 <= i < |hs| ==> hs[i].End() <= h.base
    ensures Ordered(hs + [h])
  {
  }

  lemma {:induction false} InsertOrdered(hs: seq<Hole>, h: Hole)
    requires Ordered(hs) && h.size > 0
    requires forall i :: 0 <= i < |hs| ==> hs[i].End() <= h.base || h.End() <= hs[i].base
    ensures Ordered(InsertByBase(hs, h))
  {
    if hs == [] || hs[|hs| - 1].base <= h.base {
    } else {
      var front, last := hs[..|hs| - 1], hs[|hs| - 1];
      InsertOrdered(front, h);
      var gs := InsertByBase(front, h);
      forall i | 0 <= i < |gs| ensures gs[i].End() <= last.base {
        InsertMembers(front, h, gs[i]);
      }
      OrderedAppend(gs, last);
    }
  }

  /** What one turn of the fusing loop does to two touching neighbours. */
  function FuseAt(hs: seq<Hole>, i: nat): seq<Hole>
    requires i + 1 < |hs|
  {
    RemoveAt(hs[i := Hole(hs[i].base, hs[i].size + hs[i + 1].size)], i + 1)
  }

  lemma FuseOrdered(hs: seq<Hole>, i: nat)
    requires Ordered(hs) && i + 1 < |hs| && hs[i].End() == hs[i + 1].base
    ensures Ordered(FuseAt(hs, i))
  {
    var gs := FuseAt(hs, i);
    forall j, k | 0 <= j < k < |gs| ensures gs[j].End() <= gs[k].base {
      var k' := if k <= i then k else k + 1;
      assert gs[k].base == hs[k'].base;
      if j < i {
        assert gs[j] == hs[j];
      } else {
        assert gs[j].End() == hs[j + 1].End();
      }
    }
  }

  lemma FuseAddresses(hs: seq<Hole>, i: nat)
    requires i + 1 < |hs| && hs[i].End() == hs[i + 1].base
    ensures SameAddresses(FuseAt(hs, i), hs)
  {
    var gs := FuseAt(hs, i);
    forall a ensures IsFree(gs, a) <==> IsFree(hs, a) {
      if IsFree(gs, a) {
        var j := FreeAt(gs, a);
        var w := if j < i || (j == i && a < hs[i].End()) then j else j + 1;
        assert hs[w].Has(a);
      }
      if IsFree(hs, a) {
        var j := FreeAt(hs, a);
        assert gs[if j <= i then j else j - 1].Has(a);
      }
    }
  }

  /** The global list `g_huecos` with the operations that edit it. */
  class HoleList {
    var holes: seq<Hole>

    constructor ()
      ensures holes == []
    {
      holes := [];
    }

    /** `fusionar_huecos`: sort, then fuse neighbours that touch. */
    method Merge()
      requires Ordered(SortByBase(holes))
      modifies this
      ensures Canonical(holes)
      ensures SameAddresses(holes, old(SortByBase(holes)))
    {
      hide SortByBase, IsFree;
      holes := SortByBase(holes);
      ghost var sorted := holes;
      var i: nat := 0;
      while i + 1 < |holes|
        invariant Ordered(holes) && SameAddresses(holes, sorted)
        invariant |holes| > 0 ==> i < |holes|
        invariant forall j, k :: 0 <= j <= i && j < k < |holes| && j < i ==> holes[j].End() < holes[k].base
        decreases |holes| - i
      {
        if holes[i].End() == holes[i + 1].base {
          FuseOrdered(holes, i);
          FuseAddresses(holes, i);
          holes := FuseAt(holes, i);
        } else {
          i := i + 1;
        }
      }
    }

    /** `seleccionar_hueco`. */
    method Select(best: bool, size: nat) returns (chosen: Option<nat>)
      ensures IsChoice(holes, best, size, chosen)
    {
      chosen := None;
      var sizeChosen: nat := 0;
      var i: nat := 0;
      while i < |holes|
        invariant i <= |holes|
        invariant IsChoice(holes[..i], best, size, chosen)
        invariant chosen.Some? ==> sizeChosen == holes[chosen.value].size
      {
        var h := holes[i];
        if h.size >= size {
          if chosen.None? {
            chosen, sizeChosen := Some(i), h.size;
          } else if best && h.size < sizeChosen {
            chosen, sizeChosen := Some(i), h.size;
          } else if !best && h.size > sizeChosen {
            chosen, sizeChosen := Some(i), h.size;
          }
        }
        i := i + 1;
      }
      assert holes[..i] == holes;
    }

    /** `ocupar_hueco`. */
    method Take(k: nat, size: nat) returns (base: nat)
      requires k < |holes| && size <= holes[k].size
      modifies this
      ensures base == old(holes[k].base)
      ensures holes == Occupy(old(holes), k, size)
    {
      var h := holes[k];
      base := h.base;
      if h.size == size {
        holes := RemoveAt(holes, k);
      } else {
        holes := holes[k := Hole(h.base + size, h.size - size)];
      }
    }

    /** `liberar_segmento`, and the hole a new memory stick brings. */
    method Release(base: nat, size: nat)
      requires Canonical(holes) && size > 0
      requires forall a :: base <= a < base + size ==> !IsFree(holes, a)
      modifies this
      ensures Released(old(holes), Hole(base, size), holes)
    {
      var h := Hole(base, size);
      ghost var before := holes;
      holes := holes + [h];
      AppendSorts(before, h);
      Merge();
    }

    /** `total_libre`, also inlined in the allocation handler. */
    method Total() returns (total: nat)
      ensures total == TotalSize(holes)
    {
      total := 0;
      var i: nat := 0;
      while i < |holes|
        invariant i <= |holes| && total == TotalSize(holes[..i])
      {
        total := total + holes[i].size;
        assert holes[..i + 1][..i] == holes[..i];
        i := i + 1;
      }
      assert holes[..i] == holes;
    }
  }

  lemma AppendSorts(hs: seq<Hole>, h: Hole)
    requires Ordered(hs) && h.size > 0
    requires forall a :: h.Has(a) ==> !IsFree(hs, a)
    ensures Ordered(SortByBase(hs + [h]))
    ensures forall a :: IsFree(SortByBase(hs + [h]), a) <==> IsFree(hs, a) || h.Has(a)
  {
    SortSorted(hs);
    assert (hs + [h])[..|hs|] == hs;
    forall i | 0 <= i < |hs| ensures hs[i].End() <= h.base || h.End() <= hs[i].base {
      if h.base < hs[i].End() && hs[i].base < h.End() {
        var a := if h.base < hs[i].base then hs[i].base else h.base;
        assert hs[i] in hs && hs[i].Has(a) && h.Has(a);
      }
    }
    InsertOrdered(hs, h);
    forall a ensures IsFree(SortByBase(hs + [h]), a) <==> IsFree(hs, a) || h.Has(a) { InsertAddresses(hs, h, a); }
  }
}
