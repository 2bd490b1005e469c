/** No process notices what kernel memory does for the others, and each sees its own operations. */
module Isolation {
  import opened Common
  import opened Holes
  import opened Memory
  import opened Compaction
  import opened SwapSpace
  import opened Kernel

  /** The operations done for process `q` itself, and writes that reach its memory. */
  ghost predicate Concerns(s: State, op: Op, q: nat) {
    match op
    case Create(pid, program) => pid == q
    case ConnectStick(contents) => false
    case ConnectSwap(blockSize, disk) => false
    case Alloc(pid, id, size) => pid == q
    case Free(pid, id) => pid == q
    case Finalize(pid) => pid == q
    case Suspend(pid) => pid == q
    case Resume(pid) => pid == q
    case Write(at, data) => q in s.procs && exists a :: at <= a < at + |data| && InTable(s.procs[q].table, a)
    case StoreContext(pid, regs, table) => pid == q
  }

  /** `n` is `m` with one more segment of `size` bytes at the end. */
  ghost predicate Gained(m: Image, id: nat, size: nat, n: Image) {
    exists bytes: seq<byte> :: |bytes| == size && n == m.(table := m.table + [LogicalSegment(id, bytes)])
  }

  /** `n` is `m` without its first segment with that id. */
  ghost predicate Lost(m: Image, id: nat, n: Image) {
    exists i: nat ::
      && i < |m.table| && m.table[i].id == id
      && (forall j :: 0 <= j < i ==> m.table[j].id != id)
      && n == m.(table := RemoveAt(m.table, i))
  }

  lemma PlacedImages(s: State, pid: nat, id: nat, size: nat, t: State, ok: bool, q: nat)
    requires Inv(s) && size > 0 && Placed(s, pid, id, size, t, ok) && q in s.procs
    ensures q in t.procs
    ensures q != pid ==> SameImage(s, t, q)
    ensures q == pid ==> ok && Gained(ImageOf(s, q), id, size, ImageOf(t, q))
  {
    if q == pid {
      var k: nat :| IsChoice(s.holes, s.best, size, Some(k)) &&
                    t == WithSegment(s.(holes := Occupy(s.holes, k, size)), pid, Segment(id, s.holes[k].base, size));
      assert s.holes[k] in s.holes;
      OwnSegmentImage(s, pid, Segment(id, s.holes[k].base, size), t);
    }
  }

  lemma OwnSegmentImage(s: State, pid: nat, g: Segment, t: State)
    requires pid in s.procs && g.End() <= |s.flat|
    requires t == WithSegment(s.(holes := t.holes), pid, g)
    ensures Gained(ImageOf(s, pid), g.id, g.limit, ImageOf(t, pid))
  {
    var bytes := Bytes(s.flat, g);
    assert TableImage(t.flat, t.procs[pid].table) ==
           TableImage(s.flat, s.procs[pid].table) + [LogicalSegment(g.id, bytes)];
    assert |bytes| == g.limit;
  }

  /** A new segment is appended to the caller's logical memory; nobody else sees anything, not even
      when memory has to be compacted first. */
  lemma AllocatedImages(s: State, pid: nat, id: nat, size: nat, t: State, ok: bool, q: nat)
    requires Inv(s) && size > 0 && Allocated(s, pid, id, size, t, ok) && q in s.procs
    ensures q in t.procs
    ensures q != pid || !ok ==> SameImage(s, t, q)
    ensures q == pid && ok ==> Gained(ImageOf(s, q), id, size, ImageOf(t, q))
  {
    if size <= s.maxSegment {
      if Fits(s.holes, size) {
        PlacedImages(s, pid, id, size, t, ok, q);
      } else if size <= TotalSize(s.holes) {
        var c :| Compacted(s, c) && if Fits(c.holes, size) then Placed(c, pid, id, size, t, ok) else !ok && t == c;
        CompactedInv(s, c);
        CompactedImages(s, c, q);
        if Fits(c.holes, size) { PlacedImages(c, pid, id, size, t, ok, q); }
      }
    }
  }

  /** Freeing removes the first segment with that id from the caller's logical memory. */
  lemma FreedImages(s: State, pid: nat, id: nat, t: State, ok: bool, q: nat)
    requires Inv(s) && Freed(s, pid, id, t, ok) && q in s.procs
    ensures q in t.procs
    ensures q != pid || !ok ==> SameImage(s, t, q)
    ensures q == pid && ok ==> Lost(ImageOf(s, q), id, ImageOf(t, q))
  {
    if q == pid && ok {
      var i := FindSegment(s.procs[pid].table, id).value;
      assert ImageOf(s, q).table[i].id == id;
      assert ImageOf(t, q).table == RemoveAt(ImageOf(s, q).table, i);
    }
  }

  lemma GrownImages(s: State, contents: seq<byte>, t: State, q: nat)
    requires Inv(s) && StickConnected(s, contents, t)
    ensures SameImage(s, t, q)
  {
    if q in s.procs {
      var table := s.procs[q].table;
      forall i | 0 <= i < |table| ensures Bytes(t.flat, table[i]) == Bytes(s.flat, table[i]) {
        assert IsRef(s, Ref(q, i)) && At(s, Ref(q, i)) == table[i];
      }
      assert TableImage(t.flat, table) == TableImage(s.flat, table);
    }
  }

  lemma FinalizedImages(s: State, pid: nat, t: State, ok: bool, q: nat)
    requires Finalized(s, pid, t, ok) && q != pid
    ensures SameImage(s, t, q)
  {
  }

  lemma WrittenImages(s: State, at: nat, data: seq<byte>, t: State, q: nat)
    requires Written(s, at, data, t) && !Concerns(s, Op.Write(at, data), q)
    ensures SameImage(s, t, q)
  {
    if q in s.procs { TableImageSame(s.flat, t.flat, s.procs[q].table); }
  }

  lemma SwapConnectedImages(s: State, blockSize: nat, disk: seq<seq<byte>>, t: State, q: nat)
    requires Inv(s) && !s.swap.connected && SwapConnected(s, blockSize, disk, t)
    ensures SameImage(s, t, q)
  {
    if q in s.procs {
      assert Sized(s.swap, s.procs[q].suspended);
      assert SwapImage(t.swap.disk, []) == SwapImage(s.swap.disk, []);
    }
  }

  /** A process's logical memory, registers and program change only through operations that
      concern it: no other process, no compaction, no new stick and no write elsewhere is visible. */
  lemma StepIsolates(s: State, op: Op, t: State, q: nat)
    requires Inv(s) && Step(s, op, t) && q in s.procs && !Concerns(s, op, q)
    ensures SameImage(s, t, q)
  {
    hide Inv, StickConnected, SwapConnected, Allocated, Freed, Finalized, SuspendedStep, ResumedStep, Written;
    var ok :| Effect(s, op, t, ok);
    match op
    case Create(pid, program) =>
    case ConnectStick(contents) => GrownImages(s, contents, t, q);
    case ConnectSwap(blockSize, disk) => SwapConnectedImages(s, blockSize, disk, t, q);
    case Alloc(pid, id, size) => AllocatedImages(s, pid, id, size, t, ok, q);
    case Free(pid, id) => FreedImages(s, pid, id, t, ok, q);
    case Finalize(pid) => FinalizedImages(s, pid, t, ok, q);
    case Suspend(pid) => OtherSuspended(s, pid, t, ok, q);
    case Resume(pid) => OtherResumed(s, pid, t, ok, q);
    case Write(at, data) => WrittenImages(s, at, data, t, q);
    case StoreContext(pid, regs, table) =>
  }

  lemma OtherSuspended(s: State, pid: nat, t: State, ok: bool, q: nat)
    requires Inv(s) && SuspendSafe(s, pid) && SuspendedStep(s, pid, t, ok) && q in s.procs && q != pid
    ensures SameImage(s, t, q)
  {
    if ok {
      SuspendedImages(s, pid, t, q);
    } else {
      SuspendFailsClean(s, pid, t);
    }
  }

  lemma OtherResumed(s: State, pid: nat, t: State, ok: bool, q: nat)
    requires Inv(s) && ResumedStep(s, pid, t, ok) && q in s.procs && q != pid
    ensures SameImage(s, t, q)
  {
    if pid in s.procs {
      ResumedUntouched(s, pid, t, ok, q);
    }
  }

  /** A suspension that fails without harm changes nothing at all. */
  lemma SuspendFailsClean(s: State, pid: nat, t: State)
    requires Inv(s) && SuspendSafe(s, pid) && SuspendedStep(s, pid, t, false)
    ensures t == s
  {
    if pid in s.procs && s.swap.connected {
      SuspendKeepsInvIff(s, pid, t, false);
      var n :| RunsOutAt(s, pid, n) && SuspendedPart(s, pid, n, t);
      if n == 0 { NothingReleased(s, pid, t); } else { ReleasedButKept(s, pid, n, t); }
    }
  }

  // ----------------------------------------------------------- translation

  /** `mmu_traducir`: offset and size are added in 32 bits, and wrap; a physical address with the top
      bit set reads as a negative number, which the callers take for a fault. */
  function Translate(table: seq<Segment>, maxSegment: nat, addr: word, size: word): Option<nat>
    requires maxSegment > 0
  {
    var found := FindSegment(table, addr / maxSegment);
    var offset := addr % maxSegment;
    if found.None? then None
    else if (offset + size) % WORD_MODULUS > table[found.value].limit then None
    else
      var physical := (table[found.value].base + offset) % WORD_MODULUS;
      if physical >= 0x8000_0000 then None else Some(physical)
  }

  lemma SegmentBounds(s: State, pid: nat, i: nat)
    requires Inv(s) && pid in s.procs && i < |s.procs[pid].table|
    ensures 0 < s.maxSegment < 0x8000_0000
    ensures s.procs[pid].table[i].limit > 0 && s.procs[pid].table[i].End() <= |s.flat| < 0x8000_0000
  {
    assert IsRef(s, Ref(pid, i)) && At(s, Ref(pid, i)) == s.procs[pid].table[i];
  }

  /** A translated range lies inside the process's own segment exactly when the 32-bit sum did not wrap. */
  lemma TranslateInsideIff(s: State, pid: nat, addr: word, size: word)
    requires Inv(s) && pid in s.procs && Translate(s.procs[pid].table, s.maxSegment, addr, size).Some?
    ensures var a := Translate(s.procs[pid].table, s.maxSegment, addr, size).value;
            var g := s.procs[pid].table[FindSegment(s.procs[pid].table, addr / s.maxSegment).value];
            a == g.base + addr % s.maxSegment && (a + size <= g.End() <==> addr % s.maxSegment + size < WORD_MODULUS)
  {
    hide Inv, FindSegment;
    PositiveMax(s);
    SegmentBounds(s, pid, FindSegment(s.procs[pid].table, addr / s.maxSegment).value);
  }

  lemma PositiveMax(s: State)
    requires Inv(s)
    ensures s.maxSegment > 0
  {
  }

  /** A wrapped sum does get through the limit check: 4 GiB less 1 bytes from offset 1 of a small segment. */
  lemma TranslateWraps()
    ensures Translate([Segment(0, 0, 16)], 128, 1, 0xFFFF_FFFF) == Some(1)
  {
    assert FindSegment([Segment(0, 0, 16)][..0], 0).None?;
  }

  /** Byte translations never leave memory, and never meet: two that give the same physical byte
      come from the same process and the same logical address. */
  lemma TranslateInjective(s: State, p: nat, q: nat, addr: word, other: word)
    requires Inv(s) && p in s.procs && q in s.procs
    requires Translate(s.procs[p].table, s.maxSegment, addr, 1).Some?
    ensures Translate(s.procs[p].table, s.maxSegment, addr, 1).value < |s.flat|
    ensures Translate(s.procs[q].table, s.maxSegment, other, 1) == Translate(s.procs[p].table, s.maxSegment, addr, 1)
            ==> p == q && addr == other
  {
    hide Inv, FindSegment;
    PositiveMax(s);
    var m := s.maxSegment;
    var i := FindSegment(s.procs[p].table, addr / m).value;
    SegmentBounds(s, p, i);
    TranslateInsideIff(s, p, addr, 1);
    if Translate(s.procs[q].table, m, other, 1) == Translate(s.procs[p].table, m, addr, 1) {
      var j := FindSegment(s.procs[q].table, other / m).value;
      SegmentBounds(s, q, j);
      TranslateInsideIff(s, q, other, 1);
      SameSegment(s, Ref(p, i), Ref(q, j), Translate(s.procs[p].table, m, addr, 1).value);
      DivMod(addr, m);
      DivMod(other, m);
    }
  }

  lemma SameSegment(s: State, k: Ref, j: Ref, a: int)
    requires Inv(s) && IsRef(s, k) && IsRef(s, j) && At(s, k).Has(a) && At(s, j).Has(a)
    ensures k == j
  {
    assert k == j || Apart(At(s, k), At(s, j));
  }

  lemma DivMod(a: nat, m: nat)
    requires m > 0
    ensures a == a / m * m + a % m
  {
  }
}
