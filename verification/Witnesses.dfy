/** Runs of kernel memory that end where its exceptions begin: none of them is an empty promise. */
module Witnesses {
  import opened Common
  import opened Holes
  import opened Isa
  import opened Memory
  import opened SwapSpace
  import opened Kernel
  import opened Isolation
  import opened Machines

  ghost predicate Reachable(s: State) {
    exists states, ops :: Run(states, ops) && states[|ops|] == s
  }

  lemma ReachableInv(s: State)
    requires Reachable(s)
    ensures Inv(s)
  {
    var states, ops :| Run(states, ops) && states[|ops|] == s;
    RunKeepsInv(states, ops, |ops|);
  }

  lemma Starts(maxSegment: nat)
    requires 0 < maxSegment < 0x8000_0000
    ensures Reachable(Initial(maxSegment, true))
  {
    var s := Initial(maxSegment, true);
    var ops: seq<Op> := [];
    assert Run([s], ops) && [s][|ops|] == s;
  }

  lemma Reaches(s: State, op: Op, t: State, ok: bool)
    requires Reachable(s) && Enabled(s, op) && Effect(s, op, t, ok)
    ensures Reachable(t)
  {
    hide Effect, Enabled, Initial;
    var states, ops :| Run(states, ops) && states[|ops|] == s;
    var more, calls := states + [t], ops + [op];
    assert Step(s, op, t);
    forall i | 0 <= i < |calls| ensures Step(more[i], calls[i], more[i + 1]) {
      if i < |ops| { assert Step(states[i], ops[i], states[i + 1]); }
    }
    assert Run(more, calls) && more[|calls|] == t;
  }

  /** A stick connected first is one hole. */
  lemma FirstStick(s: State, contents: seq<byte>)
    requires Reachable(s) && s.holes == [] && s.flat == [] && 0 < |contents| < 0x8000_0000
    ensures Reachable(s.(holes := [Hole(0, |contents|)], flat := contents))
  {
    var t := s.(holes := [Hole(0, |contents|)], flat := contents);
    assert s.flat + contents == contents;
    forall a ensures IsFree(t.holes, a) <==> IsFree(s.holes, a) || Hole(0, |contents|).Has(a) {
      if Hole(0, |contents|).Has(a) { assert t.holes[0] in t.holes; }
    }
    Reaches(s, ConnectStick(contents), t, true);
  }

  lemma Newborn(s: State, pid: nat)
    requires Reachable(s) && pid !in s.procs
    ensures Reachable(s.(procs := s.procs[pid := Process(RESET, [], [], [])]))
  {
    Reaches(s, Create(pid, Some([])), s.(procs := s.procs[pid := Process(RESET, [], [], [])]), true);
  }

  /** From a single hole that is large enough, a segment takes the low part. */
  lemma TakesLow(s: State, pid: nat, id: nat, size: nat)
    requires Reachable(s) && |s.holes| == 1 && pid in s.procs && 0 < size <= s.maxSegment && size <= s.holes[0].size
    ensures Reachable(WithSegment(s.(holes := Occupy(s.holes, 0, size)), pid, Segment(id, s.holes[0].base, size)))
  {
    var t := WithSegment(s.(holes := Occupy(s.holes, 0, size)), pid, Segment(id, s.holes[0].base, size));
    assert s.holes[0] in s.holes;
    assert IsChoice(s.holes, s.best, size, Some(0));
    assert Placed(s, pid, id, size, t, true);
    Reaches(s, Alloc(pid, id, size), t, true);
  }

  // ----------------------------------------------------------- suspension

  const PROGRAM: seq<Instruction> := []

  /** Process 0 has two segments of one byte, which are all of memory. */
  function TwoBytes(free: seq<nat>, disk: seq<seq<byte>>): State {
    State(8, true, [], map[0 := Process(RESET, [Segment(0, 0, 1), Segment(1, 1, 1)], [], PROGRAM)], [10, 20],
          Swap(true, 1, free, disk))
  }

  lemma SwapReady(free: seq<nat>, disk: seq<seq<byte>>)
    requires (free == [0] && disk == [[0]]) || (free == [0, 1] && disk == [[0], [0]])
    ensures Reachable(State(8, true, [Hole(0, 2)], map[], [10, 20], Swap(true, 1, free, disk)))
  {
    hide Reachable;
    Starts(8);
    var s := Initial(8, true);
    FirstStick(s, [10, 20]);
    s := s.(holes := [Hole(0, 2)], flat := [10, 20]);
    assert free == seq(|disk|, i requires 0 <= i < |disk| => i);
    Reaches(s, ConnectSwap(1, disk), s.(swap := Swap(true, 1, free, disk)), true);
  }

  lemma TwoBytesReached(free: seq<nat>, disk: seq<seq<byte>>)
    requires (free == [0] && disk == [[0]]) || (free == [0, 1] && disk == [[0], [0]])
    ensures Reachable(TwoBytes(free, disk))
  {
    hide Reachable;
    SwapReady(free, disk);
    var t := State(8, true, [Hole(0, 2)], map[], [10, 20], Swap(true, 1, free, disk));
    Newborn(t, 0);
    t := t.(procs := t.procs[0 := Process(RESET, [], [], [])]);
    TakesLow(t, 0, 0, 1);
    assert Occupy([Hole(0, 2)], 0, 1) == [Hole(1, 1)];
    t := WithSegment(t.(holes := [Hole(1, 1)]), 0, Segment(0, 0, 1));
    TakesLow(t, 0, 1, 1);
    assert Occupy([Hole(1, 1)], 0, 1) == [];
    t := WithSegment(t.(holes := []), 0, Segment(1, 1, 1));
    assert t.procs[0] == Process(RESET, [Segment(0, 0, 1), Segment(1, 1, 1)], [], PROGRAM);
    assert t.procs == map[0 := t.procs[0]];
  }

  const TWO := [Segment(0, 0, 1), Segment(1, 1, 1)]

  lemma TwoNeed()
    ensures BlocksNeeded(TWO[..0], 1) == 0 && BlocksNeeded(TWO[..1], 1) == 1
    ensures BlocksNeeded(TWO, 1) == 2 && BlocksNeeded(TWO[..2], 1) == 2
  {
    assert TWO[..2] == TWO && TWO[..1][..0] == [] && TWO[..2][..1] == TWO[..1];
    assert BlocksNeeded(TWO[..0], 1) == 0;
    assert BlocksNeeded(TWO[..1], 1) == BlocksFor(1, 1);
  }

  lemma OneReleased()
    ensures ReleasedAll([], TWO[..1], [Hole(0, 1)])
  {
    var hs, table := [Hole(0, 1)], TWO[..1];
    assert table == [Segment(0, 0, 1)];
    forall a ensures IsFree(hs, a) <==> IsFree([], a) || InTable(table, a) {
      if a == 0 { assert hs[0] in hs && hs[0].Has(0) && table[0] in table && table[0].Has(0); }
    }
  }

  /** With one free block for two segments, a suspension releases the first and then fails. */
  lemma SuspensionBreaks()
    ensures var s := TwoBytes([0], [[0]]);
            var t := s.(holes := [Hole(0, 1)], swap := Swap(true, 1, [0], [[10]]));
            Reachable(s) && !SuspendSafe(s, 0) && SuspendedStep(s, 0, t, false) && !Inv(t)
  {
    hide Inv, Reachable, ReleasedAll, BlocksNeeded;
    var s := TwoBytes([0], [[0]]);
    var t := s.(holes := [Hole(0, 1)], swap := Swap(true, 1, [0], [[10]]));
    TwoBytesReached([0], [[0]]);
    ReachableInv(s);
    TwoNeed();
    OneReleased();
    assert s.procs[0].table == TWO && BlocksFor(1, 1) == 1;
    assert !SuspendSafe(s, 0);
    assert RunsOutAt(s, 0, 1) && SuspendedPart(s, 0, 1, t);
    assert SuspendedStep(s, 0, t, false);
    SuspendKeepsInvIff(s, 0, t, false);
  }

  // ----------------------------------------------------------- resumption

  const SAVED := [SwapSegment(0, 1, [0]), SwapSegment(1, 1, [1])]

  /** Process 0 has its two segments in swap, and process 1 one byte of the two of memory. */
  function Crowded(holes: seq<Hole>, table: seq<Segment>): State {
    State(8, true, holes, map[0 := Process(RESET, [], SAVED, PROGRAM), 1 := Process(RESET, table, [], PROGRAM)],
          [10, 20], Swap(true, 1, [], [[10], [20]]))
  }

  lemma TwoReleased()
    ensures ReleasedAll([], TWO, [Hole(0, 2)])
  {
    var hs := [Hole(0, 2)];
    forall a ensures IsFree(hs, a) <==> IsFree([], a) || InTable(TWO, a) {
      if 0 <= a < 2 { assert hs[0] in hs && hs[0].Has(a) && TWO[a] in TWO && TWO[a].Has(a); }
    }
  }

  lemma TwoSaved()
    ensures SavedIn([10, 20], TWO, Swap(true, 1, [], [[10], [20]]), [0, 1], SAVED)
  {
    var disk := [[10], [20]];
    assert SAVED[..1] == [SAVED[0]] && SAVED[..1][..0] == [];
    assert BlocksOf(SAVED[..1]) == [0];
    assert BlocksOf(SAVED) == [0, 1];
    assert Gather(disk, [0][..0]) == [] && Gather(disk, [1][..0]) == [];
    assert Gather(disk, [0]) == [10] && Gather(disk, [1]) == [20];
  }

  lemma CrowdedReached()
    ensures Reachable(Crowded([Hole(1, 1)], [Segment(0, 0, 1)]))
  {
    hide Inv, Reachable, ReleasedAll, SavedIn, BlocksNeeded;
    var s := TwoBytes([0, 1], [[0], [0]]);
    TwoBytesReached([0, 1], [[0], [0]]);
    TwoNeed();
    TwoReleased();
    TwoSaved();
    var t := State(8, true, [Hole(0, 2)], map[0 := Process(RESET, [], SAVED, PROGRAM)], [10, 20],
                   Swap(true, 1, [], [[10], [20]]));
    assert [] + SAVED == SAVED && SAVED[0..] == SAVED;
    assert s.procs[0].table == TWO && s.swap.free[..2] == [0, 1] && s.swap.free[2..] == [];
    assert DiskKept(s.swap.disk, s.swap.free[..2], t.swap.disk);
    assert t.procs == s.procs[0 := s.procs[0].(table := [], suspended := SAVED)];
    assert SuspendedAll(s, 0, t);
    assert SuspendSafe(s, 0) && SuspendedStep(s, 0, t, true);
    Reaches(s, Op.Suspend(0), t, true);
    Newborn(t, 1);
    var u := Crowded([Hole(0, 2)], []);
    assert t.(procs := t.procs[1 := Process(RESET, [], [], [])]) == u;
    TakesLow(u, 1, 0, 1);
    assert Occupy([Hole(0, 2)], 0, 1) == [Hole(1, 1)];
    var placed := WithSegment(u.(holes := [Hole(1, 1)]), 1, Segment(0, 0, 1));
    assert [] + [Segment(0, 0, 1)] == [Segment(0, 0, 1)];
    assert placed.procs == Crowded([Hole(1, 1)], [Segment(0, 0, 1)]).procs;
    assert placed == Crowded([Hole(1, 1)], [Segment(0, 0, 1)]);
  }

  /** Of two segments only the first finds a hole. */
  lemma OnePlaced()
    ensures PlaceAll([Hole(1, 1)], true, SAVED) == ([1], [])
    ensures Choose([Hole(1, 1)], true, 1).Some?
  {
    var hs := [Hole(1, 1)];
    assert Choose(hs[..0], true, 1).None?;
    assert Choose(hs, true, 1) == Some(0);
    assert SAVED[..1] == [SAVED[0]] && SAVED[..1][..0] == [];
    assert PlaceAll(hs, true, SAVED[..0]) == ([], hs);
    assert Occupy(hs, 0, 1) == [];
    var bases := PlaceAll(hs, true, SAVED[..0]).0;
    assert SAVED[..1][0].size == 1 && bases + [hs[0].base] == [1];
    assert PlaceAll(hs, true, SAVED[..1]) == ([1], []);
    assert Choose([], true, 1).None?;
  }

  /** With one hole for two segments, a resumption gives back a block that the record still names. */
  lemma ResumptionBreaks()
    ensures var s := Crowded([Hole(1, 1)], [Segment(0, 0, 1)]);
            var t := s.(flat := [10, 10], swap := Swap(true, 1, [0], [[10], [20]]));
            Reachable(s) && !ResumeSafe(s, 0) && ResumedStep(s, 0, t, false) && !Inv(t)
  {
    hide Inv, Reachable, PlaceAll, Choose;
    var s := Crowded([Hole(1, 1)], [Segment(0, 0, 1)]);
    var t := s.(flat := [10, 10], swap := Swap(true, 1, [0], [[10], [20]]));
    CrowdedReached();
    ReachableInv(s);
    OnePlaced();
    TwoSaved();
    assert SAVED[..1] == [SAVED[0]] && SAVED[..1][..0] == [];
    assert BlocksOf(SAVED[..1]) == [0];
    assert Loaded(s.flat, s.swap.disk, [1], SAVED, t.flat) by {
      assert SwapBytes([[10], [20]], SAVED[0]) == [10] == Slice([10, 10], 1, 1);
      assert [1][0] <= 1 < [1][0] + SAVED[0].size;
    }
    ResumeKeepsInvIff(s, 0, t, false);
  }

  // ----------------------------------------------------------- empty segments, numbers used twice

  /** A request for 0 bytes gives process 1 a segment that has no address of its own. */
  lemma EmptySegmentBreaks()
    ensures var s := Crowded([Hole(1, 1)], [Segment(0, 0, 1)]);
            var t := WithSegment(s, 1, Segment(1, 1, 0));
            Reachable(s) && Allocated(s, 1, 1, 0, t, true) && !Inv(t)
  {
    hide Inv, Reachable, TotalSize;
    var s := Crowded([Hole(1, 1)], [Segment(0, 0, 1)]);
    var t := WithSegment(s, 1, Segment(1, 1, 0));
    CrowdedReached();
    ReachableInv(s);
    assert s.holes[0] in s.holes && Occupy(s.holes, 0, 0) == s.holes;
    assert IsChoice(s.holes, true, 0, Some(0));
    assert Placed(s, 1, 1, 0, t, true);
    AllocKeepsInvIff(s, 1, 1, 0, t, true);
  }

  /** A second process 0 leaves two bytes that are neither free nor anyone's. */
  lemma SecondProcessBreaks()
    ensures var s := TwoBytes([0], [[0]]);
            var t := s.(procs := s.procs[0 := Process(RESET, [], [], [])]);
            Reachable(s) && Created(s, 0, [], t) && !Inv(t)
  {
    hide Inv, Reachable;
    var s := TwoBytes([0], [[0]]);
    TwoBytesReached([0], [[0]]);
    ReachableInv(s);
    CreateKeepsInvIff(s, 0, [], s.(procs := s.procs[0 := Process(RESET, [], [], [])]));
  }

  // ----------------------------------------------------------- translation

  const FAR := 0x7FFF_FFFF

  /** Process 0 has one byte, at `base`, with segments of almost 2 GiB allowed; process 1 may lie below it. */
  function Apiece(holes: seq<Hole>, below: seq<Segment>, base: nat, flat: seq<byte>): State {
    State(FAR, true, holes,
          map[0 := Process(RESET, [Segment(0, base, 1)], [], PROGRAM), 1 := Process(RESET, below, [], PROGRAM)],
          flat, Swap(false, 0, [], []))
  }

  lemma ApieceReached()
    ensures Reachable(Apiece([], [Segment(0, 0, 2)], 2, [1, 2, 3]))
  {
    hide Reachable;
    Starts(FAR);
    var s := Initial(FAR, true);
    FirstStick(s, [1, 2, 3]);
    var t := s.(holes := [Hole(0, 3)], flat := [1, 2, 3]);
    Newborn(t, 1);
    t := t.(procs := t.procs[1 := Process(RESET, [], [], [])]);
    TakesLow(t, 1, 0, 2);
    assert Occupy([Hole(0, 3)], 0, 2) == [Hole(2, 1)];
    t := WithSegment(t.(holes := [Hole(2, 1)]), 1, Segment(0, 0, 2));
    Newborn(t, 0);
    t := t.(procs := t.procs[0 := Process(RESET, [], [], [])]);
    TakesLow(t, 0, 0, 1);
    assert Occupy([Hole(2, 1)], 0, 1) == [];
    t := WithSegment(t.(holes := []), 0, Segment(0, 2, 1));
    assert t.procs[0] == Process(RESET, [Segment(0, 2, 1)], [], PROGRAM);
    assert t.procs[1] == Process(RESET, [Segment(0, 0, 2)], [], PROGRAM);
    assert t.procs == Apiece([], [Segment(0, 0, 2)], 2, [1, 2, 3]).procs;
  }

  lemma OneSegment(base: nat, addr: word, size: word)
    requires addr < FAR
    ensures FindSegment([Segment(0, base, 1)], addr / FAR) == Some(0) && addr % FAR == addr
    ensures Passes([Segment(0, base, 1)], FAR, addr, size) <==> (addr + size) % WORD_MODULUS <= 1
  {
    assert FindSegment([Segment(0, base, 1)][..0], 0).None?;
  }

  /** A call for 4 GiB less 1 bytes from offset 1 goes through, and its range is in no segment. */
  lemma CallsOutside()
    ensures var s, r := Apiece([], [Segment(0, 0, 2)], 2, [1, 2, 3]), RESET.(eax := 1, ebx := 0xFFFF_FFFF);
            && Reachable(s)
            && PhysStep(Stream(0, EAX, EBX), r, s.procs[0].table, FAR, s.flat).outcome == Trap(0)
            && Locate(TableImage(s.flat, s.procs[0].table), FAR, 1, 0xFFFF_FFFF).None?
  {
    hide Reachable, Inv, Locate;
    var s := Apiece([], [Segment(0, 0, 2)], 2, [1, 2, 3]);
    ApieceReached();
    ReachableInv(s);
    OneSegment(2, 1, 0xFFFF_FFFF);
    TranslateSplits(s.procs[0].table, FAR, 1, 0xFFFF_FFFF);
    TranslateLocates(s, 0, 1, 0xFFFF_FFFF);
  }

  /** The call that reads its address as negative does tell where memory lies: a compaction turns the
      fault into a call. */
  lemma CompactionShows()
    ensures var s, t := Apiece([Hole(0, 2)], [], 2, [1, 2, 3]), Apiece([Hole(1, 2)], [], 0, [3, 2, 3]);
            var r, i := RESET.(eax := 0x7FFF_FFFE, ebx := 0x8000_0002), Stream(0, EAX, EBX);
            && Reachable(s) && Compacted(s, t)
            && PhysStep(i, r, s.procs[0].table, FAR, s.flat).outcome == Fault
            && PhysStep(i, r, t.procs[0].table, FAR, t.flat).outcome == Trap(0)
  {
    hide Reachable, Compacted, PhysStep;
    FirstFreed();
    OnlyOneMoved();
    FarCall(2, [1, 2, 3]);
    FarCall(0, [3, 2, 3]);
  }

  lemma FarCall(base: nat, flat: seq<byte>)
    requires base <= 2
    ensures var r := RESET.(eax := 0x7FFF_FFFE, ebx := 0x8000_0002);
            PhysStep(Stream(0, EAX, EBX), r, [Segment(0, base, 1)], FAR, flat).outcome ==
            if base == 2 then Fault else Trap(0)
  {
    hide Translate, Passes, FindSegment;
    OneSegment(base, 0x7FFF_FFFE, 0x8000_0002);
    TranslateSplits([Segment(0, base, 1)], FAR, 0x7FFF_FFFE, 0x8000_0002);
  }

  lemma FirstFreed()
    ensures Reachable(Apiece([Hole(0, 2)], [], 2, [1, 2, 3]))
  {
    hide Reachable;
    var s, t := Apiece([], [Segment(0, 0, 2)], 2, [1, 2, 3]), Apiece([Hole(0, 2)], [], 2, [1, 2, 3]);
    ApieceReached();
    var table := s.procs[1].table;
    assert FindSegment(table[..0], 0).None? && FindSegment(table, 0) == Some(0);
    assert RemoveAt(table, 0) == [];
    forall a ensures IsFree(t.holes, a) <==> IsFree(s.holes, a) || Hole(0, 2).Has(a) {
      if Hole(0, 2).Has(a) { assert t.holes[0] in t.holes; }
    }
    assert t.procs == s.procs[1 := s.procs[1].(table := [])];
    assert Freed(s, 1, 0, t, true);
    Reaches(s, Op.Free(1, 0), t, true);
  }

  lemma OnlyOneMoved()
    ensures Compacted(Apiece([Hole(0, 2)], [], 2, [1, 2, 3]), Apiece([Hole(1, 2)], [], 0, [3, 2, 3]))
  {
    var s, t := Apiece([Hole(0, 2)], [], 2, [1, 2, 3]), Apiece([Hole(1, 2)], [], 0, [3, 2, 3]);
    var keys := [Ref(0, 0)];
    forall k ensures k in keys <==> IsRef(s, k) {}
    var spans := Spans(s, keys);
    assert spans[..0] == [] && spans == [Hole(2, 1)] && spans[..|spans| - 1] == [];
    assert TotalSize(spans) == 1;
    assert Bytes(t.flat, Segment(0, 0, 1)) == [3] == Bytes(s.flat, Segment(0, 2, 1));
    assert CompactedBy(s, keys, t);
  }
}
