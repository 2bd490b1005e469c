/** The state of kernel memory as a value, its invariant, and what each operation does to it.
    The operations are stated by what they promise; KernelMemory.dfy proves the code keeps it. */
module Memory {
  import opened Common
  import opened Holes
  import opened Isa
  import Sticks

  datatype Segment = Segment(id: nat, base: nat, limit: nat) {
    predicate Has(a: int) {
      base <= a < base + limit
    }

    function End(): nat {
      base + limit
    }
  }

  datatype SwapSegment = SwapSegment(id: nat, size: nat, blocks: seq<nat>)

  datatype Process = Process(
    regs: Registers,
    table: seq<Segment>,
    suspended: seq<SwapSegment>,
    program: seq<Instruction>)

  datatype Swap = Swap(connected: bool, blockSize: nat, free: seq<nat>, disk: seq<seq<byte>>)

  datatype State = State(
    maxSegment: nat,
    best: bool,
    holes: seq<Hole>,
    procs: map<nat, Process>,
    flat: seq<byte>,
    swap: Swap)

  /** A place in some process's segment table. */
  datatype Ref = Ref(pid: nat, index: nat)

  predicate Known(procs: map<nat, Process>, k: Ref) {
    k.pid in procs && k.index < |procs[k.pid].table|
  }

  function Named(procs: map<nat, Process>, k: Ref): Segment
    requires Known(procs, k)
  {
    procs[k.pid].table[k.index]
  }

  predicate IsRef(s: State, k: Ref) {
    Known(s.procs, k)
  }

  function At(s: State, k: Ref): Segment
    requires IsRef(s, k)
  {
    Named(s.procs, k)
  }

  predicate Apart(g: Segment, h: Segment) {
    g.End() <= h.base || h.End() <= g.base
  }

  // ----------------------------------------------------------- invariant

  /** Holes and segments partition the physical memory. */
  ghost predicate Partition(s: State) {
    && Canonical(s.holes)
    && (forall h :: h in s.holes ==> h.End() <= |s.flat|)
    && (forall k :: IsRef(s, k) ==> At(s, k).limit > 0 && At(s, k).End() <= |s.flat|)
    && (forall k, j :: IsRef(s, k) && IsRef(s, j) && k != j ==> Apart(At(s, k), At(s, j)))
    && (forall k, a :: IsRef(s, k) && At(s, k).Has(a) ==> !IsFree(s.holes, a))
    && (forall a :: 0 <= a < |s.flat| ==> IsFree(s.holes, a) || Used(s, a))
  }

  ghost predicate Used(s: State, a: int) {
    exists k :: IsRef(s, k) && At(s, k).Has(a)
  }

  function BlocksOf(ss: seq<SwapSegment>): seq<nat> {
    if ss == [] then [] else BlocksOf(ss[..|ss| - 1]) + ss[|ss| - 1].blocks
  }

  /** The number of blocks a segment of `size` bytes needs. */
  function BlocksFor(size: nat, blockSize: nat): nat
    requires blockSize > 0
  {
    (size + blockSize - 1) / blockSize
  }

  function Suspended(s: State, pid: nat): seq<nat>
    requires pid in s.procs
  {
    BlocksOf(s.procs[pid].suspended)
  }

  /** Swap block `b` belongs to a suspended segment of process `p`. */
  ghost predicate Holds(s: State, p: nat, b: nat) {
    p in s.procs && b in Suspended(s, p)
  }

  /** Every swap block is in one place: the free list, or one suspended segment. */
  ghost predicate Conserved(s: State) {
    && (forall b :: b in s.swap.free ==> b < |s.swap.disk|)
    && NoDup(s.swap.free)
    && (forall p :: p in s.procs ==> NoDup(Suspended(s, p)))
    && (forall p, b: nat :: Holds(s, p, b) ==> b < |s.swap.disk| && b !in s.swap.free)
    && (forall p, q, b: nat :: Holds(s, p, b) && Holds(s, q, b) ==> p == q)
    && (forall b :: 0 <= b < |s.swap.disk| ==> b in s.swap.free || exists p :: Holds(s, p, b))
  }

  /** Each suspended segment has exactly the blocks its size calls for. */
  ghost predicate Sized(swap: Swap, ss: seq<SwapSegment>) {
    if swap.connected then
      && swap.blockSize > 0
      && forall g :: g in ss ==> g.size > 0 && |g.blocks| == BlocksFor(g.size, swap.blockSize)
    else ss == []
  }

  ghost predicate Whole(swap: Swap) {
    && (if swap.connected then swap.blockSize > 0 else swap.free == [] && swap.disk == [])
    && (forall b :: 0 <= b < |swap.disk| ==> |swap.disk[b]| == swap.blockSize)
  }

  ghost predicate Inv(s: State) {
    && 0 < s.maxSegment < 0x8000_0000
    && |s.flat| < 0x8000_0000
    && Partition(s)
    && Whole(s.swap)
    && Conserved(s)
    && (forall p :: p in s.procs ==> Sized(s.swap, s.procs[p].suspended))
  }

  lemma InvPartition(s: State)
    requires Inv(s)
    ensures Partition(s)
  {
  }

  lemma InvHoles(s: State)
    requires Inv(s)
    ensures Canonical(s.holes)
  {
  }

  lemma InvSwap(s: State)
    requires Inv(s)
    ensures s.swap.connected ==> s.swap.blockSize > 0
    ensures NoDup(s.swap.free) && forall b :: b in s.swap.free ==> b < |s.swap.disk|
  {
  }

  // ----------------------------------------------------------- logical memory

  datatype LogicalSegment = LogicalSegment(id: nat, bytes: seq<byte>)

  /** What a process can see of memory: the segments it can address now, and those in swap. */
  datatype Image = Image(table: seq<LogicalSegment>, suspended: seq<LogicalSegment>)

  function Bytes(flat: seq<byte>, g: Segment): seq<byte> {
    Slice(flat, g.base, g.limit)
  }

  function Gather(disk: seq<seq<byte>>, blocks: seq<nat>): seq<byte> {
    if blocks == [] then []
    else Gather(disk, blocks[..|blocks| - 1]) +
         (if blocks[|blocks| - 1] < |disk| then disk[blocks[|blocks| - 1]] else [])
  }

  /** The first `size` bytes kept in the given blocks; the padding of the last block is dropped. */
  function SwapBytes(disk: seq<seq<byte>>, g: SwapSegment): seq<byte> {
    Slice(Gather(disk, g.blocks), 0, g.size)
  }

  function TableImage(flat: seq<byte>, table: seq<Segment>): seq<LogicalSegment> {
    seq(|table|, i requires 0 <= i < |table| => LogicalSegment(table[i].id, Bytes(flat, table[i])))
  }

  function SwapImage(disk: seq<seq<byte>>, ss: seq<SwapSegment>): seq<LogicalSegment> {
    seq(|ss|, i requires 0 <= i < |ss| => LogicalSegment(ss[i].id, SwapBytes(disk, ss[i])))
  }

  function ImageOf(s: State, pid: nat): Image
    requires pid in s.procs
  {
    Image(TableImage(s.flat, s.procs[pid].table), SwapImage(s.swap.disk, s.procs[pid].suspended))
  }

  /** Process `q` sees the same memory in both states. */
  ghost predicate SameImage(s: State, t: State, q: nat) {
    q in s.procs ==> q in t.procs && ImageOf(t, q) == ImageOf(s, q) &&
                     t.procs[q].regs == s.procs[q].regs && t.procs[q].program == s.procs[q].program
  }

  // ----------------------------------------------------------- operations

  ghost predicate Created(s: State, pid: nat, program: seq<Instruction>, t: State) {
    t == s.(procs := s.procs[pid := Process(RESET, [], [], program)])
  }

  ghost predicate StickConnected(s: State, contents: seq<byte>, t: State) {
    && t == s.(holes := t.holes, flat := s.flat + contents)
    && Released(s.holes, Hole(|s.flat|, |contents|), t.holes)
  }

  ghost predicate SwapConnected(s: State, blockSize: nat, disk: seq<seq<byte>>, t: State) {
    t == s.(swap := Swap(true, blockSize, seq(|disk|, i requires 0 <= i < |disk| => i), disk))
  }

  function Spans(s: State, keys: seq<Ref>): seq<Hole>
    requires forall k :: k in keys ==> IsRef(s, k)
  {
    seq(|keys|, i requires 0 <= i < |keys| => Hole(At(s, keys[i]).base, At(s, keys[i]).limit))
  }

  /** `keys` names every segment of every process once, in address order. */
  ghost predicate Enumerates(s: State, keys: seq<Ref>) {
    && (forall k :: k in keys <==> IsRef(s, k))
    && (forall i, j :: 0 <= i < j < |keys| ==> At(s, keys[i]).base < At(s, keys[j]).base)
  }

  /** Tables keep their shape and everything outside memory layout stays as it was. */
  ghost predicate SameTables(s: State, t: State) {
    && t == s.(holes := t.holes, procs := t.procs, flat := t.flat)
    && |t.flat| == |s.flat|
    && t.procs.Keys == s.procs.Keys
    && (forall p :: p in s.procs ==>
          t.procs[p] == s.procs[p].(table := t.procs[p].table) && |t.procs[p].table| == |s.procs[p].table|)
  }

  function TopHole(used: nat, total: nat): seq<Hole> {
    if used < total then [Hole(used, total - used)] else []
  }

  /** Segments packed from 0 in address order, each with the bytes it had, and one hole above them. */
  ghost predicate CompactedBy(s: State, keys: seq<Ref>, t: State) {
    && Enumerates(s, keys)
    && SameTables(s, t)
    && (forall i :: 0 <= i < |keys| ==>
          && IsRef(t, keys[i])
          && At(t, keys[i]) == At(s, keys[i]).(base := TotalSize(Spans(s, keys)[..i]))
          && Bytes(t.flat, At(t, keys[i])) == Bytes(s.flat, At(s, keys[i])))
    && t.holes == TopHole(TotalSize(Spans(s, keys)), |s.flat|)
  }

  ghost predicate Compacted(s: State, t: State) {
    exists keys :: CompactedBy(s, keys, t)
  }

  function WithSegment(s: State, pid: nat, g: Segment): State
    requires pid in s.procs
  {
    s.(procs := s.procs[pid := s.procs[pid].(table := s.procs[pid].table + [g])])
  }

  /** The chosen hole gives the segment; for an unknown process nothing changes. */
  ghost predicate Placed(s: State, pid: nat, id: nat, size: nat, t: State, ok: bool) {
    exists k: nat ::
      && IsChoice(s.holes, s.best, size, Some(k))
      && if pid in s.procs then
           ok && t == WithSegment(s.(holes := Occupy(s.holes, k, size)), pid, Segment(id, s.holes[k].base, size))
         else !ok && t == s
  }

  ghost predicate Fits(hs: seq<Hole>, size: nat) {
    exists h :: h in hs && h.size >= size
  }

  ghost predicate Allocated(s: State, pid: nat, id: nat, size: nat, t: State, ok: bool) {
    if size > s.maxSegment then !ok && t == s
    else if Fits(s.holes, size) then Placed(s, pid, id, size, t, ok)
    else if TotalSize(s.holes) < size then !ok && t == s
    else exists c :: Compacted(s, c) && if Fits(c.holes, size) then Placed(c, pid, id, size, t, ok) else !ok && t == c
  }

  /** The first entry of the table with this id, if any. */
  function FindSegment(table: seq<Segment>, id: nat): (r: Option<nat>)
    ensures r.None? ==> forall i :: 0 <= i < |table| ==> table[i].id != id
    ensures r.Some? ==> r.value < |table| && table[r.value].id == id &&
                        forall i :: 0 <= i < r.value ==> table[i].id != id
  {
    if table == [] then None
    else
      var r := FindSegment(table[..|table| - 1], id);
      if r.Some? then r else if table[|table| - 1].id == id then Some(|table| - 1) else None
  }

  ghost predicate Freed(s: State, pid: nat, id: nat, t: State, ok: bool) {
    if pid !in s.procs || FindSegment(s.procs[pid].table, id).None? then !ok && t == s
    else
      var i := FindSegment(s.procs[pid].table, id).value;
      var g := s.procs[pid].table[i];
      && ok
      && t == s.(holes := t.holes, procs := s.procs[pid := s.procs[pid].(table := RemoveAt(s.procs[pid].table, i))])
      && Released(s.holes, Hole(g.base, g.limit), t.holes)
  }

  /** `gs` is the canonical free list after also giving back every segment of `table`. */
  ghost predicate ReleasedAll(hs: seq<Hole>, table: seq<Segment>, gs: seq<Hole>) {
    && Canonical(gs)
    && forall a :: IsFree(gs, a) <==> IsFree(hs, a) || InTable(table, a)
  }

  ghost predicate InTable(table: seq<Segment>, a: int) {
    exists g :: g in table && g.Has(a)
  }

  ghost predicate Finalized(s: State, pid: nat, t: State, ok: bool) {
    if pid !in s.procs then !ok && t == s
    else
      && ok
      && t == s.(holes := t.holes, procs := s.procs - {pid},
                 swap := s.swap.(free := s.swap.free + Suspended(s, pid)))
      && ReleasedAll(s.holes, s.procs[pid].table, t.holes)
  }

  // ----------------------------------------------------------- suspension

  function BlocksNeeded(table: seq<Segment>, blockSize: nat): nat
    requires blockSize > 0
  {
    if table == [] then 0
    else BlocksNeeded(table[..|table| - 1], blockSize) + BlocksFor(table[|table| - 1].limit, blockSize)
  }

  /** `ss` holds the segments of `table`, in order, in the blocks `used`. */
  ghost predicate SavedIn(flat: seq<byte>, table: seq<Segment>, swap: Swap, used: seq<nat>, ss: seq<SwapSegment>) {
    && |ss| == |table|
    && BlocksOf(ss) == used
    && Sized(swap, ss)
    && forall i :: 0 <= i < |ss| ==>
         ss[i].id == table[i].id && ss[i].size == table[i].limit && SwapBytes(swap.disk, ss[i]) == Bytes(flat, table[i])
  }

  /** Only the blocks of `used` may have changed. */
  ghost predicate DiskKept(disk: seq<seq<byte>>, used: seq<nat>, new_: seq<seq<byte>>) {
    && |new_| == |disk|
    && (forall b :: 0 <= b < |disk| ==> |new_[b]| == |disk[b]|)
    && (forall b :: 0 <= b < |disk| && b !in used ==> new_[b] == disk[b])
  }

  ghost predicate SuspendedAll(s: State, pid: nat, t: State)
    requires pid in s.procs && s.swap.blockSize > 0
    requires BlocksNeeded(s.procs[pid].table, s.swap.blockSize) <= |s.swap.free|
  {
    var p := s.procs[pid];
    var need := BlocksNeeded(p.table, s.swap.blockSize);
    && ReleasedAll(s.holes, p.table, t.holes)
    && DiskKept(s.swap.disk, s.swap.free[..need], t.swap.disk)
    && pid in t.procs
    && |t.procs[pid].suspended| >= |p.suspended|
    && t == s.(holes := t.holes,
               procs := s.procs[pid := p.(table := [], suspended := t.procs[pid].suspended)],
               swap := s.swap.(free := s.swap.free[need..], disk := t.swap.disk))
    && t.procs[pid].suspended[..|p.suspended|] == p.suspended
    && SavedIn(s.flat, p.table, t.swap, s.swap.free[..need], t.procs[pid].suspended[|p.suspended|..])
  }

  /** Swap ran out at segment `n`: the `n` segments before it are already free, yet still in the table. */
  ghost predicate SuspendedPart(s: State, pid: nat, n: nat, t: State)
    requires pid in s.procs && s.swap.blockSize > 0 && n <= |s.procs[pid].table|
    requires BlocksNeeded(s.procs[pid].table[..n], s.swap.blockSize) <= |s.swap.free|
  {
    var need := BlocksNeeded(s.procs[pid].table[..n], s.swap.blockSize);
    && ReleasedAll(s.holes, s.procs[pid].table[..n], t.holes)
    && DiskKept(s.swap.disk, s.swap.free[..need], t.swap.disk)
    && t == s.(holes := t.holes,
               swap := s.swap.(free := s.swap.free[need..] + s.swap.free[..need], disk := t.swap.disk))
  }

  /** Segment `n` is the first one whose blocks are no longer free. */
  ghost predicate RunsOutAt(s: State, pid: nat, n: nat)
    requires pid in s.procs && s.swap.blockSize > 0
  {
    && n < |s.procs[pid].table|
    && BlocksNeeded(s.procs[pid].table[..n], s.swap.blockSize) <= |s.swap.free|
    && |s.swap.free| < BlocksNeeded(s.procs[pid].table[..n + 1], s.swap.blockSize)
  }

  ghost predicate SuspendedStep(s: State, pid: nat, t: State, ok: bool) {
    if pid !in s.procs || !s.swap.connected || s.swap.blockSize == 0 then !ok && t == s
    else if BlocksNeeded(s.procs[pid].table, s.swap.blockSize) <= |s.swap.free| then ok && SuspendedAll(s, pid, t)
    else !ok && exists n :: RunsOutAt(s, pid, n) && SuspendedPart(s, pid, n, t)
  }

  // ----------------------------------------------------------- resumption

  /** The one answer `seleccionar_hueco` can give. */
  function Choose(hs: seq<Hole>, best: bool, size: nat): (r: Option<nat>)
    ensures IsChoice(hs, best, size, r)
  {
    if hs == [] then None
    else
      var n := |hs| - 1;
      var r := Choose(hs[..n], best, size);
      if hs[n].size < size then r
      else if r.None? || (if best then hs[n].size < hs[r.value].size else hs[n].size > hs[r.value].size) then Some(n)
      else r
  }

  /** Where the segments go, one after the other, until one finds no hole. */
  function PlaceAll(hs: seq<Hole>, best: bool, ss: seq<SwapSegment>): (r: (seq<nat>, seq<Hole>))
    ensures |r.0| <= |ss|
  {
    if ss == [] then ([], hs)
    else
      var n := |ss| - 1;
      var r := PlaceAll(hs, best, ss[..n]);
      if |r.0| < n then r
      else
        var k := Choose(r.1, best, ss[n].size);
        if k.None? then r
        else (r.0 + [r.1[k.value].base], Occupy(r.1, k.value, ss[n].size))
  }

  /** Address `a` belongs to one of the segments placed at `bases`. */
  ghost predicate InPlaces(bases: seq<nat>, ss: seq<SwapSegment>, a: int) {
    exists i :: 0 <= i < |bases| && i < |ss| && bases[i] <= a < bases[i] + ss[i].size
  }

  function Rebuilt(bases: seq<nat>, ss: seq<SwapSegment>): seq<Segment>
    requires |bases| == |ss|
  {
    seq(|ss|, i requires 0 <= i < |ss| => Segment(ss[i].id, bases[i], ss[i].size))
  }

  /** The placed segments hold what swap kept, and nothing else in memory changed. */
  ghost predicate Loaded(flat: seq<byte>, disk: seq<seq<byte>>, bases: seq<nat>, ss: seq<SwapSegment>,
                         new_: seq<byte>)
  {
    && |new_| == |flat|
    && (forall i :: 0 <= i < |bases| && i < |ss| ==> Slice(new_, bases[i], ss[i].size) == SwapBytes(disk, ss[i]))
    && (forall a :: 0 <= a < |flat| && !InPlaces(bases, ss, a) ==> new_[a] == flat[a])
  }

  ghost predicate ResumedStep(s: State, pid: nat, t: State, ok: bool) {
    if pid !in s.procs then !ok && t == s
    else
      var p := s.procs[pid];
      var (bases, rest) := PlaceAll(s.holes, s.best, p.suspended);
      && Loaded(s.flat, s.swap.disk, bases, p.suspended, t.flat)
      && ok == (|bases| == |p.suspended|)
      && if ok then
           t == s.(holes := rest, flat := t.flat,
                   procs := s.procs[pid := p.(table := p.table + Rebuilt(bases, p.suspended), suspended := [])],
                   swap := s.swap.(free := s.swap.free + BlocksOf(p.suspended)))
         else
           // the blocks of the segments already placed are given back, but stay in the record
           t == s.(flat := t.flat, swap := s.swap.(free := s.swap.free + BlocksOf(p.suspended[..|bases|])))
  }

  ghost predicate Written(s: State, at: nat, data: seq<byte>, t: State) {
    t == s.(flat := Sticks.Overwrite(s.flat, at, data))
  }

  ghost predicate ContextStored(s: State, pid: nat, regs: Registers, table: seq<Segment>, t: State, ok: bool) {
    if pid !in s.procs then !ok && t == s
    else ok && t == s.(procs := s.procs[pid := s.procs[pid].(regs := regs, table := table)])
  }
}
