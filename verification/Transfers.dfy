/** One turn of the loops that free, suspend and resume several segments. */
module Transfers {
  import opened Common
  import opened Holes
  import opened Memory
  import opened Partitions
  import opened SwapSpace
  import opened Kernel
  import opened SwapFiles
  import Sticks

  // ----------------------------------------------------------- allocation

  lemma ChoiceMeansFits(hs: seq<Hole>, best: bool, size: nat, r: Option<nat>)
    requires IsChoice(hs, best, size, r)
    ensures r.Some? <==> Fits(hs, size)
  {
    if r.Some? { assert hs[r.value] in hs; }
    if Fits(hs, size) {
      var h :| h in hs && h.size >= size;
      var i :| 0 <= i < |hs| && hs[i] == h;
    }
  }

  lemma TakenNotFree(hs: seq<Hole>, k: nat, size: nat)
    requires Canonical(hs) && k < |hs| && 0 < size <= hs[k].size
    ensures Canonical(Occupy(hs, k, size))
    ensures forall a :: hs[k].base <= a < hs[k].base + size ==> !IsFree(Occupy(hs, k, size), a)
  {
    OccupyTakes(hs, k, size);
  }

  // ----------------------------------------------------------- releasing a table

  lemma ReleaseNone(hs: seq<Hole>, table: seq<Segment>)
    requires Canonical(hs)
    ensures ReleasedAll(hs, table[..0], hs)
  {
  }

  /** The segments can be given back one after the other: none is free yet, and no two overlap. */
  ghost predicate Releasable(hs: seq<Hole>, table: seq<Segment>) {
    && Canonical(hs)
    && (forall g :: g in table ==> g.limit > 0)
    && (forall i, a :: 0 <= i < |table| && table[i].Has(a) ==> !IsFree(hs, a))
    && (forall i, j :: 0 <= i < j < |table| ==> Apart(table[i], table[j]))
  }

  lemma TableReleasable(s: State, pid: nat)
    requires Partition(s) && pid in s.procs
    ensures Releasable(s.holes, s.procs[pid].table)
  {
    var table := s.procs[pid].table;
    forall i | 0 <= i < |table| ensures IsRef(s, Ref(pid, i)) && At(s, Ref(pid, i)) == table[i] {}
  }

  lemma ReleasableTail(hs: seq<Hole>, front: seq<Segment>, back: seq<Segment>)
    requires Releasable(hs, front + back)
    ensures Releasable(hs, back)
  {
    var all, n := front + back, |front|;
    forall j | 0 <= j < |back| ensures back[j] == all[n + j] && back[j] in all {}
  }

  lemma ReleaseRoom(hs: seq<Hole>, table: seq<Segment>, i: nat, gs: seq<Hole>)
    requires Releasable(hs, table) && i < |table| && ReleasedAll(hs, table[..i], gs)
    ensures Canonical(gs) && table[i].limit > 0
    ensures forall a :: table[i].base <= a < table[i].base + table[i].limit ==> !IsFree(gs, a)
  {
    forall a | table[i].Has(a) ensures !InTable(table[..i], a) {
      forall g | g in table[..i] ensures !g.Has(a) {
        var j :| 0 <= j < i && table[j] == g;
      }
    }
  }

  lemma ReleaseNext(hs: seq<Hole>, table: seq<Segment>, i: nat, gs: seq<Hole>, ks: seq<Hole>)
    requires i < |table| && ReleasedAll(hs, table[..i], gs)
    requires Released(gs, Hole(table[i].base, table[i].limit), ks)
    ensures ReleasedAll(hs, table[..i + 1], ks)
  {
    forall a ensures InTable(table[..i + 1], a) <==> InTable(table[..i], a) || table[i].Has(a) {
      assert table[..i + 1] == table[..i] + [table[i]];
      if table[i].Has(a) { assert table[i] in table[..i + 1]; }
    }
    forall a ensures Hole(table[i].base, table[i].limit).Has(a) <==> table[i].Has(a) {}
  }

  lemma WrittenEffect(s: State, at: nat, data: seq<byte>, t: State, ok: bool)
    requires Inv(s) && t == s.(flat := Sticks.Overwrite(s.flat, at, data))
    requires ok <==> |data| == 0 || at + |data| <= |s.flat|
    ensures Inv(t) && Effect(s, Op.Write(at, data), t, ok)
  {
    RewrittenInv(s, t);
  }

  lemma FreesNothing(s: State, pid: nat, id: nat)
    ensures pid !in s.procs || (forall i :: 0 <= i < |s.procs[pid].table| ==> s.procs[pid].table[i].id != id)
            ==> Effect(s, Op.Free(pid, id), s, false)
  {
  }

  lemma FreedEffect(s: State, pid: nat, id: nat, i: nat, t: State)
    requires Inv(s) && pid in s.procs && i < |s.procs[pid].table| && s.procs[pid].table[i].id == id
    requires forall j :: 0 <= j < i ==> s.procs[pid].table[j].id != id
    requires t == s.(holes := t.holes, procs := s.procs[pid := s.procs[pid].(table := RemoveAt(s.procs[pid].table, i))])
    requires Released(s.holes, Hole(s.procs[pid].table[i].base, s.procs[pid].table[i].limit), t.holes)
    ensures Inv(t) && Effect(s, Op.Free(pid, id), t, true)
  {
    assert FindSegment(s.procs[pid].table, id) == Some(i);
    FreedInv(s, pid, id, t, true);
  }

  lemma NotFinalized(s: State, pid: nat)
    ensures pid !in s.procs ==> Effect(s, Finalize(pid), s, false)
  {
  }

  lemma FinalizedEffect(s: State, pid: nat, t: State)
    requires Inv(s) && pid in s.procs
    requires ReleasedAll(s.holes, s.procs[pid].table, t.holes)
    requires t == s.(holes := t.holes, procs := s.procs - {pid},
                     swap := s.swap.(free := s.swap.free + BlocksOf(s.procs[pid].suspended)))
    ensures Inv(t) && Effect(s, Finalize(pid), t, true)
  {
    FinalizedInv(s, pid, t, true);
  }

  // ----------------------------------------------------------- cutting a segment into blocks

  /** Block number `b` of the data, the last one padded with zeros. */
  function Chunk(data: seq<byte>, size: nat, b: nat): seq<byte> {
    if b * size > |data| then Zeros(size)
    else if b * size + size <= |data| then data[b * size..b * size + size]
    else data[b * size..] + Zeros(b * size + size - |data|)
  }

  lemma ChunkBytes(data: seq<byte>, size: nat, b: nat)
    ensures |Chunk(data, size, b)| == size
    ensures forall x :: b * size <= x < b * size + size && x < |data| ==> Chunk(data, size, b)[x - b * size] == data[x]
  {
  }

  lemma {:induction false} GatherChunks(disk: seq<seq<byte>>, blocks: seq<nat>, data: seq<byte>, size: nat)
    requires forall j :: 0 <= j < |blocks| ==> blocks[j] < |disk| && disk[blocks[j]] == Chunk(data, size, j)
    ensures |Gather(disk, blocks)| == |blocks| * size
    ensures forall x :: 0 <= x < |blocks| * size && x < |data| ==> Gather(disk, blocks)[x] == data[x]
  {
    hide Chunk, Gather;
    GatherSplits(disk, blocks);
    if blocks == [] {
      assert |blocks| * size == 0;
    } else {
      var n := |blocks| - 1;
      GatherChunks(disk, blocks[..n], data, size);
      ChunkBytes(data, size, n);
      OneBlockMore(n, size);
    }
  }

  lemma GatherSplits(disk: seq<seq<byte>>, blocks: seq<nat>)
    ensures if blocks == [] then Gather(disk, blocks) == []
            else var n := |blocks| - 1;
                 Gather(disk, blocks) ==
                 Gather(disk, blocks[..n]) + if blocks[n] < |disk| then disk[blocks[n]] else []
  {
  }

  lemma OneBlockMore(n: nat, size: nat)
    ensures (n + 1) * size == n * size + size
  {
  }

  lemma EnoughBlocks(size: nat, blockSize: nat)
    requires blockSize > 0
    ensures size <= BlocksFor(size, blockSize) * blockSize < size + blockSize
  {
    var n := size + blockSize - 1;
    assert n == n / blockSize * blockSize + n % blockSize;
  }

  /** Cut, padded and put back together, the data is what it was: the padding is not seen. */
  lemma ChunksRoundTrip(disk: seq<seq<byte>>, g: SwapSegment, data: seq<byte>, blockSize: nat)
    requires blockSize > 0 && g.size == |data| && |g.blocks| == BlocksFor(g.size, blockSize)
    requires forall j :: 0 <= j < |g.blocks| ==> g.blocks[j] < |disk| && disk[g.blocks[j]] == Chunk(data, blockSize, j)
    ensures SwapBytes(disk, g) == data
  {
    EnoughBlocks(g.size, blockSize);
    GatherChunks(disk, g.blocks, data, blockSize);
  }

  // ----------------------------------------------------------- suspending

  /** The first `i` segments are in swap and their memory is free; nothing else has changed. */
  ghost predicate SavedUpTo(s: State, pid: nat, i: nat, m: State, news: seq<SwapSegment>)
    requires pid in s.procs && s.swap.blockSize > 0 && i <= |s.procs[pid].table|
  {
    var need := BlocksNeeded(s.procs[pid].table[..i], s.swap.blockSize);
    && need <= |s.swap.free|
    && ReleasedAll(s.holes, s.procs[pid].table[..i], m.holes)
    && DiskKept(s.swap.disk, s.swap.free[..need], m.swap.disk)
    && m == s.(holes := m.holes, swap := s.swap.(free := s.swap.free[need..], disk := m.swap.disk))
    && SavedIn(s.flat, s.procs[pid].table[..i], m.swap, s.swap.free[..need], news)
  }

  /** Before the first segment, nothing is released and nothing is saved. */
  lemma NothingSaved(s: State)
    requires Canonical(s.holes) && s.swap.blockSize > 0
    ensures BlocksNeeded([], s.swap.blockSize) == 0 && ReleasedAll(s.holes, [], s.holes)
    ensures DiskKept(s.swap.disk, [], s.swap.disk) && SavedIn(s.flat, [], s.swap, [], [])
  {
    hide Canonical, SwapBytes;
  }

  lemma SavedNone(s: State, pid: nat)
    requires Inv(s) && pid in s.procs && s.swap.connected
    ensures s.swap.blockSize > 0 && SavedUpTo(s, pid, 0, s, [])
  {
    hide Inv, BlocksNeeded, ReleasedAll, DiskKept, SavedIn;
    InvSwap(s);
    InvHoles(s);
    NothingSaved(s);
    assert s.swap.free[0..] == s.swap.free && s.swap.free[..0] == [];
    assert s.procs[pid].table[..0] == [];
  }

  lemma NeededNext(table: seq<Segment>, blockSize: nat, i: nat)
    requires blockSize > 0 && i < |table|
    ensures BlocksNeeded(table[..i + 1], blockSize) ==
            BlocksNeeded(table[..i], blockSize) + BlocksFor(table[i].limit, blockSize)
  {
    assert table[..i + 1][..i] == table[..i];
  }

  /** What saving one segment to `blocks` does to the disk. */
  ghost predicate SegmentSaved(disk: seq<seq<byte>>, g: SwapSegment, data: seq<byte>, new_: seq<seq<byte>>) {
    DiskKept(disk, g.blocks, new_) && SwapBytes(new_, g) == data
  }

  lemma SavedBytesKept(swap: Swap, used: seq<nat>, news: seq<SwapSegment>, blocks: seq<nat>, new_: seq<seq<byte>>)
    requires BlocksOf(news) == used && DiskKept(swap.disk, blocks, new_)
    requires forall b :: b in used ==> b !in blocks
    ensures forall i :: 0 <= i < |news| ==> SwapBytes(new_, news[i]) == SwapBytes(swap.disk, news[i])
  {
    SwapImageSame(swap.disk, new_, news);
    forall i | 0 <= i < |news| ensures SwapBytes(new_, news[i]) == SwapBytes(swap.disk, news[i]) {
      assert SwapImage(new_, news)[i] == SwapImage(swap.disk, news)[i];
    }
  }

  lemma DiskKeptTwice(disk: seq<seq<byte>>, a: seq<nat>, d: seq<seq<byte>>, b: seq<nat>, e: seq<seq<byte>>)
    requires DiskKept(disk, a, d) && DiskKept(d, b, e)
    ensures DiskKept(disk, a + b, e)
  {
    forall x ensures x in a + b <==> x in a || x in b {}
  }

  lemma SavedBlocks(flat: seq<byte>, table: seq<Segment>, swap: Swap, used: seq<nat>, ss: seq<SwapSegment>)
    requires SavedIn(flat, table, swap, used, ss)
    ensures BlocksOf(ss) == used
  {
  }

  lemma TakeMore<T>(s: seq<T>, a: nat, b: nat)
    requires a + b <= |s|
    ensures s[..a + b] == s[..a] + s[a..][..b] && s[a..][b..] == s[a + b..]
  {
  }

  lemma SavedNext(s: State, pid: nat, i: nat, m: State, news: seq<SwapSegment>, g: SwapSegment, n: State)
    requires Inv(s) && pid in s.procs && s.swap.connected && i < |s.procs[pid].table|
    requires SavedUpTo(s, pid, i, m, news)
    requires |m.swap.free| >= BlocksFor(s.procs[pid].table[i].limit, s.swap.blockSize)
    requires var seg := s.procs[pid].table[i];
             && g == SwapSegment(seg.id, seg.limit, m.swap.free[..BlocksFor(seg.limit, s.swap.blockSize)])
             && SegmentSaved(m.swap.disk, g, Bytes(s.flat, seg), n.swap.disk)
             && Released(m.holes, Hole(seg.base, seg.limit), n.holes)
    requires n == m.(holes := n.holes, swap := m.swap.(free := m.swap.free[|g.blocks|..], disk := n.swap.disk))
    ensures SavedUpTo(s, pid, i + 1, n, news + [g])
  {
    hide Inv, BlocksFor, BlocksNeeded, ReleasedAll, Released, SwapBytes, NoDup, DiskKept, SavedIn;
    InvSwap(s);
    var table, bs, free := s.procs[pid].table, s.swap.blockSize, s.swap.free;
    var need := BlocksNeeded(table[..i], bs);
    NoDupParts(free, need);
    SavedSegmentBounds(s, pid, i);
    NeededNext(table, bs, i);
    ReleaseNext(s.holes, table, i, m.holes, n.holes);
    TakeMore(free, need, |g.blocks|);
    assert forall b :: b in g.blocks ==> b in free[need..];
    DiskKeptTwice(s.swap.disk, free[..need], m.swap.disk, g.blocks, n.swap.disk);
    SavedBlocks(s.flat, table[..i], m.swap, free[..need], news);
    SavedBytesKept(m.swap, free[..need], news, g.blocks, n.swap.disk);
    SavedOneMore(s, table, i, m.swap, n.swap, free[..need], news, g);
  }

  lemma SavedOneMore(s: State, table: seq<Segment>, i: nat, a: Swap, b: Swap, used: seq<nat>,
                     news: seq<SwapSegment>, g: SwapSegment)
    requires i < |table| && table[i].limit > 0 && a.connected && b.connected && b.blockSize == a.blockSize > 0
    requires SavedIn(s.flat, table[..i], a, used, news)
    requires forall j :: 0 <= j < |news| ==> SwapBytes(b.disk, news[j]) == SwapBytes(a.disk, news[j])
    requires g.id == table[i].id && g.size == table[i].limit && |g.blocks| == BlocksFor(g.size, a.blockSize)
    requires SwapBytes(b.disk, g) == Bytes(s.flat, table[i])
    ensures SavedIn(s.flat, table[..i + 1], b, used + g.blocks, news + [g])
  {
    var all := news + [g];
    assert all[..|all| - 1] == news;
    forall h | h in all ensures h.size > 0 && |h.blocks| == BlocksFor(h.size, b.blockSize) {
      if h in news { assert Sized(a, news); }
    }
  }

  lemma SavedSegmentBounds(s: State, pid: nat, i: nat)
    requires Inv(s) && pid in s.procs && i < |s.procs[pid].table|
    ensures s.procs[pid].table[i].limit > 0 && s.procs[pid].table[i].End() <= |s.flat|
  {
    assert IsRef(s, Ref(pid, i)) && At(s, Ref(pid, i)) == s.procs[pid].table[i];
  }

  /** The blocks about to be taken are different and exist. */
  lemma FreeBlocksUsable(s: State, pid: nat, i: nat, m: State, news: seq<SwapSegment>, n: nat)
    requires Inv(s) && pid in s.procs && s.swap.connected && i <= |s.procs[pid].table|
    requires SavedUpTo(s, pid, i, m, news) && n <= |m.swap.free|
    ensures NoDup(m.swap.free[..n]) && forall b :: b in m.swap.free[..n] ==> b < |m.swap.disk|
  {
    var need := BlocksNeeded(s.procs[pid].table[..i], s.swap.blockSize);
    assert forall b :: b in m.swap.free[..n] ==> b in s.swap.free;
    NoDupParts(s.swap.free, need);
    NoDupParts(m.swap.free, n);
  }

  lemma SavedShape(s: State, pid: nat, i: nat, m: State, news: seq<SwapSegment>)
    requires pid in s.procs && s.swap.blockSize > 0 && i <= |s.procs[pid].table| && SavedUpTo(s, pid, i, m, news)
    ensures m == s.(holes := m.holes, swap := s.swap.(free := m.swap.free, disk := m.swap.disk))
    ensures |m.swap.disk| == |s.swap.disk|
  {
  }

  /** What a turn of the suspension loop starts from. */
  lemma SavedRoom(s: State, pid: nat, i: nat, m: State, news: seq<SwapSegment>)
    requires Inv(s) && pid in s.procs && s.swap.connected && i < |s.procs[pid].table|
    requires SavedUpTo(s, pid, i, m, news)
    ensures m == s.(holes := m.holes, swap := s.swap.(free := m.swap.free, disk := m.swap.disk))
    ensures var g := s.procs[pid].table[i];
            && g.limit > 0 && g.End() <= |s.flat| && Canonical(m.holes)
            && forall a :: g.base <= a < g.base + g.limit ==> !IsFree(m.holes, a)
    ensures var n := BlocksFor(s.procs[pid].table[i].limit, s.swap.blockSize);
            n <= |m.swap.free| ==>
              NoDup(m.swap.free[..n]) && forall b :: b in m.swap.free[..n] ==> b < |m.swap.disk|
  {
    hide Inv, NoDup, IsFree, BlocksFor, BlocksNeeded, Canonical, SavedIn;
    InvSwap(s);
    SavedSegmentBounds(s, pid, i);
    InvPartition(s);
    TableReleasable(s, pid);
    ReleaseRoom(s.holes, s.procs[pid].table, i, m.holes);
    var n := BlocksFor(s.procs[pid].table[i].limit, s.swap.blockSize);
    if n <= |m.swap.free| { FreeBlocksUsable(s, pid, i, m, news, n); }
  }

  lemma NotSuspended(s: State, pid: nat)
    requires Inv(s)
    ensures pid !in s.procs || !s.swap.connected ==> Effect(s, Op.Suspend(pid), s, false) && SuspendSafe(s, pid)
  {
  }

  lemma SavedToEnd(s: State, pid: nat, m: State, news: seq<SwapSegment>, t: State)
    requires Inv(s) && pid in s.procs && s.swap.connected
    requires SavedUpTo(s, pid, |s.procs[pid].table|, m, news)
    requires t == m.(procs := m.procs[pid := m.procs[pid].(table := [], suspended := m.procs[pid].suspended + news)])
    ensures Effect(s, Op.Suspend(pid), t, true) && (Inv(t) <==> SuspendSafe(s, pid))
  {
    var p := s.procs[pid];
    assert p.table[..|p.table|] == p.table;
    assert t.procs[pid].suspended[|p.suspended|..] == news;
    SuspendKeepsInvIff(s, pid, t, true);
  }

  lemma RunsOut(s: State, pid: nat, i: nat, m: State, news: seq<SwapSegment>, t: State)
    requires Inv(s) && pid in s.procs && s.swap.connected && i < |s.procs[pid].table|
    requires SavedUpTo(s, pid, i, m, news)
    requires |m.swap.free| < BlocksFor(s.procs[pid].table[i].limit, s.swap.blockSize)
    requires t == m.(swap := m.swap.(free := m.swap.free + BlocksOf(news)))
    ensures Effect(s, Op.Suspend(pid), t, false) && (Inv(t) <==> SuspendSafe(s, pid))
  {
    var table, bs := s.procs[pid].table, s.swap.blockSize;
    NeededNext(table, bs, i);
    BlocksNeededGrows(table, bs, i + 1, |table|);
    assert table[..|table|] == table;
    assert RunsOutAt(s, pid, i) && SuspendedPart(s, pid, i, t);
    SuspendKeepsInvIff(s, pid, t, false);
  }

  // ----------------------------------------------------------- one segment to swap

  /** The first `b` blocks of a segment are written. */
  ghost predicate ChunksWritten(before: seq<seq<byte>>, blocks: seq<nat>, data: seq<byte>, size: nat, b: nat,
                                disk: seq<seq<byte>>) {
    && DiskKept(before, blocks, disk)
    && b <= |blocks|
    && forall j :: 0 <= j < b ==> blocks[j] < |disk| && disk[blocks[j]] == Chunk(data, size, j)
  }

  lemma ChunksNone(disk: seq<seq<byte>>, blocks: seq<nat>, data: seq<byte>, size: nat)
    ensures ChunksWritten(disk, blocks, data, size, 0, disk)
  {
  }

  /** The buffer the loop fills for block `b` is that chunk. */
  lemma ChunkPadded(data: seq<byte>, size: nat, b: nat)
    requires size > 0 && b < BlocksFor(|data|, size)
    ensures b * size < |data|
    ensures var copy := Min(|data| - b * size, size);
            Chunk(data, size, b) == data[b * size..b * size + copy] + Zeros(size - copy)
  {
    EnoughBlocks(|data|, size);
    BlocksApart(b, BlocksFor(|data|, size), size);
  }

  lemma ChunkWritten(before: seq<seq<byte>>, blocks: seq<nat>, data: seq<byte>, size: nat, b: nat,
                     disk: seq<seq<byte>>, new_: seq<seq<byte>>)
    requires ChunksWritten(before, blocks, data, size, b, disk) && b < |blocks| && NoDup(blocks)
    requires forall x :: 0 <= x < |before| ==> |before[x]| == size
    requires blocks[b] < |disk| && new_ == disk[blocks[b] := Chunk(data, size, b)]
    ensures ChunksWritten(before, blocks, data, size, b + 1, new_)
  {
    ChunkBytes(data, size, b);
    assert blocks[b] in blocks;
  }

  lemma AllChunksWritten(before: seq<seq<byte>>, g: SwapSegment, data: seq<byte>, size: nat, disk: seq<seq<byte>>)
    requires size > 0 && g.size == |data| && |g.blocks| == BlocksFor(g.size, size)
    requires ChunksWritten(before, g.blocks, data, size, |g.blocks|, disk)
    ensures SegmentSaved(before, g, data, disk)
  {
    ChunksRoundTrip(disk, g, data, size);
  }

  // ----------------------------------------------------------- one segment from swap

  lemma {:induction false} GatherSize(disk: seq<seq<byte>>, blocks: seq<nat>, size: nat)
    requires forall b :: 0 <= b < |disk| ==> |disk[b]| == size
    requires forall j :: 0 <= j < |blocks| ==> blocks[j] < |disk|
    ensures |Gather(disk, blocks)| == |blocks| * size
  {
    if blocks == [] {
      assert |blocks| * size == 0;
    } else {
      var n := |blocks| - 1;
      GatherSize(disk, blocks[..n], size);
      OneBlockMore(n, size);
    }
  }

  /** The blocks of a suspended segment hold at least its size. */
  lemma SwapBytesSize(disk: seq<seq<byte>>, g: SwapSegment, size: nat)
    requires size > 0 && |g.blocks| == BlocksFor(g.size, size)
    requires forall b :: 0 <= b < |disk| ==> |disk[b]| == size
    requires forall j :: 0 <= j < |g.blocks| ==> g.blocks[j] < |disk|
    ensures |SwapBytes(disk, g)| == g.size && g.size <= |Gather(disk, g.blocks)|
  {
    GatherSize(disk, g.blocks, size);
    EnoughBlocks(g.size, size);
  }

  /** What the first `b` blocks of a segment bring. */
  function Prefix(disk: seq<seq<byte>>, g: SwapSegment, size: nat, b: nat): seq<byte>
    requires b <= |g.blocks|
  {
    Slice(Gather(disk, g.blocks[..b]), 0, Min(b * size, g.size))
  }

  lemma PrefixNone(disk: seq<seq<byte>>, g: SwapSegment, size: nat)
    ensures Prefix(disk, g, size, 0) == []
  {
    assert g.blocks[..0] == [];
  }

  lemma PrefixFull(disk: seq<seq<byte>>, g: SwapSegment, size: nat)
    requires size > 0 && |g.blocks| == BlocksFor(g.size, size)
    ensures Prefix(disk, g, size, |g.blocks|) == SwapBytes(disk, g)
  {
    assert g.blocks[..|g.blocks|] == g.blocks;
    EnoughBlocks(g.size, size);
  }

  /** The part of block `b` that the loop stores continues what is stored already. */
  lemma PrefixNext(disk: seq<seq<byte>>, g: SwapSegment, size: nat, b: nat)
    requires size > 0 && |g.blocks| == BlocksFor(g.size, size) && b < |g.blocks|
    requires forall x :: 0 <= x < |disk| ==> |disk[x]| == size
    requires forall j :: 0 <= j < |g.blocks| ==> g.blocks[j] < |disk|
    ensures b * size < g.size && |Prefix(disk, g, size, b)| == b * size
    ensures Prefix(disk, g, size, b + 1) ==
            Prefix(disk, g, size, b) + disk[g.blocks[b]][..Min(g.size - b * size, size)]
  {
    EnoughBlocks(g.size, size);
    BlocksApart(b, |g.blocks|, size);
    OneBlockMore(b, size);
    GatherSize(disk, g.blocks[..b], size);
    assert g.blocks[..b + 1][..b] == g.blocks[..b];
    assert Gather(disk, g.blocks[..b + 1]) == Gather(disk, g.blocks[..b]) + disk[g.blocks[b]];
  }

  lemma OverwriteNone(flat: seq<byte>, at: nat)
    ensures Sticks.Overwrite(flat, at, []) == flat
  {
  }

  lemma OverwriteNext(flat: seq<byte>, at: nat, a: seq<byte>, b: seq<byte>)
    ensures Sticks.Overwrite(Sticks.Overwrite(flat, at, a), at + |a|, b) == Sticks.Overwrite(flat, at, a + b)
  {
  }

  // ----------------------------------------------------------- resuming

  /** The first `i` suspended segments are back in memory, at `placed`; nothing else has changed. */
  ghost predicate LoadedUpTo(s: State, pid: nat, i: nat, m: State, placed: seq<Segment>)
    requires pid in s.procs && i <= |s.procs[pid].suspended|
  {
    var ss := s.procs[pid].suspended[..i];
    var (bases, rest) := PlaceAll(s.holes, s.best, ss);
    && |bases| == i
    && placed == Rebuilt(bases, ss)
    && Loaded(s.flat, s.swap.disk, bases, ss, m.flat)
    && m == s.(holes := rest, flat := m.flat, swap := s.swap.(free := s.swap.free + BlocksOf(ss)))
  }

  lemma LoadedNone(s: State, pid: nat)
    requires pid in s.procs
    ensures LoadedUpTo(s, pid, 0, s, [])
  {
    assert s.procs[pid].suspended[..0] == [];
    assert s.swap.free + [] == s.swap.free;
  }

  /** What is known about the next segment and the hole chosen for it. */
  lemma LoadRoom(s: State, pid: nat, i: nat, m: State, placed: seq<Segment>)
    requires Inv(s) && pid in s.procs && i < |s.procs[pid].suspended| && LoadedUpTo(s, pid, i, m, placed)
    ensures s.swap.connected && s.swap.blockSize > 0 && Whole(s.swap)
    ensures m.procs == s.procs && m.swap == s.swap.(free := m.swap.free) && m.best == s.best
    ensures var g := s.procs[pid].suspended[i];
            && g.size > 0 && |g.blocks| == BlocksFor(g.size, s.swap.blockSize)
            && forall j :: 0 <= j < |g.blocks| ==> g.blocks[j] < |s.swap.disk|
    ensures Canonical(m.holes) && |m.flat| == |s.flat| && forall h :: h in m.holes ==> h.End() <= |m.flat|
  {
    var ss := s.procs[pid].suspended;
    assert Sized(s.swap, ss) && ss[i] in ss;
    forall j | 0 <= j < |ss[i].blocks| ensures ss[i].blocks[j] < |s.swap.disk| {
      BlocksOfMember(ss, i, ss[i].blocks[j]);
      assert Holds(s, pid, ss[i].blocks[j]);
    }
    PlaceAllTakes(s.holes, s.best, ss[..i]);
    forall a | IsFree(m.holes, a) ensures a < |s.flat| {
      var j := FreeAt(s.holes, a);
      assert s.holes[j] in s.holes;
    }
    ReleasedBounds(m.holes, |s.flat|);
  }

  lemma LoadNext(s: State, pid: nat, i: nat, m: State, placed: seq<Segment>, k: nat, n: State)
    requires Inv(s) && pid in s.procs && i < |s.procs[pid].suspended| && LoadedUpTo(s, pid, i, m, placed)
    requires var g := s.procs[pid].suspended[i];
             && k < |m.holes| && m.holes[k].size >= g.size && IsChoice(m.holes, s.best, g.size, Some(k))
             && n == m.(holes := Occupy(m.holes, k, g.size),
                        flat := Sticks.Overwrite(m.flat, m.holes[k].base, SwapBytes(s.swap.disk, g)),
                        swap := m.swap.(free := m.swap.free + g.blocks))
    ensures LoadedUpTo(s, pid, i + 1, n, placed + [Segment(s.procs[pid].suspended[i].id, m.holes[k].base,
                                                           s.procs[pid].suspended[i].size)])
  {
    hide Inv, SwapBytes, Loaded, PlaceAll, IsChoice;
    var ss, g := s.procs[pid].suspended, s.procs[pid].suspended[i];
    assert ss[..i + 1][..i] == ss[..i];
    PlaceNext(s.holes, s.best, ss, i, k);
    var bases := PlaceAll(s.holes, s.best, ss[..i]).0;
    LoadedMore(s, pid, i, m, placed, k, n.flat);
    assert Rebuilt(bases + [m.holes[k].base], ss[..i + 1]) ==
           Rebuilt(bases, ss[..i]) + [Segment(g.id, m.holes[k].base, g.size)];
    assert s.swap.free + (BlocksOf(ss[..i]) + g.blocks) == s.swap.free + BlocksOf(ss[..i]) + g.blocks;
  }

  lemma LoadedMore(s: State, pid: nat, i: nat, m: State, placed: seq<Segment>, k: nat, flat: seq<byte>)
    requires Inv(s) && pid in s.procs && i < |s.procs[pid].suspended| && LoadedUpTo(s, pid, i, m, placed)
    requires var g := s.procs[pid].suspended[i];
             && k < |m.holes| && m.holes[k].size >= g.size
             && flat == Sticks.Overwrite(m.flat, m.holes[k].base, SwapBytes(s.swap.disk, g))
    ensures Loaded(s.flat, s.swap.disk, PlaceAll(s.holes, s.best, s.procs[pid].suspended[..i]).0 + [m.holes[k].base],
                   s.procs[pid].suspended[..i + 1], flat)
  {
    hide Inv, BlocksFor, PlaceAll, Gather, SwapBytes, Canonical, Whole;
    LoadRoom(s, pid, i, m, placed);
    var ss, g, h := s.procs[pid].suspended, s.procs[pid].suspended[i], m.holes[k];
    SwapBytesSize(s.swap.disk, g, s.swap.blockSize);
    assert h in m.holes;
    PlacesTaken(s, pid, i);
    var bases := PlaceAll(s.holes, s.best, ss[..i]).0;
    var more := bases + [h.base];
    forall j | 0 <= j < |more| ensures Slice(flat, more[j], ss[j].size) == SwapBytes(s.swap.disk, ss[j]) {
      if j < i { PlacedKept(m, ss[..i], bases, h, SwapBytes(s.swap.disk, g), j); }
    }
    MorePlaces(bases, h.base, ss, i);
  }

  lemma PlacedKept(m: State, ss: seq<SwapSegment>, bases: seq<nat>, h: Hole, data: seq<byte>, j: nat)
    requires h in m.holes && |data| <= h.size && |bases| == |ss| && j < |ss|
    requires forall a :: InPlaces(bases, ss, a) ==> !IsFree(m.holes, a)
    ensures Slice(Sticks.Overwrite(m.flat, h.base, data), bases[j], ss[j].size) == Slice(m.flat, bases[j], ss[j].size)
  {
    forall a | Hole(bases[j], ss[j].size).Has(a) ensures !Hole(h.base, |data|).Has(a) {
      assert InPlaces(bases, ss, a);
      assert h.Has(a) ==> IsFree(m.holes, a);
    }
    SliceKept(m.flat, h.base, data, bases[j], ss[j].size);
  }

  lemma MorePlaces(bases: seq<nat>, base: nat, ss: seq<SwapSegment>, i: nat)
    requires |bases| == i < |ss|
    ensures forall a :: InPlaces(bases, ss[..i], a) || base <= a < base + ss[i].size ==>
                        InPlaces(bases + [base], ss[..i + 1], a)
  {
    var more, up := bases + [base], ss[..i + 1];
    forall a | InPlaces(bases, ss[..i], a) || base <= a < base + ss[i].size ensures InPlaces(more, up, a) {
      var j := i;
      if InPlaces(bases, ss[..i], a) {
        j :| 0 <= j < i && bases[j] <= a < bases[j] + ss[..i][j].size;
      }
      assert more[j] <= a < more[j] + up[j].size;
    }
  }

  lemma SliceKept(flat: seq<byte>, at: nat, data: seq<byte>, from: nat, len: nat)
    requires forall a :: Hole(from, len).Has(a) ==> !Hole(at, |data|).Has(a)
    ensures Slice(Sticks.Overwrite(flat, at, data), from, len) == Slice(flat, from, len)
  {
    var old_, new_ := Slice(flat, from, len), Slice(Sticks.Overwrite(flat, at, data), from, len);
    forall x | 0 <= x < |old_| ensures new_[x] == old_[x] { assert Hole(from, len).Has(from + x); }
  }

  lemma PlaceNext(hs: seq<Hole>, best: bool, ss: seq<SwapSegment>, i: nat, k: nat)
    requires i < |ss| && |PlaceAll(hs, best, ss[..i]).0| == i
    requires IsChoice(PlaceAll(hs, best, ss[..i]).1, best, ss[i].size, Some(k))
    ensures var r := PlaceAll(hs, best, ss[..i]);
            PlaceAll(hs, best, ss[..i + 1]) == (r.0 + [r.1[k].base], Occupy(r.1, k, ss[i].size))
  {
    var r := PlaceAll(hs, best, ss[..i]);
    assert ss[..i + 1][..i] == ss[..i];
    ChoiceUnique(r.1, best, ss[i].size, Choose(r.1, best, ss[i].size), Some(k));
  }

  lemma PlacesTaken(s: State, pid: nat, i: nat)
    requires Inv(s) && pid in s.procs && i <= |s.procs[pid].suspended|
    ensures var ss := s.procs[pid].suspended[..i];
            var r := PlaceAll(s.holes, s.best, ss);
            Canonical(r.1) && forall a :: InPlaces(r.0, ss, a) ==> !IsFree(r.1, a)
  {
    assert Sized(s.swap, s.procs[pid].suspended);
    PlaceAllTakes(s.holes, s.best, s.procs[pid].suspended[..i]);
  }

  lemma LoadedShape(s: State, pid: nat, i: nat, m: State, placed: seq<Segment>)
    requires pid in s.procs && i <= |s.procs[pid].suspended| && LoadedUpTo(s, pid, i, m, placed)
    ensures m == s.(holes := m.holes, flat := m.flat, swap := m.swap) && |m.flat| == |s.flat|
  {
  }

  lemma NotResumed(s: State, pid: nat)
    requires Inv(s)
    ensures pid !in s.procs ==> Effect(s, Op.Resume(pid), s, false) && ResumeSafe(s, pid)
  {
  }

  lemma ChoiceFits(hs: seq<Hole>, best: bool, size: nat, r: Option<nat>)
    requires IsChoice(hs, best, size, r)
    ensures r.Some? ==> r.value < |hs| && size <= hs[r.value].size
  {
  }

  lemma LoadedToEnd(s: State, pid: nat, m: State, placed: seq<Segment>, t: State)
    requires Inv(s) && pid in s.procs && LoadedUpTo(s, pid, |s.procs[pid].suspended|, m, placed)
    requires t == m.(procs := m.procs[pid := m.procs[pid].(table := m.procs[pid].table + placed, suspended := [])])
    ensures Effect(s, Op.Resume(pid), t, true) && (Inv(t) <==> ResumeSafe(s, pid))
  {
    var ss := s.procs[pid].suspended;
    assert ss[..|ss|] == ss;
    ResumeKeepsInvIff(s, pid, t, true);
  }

  lemma {:induction false} PlaceAllStops(hs: seq<Hole>, best: bool, ss: seq<SwapSegment>, i: nat)
    requires i < |ss| && |PlaceAll(hs, best, ss[..i]).0| == i
    requires Choose(PlaceAll(hs, best, ss[..i]).1, best, ss[i].size).None?
    ensures PlaceAll(hs, best, ss) == PlaceAll(hs, best, ss[..i])
  {
    hide Choose, IsChoice, Occupy;
    var n := |ss| - 1;
    if i < n {
      assert ss[..n][..i] == ss[..i];
      PlaceAllStops(hs, best, ss[..n], i);
    }
  }

  lemma SuspendedPositive(s: State, pid: nat, i: nat)
    requires Inv(s) && pid in s.procs && i <= |s.procs[pid].suspended|
    ensures Partition(s) && Positive(s.procs[pid].suspended[..i])
  {
    assert Sized(s.swap, s.procs[pid].suspended);
  }

  lemma PlacedReleasable(s: State, pid: nat, i: nat, m: State, placed: seq<Segment>)
    requires Inv(s) && pid in s.procs && i <= |s.procs[pid].suspended| && LoadedUpTo(s, pid, i, m, placed)
    ensures Releasable(m.holes, placed)
  {
    hide PlaceAll, Partition, Releasable, Loaded;
    var ss := s.procs[pid].suspended[..i];
    SuspendedPositive(s, pid, i);
    PlaceAllPartition(s, pid, ss);
    TableReleasable(WithPlaced(s, pid, ss), pid);
    ReleasableTail(m.holes, s.procs[pid].table, placed);
  }

  /** Giving every placed segment back leaves the free list the resumption started from. */
  lemma PlacedGivenBack(s: State, pid: nat, i: nat, m: State, placed: seq<Segment>, gs: seq<Hole>)
    requires Inv(s) && pid in s.procs && i <= |s.procs[pid].suspended| && LoadedUpTo(s, pid, i, m, placed)
    requires ReleasedAll(m.holes, placed, gs)
    ensures gs == s.holes
  {
    hide PlaceAll, SwapBytes, Conserved;
    var ss := s.procs[pid].suspended[..i];
    assert Sized(s.swap, s.procs[pid].suspended);
    PlaceAllTakes(s.holes, s.best, ss);
    var bases := PlaceAll(s.holes, s.best, ss).0;
    forall a ensures InTable(placed, a) <==> InPlaces(bases, ss, a) {
      if InPlaces(bases, ss, a) {
        var j :| 0 <= j < |bases| && bases[j] <= a < bases[j] + ss[j].size;
        assert placed[j] in placed && placed[j].Has(a);
      }
    }
    CanonicalUnique(gs, s.holes);
  }

  lemma LoadStops(s: State, pid: nat, i: nat, m: State, placed: seq<Segment>, t: State)
    requires Inv(s) && pid in s.procs && i < |s.procs[pid].suspended| && LoadedUpTo(s, pid, i, m, placed)
    requires IsChoice(m.holes, s.best, s.procs[pid].suspended[i].size, None)
    requires t == m.(holes := s.holes)
    ensures Effect(s, Op.Resume(pid), t, false) && (Inv(t) <==> ResumeSafe(s, pid))
  {
    LoadStopsStep(s, pid, i, m, placed, t);
    ResumeKeepsInvIff(s, pid, t, false);
  }

  lemma LoadStopsStep(s: State, pid: nat, i: nat, m: State, placed: seq<Segment>, t: State)
    requires pid in s.procs && i < |s.procs[pid].suspended| && LoadedUpTo(s, pid, i, m, placed)
    requires IsChoice(m.holes, s.best, s.procs[pid].suspended[i].size, None)
    requires t == m.(holes := s.holes)
    ensures ResumedStep(s, pid, t, false)
  {
    hide IsChoice, SwapBytes, Choose, Occupy;
    var ss := s.procs[pid].suspended;
    ChoiceUnique(m.holes, s.best, ss[i].size, Choose(m.holes, s.best, ss[i].size), None);
    PlaceAllStops(s.holes, s.best, ss, i);
    var bases := PlaceAll(s.holes, s.best, ss).0;
    hide PlaceAll;
    forall a ensures InPlaces(bases, ss, a) <==> InPlaces(bases, ss[..i], a) {
      if InPlaces(bases, ss, a) {
        var j :| 0 <= j < |bases| && bases[j] <= a < bases[j] + ss[j].size;
        assert ss[..i][j] == ss[j];
      }
    }
    forall j | 0 <= j < i ensures ss[..i][j] == ss[j] {}
  }
}
