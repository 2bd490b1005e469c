/** Kernel memory as the program keeps it: global lists and tables that its handlers edit in place. */
module KernelMemories {
  import opened Common
  import opened Holes
  import opened Isa
  import opened Memory
  import opened SwapSpace
  import opened Kernel
  import opened Sticks
  import opened SwapFiles
  import opened Refinement
  import opened Transfers

  class KernelMemory {
    const maxSegment: nat
    const best: bool
    const free: HoleList            // g_huecos
    const bank: StickBank           // g_memory_sticks
    var procs: map<nat, Process>    // g_procesos
    var swap: SwapFile?             // the connection g_socket_swap
    var freeBlocks: seq<nat>        // g_bloques_libres

    ghost function SwapView(): Swap
      reads this`swap, this`freeBlocks, swap
    {
      if swap == null || swap.blockSize == 0 then Swap(false, 0, freeBlocks, [])
      else Swap(true, swap.blockSize, freeBlocks, swap.Blocks())
    }

    /** The state of memory these lists stand for. */
    ghost function S(): State
      reads this, free, bank, swap
    {
      State(maxSegment, best, free.holes, procs, bank.flat, SwapView())
    }

    ghost predicate Valid()
      reads this, free, bank, bank.Arrays(), swap
    {
      && bank.Valid()
      && (swap != null ==> 0 < swap.blockSize < 0x8000_0000)
      && Inv(S())
    }

    constructor (maxSegment: nat, best: bool)
      requires 0 < maxSegment < 0x8000_0000
      ensures Valid() && S() == Initial(maxSegment, best)
      ensures fresh(free) && fresh(bank) && bank.Arrays() == {} && swap == null
    {
      this.maxSegment, this.best := maxSegment, best;
      free := new HoleList();
      bank := new StickBank();
      procs := map[];
      swap := null;
      freeBlocks := [];
      new;
      InitialInv(maxSegment, best);
    }

    /** Every edit of the dictionary `g_procesos` and of the tables in it. */
    method SetProcesses(processes: map<nat, Process>)
      requires bank.Valid()
      modifies this`procs
      ensures bank.Valid() && S() == old(S()).(procs := processes)
      ensures procs == processes
    {
      hide SwapView;
      procs := processes;
    }

    /** `liberar_segmento`. */
    method ReleaseSegment(base: nat, size: nat)
      requires bank.Valid() && Canonical(free.holes) && size > 0
      requires forall a :: base <= a < base + size ==> !IsFree(free.holes, a)
      modifies free
      ensures bank.Valid() && S() == old(S()).(holes := free.holes)
      ensures Released(old(free.holes), Hole(base, size), free.holes)
    {
      free.Release(base, size);
    }

    /** `op_crear_proceso`; no program when the script cannot be read. */
    method CreateProcess(pid: nat, program: Option<seq<Instruction>>) returns (ok: bool)
      requires Valid()
      modifies this`procs
      ensures bank.Valid() && Effect(old(S()), Create(pid, program), S(), ok)
      ensures Valid() <==> program.None? || CreateSafe(old(S()), pid)
    {
      hide Inv, CreateSafe;
      if program.None? { return false; }
      procs := procs[pid := Process(RESET, [], [], program.value)];
      CreateKeepsInvIff(old(S()), pid, program.value, S());
      ok := true;
    }

    /** Registration of a memory stick. */
    method ConnectMemory(stick: MemoryStick)
      requires Valid() && stick.memory !in bank.Arrays()
      requires stick.memory.Length > 0 && |bank.flat| + stick.memory.Length < 0x8000_0000
      modifies free, bank
      ensures Valid() && Effect(old(S()), ConnectStick(stick.memory[..]), S(), true)
      ensures bank.Arrays() == old(bank.Arrays()) + {stick.memory}
    {
      hide Inv;
      InvBounds(S());
      var base := bank.Connect(stick);
      free.Release(base, stick.memory.Length);
      GrownInv(old(S()), stick.memory[..], S());
    }

    /** Registration of the swap module, which announces its block size and its total size. */
    method ConnectSwapModule(file: SwapFile)
      requires Valid() && swap == null && 0 < file.blockSize < 0x8000_0000
      modifies this`swap, this`freeBlocks
      ensures Valid() && swap == file
      ensures Effect(old(S()), ConnectSwap(file.blockSize, file.Blocks()), S(), true)
    {
      hide Inv;
      var total := |file.contents| / file.blockSize;
      freeBlocks := seq(total, i requires 0 <= i < total => i);
      swap := file;
      file.BlockSizes();
      SwapConnectedInv(old(S()), file.blockSize, file.Blocks(), S());
    }

    // --------------------------------------------------------- contexts and instructions

    /** `op_enviar_contexto`. */
    method LoadContext(pid: nat) returns (r: Option<(Registers, seq<Segment>)>)
      requires Valid()
      ensures r == if pid in procs then Some((procs[pid].regs, procs[pid].table)) else None
    {
      if pid !in procs { return None; }
      r := Some((procs[pid].regs, procs[pid].table));
    }

    /** `op_actualizar_contexto`: the CPU hands back the table it was given. */
    method StoreBack(pid: nat, regs: Registers, table: seq<Segment>) returns (ok: bool)
      requires Valid() && (pid in procs ==> table == procs[pid].table)
      modifies this`procs
      ensures Valid() && Effect(old(S()), StoreContext(pid, regs, table), S(), ok)
    {
      hide Inv, SwapView, Allocated, Freed, Finalized, SuspendedStep, ResumedStep, Created, Written;
      if pid !in procs { return false; }
      procs := procs[pid := procs[pid].(regs := regs, table := table)];
      StoredInv(old(S()), pid, regs, table, S(), true);
      ok := true;
    }

    /** `op_enviar_instruccion`. */
    method FetchInstruction(pid: nat, pc: word) returns (r: Option<Instruction>)
      requires Valid()
      ensures r == if pid in procs && pc < |procs[pid].program| then Some(procs[pid].program[pc]) else None
    {
      if pid !in procs || pc >= |procs[pid].program| { return None; }
      r := Some(procs[pid].program[pc]);
    }

    /** `op_mem_read`. */
    method MemRead(at: nat, size: nat) returns (r: Option<seq<byte>>)
      requires Valid()
      ensures r == if size == 0 || at + size <= |bank.flat| then Some(Slice(bank.flat, at, size)) else None
    {
      r := bank.Read(at, size);
    }

    /** `op_mem_write`. */
    method MemWrite(at: nat, data: seq<byte>) returns (ok: bool)
      requires Valid()
      modifies bank.Arrays(), bank`flat
      ensures Valid() && Effect(old(S()), Op.Write(at, data), S(), ok)
      ensures bank.entries == old(bank.entries)
    {
      hide Inv, Effect, StickBank.Valid, SwapView;
      ok := bank.Write(at, data);
      WrittenEffect(old(S()), at, data, S(), ok);
    }

    // --------------------------------------------------------- allocation

    /** `op_mem_free`. */
    method MemFree(pid: nat, id: nat) returns (ok: bool)
      requires Valid()
      modifies this`procs, free
      ensures Valid() && Effect(old(S()), Op.Free(pid, id), S(), ok)
    {
      hide Inv, Released, StickBank.Valid, SwapView, Effect, Canonical;
      FreesNothing(S(), pid, id);
      if pid !in procs { return false; }
      var table := procs[pid].table;
      var i: nat := 0;
      while i < |table| && table[i].id != id
        invariant i <= |table| && forall j :: 0 <= j < i ==> table[j].id != id
      {
        i := i + 1;
      }
      if i == |table| { return false; }
      var g := table[i];
      SegmentNotFree(S(), pid, i);
      SetProcesses(procs[pid := procs[pid].(table := RemoveAt(table, i))]);
      ReleaseSegment(g.base, g.limit);
      FreedEffect(old(S()), pid, id, i, S());
      ok := true;
    }

    // --------------------------------------------------------- compaction

    /** `recolectar_segmentos` over the dictionary, whose order is not known. */
    method CollectSegments() returns (keys: seq<Ref>)
      ensures NoDup(keys) && forall k :: k in keys <==> Known(procs, k)
    {
      keys := [];
      var pids := procs.Keys;
      while pids != {}
        invariant pids <= procs.Keys && NoDup(keys)
        invariant forall k :: k in keys <==> Known(procs, k) && k.pid !in pids
      {
        var pid :| pid in pids;
        var more := RefsOf(pid, |procs[pid].table|);
        forall k ensures k in more <==> Known(procs, k) && k.pid == pid {
          if Known(procs, k) && k.pid == pid { assert more[k.index] == k; }
        }
        NoDupJoin(keys, more);
        keys := keys + more;
        pids := pids - {pid};
      }
    }

    /** One turn of the compaction loop. */
    method MoveSegment(k: Ref, offset: nat)
      requires bank.Valid() && Known(procs, k) && Named(procs, k).End() <= |bank.flat|
      modifies this`procs, bank.Arrays(), bank`flat
      ensures bank.Valid() && bank.entries == old(bank.entries)
      ensures S() == Moved(old(S()), k, offset)
    {
      var g := Named(procs, k);
      if g.base != offset {
        var data := bank.Read(g.base, g.limit);
        if data.Some? { var stored := bank.Write(offset, data.value); }
        procs := procs[k.pid := procs[k.pid].(table := procs[k.pid].table[k.index := g.(base := offset)])];
      }
    }

    /** The compaction loop, over segments in address order. */
    method SlideAll(keys: seq<Ref>) returns (offset: nat)
      requires bank.Valid() && Partition(S()) && Enumerates(S(), keys)
      modifies this`procs, bank.Arrays(), bank`flat
      ensures bank.Valid() && bank.entries == old(bank.entries)
      ensures Slid(old(S()), keys, |keys|, S()) && offset == Packed(old(S()), keys, |keys|)
    {
      hide Slid, Spans, TotalSize, Moved, SwapView, StickBank.Valid, Enumerates, Partition;
      ghost var s := S();
      offset := 0;
      var i: nat := 0;
      SlidNone(s, keys);
      while i < |keys|
        invariant i <= |keys| && bank.Valid() && bank.entries == old(bank.entries)
        invariant Slid(s, keys, i, S()) && offset == Packed(s, keys, i)
      {
        SlideTurn(s, keys, i, S());
        var size := Named(procs, keys[i]).limit;
        MoveSegment(keys[i], offset);
        offset := offset + size;
        i := i + 1;
      }
    }

    method SortedSegments() returns (keys: seq<Ref>)
      requires Partition(S())
      ensures Enumerates(S(), keys)
    {
      hide Enumerates, Partition;
      var refs := CollectSegments();
      SortEnumerates(S(), refs);
      keys := SortKeys(procs, refs);
    }

    /** The free list after compaction: whatever lies above the last segment. */
    method ResetHoles(offset: nat)
      requires bank.Valid()
      modifies free
      ensures bank.Valid() && S() == old(S()).(holes := TopHole(offset, |bank.flat|))
    {
      var total := bank.Total();
      free.holes := [];
      if offset < total { free.holes := [Hole(offset, total - offset)]; }
    }

    /** `compactar_memoria`. */
    method Compact()
      requires Valid()
      modifies this`procs, free, bank.Arrays(), bank`flat
      ensures Valid() && Compacted(old(S()), S())
      ensures bank.entries == old(bank.entries)
    {
      hide Inv, Slid, Spans, TotalSize, Enumerates, SwapView, TopHole, Partition, StickBank.Valid;
      ghost var s := S();
      InvPartition(s);
      var keys := SortedSegments();
      var offset := SlideAll(keys);
      ghost var m := S();
      SlidSize(s, keys, m);
      ResetHoles(offset);
      SlidAll(s, keys, m, S());
      CompactedInv(s, S());
    }

    // --------------------------------------------------------- allocation

    /** `ocupar_hueco`. */
    method OccupyHole(k: nat, size: nat) returns (base: nat)
      requires bank.Valid() && k < |free.holes| && size <= free.holes[k].size
      modifies free
      ensures bank.Valid() && S() == old(S()).(holes := Occupy(old(free.holes), k, size))
      ensures base == old(free.holes[k].base)
    {
      base := free.Take(k, size);
    }

    static lemma ChosenFits(s: State, k: nat, size: nat)
      requires IsChoice(s.holes, s.best, size, Some(k))
      ensures k < |s.holes| && size <= s.holes[k].size
    {
    }

    static lemma PlacedHere(s: State, pid: nat, id: nat, size: nat, k: nat, t: State, ok: bool)
      requires IsChoice(s.holes, s.best, size, Some(k)) && ok == (pid in s.procs)
      requires var g := Segment(id, s.holes[k].base, size);
               t == if ok then WithSegment(s.(holes := Occupy(s.holes, k, size)), pid, g) else s
      ensures Placed(s, pid, id, size, t, ok)
    {
    }

    /** A segment is last in the table of its process. */
    method AddSegment(pid: nat, g: Segment)
      requires bank.Valid() && pid in procs
      modifies this`procs
      ensures bank.Valid() && pid in old(procs) && S() == WithSegment(old(S()), pid, g)
    {
      hide SwapView;
      procs := procs[pid := procs[pid].(table := procs[pid].table + [g])];
    }

    /** The memory taken for a process that does not exist is released again. */
    method GiveBack(base: nat, size: nat, ghost hs: seq<Hole>, ghost k: nat)
      requires bank.Valid() && Canonical(hs) && k < |hs| && 0 < size <= hs[k].size
      requires base == hs[k].base && free.holes == Occupy(hs, k, size)
      modifies free
      ensures bank.Valid() && free.holes == hs && S() == old(S()).(holes := hs)
    {
      hide Canonical, IsFree, Occupy;
      TakenNotFree(hs, k, size);
      free.Release(base, size);
      OccupyReleaseUndo(hs, k, size, free.holes);
    }

    /** The end of `op_mem_alloc`: take the chosen hole, and give it back if the process is unknown. */
    method Place(pid: nat, id: nat, size: nat, k: nat) returns (ok: bool)
      requires Valid() && size > 0 && k < |free.holes| && IsChoice(free.holes, best, size, Some(k))
      modifies this`procs, free
      ensures Valid() && Placed(old(S()), pid, id, size, S(), ok)
    {
      hide Inv, Canonical, Partition, SwapView, Occupy, IsFree, Placed, IsChoice, WithSegment, StickBank.Valid;
      ghost var s := S();
      InvBounds(s);
      ChosenFits(s, k, size);
      var base := OccupyHole(k, size);
      if pid !in procs {
        GiveBack(base, size, s.holes, k);
        PlacedHere(s, pid, id, size, k, S(), false);
        return false;
      }
      AddSegment(pid, Segment(id, base, size));
      PlacedAtInv(s, pid, id, size, k, S());
      PlacedHere(s, pid, id, size, k, S(), true);
      ok := true;
    }

    /** Choose a hole and place the segment in it, when there is one that fits. */
    method TryPlace(pid: nat, id: nat, size: nat) returns (fits: bool, ok: bool)
      requires Valid() && size > 0
      modifies this`procs, free
      ensures Valid() && fits == Fits(old(free.holes), size)
      ensures if fits then Placed(old(S()), pid, id, size, S(), ok) else !ok && S() == old(S())
    {
      hide Inv, SwapView, Fits, Placed;
      var k := free.Select(best, size);
      ChoiceMeansFits(free.holes, best, size, k);
      if k.None? { return false, false; }
      fits := true;
      ok := Place(pid, id, size, k.value);
    }

    /** `op_mem_alloc`: when the free memory is enough but scattered, compact it and choose again. */
    method MemAlloc(pid: nat, id: nat, size: nat) returns (ok: bool)
      requires Valid() && size > 0
      modifies this`procs, free, bank.Arrays(), bank`flat
      ensures Valid() && Effect(old(S()), Alloc(pid, id, size), S(), ok)
      ensures bank.entries == old(bank.entries)
    {
      hide Inv, SwapView, StickBank.Valid, Compacted, Placed, TotalSize, Fits;
      if size > maxSegment { return false; }
      var fits, placed := TryPlace(pid, id, size);
      if fits { return placed; }
      var total := free.Total();
      if total < size { return false; }
      Compact();
      ghost var c := S();
      fits, ok := TryPlace(pid, id, size);
      assert Compacted(old(S()), c) && if fits then Placed(c, pid, id, size, S(), ok) else !ok && S() == c;
    }

    // --------------------------------------------------------- the end of a process

    /** Gives back the memory of each segment in turn. */
    method ReleaseTable(table: seq<Segment>)
      requires bank.Valid() && Releasable(free.holes, table)
      modifies free
      ensures bank.Valid() && S() == old(S()).(holes := free.holes)
      ensures ReleasedAll(old(free.holes), table, free.holes)
    {
      hide ReleasedAll, Canonical, Released, SwapView;
      ghost var hs := free.holes;
      var i: nat := 0;
      ReleaseNone(hs, table);
      while i < |table|
        invariant i <= |table| && ReleasedAll(hs, table[..i], free.holes)
      {
        ghost var gs := free.holes;
        ReleaseRoom(hs, table, i, gs);
        ReleaseSegment(table[i].base, table[i].limit);
        ReleaseNext(hs, table, i, gs, free.holes);
        i := i + 1;
      }
      assert table[..i] == table;
    }

    /** `liberar_bloques_swap`: the blocks go to the end of the free list. */
    method ReleaseBlocks(blocks: seq<nat>)
      requires bank.Valid()
      modifies this`freeBlocks
      ensures bank.Valid() && S() == old(S()).(swap := old(S()).swap.(free := old(S()).swap.free + blocks))
    {
      freeBlocks := freeBlocks + blocks;
    }

    /** `destruir_segmento_swap` for each record. */
    method ReturnBlocks(ss: seq<SwapSegment>)
      requires bank.Valid()
      modifies this`freeBlocks
      ensures bank.Valid() && S() == old(S()).(swap := old(S()).swap.(free := old(S()).swap.free + BlocksOf(ss)))
    {
      hide SwapView, StickBank.Valid;
      var i: nat := 0;
      ghost var swap0 := S().swap;
      assert swap0.free + [] == swap0.free;
      while i < |ss|
        invariant i <= |ss| && bank.Valid()
        invariant S() == old(S()).(swap := swap0.(free := swap0.free + BlocksOf(ss[..i])))
      {
        assert ss[..i + 1][..i] == ss[..i];
        assert swap0.free + BlocksOf(ss[..i + 1]) == swap0.free + BlocksOf(ss[..i]) + ss[i].blocks;
        ReleaseBlocks(ss[i].blocks);
        i := i + 1;
      }
      assert ss[..i] == ss;
    }

    /** `op_finalizar_proceso`. */
    method FinalizeProcess(pid: nat) returns (ok: bool)
      requires Valid()
      modifies this`procs, this`freeBlocks, free
      ensures Valid() && Effect(old(S()), Finalize(pid), S(), ok)
    {
      hide Inv, Releasable, ReleasedAll, Partition, SwapView, BlocksOf, Effect, Suspended, StickBank.Valid;
      NotFinalized(S(), pid);
      if pid !in procs { return false; }
      var p := procs[pid];
      InvPartition(S());
      TableReleasable(S(), pid);
      SetProcesses(procs - {pid});
      ReleaseTable(p.table);
      ReturnBlocks(p.suspended);
      FinalizedEffect(old(S()), pid, S());
      ok := true;
    }

    // --------------------------------------------------------- suspension

    lemma SwapConnection()
      requires swap != null ==> 0 < swap.blockSize
      ensures S().swap.connected <==> swap != null
    {
    }

    lemma SwapShape()
      requires swap != null && 0 < swap.blockSize
      ensures S().swap == Swap(true, swap.blockSize, freeBlocks, swap.Blocks())
    {
    }

    /** `asignar_bloques_swap`. */
    method AssignBlocks(n: nat) returns (r: Option<seq<nat>>)
      requires bank.Valid()
      modifies this`freeBlocks
      ensures bank.Valid() && S() == old(S()).(swap := old(S()).swap.(free := freeBlocks))
      ensures if |old(freeBlocks)| < n then r == None && freeBlocks == old(freeBlocks)
              else r == Some(old(freeBlocks)[..n]) && freeBlocks == old(freeBlocks)[n..]
    {
      if |freeBlocks| < n { return None; }
      var given: seq<nat> := [];
      var i: nat := 0;
      while i < n
        invariant i <= n && n - i <= |freeBlocks|
        invariant given == old(freeBlocks)[..i] && freeBlocks == old(freeBlocks)[i..]
      {
        given := given + [freeBlocks[0]];
        freeBlocks := freeBlocks[1..];
        i := i + 1;
      }
      r := Some(given);
    }

    /** Writes block number `b` of a segment; what does not fill the block is zeros. */
    method SaveBlock(data: seq<byte>, b: nat, block: nat)
      requires swap != null && 0 < swap.blockSize && b < BlocksFor(|data|, swap.blockSize)
      requires block < |swap.Blocks()|
      modifies swap
      ensures swap.Blocks() == old(swap.Blocks())[block := Chunk(data, swap.blockSize, b)]
    {
      hide Chunk, SwapFile.Blocks;
      var size := swap.blockSize;
      ChunkPadded(data, size, b);
      var offset := b * size;
      var copy := Min(|data| - offset, size);
      var buffer := data[offset..offset + copy] + Zeros(size - copy);
      var stored := swap.WriteBlock(block, buffer);
    }

    /** Copies a segment to swap, block by block. */
    method SaveSegment(seg: Segment, blocks: seq<nat>) returns (g: SwapSegment)
      requires bank.Valid() && swap != null && 0 < swap.blockSize && seg.End() <= |bank.flat| && seg.limit > 0
      requires |blocks| == BlocksFor(seg.limit, swap.blockSize)
      requires NoDup(blocks) && forall b :: b in blocks ==> b < |swap.Blocks()|
      modifies swap
      ensures bank.Valid() && g == SwapSegment(seg.id, seg.limit, blocks)
      ensures S() == old(S()).(swap := old(S()).swap.(disk := swap.Blocks()))
      ensures SegmentSaved(old(swap.Blocks()), g, Bytes(bank.flat, seg), swap.Blocks())
    {
      hide Chunk, DiskKept, BlocksFor, SwapFile.Blocks, NoDup, ChunksWritten, SegmentSaved;
      ghost var disk := swap.Blocks();
      swap.BlockSizes();
      var read := bank.Read(seg.base, seg.limit);
      var data := read.value;
      var b: nat := 0;
      ChunksNone(disk, blocks, data, swap.blockSize);
      while b < |blocks|
        invariant b <= |blocks| && |swap.Blocks()| == |disk|
        invariant ChunksWritten(disk, blocks, data, swap.blockSize, b, swap.Blocks())
      {
        ghost var before := swap.Blocks();
        assert blocks[b] in blocks;
        SaveBlock(data, b, blocks[b]);
        ChunkWritten(disk, blocks, data, swap.blockSize, b, before, swap.Blocks());
        b := b + 1;
      }
      g := SwapSegment(seg.id, seg.limit, blocks);
      AllChunksWritten(disk, g, data, swap.blockSize, swap.Blocks());
    }

    /** One turn of the suspension loop, once the blocks are assigned. */
    method SuspendSegment(seg: Segment, blocks: seq<nat>) returns (g: SwapSegment)
      requires bank.Valid() && swap != null && 0 < swap.blockSize && seg.End() <= |bank.flat| && seg.limit > 0
      requires |blocks| == BlocksFor(seg.limit, swap.blockSize)
      requires NoDup(blocks) && forall b :: b in blocks ==> b < |swap.Blocks()|
      requires Canonical(free.holes) && forall a :: seg.base <= a < seg.base + seg.limit ==> !IsFree(free.holes, a)
      modifies swap, free
      ensures bank.Valid() && g == SwapSegment(seg.id, seg.limit, blocks)
      ensures S() == old(S()).(holes := free.holes, swap := old(S()).swap.(disk := swap.Blocks()))
      ensures SegmentSaved(old(swap.Blocks()), g, Bytes(bank.flat, seg), swap.Blocks())
      ensures Released(old(free.holes), Hole(seg.base, seg.limit), free.holes)
    {
      hide StickBank.Valid, SwapView, SwapFile.Blocks, NoDup, SegmentSaved, Released, Canonical, IsFree, BlocksFor;
      g := SaveSegment(seg, blocks);
      ReleaseSegment(seg.base, seg.limit);
    }

    /** `op_suspender_proceso`: when swap runs out the blocks go back, but memory already released stays so. */
    method SuspendProcess(pid: nat) returns (ok: bool)
      requires Valid()
      modifies this`procs, this`freeBlocks, free, swap
      ensures bank.Valid() && Effect(old(S()), Op.Suspend(pid), S(), ok)
      ensures Valid() <==> SuspendSafe(old(S()), pid)
    {
      hide Inv, StickBank.Valid, SwapView, SwapFile.Blocks, NoDup, SegmentSaved, Released, Canonical, IsFree,
        BlocksFor, SavedUpTo, Effect, SuspendSafe, SuspendedStep, Releasable;
      ghost var s := S();
      NotSuspended(s, pid);
      SwapConnection();
      if pid !in procs || swap == null { return false; }
      var table := procs[pid].table;
      var news: seq<SwapSegment> := [];
      var i: nat := 0;
      SavedNone(s, pid);
      while i < |table|
        invariant i <= |table| && bank.Valid() && SavedUpTo(s, pid, i, S(), news)
      {
        ghost var m := S();
        SavedRoom(s, pid, i, m, news);
        SwapShape();
        var blocks := AssignBlocks(BlocksFor(table[i].limit, swap.blockSize));
        if blocks.None? {
          ReturnBlocks(news);
          RunsOut(s, pid, i, m, news, S());
          return false;
        }
        var g := SuspendSegment(table[i], blocks.value);
        SwapShape();
        SavedNext(s, pid, i, m, news, g, S());
        news := news + [g];
        i := i + 1;
      }
      ghost var m := S();
      SavedShape(s, pid, i, m, news);
      SetProcesses(procs[pid := procs[pid].(table := [], suspended := procs[pid].suspended + news)]);
      SavedToEnd(s, pid, m, news, S());
      ok := true;
    }

    // --------------------------------------------------------- resumption

    /** `seleccionar_hueco`. */
    method ChooseHole(size: nat) returns (k: Option<nat>)
      requires bank.Valid()
      ensures bank.Valid() && S() == old(S()) && IsChoice(free.holes, best, size, k)
    {
      k := free.Select(best, size);
    }

    /** Reads block number `b` of a suspended segment, and stores its part of the segment. */
    method LoadBlock(g: SwapSegment, b: nat, base: nat)
      requires bank.Valid() && swap != null && 0 < swap.blockSize
      requires b < |g.blocks| == BlocksFor(g.size, swap.blockSize) && g.blocks[b] < |swap.Blocks()|
      requires b * swap.blockSize < g.size && |swap.Blocks()[g.blocks[b]]| == swap.blockSize
      modifies bank.Arrays(), bank`flat
      ensures bank.Valid() && bank.entries == old(bank.entries) && S() == old(S()).(flat := bank.flat)
      ensures var part := swap.Blocks()[g.blocks[b]][..Min(g.size - b * swap.blockSize, swap.blockSize)];
              bank.flat == Overwrite(old(bank.flat), base + b * swap.blockSize, part)
    {
      hide SwapFile.Blocks, BlocksFor, Chained;
      var offset := b * swap.blockSize;
      var copy := Min(g.size - offset, swap.blockSize);
      var block := swap.ReadBlock(g.blocks[b]);
      var ok := bank.Write(base + offset, block.value[..copy]);
    }

    /** Copies a segment back from swap, block by block. */
    method LoadSegment(g: SwapSegment, base: nat)
      requires bank.Valid() && swap != null && 0 < swap.blockSize && |g.blocks| == BlocksFor(g.size, swap.blockSize)
      requires forall j :: 0 <= j < |g.blocks| ==> g.blocks[j] < |swap.Blocks()|
      modifies bank.Arrays(), bank`flat
      ensures bank.Valid() && bank.entries == old(bank.entries) && S() == old(S()).(flat := bank.flat)
      ensures bank.flat == Overwrite(old(bank.flat), base, SwapBytes(swap.Blocks(), g))
    {
      hide SwapFile.Blocks, BlocksFor, StickBank.Valid, SwapView, Prefix, SwapBytes, Overwrite;
      ghost var flat, disk, size := bank.flat, swap.Blocks(), swap.blockSize;
      swap.BlockSizes();
      var b: nat := 0;
      PrefixNone(disk, g, size);
      OverwriteNone(flat, base);
      while b < |g.blocks|
        invariant b <= |g.blocks| && bank.Valid() && bank.entries == old(bank.entries)
        invariant S() == old(S()).(flat := bank.flat)
        invariant bank.flat == Overwrite(flat, base, Prefix(disk, g, size, b))
      {
        PrefixNext(disk, g, size, b);
        LoadBlock(g, b, base);
        ghost var part := disk[g.blocks[b]][..Min(g.size - b * size, size)];
        OverwriteNext(flat, base, Prefix(disk, g, size, b), part);
        b := b + 1;
      }
      PrefixFull(disk, g, size);
    }

    /** One turn of the resumption loop, once a hole is chosen. */
    method ResumeSegment(g: SwapSegment, k: nat) returns (seg: Segment)
      requires bank.Valid() && swap != null && 0 < swap.blockSize && |g.blocks| == BlocksFor(g.size, swap.blockSize)
      requires forall j :: 0 <= j < |g.blocks| ==> g.blocks[j] < |swap.Blocks()|
      requires k < |free.holes| && g.size <= free.holes[k].size
      modifies this`freeBlocks, free, bank.Arrays(), bank`flat
      ensures bank.Valid() && bank.entries == old(bank.entries)
      ensures seg == Segment(g.id, old(free.holes[k].base), g.size)
      ensures S() == old(S()).(holes := Occupy(old(free.holes), k, g.size),
                               flat := Overwrite(old(bank.flat), seg.base, SwapBytes(old(S()).swap.disk, g)),
                               swap := old(S()).swap.(free := old(S()).swap.free + g.blocks))
    {
      hide SwapFile.Blocks, BlocksFor, SwapBytes, Overwrite, Occupy, StickBank.Valid, SwapView;
      SwapShape();
      var base := OccupyHole(k, g.size);
      LoadSegment(g, base);
      ReleaseBlocks(g.blocks);
      seg := Segment(g.id, base, g.size);
    }

    /** `op_reanudar_proceso`: when a segment finds no hole the ones before it are released again. */
    method ResumeProcess(pid: nat) returns (ok: bool)
      requires Valid()
      modifies this`procs, this`freeBlocks, free, bank.Arrays(), bank`flat
      ensures bank.Valid() && bank.entries == old(bank.entries) && Effect(old(S()), Op.Resume(pid), S(), ok)
      ensures Valid() <==> ResumeSafe(old(S()), pid)
    {
      hide Inv, StickBank.Valid, SwapView, SwapFile.Blocks, Canonical, BlocksFor, LoadedUpTo, Effect, ResumeSafe,
        Releasable, ReleasedAll, IsChoice, Occupy, SwapBytes, Overwrite;
      ghost var s := S();
      NotResumed(s, pid);
      SwapConnection();
      if pid !in procs { return false; }
      var ss := procs[pid].suspended;
      var placed: seq<Segment> := [];
      var i: nat := 0;
      LoadedNone(s, pid);
      while i < |ss|
        invariant i <= |ss| && bank.Valid() && bank.entries == old(bank.entries)
        invariant LoadedUpTo(s, pid, i, S(), placed)
      {
        ghost var m := S();
        LoadRoom(s, pid, i, m, placed);
        SwapShape();
        var k := ChooseHole(ss[i].size);
        ChoiceFits(m.holes, best, ss[i].size, k);
        if k.None? {
          PlacedReleasable(s, pid, i, m, placed);
          ReleaseTable(placed);
          PlacedGivenBack(s, pid, i, m, placed, free.holes);
          LoadStops(s, pid, i, m, placed, S());
          return false;
        }
        var seg := ResumeSegment(ss[i], k.value);
        LoadNext(s, pid, i, m, placed, k.value, S());
        placed := placed + [seg];
        i := i + 1;
      }
      ghost var m := S();
      LoadedShape(s, pid, i, m, placed);
      SetProcesses(procs[pid := procs[pid].(table := procs[pid].table + placed, suspended := [])]);
      LoadedToEnd(s, pid, m, placed, S());
      ok := true;
    }
  }
}
