/** The CPU's instructions, twice: over physical memory through the segment table (cpu/src/ciclo.c),
    and over the logical memory its process sees. The first refines the second. */
module Machines {
  import opened Common
  import opened Isa
  import opened Memory
  import opened Kernel
  import opened Isolation
  import Sticks

  /** How an instruction leaves the cycle: going on, SEG_FAULT, a system call, or no instruction to fetch. */
  datatype Outcome = Running | Fault | Trap(call: nat) | Stuck

  datatype Result<M> = Result(outcome: Outcome, regs: Registers, mem: M)

  type PhysState = Result<seq<byte>>
  type LogicalState = Result<seq<LogicalSegment>>

  /** What the CPU holds of the process it runs (`t_contexto`). */
  datatype Context = Context(regs: Registers, table: seq<Segment>)

  function WithContext(s: State, p: nat, c: Context): State
    requires p in s.procs
  {
    s.(procs := s.procs[p := s.procs[p].(regs := c.regs, table := c.table)])
  }

  lemma StoredContext(s: State, p: nat, c: Context, t: State, ok: bool)
    requires p in s.procs && Effect(s, StoreContext(p, c.regs, c.table), t, ok)
    ensures ok && t == WithContext(s, p, c)
  {
  }

  lemma WrittenFlat(s: State, at: nat, data: seq<byte>, t: State, ok: bool)
    requires Effect(s, Op.Write(at, data), t, ok)
    ensures t == s.(flat := Sticks.Overwrite(s.flat, at, data)) && (ok <==> Stores(s.flat, at, |data|))
  {
  }

  function Advance(r: Registers): Registers {
    r.(pc := (r.pc + 1) % WORD_MODULUS)
  }

  predicate InRegisters(i: Instruction) {
    i.Noop? || i.Set? || i.Sum? || i.Sub? || i.Jnz?
  }

  /** The instructions that only touch registers. */
  function Compute(i: Instruction, r: Registers): Registers
    requires InRegisters(i)
  {
    match i
    case Noop => Advance(r)
    case Set(d, v) => if d == PC then Put(r, PC, v) else Advance(Put(r, d, v))
    case Sum(d, q) => Advance(Put(r, d, (Get(r, d) + Get(r, q)) % WORD_MODULUS))
    case Sub(d, q) => Advance(Put(r, d, (Get(r, d) - Get(r, q)) % WORD_MODULUS))
    case Jnz(d, target) => if Get(r, d) != 0 then r.(pc := target) else Advance(r)
  }

  // ----------------------------------------------------------- the physical machine

  function Read(flat: seq<byte>, at: nat, size: nat): (r: Option<seq<byte>>)
    ensures r.Some? ==> |r.value| == size
  {
    if size == 0 then Some([]) else if at + size <= |flat| then Some(Slice(flat, at, size)) else None
  }

  predicate Stores(flat: seq<byte>, at: nat, size: nat) {
    size == 0 || at + size <= |flat|
  }

  /** `execute`, with memory as kernel memory answers for it. */
  function PhysStep(i: Instruction, r: Registers, table: seq<Segment>, m: nat, flat: seq<byte>): PhysState
    requires m > 0
  {
    match i
    case MovIn(d) =>
      var at := Translate(table, m, r.si, Width(d));
      if at.None? then Result(Fault, Advance(r), flat)
      else
        var data := Read(flat, at.value, Width(d));
        if data.None? then Result(Fault, Advance(r), flat)
        else Result(Running, Advance(Put(r, d, FromBytes(data.value))), flat)
    case MovOut(d) =>
      var at := Translate(table, m, r.di, Width(d));
      if at.None? then Result(Fault, Advance(r), flat)
      else
        Result(if Stores(flat, at.value, Width(d)) then Running else Fault, Advance(r),
               Sticks.Overwrite(flat, at.value, ToBytes(Get(r, d), Width(d))))
    case CopyMem(d) =>
      var size := Get(r, d);
      var source := Translate(table, m, r.si, size);
      var target := Translate(table, m, r.di, size);
      if source.None? || target.None? then Result(Fault, Advance(r), flat)
      else
        var data := Read(flat, source.value, size);
        if data.None? then Result(Fault, Advance(r), flat)
        else
          Result(if Stores(flat, target.value, size) then Running else Fault, Advance(r),
                 Sticks.Overwrite(flat, target.value, data.value))
    case Stream(call, a, n) =>
      Result(if Translate(table, m, Get(r, a), Get(r, n)).None? then Fault else Trap(call), Advance(r), flat)
    case Syscall(call) => Result(Trap(call), Advance(r), flat)
    case Undecoded => Result(Fault, Advance(r), flat)
    case _ => Result(Running, Compute(i, r), flat)
  }

  /** Fetch and execute. */
  function PhysExec(prog: seq<Instruction>, r: Registers, table: seq<Segment>, m: nat, flat: seq<byte>): PhysState
    requires m > 0
  {
    if r.pc >= |prog| then Result(Stuck, r, flat) else PhysStep(prog[r.pc], r, table, m, flat)
  }

  /** `n` turns of the cycle; it stays where a fault, a system call or a failed fetch leaves it. */
  function PhysRun(prog: seq<Instruction>, table: seq<Segment>, m: nat, x: PhysState, n: nat): PhysState
    requires m > 0
  {
    if n == 0 then x
    else
      var k := PhysRun(prog, table, m, x, n - 1);
      if k.outcome.Running? then PhysExec(prog, k.regs, table, m, k.mem) else k
  }

  /** The state of memory when the CPU lets go of a process: only a failed fetch leaves its context unsaved. */
  function Ended(s: State, pid: nat, x: PhysState, table: seq<Segment>): State
    requires pid in s.procs
  {
    var t := s.(flat := x.mem);
    if x.outcome.Stuck? then t else WithContext(t, pid, Context(x.regs, table))
  }

  // ----------------------------------------------------------- the logical machine

  function FindLogical(mem: seq<LogicalSegment>, id: nat): (r: Option<nat>)
    ensures r.None? ==> forall i :: 0 <= i < |mem| ==> mem[i].id != id
    ensures r.Some? ==> r.value < |mem| && mem[r.value].id == id && forall i :: 0 <= i < r.value ==> mem[i].id != id
  {
    if mem == [] then None
    else
      var r := FindLogical(mem[..|mem| - 1], id);
      if r.Some? then r else if mem[|mem| - 1].id == id then Some(|mem| - 1) else None
  }

  /** A range of logical memory: the segment it is in, and where it starts there. */
  datatype Place = Place(index: nat, offset: nat)

  /** The range, when all of it is inside its segment. */
  function Locate(mem: seq<LogicalSegment>, m: nat, addr: word, size: nat): (r: Option<Place>)
    requires m > 0
    ensures r.Some? ==> r.value.index < |mem| && r.value.offset + size <= |mem[r.value.index].bytes|
  {
    var found := FindLogical(mem, addr / m);
    if found.None? || addr % m + size > |mem[found.value].bytes| then None else Some(Place(found.value, addr % m))
  }

  /** The check STDIN and STDOUT pass before the call is made: offset and size are added in 32 bits. */
  predicate Admits(mem: seq<LogicalSegment>, m: nat, addr: word, size: word)
    requires m > 0
  {
    var found := FindLogical(mem, addr / m);
    found.Some? && (addr % m + size) % WORD_MODULUS <= |mem[found.value].bytes|
  }

  function Load(mem: seq<LogicalSegment>, p: Place, size: nat): (r: seq<byte>)
    requires p.index < |mem| && p.offset + size <= |mem[p.index].bytes|
    ensures |r| == size
  {
    mem[p.index].bytes[p.offset..p.offset + size]
  }

  function Store(mem: seq<LogicalSegment>, p: Place, data: seq<byte>): seq<LogicalSegment>
    requires p.index < |mem| && p.offset + |data| <= |mem[p.index].bytes|
  {
    mem[p.index := mem[p.index].(bytes := Splice(mem[p.index].bytes, p.offset, data))]
  }

  /** What an instruction means to the process: no physical address in sight, and every access to memory
      lies inside a segment of its own or is a fault. STDIN and STDOUT access nothing here. */
  function LogicalStep(i: Instruction, r: Registers, mem: seq<LogicalSegment>, m: nat): LogicalState
    requires m > 0
  {
    match i
    case MovIn(d) =>
      var p := Locate(mem, m, r.si, Width(d));
      if p.None? then Result(Fault, Advance(r), mem)
      else Result(Running, Advance(Put(r, d, FromBytes(Load(mem, p.value, Width(d))))), mem)
    case MovOut(d) =>
      var p := Locate(mem, m, r.di, Width(d));
      if p.None? then Result(Fault, Advance(r), mem)
      else Result(Running, Advance(r), Store(mem, p.value, ToBytes(Get(r, d), Width(d))))
    case CopyMem(d) =>
      var source := Locate(mem, m, r.si, Get(r, d));
      var target := Locate(mem, m, r.di, Get(r, d));
      if source.None? || target.None? then Result(Fault, Advance(r), mem)
      else Result(Running, Advance(r), Store(mem, target.value, Load(mem, source.value, Get(r, d))))
    case Stream(call, a, n) =>
      Result(if Admits(mem, m, Get(r, a), Get(r, n)) then Trap(call) else Fault, Advance(r), mem)
    case Syscall(call) => Result(Trap(call), Advance(r), mem)
    case Undecoded => Result(Fault, Advance(r), mem)
    case _ => Result(Running, Compute(i, r), mem)
  }

  function LogicalExec(prog: seq<Instruction>, r: Registers, mem: seq<LogicalSegment>, m: nat): LogicalState
    requires m > 0
  {
    if r.pc >= |prog| then Result(Stuck, r, mem) else LogicalStep(prog[r.pc], r, mem, m)
  }

  /** `n` instructions of the logical machine; it stays where a fault or a system call leaves it. */
  function LogicalRun(prog: seq<Instruction>, m: nat, l: LogicalState, n: nat): LogicalState
    requires m > 0
  {
    if n == 0 then l
    else
      var k := LogicalRun(prog, m, l, n - 1);
      if k.outcome.Running? then LogicalExec(prog, k.regs, k.mem, m) else k
  }

  // ----------------------------------------------------------- translation and location agree

  lemma {:induction false} FindSame(flat: seq<byte>, table: seq<Segment>, id: nat)
    ensures FindLogical(TableImage(flat, table), id) == FindSegment(table, id)
  {
    if table != [] {
      var n := |table| - 1;
      FindSame(flat, table[..n], id);
      assert TableImage(flat, table)[..n] == TableImage(flat, table[..n]);
    }
  }

  /** The hardware finds a range exactly where the process's logical memory has it. When the two
      disagree the 32-bit sum has wrapped, and then no memory is large enough for the range. */
  lemma TranslateLocates(s: State, pid: nat, addr: word, size: word)
    requires Inv(s) && pid in s.procs
    ensures s.maxSegment > 0
    ensures var table := s.procs[pid].table;
            var at := Translate(table, s.maxSegment, addr, size);
            var p := Locate(TableImage(s.flat, table), s.maxSegment, addr, size);
            && (p.Some? ==> p.value.index < |table| && at == Some(table[p.value.index].base + p.value.offset)
                            && p.value.offset + size <= table[p.value.index].limit)
            && (p.None? && at.Some? ==> size > 0 && at.value + size > |s.flat|)
            && (p.None? && at.Some? ==> addr % s.maxSegment + size >= WORD_MODULUS)
            && (p.Some? ==> addr % s.maxSegment + size < WORD_MODULUS)
            && (size < 0x8000_0000 ==> (p.Some? <==> at.Some?))
  {
    hide Inv, FindSegment, FindLogical, Bytes;
    PositiveMax(s);
    var table, m := s.procs[pid].table, s.maxSegment;
    FindSame(s.flat, table, addr / m);
    var found := FindSegment(table, addr / m);
    if found.Some? {
      FoundBounds(s, pid, addr / m);
      OffsetBounds(addr, m);
      var g := table[found.value];
      BytesSize(s.flat, g);
      RangeCheck(addr % m, size, g.base, g.limit, |s.flat|);
    }
  }

  lemma BytesSize(flat: seq<byte>, g: Segment)
    requires g.End() <= |flat|
    ensures |Bytes(flat, g)| == g.limit
  {
  }

  /** The 32-bit check of a range against a segment's limit. */
  lemma RangeCheck(offset: nat, size: word, base: nat, limit: nat, total: nat)
    requires base + limit <= total < 0x8000_0000 && offset < 0x8000_0000
    ensures var passes := (offset + size) % WORD_MODULUS <= limit && (base + offset) % WORD_MODULUS < 0x8000_0000;
            && (base + offset) % WORD_MODULUS == base + offset
            && (offset + size <= limit ==> passes)
            && (passes && offset + size > limit ==> offset + size >= WORD_MODULUS && base + offset + size > total)
            && (size < 0x8000_0000 ==> (passes <==> offset + size <= limit))
  {
  }

  lemma OffsetBounds(a: nat, m: nat)
    requires m > 0
    ensures 0 <= a % m < m
  {
  }

  lemma FoundBounds(s: State, pid: nat, id: nat)
    requires Inv(s) && pid in s.procs && FindSegment(s.procs[pid].table, id).Some?
    ensures var i := FindSegment(s.procs[pid].table, id).value;
            && i < |s.procs[pid].table| && 0 < s.maxSegment < 0x8000_0000
            && s.procs[pid].table[i].limit > 0 && s.procs[pid].table[i].End() <= |s.flat| < 0x8000_0000
  {
    SegmentBounds(s, pid, FindSegment(s.procs[pid].table, id).value);
  }

  lemma LoadSame(flat: seq<byte>, table: seq<Segment>, p: Place, size: nat)
    requires p.index < |table| && p.offset + size <= table[p.index].limit && table[p.index].End() <= |flat|
    ensures Read(flat, table[p.index].base + p.offset, size) == Some(Load(TableImage(flat, table), p, size))
  {
    var g := table[p.index];
    SliceOfSlice(flat, g.base, g.End(), p.offset, p.offset + size);
  }

  lemma SliceOfSlice(s: seq<byte>, a: nat, b: nat, c: nat, d: nat)
    requires a <= b <= |s| && c <= d <= b - a
    ensures s[a..b][c..d] == s[a + c..a + d]
  {
    var front := s[a..b];
    assert forall i :: 0 <= i < d - c ==> front[c..d][i] == front[c + i] == s[a + c..a + d][i];
  }

  /** A write inside one segment changes just those bytes of that segment, in the eyes of its process. */
  lemma StoreSame(s: State, pid: nat, p: Place, data: seq<byte>)
    requires Inv(s) && pid in s.procs && p.index < |s.procs[pid].table|
    requires p.offset + |data| <= s.procs[pid].table[p.index].limit
    ensures var table := s.procs[pid].table;
            && table[p.index].End() <= |s.flat|
            && TableImage(Sticks.Overwrite(s.flat, table[p.index].base + p.offset, data), table) ==
               Store(TableImage(s.flat, table), p, data)
  {
    var table := s.procs[pid].table;
    SegmentBounds(s, pid, p.index);
    var new_ := Sticks.Overwrite(s.flat, table[p.index].base + p.offset, data);
    var stored := Store(TableImage(s.flat, table), p, data);
    forall i | 0 <= i < |table| ensures Bytes(new_, table[i]) == stored[i].bytes {
      if i != p.index { ApartBytes(s, pid, i, p, data); }
    }
  }

  lemma ApartBytes(s: State, pid: nat, i: nat, p: Place, data: seq<byte>)
    requires Inv(s) && pid in s.procs && i < |s.procs[pid].table| && p.index < |s.procs[pid].table| && i != p.index
    requires p.offset + |data| <= s.procs[pid].table[p.index].limit
    ensures var table := s.procs[pid].table;
            Bytes(Sticks.Overwrite(s.flat, table[p.index].base + p.offset, data), table[i]) == Bytes(s.flat, table[i])
  {
    hide Inv;
    SegmentsApart(s, pid, i, p.index);
  }

  lemma SegmentsApart(s: State, pid: nat, i: nat, j: nat)
    requires Inv(s) && pid in s.procs && i < |s.procs[pid].table| && j < |s.procs[pid].table| && i != j
    ensures Apart(s.procs[pid].table[i], s.procs[pid].table[j])
  {
    assert IsRef(s, Ref(pid, i)) && IsRef(s, Ref(pid, j)) && Apart(At(s, Ref(pid, i)), At(s, Ref(pid, j)));
  }

  // ----------------------------------------------------------- refinement

  /** The part of the check that does not depend on where the segment lies. */
  predicate Passes(table: seq<Segment>, m: nat, addr: word, size: word)
    requires m > 0
  {
    var found := FindSegment(table, addr / m);
    found.Some? && (addr % m + size) % WORD_MODULUS <= table[found.value].limit
  }

  /** STDIN or STDOUT of a range that passes the check, at a physical address of 2 GiB or more: that
      address reads as a negative number, and so as a fault. */
  predicate ReadsNegative(i: Instruction, r: Registers, table: seq<Segment>, m: nat)
    requires m > 0
  {
    && i.Stream?
    && var addr := Get(r, i.r);
       && Passes(table, m, addr, Get(r, i.q))
       && (table[FindSegment(table, addr / m).value].base + addr % m) % WORD_MODULUS >= 0x8000_0000
  }

  ghost predicate Agree(p: PhysState, table: seq<Segment>, l: LogicalState) {
    p.outcome == l.outcome && p.regs == l.regs && TableImage(p.mem, table) == l.mem
  }

  /** Each instruction does to the process's registers and logical memory exactly what the logical
      machine says, unless it is a STDIN or STDOUT whose physical address reads as negative. */
  lemma StepRefinesIff(i: Instruction, r: Registers, s: State, pid: nat)
    requires Inv(s) && pid in s.procs
    ensures s.maxSegment > 0
    ensures var table := s.procs[pid].table;
            var p := PhysStep(i, r, table, s.maxSegment, s.flat);
            && |p.mem| == |s.flat|
            && (Agree(p, table, LogicalStep(i, r, TableImage(s.flat, table), s.maxSegment)) <==>
                !ReadsNegative(i, r, table, s.maxSegment))
  {
    hide Inv, Translate, Locate, TableImage, Store, Load, Read, Admits, ReadsNegative;
    PositiveMax(s);
    NotStream(i, r, s.procs[pid].table, s.maxSegment);
    match i
    case MovIn(d) => MovInRefines(d, r, s, pid);
    case MovOut(d) => MovOutRefines(d, r, s, pid);
    case CopyMem(d) => CopyMemRefines(d, r, s, pid);
    case Stream(call, a, n) => StreamAgrees(call, a, n, r, s, pid);
    case _ =>
  }

  lemma NotStream(i: Instruction, r: Registers, table: seq<Segment>, m: nat)
    requires m > 0
    ensures !i.Stream? ==> !ReadsNegative(i, r, table, m)
  {
  }

  lemma StreamAgrees(call: nat, a: Reg, n: Reg, r: Registers, s: State, pid: nat)
    requires Inv(s) && pid in s.procs
    ensures s.maxSegment > 0
    ensures var table, m := s.procs[pid].table, s.maxSegment;
            var at := Translate(table, m, Get(r, a), Get(r, n));
            var admitted := Admits(TableImage(s.flat, table), m, Get(r, a), Get(r, n));
            (at.Some? <==> admitted) <==> !ReadsNegative(Stream(call, a, n), r, table, m)
  {
    hide Inv, Admits, TableImage, Get, Translate;
    PositiveMax(s);
    AdmitsSame(s, pid, Get(r, a), Get(r, n));
    TranslateSplits(s.procs[pid].table, s.maxSegment, Get(r, a), Get(r, n));
  }

  lemma TranslateSplits(table: seq<Segment>, m: nat, addr: word, size: word)
    requires m > 0
    ensures Translate(table, m, addr, size).Some? <==>
            && Passes(table, m, addr, size)
            && (table[FindSegment(table, addr / m).value].base + addr % m) % WORD_MODULUS < 0x8000_0000
  {
    hide FindSegment;
  }

  lemma AdmitsSame(s: State, pid: nat, addr: word, size: word)
    requires Inv(s) && pid in s.procs
    ensures s.maxSegment > 0
    ensures var table, m := s.procs[pid].table, s.maxSegment;
            Admits(TableImage(s.flat, table), m, addr, size) <==> Passes(table, m, addr, size)
  {
    hide Inv, FindSegment, FindLogical, TableImage;
    PositiveMax(s);
    var table, m := s.procs[pid].table, s.maxSegment;
    var found := FindSegment(table, addr / m);
    FindSame(s.flat, table, addr / m);
    if found.Some? {
      SegmentBounds(s, pid, found.value);
      ImageBytes(s.flat, table, found.value);
    }
  }

  lemma ImageBytes(flat: seq<byte>, table: seq<Segment>, i: nat)
    requires i < |table| && table[i].End() <= |flat|
    ensures |TableImage(flat, table)| == |table| && |TableImage(flat, table)[i].bytes| == table[i].limit
  {
    assert |Bytes(flat, table[i])| == table[i].limit;
  }

  /** Memory and segments of up to 2 GiB together leave no room for a negative address. */
  lemma SmallMemoryNeverNegative(i: Instruction, r: Registers, s: State, pid: nat)
    requires Inv(s) && pid in s.procs && |s.flat| + s.maxSegment <= 0x8000_0000
    ensures s.maxSegment > 0 && !ReadsNegative(i, r, s.procs[pid].table, s.maxSegment)
  {
    hide Inv, FindSegment, Get;
    PositiveMax(s);
    if i.Stream? {
      var addr := Get(r, i.r);
      var found := FindSegment(s.procs[pid].table, addr / s.maxSegment);
      OffsetBounds(addr, s.maxSegment);
      if found.Some? { SegmentBounds(s, pid, found.value); }
    }
  }

  /** The range of a STDIN or STDOUT call lies inside a segment of the process exactly when the 32-bit
      sum of its check did not wrap. */
  lemma StreamInsideIff(call: nat, a: Reg, n: Reg, r: Registers, s: State, pid: nat)
    requires Inv(s) && pid in s.procs
    ensures s.maxSegment > 0
    ensures var table := s.procs[pid].table;
            PhysStep(Stream(call, a, n), r, table, s.maxSegment, s.flat).outcome == Trap(call) ==>
              (Locate(TableImage(s.flat, table), s.maxSegment, Get(r, a), Get(r, n)).Some? <==>
               Get(r, a) % s.maxSegment + Get(r, n) < WORD_MODULUS)
  {
    hide Inv, Translate, Locate, TableImage, Get;
    TranslateLocates(s, pid, Get(r, a), Get(r, n));
  }

  lemma MovInRefines(d: Reg, r: Registers, s: State, pid: nat)
    requires Inv(s) && pid in s.procs
    ensures s.maxSegment > 0
    ensures var table := s.procs[pid].table;
            var p := PhysStep(MovIn(d), r, table, s.maxSegment, s.flat);
            var l := LogicalStep(MovIn(d), r, TableImage(s.flat, table), s.maxSegment);
            p.outcome == l.outcome && p.regs == l.regs && p.mem == s.flat && TableImage(p.mem, table) == l.mem
  {
    hide Inv, Translate, TableImage, FindSegment, Load, Read, Locate;
    TranslateLocates(s, pid, r.si, Width(d));
    var p := Locate(TableImage(s.flat, s.procs[pid].table), s.maxSegment, r.si, Width(d));
    if p.Some? {
      SegmentBounds(s, pid, p.value.index);
      LoadSame(s.flat, s.procs[pid].table, p.value, Width(d));
    }
  }

  lemma MovOutRefines(d: Reg, r: Registers, s: State, pid: nat)
    requires Inv(s) && pid in s.procs
    ensures s.maxSegment > 0
    ensures var table := s.procs[pid].table;
            var p := PhysStep(MovOut(d), r, table, s.maxSegment, s.flat);
            var l := LogicalStep(MovOut(d), r, TableImage(s.flat, table), s.maxSegment);
            && p.outcome == l.outcome && p.regs == l.regs
            && |p.mem| == |s.flat| && TableImage(p.mem, table) == l.mem
  {
    hide Inv, Translate, TableImage, FindSegment, Store, Locate;
    TranslateLocates(s, pid, r.di, Width(d));
    var p := Locate(TableImage(s.flat, s.procs[pid].table), s.maxSegment, r.di, Width(d));
    if p.Some? {
      SegmentBounds(s, pid, p.value.index);
      StoreSame(s, pid, p.value, ToBytes(Get(r, d), Width(d)));
    }
  }

  /** The two checks of COPY_MEM and the error of a read that leaves memory add up to the two ranges
      being inside their segments: nothing is written otherwise. */
  lemma CopyMemRefines(d: Reg, r: Registers, s: State, pid: nat)
    requires Inv(s) && pid in s.procs
    ensures s.maxSegment > 0
    ensures var table := s.procs[pid].table;
            var p := PhysStep(CopyMem(d), r, table, s.maxSegment, s.flat);
            var l := LogicalStep(CopyMem(d), r, TableImage(s.flat, table), s.maxSegment);
            && p.outcome == l.outcome && p.regs == l.regs
            && |p.mem| == |s.flat| && TableImage(p.mem, table) == l.mem
  {
    hide Inv, Translate, TableImage, FindSegment, Store, Load, Locate, Compute, Admits, Get;
    var size, table := Get(r, d), s.procs[pid].table;
    TranslateLocates(s, pid, r.si, size);
    TranslateLocates(s, pid, r.di, size);
    var p := Locate(TableImage(s.flat, table), s.maxSegment, r.si, size);
    if p.Some? {
      SegmentBounds(s, pid, p.value.index);
      LoadSame(s.flat, table, p.value, size);
      var q := Locate(TableImage(s.flat, table), s.maxSegment, r.di, size);
      if q.Some? {
        SegmentBounds(s, pid, q.value.index);
        StoreSame(s, pid, q.value, Load(TableImage(s.flat, table), p.value, size));
      }
    }
  }

  /** A run of the cycle gives its process what the logical machine gives it. */
  lemma {:induction false} RunRefines(s: State, pid: nat, r: Registers, n: nat)
    requires Inv(s) && pid in s.procs && s.maxSegment > 0
    requires forall k :: 0 <= k < n ==> NonNegative(s, pid, r, k)
    ensures var p := s.procs[pid];
            var x := PhysRun(p.program, p.table, s.maxSegment, Result(Running, r, s.flat), n);
            var l := LogicalRun(p.program, s.maxSegment, Result(Running, r, TableImage(s.flat, p.table)), n);
            Agree(x, p.table, l) && Inv(s.(flat := x.mem))
  {
    hide Inv, PhysStep, LogicalStep, ReadsNegative;
    var p := s.procs[pid];
    if n > 0 {
      RunRefines(s, pid, r, n - 1);
      var x := PhysRun(p.program, p.table, s.maxSegment, Result(Running, r, s.flat), n - 1);
      assert NonNegative(s, pid, r, n - 1);
      if x.outcome.Running? && x.regs.pc < |p.program| {
        var t := s.(flat := x.mem);
        StepRefinesIff(p.program[x.regs.pc], x.regs, t, pid);
        var y := PhysStep(p.program[x.regs.pc], x.regs, p.table, s.maxSegment, x.mem);
        RewrittenInv(t, s.(flat := y.mem));
      }
    }
  }

  /** Turn number `k` of the run does not read an address as negative. */
  ghost predicate NonNegative(s: State, pid: nat, r: Registers, k: nat)
    requires pid in s.procs && s.maxSegment > 0
  {
    var p := s.procs[pid];
    var x := PhysRun(p.program, p.table, s.maxSegment, Result(Running, r, s.flat), k);
    x.outcome.Running? && x.regs.pc < |p.program| ==>
      !ReadsNegative(p.program[x.regs.pc], x.regs, p.table, s.maxSegment)
  }

  // ----------------------------------------------------------- isolation

  lemma WritesInside(s: State, pid: nat, addr: word, data: seq<byte>)
    requires Inv(s) && pid in s.procs && |data| < 0x8000_0000
    ensures s.maxSegment > 0
    ensures var at := Translate(s.procs[pid].table, s.maxSegment, addr, |data|);
            at.Some? ==> forall a :: at.value <= a < at.value + |data| ==> InTable(s.procs[pid].table, a)
  {
    hide Inv, Translate, TableImage, FindSegment, Locate;
    TranslateLocates(s, pid, addr, |data|);
    var table := s.procs[pid].table;
    var p := Locate(TableImage(s.flat, table), s.maxSegment, addr, |data|);
    if p.Some? {
      var at, g := table[p.value.index].base + p.value.offset, table[p.value.index];
      forall a | at <= a < at + |data| ensures InTable(table, a) { assert g in table && g.Has(a); }
    }
  }

  lemma NothingWritten(flat: seq<byte>)
    ensures Sticks.Overwrite(flat, 0, []) == flat
  {
  }

  /** What an instruction does to memory is one write, inside a segment of its own process. */
  lemma StepWrites(i: Instruction, r: Registers, s: State, pid: nat) returns (at: nat, data: seq<byte>)
    requires Inv(s) && pid in s.procs
    ensures s.maxSegment > 0
    ensures PhysStep(i, r, s.procs[pid].table, s.maxSegment, s.flat).mem == Sticks.Overwrite(s.flat, at, data)
    ensures forall a :: at <= a < at + |data| ==> InTable(s.procs[pid].table, a)
  {
    hide Inv, Translate, FindSegment, Read, Compute;
    PositiveMax(s);
    NothingWritten(s.flat);
    at, data := 0, [];
    var table, m := s.procs[pid].table, s.maxSegment;
    if i.MovOut? {
      var target, bytes := Translate(table, m, r.di, Width(i.r)), ToBytes(Get(r, i.r), Width(i.r));
      WritesInside(s, pid, r.di, bytes);
      if target.Some? { at, data := target.value, bytes; }
    } else if i.CopyMem? {
      var size := Get(r, i.r);
      var source, target := Translate(table, m, r.si, size), Translate(table, m, r.di, size);
      if source.Some? && target.Some? && Read(s.flat, source.value, size).Some? {
        var bytes := Read(s.flat, source.value, size).value;
        ReadBound(s, source.value, size);
        WritesInside(s, pid, r.di, bytes);
        at, data := target.value, bytes;
      }
    }
  }

  lemma ReadBound(s: State, at: nat, size: nat)
    requires Inv(s) && Read(s.flat, at, size).Some?
    ensures |Read(s.flat, at, size).value| == size < 0x8000_0000
  {
  }

  lemma TablesApart(s: State, p: nat, q: nat, a: int)
    requires Inv(s) && p in s.procs && q in s.procs && p != q && InTable(s.procs[q].table, a)
    ensures !InTable(s.procs[p].table, a)
  {
    var g :| g in s.procs[q].table && g.Has(a);
    var j :| 0 <= j < |s.procs[q].table| && s.procs[q].table[j] == g;
    forall h | h in s.procs[p].table ensures !h.Has(a) {
      var i :| 0 <= i < |s.procs[p].table| && s.procs[p].table[i] == h;
      assert IsRef(s, Ref(q, j)) && IsRef(s, Ref(p, i)) && Apart(At(s, Ref(p, i)), At(s, Ref(q, j)));
    }
  }

  /** An instruction of one process is, for kernel memory, a write that concerns no other process. */
  lemma ExecIsStep(i: Instruction, r: Registers, s: State, pid: nat, q: nat) returns (op: Op)
    requires Inv(s) && pid in s.procs && q != pid
    ensures s.maxSegment > 0
    ensures Step(s, op, s.(flat := PhysStep(i, r, s.procs[pid].table, s.maxSegment, s.flat).mem))
    ensures !Concerns(s, op, q)
  {
    hide Inv, PhysStep;
    PositiveMax(s);
    var at, data := StepWrites(i, r, s, pid);
    op := Op.Write(at, data);
    var t := s.(flat := PhysStep(i, r, s.procs[pid].table, s.maxSegment, s.flat).mem);
    assert Effect(s, op, t, data == [] || at + |data| <= |s.flat|);
    if q in s.procs {
      forall a | at <= a < at + |data| ensures !InTable(s.procs[q].table, a) {
        if InTable(s.procs[q].table, a) { TablesApart(s, pid, q, a); }
      }
    }
  }

  /** No other process notices an instruction, and the invariant of memory survives it. */
  lemma ExecIsolates(i: Instruction, r: Registers, s: State, pid: nat, q: nat)
    requires Inv(s) && pid in s.procs && q != pid
    ensures s.maxSegment > 0
    ensures var t := s.(flat := PhysStep(i, r, s.procs[pid].table, s.maxSegment, s.flat).mem);
            Inv(t) && SameImage(s, t, q)
  {
    hide Inv, PhysStep, Step, Concerns, SameImage;
    PositiveMax(s);
    var op := ExecIsStep(i, r, s, pid, q);
    var t := s.(flat := PhysStep(i, r, s.procs[pid].table, s.maxSegment, s.flat).mem);
    StepKeepsInv(s, op, t);
    NotThere(s, t, q);
    if q in s.procs { StepIsolates(s, op, t, q); }
  }

  lemma NotThere(s: State, t: State, q: nat)
    ensures q !in s.procs ==> SameImage(s, t, q)
  {
  }
}
