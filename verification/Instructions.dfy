/** What each instruction does, said of the registers it reads and writes and of the process's own bytes alone. */
module Instructions {
  import opened Common
  import opened Isa
  import opened Memory
  import opened Machines
  import T = Transparency

  // ----------------------------------------------------------- registers

  /** The value register `d` holds after `v` is written to it: four of them are one byte wide. */
  function Held(d: Reg, v: int): int {
    if d in {AX, BX, CX, DX} then v % 0x100 else v % 0x1_0000_0000
  }

  /** Only the registers of `ds` may differ. */
  ghost predicate OnlyChanges(r: Registers, t: Registers, ds: set<Reg>) {
    forall m :: m !in ds ==> Get(t, m) == Get(r, m)
  }

  /** Register `d` gets `v`, the counter moves on by one, after the write if it is the counter, and nothing else
      changes. A name that is no register takes no value and reads 0. */
  ghost predicate Assigns(r: Registers, d: Reg, v: int, t: Registers) {
    && OnlyChanges(r, t, {d, PC})
    && Get(t, PC) == ((if d == PC then v else Get(r, PC)) + 1) % 0x1_0000_0000
    && (d != PC ==> Get(t, d) == if d == Unknown then 0 else Held(d, v))
  }

  /** What the instructions on registers do. */
  ghost predicate Meant(i: Instruction, r: Registers, t: Registers) {
    match i
    case Noop => OnlyChanges(r, t, {PC}) && Get(t, PC) == (Get(r, PC) + 1) % 0x1_0000_0000
    case Set(d, v) => if d == PC then OnlyChanges(r, t, {PC}) && Get(t, PC) == v else Assigns(r, d, v, t)
    case Sum(d, q) => Assigns(r, d, Get(r, d) + Get(r, q), t)
    case Sub(d, q) => Assigns(r, d, Get(r, d) - Get(r, q), t)
    case Jnz(d, target) =>
      && OnlyChanges(r, t, {PC})
      && Get(t, PC) == if Get(r, d) == 0 then (Get(r, PC) + 1) % 0x1_0000_0000 else target
    case _ => false
  }

  /** Two register files that read alike are the same. */
  lemma ReadAlike(r: Registers, t: Registers)
    requires forall m :: Get(r, m) == Get(t, m)
    ensures r == t
  {
    assert Get(r, AX) == Get(t, AX) && Get(r, BX) == Get(t, BX) && Get(r, CX) == Get(t, CX) && Get(r, DX) == Get(t, DX);
    assert Get(r, EAX) == Get(t, EAX) && Get(r, EBX) == Get(t, EBX) && Get(r, ECX) == Get(t, ECX);
    assert Get(r, EDX) == Get(t, EDX) && Get(r, SI) == Get(t, SI) && Get(r, DI) == Get(t, DI);
    assert Get(r, PC) == Get(t, PC);
  }

  lemma Advances(r: Registers)
    ensures OnlyChanges(r, Advance(r), {PC}) && Get(Advance(r), PC) == (Get(r, PC) + 1) % 0x1_0000_0000
  {
  }

  lemma PutAdvances(r: Registers, d: Reg, v: word)
    ensures Assigns(r, d, v, Advance(Put(r, d, v)))
  {
    hide Put;
    forall m | m !in {d, PC} ensures Get(Advance(Put(r, d, v)), m) == Get(r, m) { GetPut(r, d, v, m); }
    GetPut(r, d, v, d);
    GetPut(r, d, v, PC);
  }

  lemma AssignsWrapped(r: Registers, d: Reg, v: int, t: Registers)
    requires Assigns(r, d, v % 0x1_0000_0000, t)
    ensures Assigns(r, d, v, t)
  {
    hide Get, OnlyChanges;
    assert v % 0x1_0000_0000 % 0x100 == v % 0x100;
  }

  lemma ComputeMeans(i: Instruction, r: Registers)
    requires InRegisters(i)
    ensures Meant(i, r, Compute(i, r))
  {
    hide Get, Put, OnlyChanges, Assigns;
    match i
    case Noop => Advances(r);
    case Set(d, v) => if d == PC { SetsCounter(r, v); } else { PutAdvances(r, d, v); }
    case Sum(d, q) =>
      PutAdvances(r, d, (Get(r, d) + Get(r, q)) % WORD_MODULUS);
      AssignsWrapped(r, d, Get(r, d) + Get(r, q), Compute(i, r));
    case Sub(d, q) =>
      PutAdvances(r, d, (Get(r, d) - Get(r, q)) % WORD_MODULUS);
      AssignsWrapped(r, d, Get(r, d) - Get(r, q), Compute(i, r));
    case Jnz(d, target) =>
      Advances(r);
      SetsCounter(r, target);
  }

  lemma SetsCounter(r: Registers, v: word)
    ensures OnlyChanges(r, Put(r, PC, v), {PC}) && Get(Put(r, PC, v), PC) == v && Put(r, PC, v) == r.(pc := v)
  {
  }

  /** The instructions on registers, on either machine: what they mean, and nothing to memory. */
  lemma RegisterLaw(i: Instruction, r: Registers, table: seq<Segment>, m: nat, flat: seq<byte>,
                    mem: seq<LogicalSegment>)
    requires m > 0 && InRegisters(i)
    ensures var p := PhysStep(i, r, table, m, flat); p.outcome == Running && Meant(i, r, p.regs) && p.mem == flat
    ensures var l := LogicalStep(i, r, mem, m); l.outcome == Running && Meant(i, r, l.regs) && l.mem == mem
  {
    hide Meant, Compute;
    ComputeMeans(i, r);
  }

  // ----------------------------------------------------------- memory

  /** The process's byte number `k` from logical address `addr`, if its segment has it: the first segment whose id is
      the quotient by the maximum size, at the remainder. */
  ghost predicate HasByte(mem: seq<LogicalSegment>, m: nat, addr: word, k: nat, b: byte)
    requires m > 0
  {
    exists i ::
      && 0 <= i < |mem| && mem[i].id == addr / m && (forall j :: 0 <= j < i ==> mem[j].id != addr / m)
      && addr % m + k < |mem[i].bytes| && mem[i].bytes[addr % m + k] == b
  }

  /** The `n` bytes from `addr` on are all in its segment. */
  ghost predicate InSegment(mem: seq<LogicalSegment>, m: nat, addr: word, n: nat)
    requires m > 0
  {
    exists i ::
      && 0 <= i < |mem| && mem[i].id == addr / m && (forall j :: 0 <= j < i ==> mem[j].id != addr / m)
      && addr % m + n <= |mem[i].bytes|
  }

  /** Memory is the same but for the bytes of `data` from `addr` on. */
  ghost predicate Overwrites(mem: seq<LogicalSegment>, m: nat, addr: word, data: seq<byte>, new_: seq<LogicalSegment>)
    requires m > 0
  {
    && |new_| == |mem|
    && exists i ::
         && 0 <= i < |mem| && mem[i].id == addr / m && (forall j :: 0 <= j < i ==> mem[j].id != addr / m)
         && addr % m + |data| <= |mem[i].bytes|
         && (forall j :: 0 <= j < |mem| && j != i ==> new_[j] == mem[j])
         && new_[i].id == mem[i].id && |new_[i].bytes| == |mem[i].bytes|
         && forall x :: 0 <= x < |mem[i].bytes| ==>
              new_[i].bytes[x] == if addr % m <= x < addr % m + |data| then data[x - addr % m] else mem[i].bytes[x]
  }

  /** The number of bytes of a register. */
  function Bytes(d: Reg): nat {
    if d in {AX, BX, CX, DX} then 1 else 4
  }

  function Power(k: nat): (p: nat)
    ensures p > 0
  {
    if k == 0 then 1 else 0x100 * Power(k - 1)
  }

  lemma LocateFinds(mem: seq<LogicalSegment>, m: nat, addr: word, n: nat)
    requires m > 0
    ensures Locate(mem, m, addr, n).Some? <==> InSegment(mem, m, addr, n)
    ensures var p := Locate(mem, m, addr, n);
            p.Some? ==> p.value.offset == addr % m && mem[p.value.index].id == addr / m
                        && forall j :: 0 <= j < p.value.index ==> mem[j].id != addr / m
  {
    hide FindLogical;
    var found := FindLogical(mem, addr / m);
    if InSegment(mem, m, addr, n) {
      var i :| 0 <= i < |mem| && mem[i].id == addr / m && (forall j :: 0 <= j < i ==> mem[j].id != addr / m)
               && addr % m + n <= |mem[i].bytes|;
      assert found == Some(i);
    }
  }

  lemma LoadedBytes(mem: seq<LogicalSegment>, m: nat, addr: word, n: nat)
    requires m > 0 && Locate(mem, m, addr, n).Some?
    ensures var data := Load(mem, Locate(mem, m, addr, n).value, n);
            |data| == n && forall k :: 0 <= k < n ==> HasByte(mem, m, addr, k, data[k])
  {
    LocateFinds(mem, m, addr, n);
  }

  lemma StoredBytes(mem: seq<LogicalSegment>, m: nat, addr: word, data: seq<byte>)
    requires m > 0 && Locate(mem, m, addr, |data|).Some?
    ensures Overwrites(mem, m, addr, data, Store(mem, Locate(mem, m, addr, |data|).value, data))
  {
    LocateFinds(mem, m, addr, |data|);
    var p := Locate(mem, m, addr, |data|).value;
    var new_ := Store(mem, p, data);
    assert forall j :: 0 <= j < |mem| && j != p.index ==> new_[j] == mem[j];
  }

  /** The low byte first. */
  ghost predicate LittleEndian(v: int, data: seq<byte>) {
    forall k :: 0 <= k < |data| ==> data[k] as int == v / Power(k) % 0x100
  }

  lemma WrittenLow(v: word, n: nat)
    requires n == 1 || n == 4
    ensures LittleEndian(v, ToBytes(v, n))
  {
    Powers();
    var data := ToBytes(v, n);
    if n == 4 { assert v / 0x100_0000 < 0x100; }
    forall k | 0 <= k < n ensures data[k] as int == v / Power(k) % 0x100 {}
  }

  lemma Powers()
    ensures Power(0) == 1 && Power(1) == 0x100 && Power(2) == 0x1_0000 && Power(3) == 0x100_0000
  {
    assert Power(2) == 0x100 * Power(1) && Power(3) == 0x100 * Power(2);
  }

  lemma ReadLow(data: seq<byte>)
    requires |data| == 1 || |data| == 4
    ensures LittleEndian(FromBytes(data), data) && (|data| == 1 ==> FromBytes(data) < 0x100)
  {
    Powers();
    var v := FromBytes(data);
    if |data| == 4 {
      var a, b, c, d := data[0] as int, data[1] as int, data[2] as int, data[3] as int;
      assert v == a + 0x100 * b + 0x1_0000 * c + 0x100_0000 * d;
      Digits(a, b, c, d);
    }
    forall k | 0 <= k < |data| ensures data[k] as int == v / Power(k) % 0x100 {}
  }

  lemma Digits(a: nat, b: nat, c: nat, d: nat)
    requires a < 0x100 && b < 0x100 && c < 0x100 && d < 0x100
    ensures var v := a + 0x100 * b + 0x1_0000 * c + 0x100_0000 * d;
            v / 1 % 0x100 == a && v / 0x100 % 0x100 == b && v / 0x1_0000 % 0x100 == c && v / 0x100_0000 % 0x100 == d
  {
    var v := a + 0x100 * b + 0x1_0000 * c + 0x100_0000 * d;
    assert v / 0x100 == b + 0x100 * c + 0x1_0000 * d;
    assert v / 0x1_0000 == c + 0x100 * d;
    assert v / 0x100_0000 == d;
  }

  /** MOV_IN: the register gets the bytes at SI, low byte first; a range that is not in a segment is a fault. */
  lemma MovInLaw(d: Reg, r: Registers, mem: seq<LogicalSegment>, m: nat)
    requires m > 0
    ensures var l := LogicalStep(MovIn(d), r, mem, m);
            && l.mem == mem
            && if InSegment(mem, m, Get(r, SI), Bytes(d)) then
                 l.outcome == Running && exists v: word, data: seq<byte> ::
                   && |data| == Bytes(d) && (forall k :: 0 <= k < |data| ==> HasByte(mem, m, Get(r, SI), k, data[k]))
                   && LittleEndian(v, data) && Assigns(r, d, v, l.regs)
               else l.outcome == Fault && Meant(Noop, r, l.regs)
  {
    hide HasByte, InSegment, Assigns, LittleEndian, FromBytes, Locate, Load, OnlyChanges, Put;
    var addr := Get(r, SI);
    LocateFinds(mem, m, addr, Bytes(d));
    Advances(r);
    if InSegment(mem, m, addr, Bytes(d)) {
      var data := Load(mem, Locate(mem, m, addr, Bytes(d)).value, Bytes(d));
      LoadedBytes(mem, m, addr, Bytes(d));
      ReadLow(data);
      PutAdvances(r, d, FromBytes(data));
      var l := LogicalStep(MovIn(d), r, mem, m);
      assert LittleEndian(FromBytes(data), data) && Assigns(r, d, FromBytes(data), l.regs);
    }
  }

  /** MOV_OUT: the bytes at DI become those of the register, low byte first, and no others change. */
  lemma MovOutLaw(d: Reg, r: Registers, mem: seq<LogicalSegment>, m: nat)
    requires m > 0
    ensures var l := LogicalStep(MovOut(d), r, mem, m);
            && Meant(Noop, r, l.regs)
            && if InSegment(mem, m, Get(r, DI), Bytes(d)) then
                 l.outcome == Running && exists data: seq<byte> ::
                   |data| == Bytes(d) && LittleEndian(Get(r, d), data) && Overwrites(mem, m, Get(r, DI), data, l.mem)
               else l.outcome == Fault && l.mem == mem
  {
    hide InSegment, LittleEndian, ToBytes, Locate, Store, OnlyChanges, Overwrites;
    var addr := Get(r, DI);
    LocateFinds(mem, m, addr, Bytes(d));
    Advances(r);
    if InSegment(mem, m, addr, Bytes(d)) {
      var data := ToBytes(Get(r, d), Bytes(d));
      WrittenLow(Get(r, d), Bytes(d));
      StoredBytes(mem, m, addr, data);
      var l := LogicalStep(MovOut(d), r, mem, m);
      assert LittleEndian(Get(r, d), data) && Overwrites(mem, m, addr, data, l.mem);
    }
  }

  /** COPY_MEM: as many bytes as the register says go from SI to DI, as they were before, or none do. */
  lemma CopyMemLaw(d: Reg, r: Registers, mem: seq<LogicalSegment>, m: nat)
    requires m > 0
    ensures var l, n := LogicalStep(CopyMem(d), r, mem, m), Get(r, d);
            && Meant(Noop, r, l.regs)
            && if InSegment(mem, m, Get(r, SI), n) && InSegment(mem, m, Get(r, DI), n) then
                 l.outcome == Running && exists data: seq<byte> ::
                   && |data| == n && (forall k :: 0 <= k < n ==> HasByte(mem, m, Get(r, SI), k, data[k]))
                   && Overwrites(mem, m, Get(r, DI), data, l.mem)
               else l.outcome == Fault && l.mem == mem
  {
    hide InSegment, HasByte, Locate, Load, Store, OnlyChanges, Overwrites;
    var n := Get(r, d);
    LocateFinds(mem, m, Get(r, SI), n);
    LocateFinds(mem, m, Get(r, DI), n);
    Advances(r);
    if InSegment(mem, m, Get(r, SI), n) && InSegment(mem, m, Get(r, DI), n) {
      var data := Load(mem, Locate(mem, m, Get(r, SI), n).value, n);
      LoadedBytes(mem, m, Get(r, SI), n);
      StoredBytes(mem, m, Get(r, DI), data);
      var l := LogicalStep(CopyMem(d), r, mem, m);
      assert Overwrites(mem, m, Get(r, DI), data, l.mem);
    }
  }

  /** The system calls leave registers but for the counter, and memory, as they were, and say which call it
      is. One with a range of memory is a fault when no segment has the number, or when its end, in 32 bits,
      is past the limit. */
  lemma CallLaw(i: Instruction, r: Registers, mem: seq<LogicalSegment>, m: nat)
    requires m > 0 && (i.Syscall? || i.Stream? || i.Undecoded?)
    ensures var l := LogicalStep(i, r, mem, m);
            && Meant(Noop, r, l.regs) && l.mem == mem
            && (i.Syscall? ==> l.outcome == Trap(i.call))
            && (i.Undecoded? ==> l.outcome == Fault)
            && (i.Stream? ==>
                  var addr, n := Get(r, i.r), Get(r, i.q);
                  l.outcome ==
                  if exists k ::
                    && 0 <= k < |mem| && mem[k].id == addr / m && (forall j :: 0 <= j < k ==> mem[j].id != addr / m)
                    && (addr % m + n) % 0x1_0000_0000 <= |mem[k].bytes|
                  then Trap(i.call) else Fault)
  {
    Advances(r);
    if i.Stream? {
      var addr, n := Get(r, i.r), Get(r, i.q);
      var found := FindLogical(mem, addr / m);
      hide FindLogical, Get, OnlyChanges;
      if found.Some? { assert forall j :: 0 <= j < found.value ==> mem[j].id != addr / m; }
    }
  }

  // ----------------------------------------------------------- programs

  /** Nothing is executed but the instruction the counter points to. */
  lemma FetchLaw(prog: seq<Instruction>, r: Registers, mem: seq<LogicalSegment>, m: nat)
    requires m > 0
    ensures LogicalExec(prog, r, mem, m) ==
            if Get(r, PC) < |prog| then LogicalStep(prog[Get(r, PC)], r, mem, m) else Result(Stuck, r, mem)
  {
  }

  /** A fault, or a counter past the end, is the last thing a program does. */
  lemma {:induction false} EndStays(prog: seq<Instruction>, m: nat, l: LogicalState, n: nat, k: nat)
    requires m > 0 && n <= k
    requires var x := T.LogicalProgram(prog, m, l, n); x.outcome == Fault || x.outcome == Stuck
    ensures T.LogicalProgram(prog, m, l, k) == T.LogicalProgram(prog, m, l, n)
    decreases k
  {
    hide LogicalExec;
    if n < k { EndStays(prog, m, l, n, k - 1); }
  }

  /** A new process has every register 0 and no memory, and begins with the first instruction of its program. */
  lemma FreshProcess(s: State, pid: nat, program: seq<Instruction>, t: State)
    requires Created(s, pid, program, t)
    ensures pid in t.procs && t.procs[pid].program == program
    ensures t.procs[pid].table == [] && t.procs[pid].suspended == []
    ensures forall n :: Get(t.procs[pid].regs, n) == 0
    ensures program != [] && t.maxSegment > 0 ==>
              LogicalExec(program, t.procs[pid].regs, [], t.maxSegment) ==
              LogicalStep(program[0], t.procs[pid].regs, [], t.maxSegment)
  {
    hide LogicalStep;
  }

  /** Subtract one register from another until nothing is left. */
  function Countdown(d: Reg, q: Reg): seq<Instruction> {
    [Sub(d, q), Jnz(d, 0)]
  }

  lemma CountOnce(d: Reg, q: Reg, r: Registers, mem: seq<LogicalSegment>, m: nat)
    requires m > 0 && d !in {PC, Unknown} && q !in {d, PC, Unknown}
    requires Get(r, PC) == 0 && Get(r, q) == 1 && Get(r, d) > 0
    ensures var l := LogicalExec(Countdown(d, q), r, mem, m);
            var k := LogicalExec(Countdown(d, q), l.regs, l.mem, m);
            && l.outcome == Running && k.outcome == Running && k.mem == mem
            && Get(k.regs, d) == Get(r, d) - 1 && OnlyChanges(r, k.regs, {d, PC})
            && Get(k.regs, PC) == if Get(r, d) == 1 then 2 else 0
  {
    hide LogicalStep, Get;
    var prog := Countdown(d, q);
    FetchLaw(prog, r, mem, m);
    RegisterLaw(Sub(d, q), r, [], m, [], mem);
    var l := LogicalExec(prog, r, mem, m);
    ByteHeld(r, d);
    FetchLaw(prog, l.regs, l.mem, m);
    RegisterLaw(Jnz(d, 0), l.regs, [], m, [], l.mem);
  }

  lemma ByteHeld(r: Registers, d: Reg)
    ensures d in {AX, BX, CX, DX} ==> Get(r, d) < 0x100
  {
  }

  /** A countdown from `n` ends after `2 * n` instructions, with nothing left, past its jump, and nothing else touched:
      it goes round exactly while something is left. */
  lemma {:induction false} CountsDown(d: Reg, q: Reg, r: Registers, mem: seq<LogicalSegment>, m: nat, k: nat)
    requires m > 0 && d !in {PC, Unknown} && q !in {d, PC, Unknown} && Get(r, PC) == 0 && Get(r, q) == 1
    requires 0 < k <= Get(r, d)
    ensures var l := T.LogicalProgram(Countdown(d, q), m, Result(Running, r, mem), 2 * k);
            && l.outcome == Running && l.mem == mem && Get(l.regs, d) == Get(r, d) - k
            && OnlyChanges(r, l.regs, {d, PC}) && Get(l.regs, PC) == if k == Get(r, d) then 2 else 0
  {
    hide LogicalExec, Get, OnlyChanges;
    var prog, start := Countdown(d, q), Result(Running, r, mem);
    var before := if k == 1 then start else T.LogicalProgram(prog, m, start, 2 * (k - 1));
    if k > 1 { CountsDown(d, q, r, mem, m, k - 1); } else { Unchanged(r, {d, PC}); }
    Kept(r, before.regs, {d, PC}, q);
    CountOnce(d, q, before.regs, mem, m);
    assert T.LogicalProgram(prog, m, start, 2 * (k - 1)) == before;
    var l := LogicalExec(prog, before.regs, mem, m);
    assert T.LogicalProgram(prog, m, start, 2 * (k - 1) + 1) == l;
    assert T.LogicalProgram(prog, m, start, 2 * k) == LogicalExec(prog, l.regs, l.mem, m);
    Changes(r, before.regs, LogicalExec(prog, l.regs, l.mem, m).regs, {d, PC});
  }

  lemma Unchanged(r: Registers, ds: set<Reg>)
    ensures OnlyChanges(r, r, ds)
  {
  }

  lemma Kept(r: Registers, t: Registers, ds: set<Reg>, q: Reg)
    requires OnlyChanges(r, t, ds) && q !in ds
    ensures Get(t, q) == Get(r, q)
  {
  }

  lemma Changes(r: Registers, s: Registers, t: Registers, ds: set<Reg>)
    requires OnlyChanges(r, s, ds) && OnlyChanges(s, t, ds)
    ensures OnlyChanges(r, t, ds)
  {
  }

  /** And so it does in the real machine, whatever loads, saves, compactions and suspensions come between. */
  lemma CountsDownAnywhere(ms: seq<T.Machine>, es: seq<T.Event>, p: nat, d: Reg, q: Reg, m: nat, r: Registers,
                           mem: seq<LogicalSegment>)
    requires m > 0 && d !in {PC, Unknown} && q !in {d, PC, Unknown}
    requires Get(r, PC) == 0 && Get(r, q) == 1 && Get(r, d) > 0
    requires T.Run(ms, es, p) && T.Follows(ms[0], p, Countdown(d, q), m, Result(Running, r, mem))
    requires T.Execs(es) == 2 * Get(r, d)
    ensures p in ms[|es|].kernel.procs
    ensures var v := T.ViewOf(ms[|es|], p);
            v.regs.Some? && Get(v.regs.value, d) == 0 && Get(v.regs.value, PC) == 2 && v.mem == mem
  {
    hide T.Execs, T.Follows, T.LogicalProgram;
    var prog, start := Countdown(d, q), Result(Running, r, mem);
    T.Transparent(ms, es, p, prog, m, start);
    CountsDown(d, q, r, mem, m, Get(r, d));
    T.FollowedView(ms[|es|], p, prog, m, T.LogicalProgram(prog, m, start, T.Execs(es)));
  }
}
