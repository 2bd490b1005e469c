/** The CPU module: registers and segment table edited in place, one instruction at a time. */
module Cpus {
  import opened Common
  import opened Isa
  import opened Memory
  import opened Isolation
  import opened Machines
  import opened KernelMemories
  import opened Kernel
  import opened Wire
  import Sticks

  /** How many instructions are executed until an interrupt: one after each answer that is no, and a
      lost connection counts as an interrupt. */
  function Quota(answers: seq<bool>): nat {
    if answers == [] || answers[0] then 1 else 1 + Quota(answers[1..])
  }

  lemma {:induction false} QuotaAt(answers: seq<bool>, k: nat)
    requires k <= |answers| && forall j :: 0 <= j < k ==> !answers[j]
    ensures Quota(answers) >= k + 1
    ensures k == |answers| || answers[k] ==> Quota(answers) == k + 1
  {
    if k > 0 { QuotaAt(answers[1..], k - 1); }
  }

  lemma {:induction false} RunStays(prog: seq<Instruction>, table: seq<Segment>, m: nat, x: PhysState, k: nat, n: nat)
    requires m > 0 && k <= n && !PhysRun(prog, table, m, x, k).outcome.Running?
    ensures PhysRun(prog, table, m, x, n) == PhysRun(prog, table, m, x, k)
    decreases n
  {
    if k < n { RunStays(prog, table, m, x, k, n - 1); }
  }

  class Cpu {
    const maxSegment: nat
    const toMemory: Channel
    const fromMemory: Channel
    var regs: Registers
    var table: seq<Segment>

    constructor (maxSegment: nat)
      requires maxSegment > 0
      ensures this.maxSegment == maxSegment && Idle() && fresh(toMemory) && fresh(fromMemory)
    {
      this.maxSegment := maxSegment;
      toMemory := new Channel();
      fromMemory := new Channel();
      regs, table := RESET, [];
    }

    /** No message is under way. */
    ghost predicate Idle()
      reads toMemory, fromMemory
    {
      maxSegment > 0 && toMemory != fromMemory && toMemory.bytes == [] && fromMemory.bytes == []
    }

    /** This CPU runs process `pid`. */
    ghost predicate Runs(pid: nat, km: KernelMemory)
      reads this`table, toMemory, fromMemory, km, km.free, km.bank, km.bank.Arrays(), km.swap
    {
      && Idle() && km.Valid() && km.maxSegment == maxSegment
      && pid in km.procs && table == km.procs[pid].table && Sendable(table)
    }

    /** `mmu_traducir`. */
    method Mmu(addr: word, size: word) returns (r: Option<nat>)
      requires maxSegment > 0
      ensures r == Translate(table, maxSegment, addr, size)
    {
      var id := addr / maxSegment;
      var offset := addr % maxSegment;
      var i: nat := 0;
      while i < |table| && table[i].id != id
        invariant i <= |table| && forall j :: 0 <= j < i ==> table[j].id != id
      {
        i := i + 1;
      }
      if i == |table| { return None; }
      assert FindSegment(table, id) == Some(i);
      if (offset + size) % WORD_MODULUS > table[i].limit { return None; }
      var physical := (table[i].base + offset) % WORD_MODULUS;
      if physical >= 0x8000_0000 { return None; }
      r := Some(physical);
    }

    /** A context crosses an idle connection, unchanged. */
    static method Transmit(wire: Channel, r: Registers, t: seq<Segment>)
      returns (gotRegs: Registers, gotTable: seq<Segment>)
      requires wire.bytes == [] && Sendable(t)
      modifies wire
      ensures wire.bytes == [] && gotRegs == r && gotTable == t
    {
      hide Complete, Decode, Encode;
      wire.SendContext(r, t);
      assert [] + Encode(r, t) == Encode(r, t) + [];
      RoundTrip(r, t, []);
      gotRegs, gotTable := wire.ReceiveContext();
    }

    /** `actualizar_contexto`: the context goes to kernel memory over the wire. */
    method Save(pid: nat, km: KernelMemory)
      requires Runs(pid, km)
      modifies toMemory, km`procs
      ensures Runs(pid, km) && km.S() == WithContext(old(km.S()), pid, Context(regs, table))
    {
      hide Inv, Effect, KernelMemory.SwapView;
      ghost var s := km.S();
      var sentRegs, sentTable := Transmit(toMemory, regs, table);
      var ok := km.StoreBack(pid, sentRegs, sentTable);
      StoredContext(s, pid, Context(regs, table), km.S(), ok);
    }

    // --------------------------------------------------------- instructions that use memory

    /** `mem_read`. */
    method FetchData(pid: nat, at: nat, size: nat, km: KernelMemory) returns (r: Option<seq<byte>>)
      requires Runs(pid, km)
      ensures Runs(pid, km) && km.S() == old(km.S()) && r == Read(km.bank.flat, at, size)
    {
      hide Inv;
      assert size == 0 ==> Slice(km.bank.flat, at, size) == [];
      r := km.MemRead(at, size);
    }

    /** `mem_write`. */
    method StoreData(pid: nat, at: nat, data: seq<byte>, km: KernelMemory) returns (ok: bool)
      requires Runs(pid, km)
      modifies km.bank.Arrays(), km.bank`flat
      ensures Runs(pid, km) && km.bank.entries == old(km.bank.entries)
      ensures km.S() == old(km.S()).(flat := Sticks.Overwrite(old(km.bank.flat), at, data))
      ensures ok <==> Stores(old(km.bank.flat), at, |data|)
    {
      hide Inv, Effect, KernelMemory.SwapView;
      ghost var s := km.S();
      ok := km.MemWrite(at, data);
      WrittenFlat(s, at, data, km.S(), ok);
    }

    /** MOV_IN up to the program counter. */
    method MoveIn(d: Reg, pid: nat, km: KernelMemory) returns (ok: bool)
      requires Runs(pid, km)
      modifies this`regs
      ensures Runs(pid, km) && km.S() == old(km.S())
      ensures Result(if ok then Running else Fault, Advance(regs), km.bank.flat) ==
              PhysStep(MovIn(d), old(regs), table, maxSegment, km.bank.flat)
    {
      hide Inv, Translate, Read, KernelMemory.SwapView, Put, FromBytes, Advance;
      var at := Mmu(regs.si, Width(d));
      if at.None? { return false; }
      var data := FetchData(pid, at.value, Width(d), km);
      if data.None? { return false; }
      regs := Put(regs, d, FromBytes(data.value));
      ok := true;
    }

    /** MOV_OUT up to the program counter. */
    method MoveOut(d: Reg, pid: nat, km: KernelMemory) returns (ok: bool)
      requires Runs(pid, km)
      modifies km.bank.Arrays(), km.bank`flat
      ensures Runs(pid, km) && km.bank.entries == old(km.bank.entries)
      ensures km.S() == old(km.S()).(flat := km.bank.flat)
      ensures Result(if ok then Running else Fault, Advance(regs), km.bank.flat) ==
              PhysStep(MovOut(d), regs, table, maxSegment, old(km.bank.flat))
    {
      hide Inv, Translate, Stores, KernelMemory.SwapView, ToBytes, Get, Advance;
      var at := Mmu(regs.di, Width(d));
      if at.None? { return false; }
      ok := StoreData(pid, at.value, ToBytes(Get(regs, d), Width(d)), km);
    }

    /** COPY_MEM up to the program counter: both translations, then the read, then the write. */
    method Copy(d: Reg, pid: nat, km: KernelMemory) returns (ok: bool)
      requires Runs(pid, km)
      modifies km.bank.Arrays(), km.bank`flat
      ensures Runs(pid, km) && km.bank.entries == old(km.bank.entries)
      ensures km.S() == old(km.S()).(flat := km.bank.flat)
      ensures Result(if ok then Running else Fault, Advance(regs), km.bank.flat) ==
              PhysStep(CopyMem(d), regs, table, maxSegment, old(km.bank.flat))
    {
      hide Inv, Translate, Stores, KernelMemory.SwapView;
      var size := Get(regs, d);
      var source := Mmu(regs.si, size);
      var target := Mmu(regs.di, size);
      if source.None? || target.None? { return false; }
      var data := FetchData(pid, source.value, size, km);
      if data.None? { return false; }
      ok := StoreData(pid, target.value, data.value, km);
    }

    // --------------------------------------------------------- the cycle

    /** `ctx->pc++`. */
    method IncrementPc(ghost pid: nat, ghost km: KernelMemory)
      requires Runs(pid, km)
      modifies this`regs
      ensures Runs(pid, km) && km.S() == old(km.S()) && regs == Advance(old(regs))
    {
      hide Inv;
      regs := regs.(pc := (regs.pc + 1) % WORD_MODULUS);
    }

    /** The instructions that only touch registers; a jump or a set program counter is not advanced. */
    method ComputeInPlace(i: Instruction)
      requires InRegisters(i)
      modifies this`regs
      ensures regs == Compute(i, old(regs))
    {
      var pcModified := false;
      match i {
        case Noop =>
        case Set(d, v) =>
          regs := Put(regs, d, v);
          if d == PC { pcModified := true; }
        case Sum(d, q) =>
          regs := Put(regs, d, (Get(regs, d) + Get(regs, q)) % WORD_MODULUS);
        case Sub(d, q) =>
          regs := Put(regs, d, (Get(regs, d) - Get(regs, q)) % WORD_MODULUS);
        case Jnz(d, target) =>
          if Get(regs, d) != 0 {
            regs := regs.(pc := target);
            pcModified := true;
          }
      }
      if !pcModified { regs := regs.(pc := (regs.pc + 1) % WORD_MODULUS); }
    }

    method PerformInRegisters(i: Instruction, ghost pid: nat, ghost km: KernelMemory)
      requires InRegisters(i) && Runs(pid, km)
      modifies this`regs
      ensures Runs(pid, km) && km.S() == old(km.S()) && regs == Compute(i, old(regs))
    {
      hide Inv, Compute;
      ComputeInPlace(i);
    }

    /** STDIN and STDOUT up to the program counter. */
    method Check(a: Reg, n: Reg, pid: nat, km: KernelMemory) returns (ok: bool)
      requires Runs(pid, km)
      ensures Runs(pid, km) && km.S() == old(km.S())
      ensures ok <==> Translate(table, maxSegment, Get(regs, a), Get(regs, n)).Some?
    {
      hide Inv, Translate, KernelMemory.SwapView;
      var at := Mmu(Get(regs, a), Get(regs, n));
      ok := at.Some?;
    }

    /** The part of an instruction before the context may have to be saved. */
    method Perform(i: Instruction, pid: nat, km: KernelMemory) returns (outcome: Outcome)
      requires Runs(pid, km)
      modifies this`regs, km.bank.Arrays(), km.bank`flat
      ensures Runs(pid, km) && km.bank.entries == old(km.bank.entries)
      ensures km.S() == old(km.S()).(flat := km.bank.flat)
      ensures Result(outcome, regs, km.bank.flat) == PhysStep(i, old(regs), table, maxSegment, old(km.bank.flat))
      ensures !outcome.Stuck?
    {
      hide Cpu.Runs, Translate, Read, Stores, KernelMemory.SwapView, Compute, Advance;
      RunsAtAll(pid, km);
      if InRegisters(i) {
        PerformInRegisters(i, pid, km);
        return Running;
      }
      outcome := Fault;
      match i {
        case MovIn(d) =>
          var ok := MoveIn(d, pid, km);
          if ok { outcome := Running; }
        case MovOut(d) =>
          var ok := MoveOut(d, pid, km);
          if ok { outcome := Running; }
        case CopyMem(d) =>
          var ok := Copy(d, pid, km);
          if ok { outcome := Running; }
        case Stream(call, a, n) =>
          var ok := Check(a, n, pid, km);
          if ok { outcome := Trap(call); }
        case Syscall(call) => outcome := Trap(call);
        case _ =>
      }
      IncrementPc(pid, km);
    }

    lemma RunsAtAll(pid: nat, km: KernelMemory)
      requires Runs(pid, km)
      ensures maxSegment > 0
    {
    }

    /** What an instruction leaves in kernel memory: the context too, when the cycle ends with it. */
    ghost function After(s: State, pid: nat, x: PhysState, table: seq<Segment>): State
      requires pid in s.procs
    {
      if x.outcome.Running? then s.(flat := x.mem) else Ended(s, pid, x, table)
    }

    /** `execute`. */
    method Execute(i: Instruction, pid: nat, km: KernelMemory) returns (outcome: Outcome)
      requires Runs(pid, km)
      modifies this`regs, toMemory, km`procs, km.bank.Arrays(), km.bank`flat
      ensures Runs(pid, km) && km.bank.entries == old(km.bank.entries)
      ensures var x := PhysStep(i, old(regs), table, maxSegment, old(km.bank.flat));
              outcome == x.outcome && regs == x.regs && km.S() == After(old(km.S()), pid, x, table)
    {
      hide Inv, PhysStep, KernelMemory.SwapView;
      outcome := Perform(i, pid, km);
      if !outcome.Running? { Save(pid, km); }
    }

    /** The context kernel memory sends becomes this CPU's. */
    method Adopt(r: Registers, t: seq<Segment>, ghost km: KernelMemory)
      requires Idle() && km.Valid() && Sendable(t)
      modifies this`regs, this`table, fromMemory
      ensures Idle() && km.Valid() && km.S() == old(km.S()) && km.procs == old(km.procs)
      ensures regs == r && table == t
    {
      hide Inv, KernelMemory.SwapView, Sendable;
      var sentRegs, sentTable := Transmit(fromMemory, r, t);
      regs, table := sentRegs, sentTable;
    }

    /** KM_PEDIR_CONTEXTO and its answer. */
    method Load(pid: nat, km: KernelMemory) returns (ok: bool)
      requires Idle() && km.Valid() && km.maxSegment == maxSegment
      requires pid in km.procs ==> Sendable(km.procs[pid].table)
      modifies this`regs, this`table, fromMemory
      ensures km.Valid() && km.S() == old(km.S()) && km.procs == old(km.procs)
      ensures ok <==> pid in km.procs
      ensures ok ==> Runs(pid, km) && regs == km.procs[pid].regs
    {
      hide Inv, KernelMemory.SwapView, Sendable;
      var context := km.LoadContext(pid);
      if context.None? { return false; }
      Adopt(context.value.0, context.value.1, km);
      ok := true;
    }

    /** One turn of `ciclo_instruccion`: fetch, then execute. */
    method Turn(pid: nat, km: KernelMemory) returns (outcome: Outcome)
      requires Runs(pid, km)
      modifies this`regs, toMemory, km`procs, km.bank.Arrays(), km.bank`flat
      ensures Runs(pid, km) && km.bank.entries == old(km.bank.entries)
      ensures var x := PhysExec(old(km.procs[pid].program), old(regs), table, maxSegment, old(km.bank.flat));
              outcome == x.outcome && regs == x.regs && km.S() == After(old(km.S()), pid, x, table)
    {
      hide Inv, PhysStep, KernelMemory.SwapView;
      var i := km.FetchInstruction(pid, regs.pc);
      if i.None? { return Stuck; }
      outcome := Execute(i.value, pid, km);
    }

    lemma RunsValid(pid: nat, km: KernelMemory)
      requires Runs(pid, km)
      ensures km.Valid() && pid in km.procs && table == km.procs[pid].table && maxSegment > 0
    {
    }

    /** `ciclo_instruccion`, given the answers the scheduler sends after each instruction. */
    method Cycle(pid: nat, km: KernelMemory, answers: seq<bool>) returns (outcome: Option<Outcome>)
      requires Idle() && km.Valid() && km.maxSegment == maxSegment
      requires pid in km.procs ==> Sendable(km.procs[pid].table)
      modifies this`regs, this`table, toMemory, fromMemory, km`procs, km.bank.Arrays(), km.bank`flat
      ensures km.Valid()
      ensures pid !in old(km.procs) ==> outcome == None && km.S() == old(km.S())
      ensures pid in old(km.procs) ==>
                var p := old(km.procs[pid]);
                var start := Result(Running, p.regs, old(km.bank.flat));
                var x := PhysRun(p.program, p.table, maxSegment, start, Quota(answers));
                outcome == Some(x.outcome) && km.S() == Ended(old(km.S()), pid, x, p.table)
    {
      hide Inv, PhysExec, KernelMemory.SwapView, Cpu.Runs, Quota, Sendable, KernelMemory.Valid;
      var loaded := Load(pid, km);
      if !loaded { return None; }
      RunsValid(pid, km);
      var last := RunLoaded(pid, km, answers);
      RunsValid(pid, km);
      outcome := Some(last);
    }

    /** The loop of `ciclo_instruccion`. */
    method RunLoaded(pid: nat, km: KernelMemory, answers: seq<bool>) returns (outcome: Outcome)
      requires Runs(pid, km)
      modifies this`regs, toMemory, km`procs, km.bank.Arrays(), km.bank`flat
      ensures Runs(pid, km)
      ensures var x := PhysRun(old(km.procs[pid].program), table, maxSegment,
                               Result(Running, old(regs), old(km.bank.flat)), Quota(answers));
              outcome == x.outcome && km.S() == Ended(old(km.S()), pid, x, table)
    {
      hide Inv, PhysExec, KernelMemory.SwapView, Cpu.Runs, Quota, Sendable, KernelMemory.Valid;
      RunsValid(pid, km);
      ghost var s := km.S();
      ghost var p := km.procs[pid];
      ghost var start: PhysState := Result(Running, regs, s.flat);
      var k: nat := 0;
      outcome := Running;
      while true
        invariant k <= |answers| && forall j :: 0 <= j < k ==> !answers[j]
        invariant Runs(pid, km) && table == p.table
        invariant PhysRun(p.program, p.table, maxSegment, start, k) == Result(Running, regs, km.bank.flat)
        invariant km.S() == s.(flat := km.bank.flat)
        decreases |answers| - k
      {
        outcome := Turn(pid, km);
        QuotaAt(answers, k);
        RunsValid(pid, km);
        if !outcome.Running? {
          RunStays(p.program, p.table, maxSegment, start, k + 1, Quota(answers));
          return;
        }
        if k == |answers| || answers[k] {
          Save(pid, km);
          RunsValid(pid, km);
          return;
        }
        k := k + 1;
      }
    }
  }
}
