/** The kernel scheduler as the program keeps it: queues and lists edited in place by its handlers. */
module Schedulers {
  import opened Common
  import opened Scheduling
  import opened Soundness
  import opened MutexLaws
  import opened Inheritance
  import opened SchedRuns
  import opened Fairness
  import opened Exclusion
  import opened Lives
  import opened Marks
  import opened Misuse

  class Scheduler {
    const levels: nat
    const cmn: bool
    const preempt: bool
    var pcbs: map<nat, Pcb>
    var nextPid: nat
    var ready: seq<seq<nat>>
    var tokens: nat
    var hand: Option<nat>
    var exec: seq<nat>
    var pairs: seq<Pair>
    var free: seq<nat>
    var interrupts: seq<nat>
    var block: seq<nat>
    var io: seq<nat>
    var mutexes: seq<Mutex>
    ghost var cpus: set<nat>
    ghost var history: seq<Event>

    ghost function S(): Sched
      reads this
    {
      Sched(levels, cmn, preempt, pcbs, nextPid, ready, tokens, hand, exec, pairs, free, cpus, interrupts, block, io,
            mutexes, history)
    }

    /** One queue for each priority. */
    ghost predicate Shaped()
      reads this
    {
      |ready| == levels
    }

    /** `inicializar_ks_planificador`. */
    constructor (levels: nat, cmn: bool, preempt: bool)
      requires levels > 0 && (preempt ==> cmn)
      ensures Shaped() && S() == Initial(levels, cmn, preempt)
      ensures Sound(S()) && Inherits(S()) && Fifo(S())
    {
      this.levels, this.cmn, this.preempt := levels, cmn, preempt;
      pcbs, nextPid := map[], 0;
      ready, tokens, hand := seq(levels, _ => []), 0, None;
      exec, pairs, free, cpus, interrupts := [], [], [], {}, [];
      block, io, mutexes, history := [], [], [], [];
      new;
      hide SoundBut, InheritsBut, Fifo;
      InitialGood(levels, cmn, preempt);
    }

    /** The search loop every list is gone through with. */
    static method Search(s: seq<nat>, x: nat) returns (r: Option<nat>)
      ensures r == IndexOf(s, x)
    {
      var i: nat := 0;
      while i < |s|
        invariant i <= |s| && x !in s[..i]
      {
        if s[i] == x {
          FirstIndex(s, x, i);
          return Some(i);
        }
        i := i + 1;
      }
      assert s[..i] == s;
      r := None;
    }

    static lemma {:induction false} FirstIndex(s: seq<nat>, x: nat, i: nat)
      requires i < |s| && s[i] == x && x !in s[..i]
      ensures IndexOf(s, x) == Some(i)
    {
      if i > 0 {
        assert s[..i] == [s[0]] + s[1..][..i - 1];
        FirstIndex(s[1..], x, i - 1);
      }
    }

    static method Remove(s: seq<nat>, x: nat) returns (r: seq<nat>, found: bool)
      ensures r == Without(s, x) && (found <==> x in s)
    {
      var i := Search(s, x);
      if i.None? { return s, false; }
      r, found := RemoveAt(s, i.value), true;
    }

    // --------------------------------------------------------- ready queues

    /** The search for the running process that must give way. */
    method WorstRunning(prio: nat) returns (worst: Option<nat>)
      ensures worst == Worst(pcbs, exec, prio)
    {
      worst := None;
      var i: nat := 0;
      while i < |exec|
        invariant i <= |exec| && worst == Worst(pcbs, exec[..i], prio)
      {
        var running := exec[i];
        assert exec[..i + 1][..i] == exec[..i];
        if Prio(pcbs, running) > prio {
          if worst.None? || Prio(pcbs, running) > Prio(pcbs, worst.value) { worst := Some(running); }
        }
        i := i + 1;
      }
      assert exec[..i] == exec;
    }

    /** `agregar_a_ready`. */
    method AddToReady(p: nat)
      requires Shaped()
      modifies this`ready, this`tokens, this`interrupts
      ensures Shaped() && S() == AddReady(old(S()), p)
      ensures var l := Level(cmn, pcbs, p);
              ready == if l < levels then old(ready)[l := old(ready)[l] + [p]] else old(ready)
    {
      hide Worst, IndexOf, Total;
      var l := Level(cmn, pcbs, p);
      if l >= levels { return; }
      ready := ready[l := ready[l] + [p]];
      tokens := tokens + 1;
      if preempt {
        var worst := WorstRunning(Prio(pcbs, p));
        if worst.Some? {
          var k := Search(PidsOf(pairs), worst.value);
          if k.Some? { interrupts := interrupts + [pairs[k.value].cpu]; }
        }
      }
    }

    /** `agregar_al_principio_de_ready`. */
    method AddToFront(p: nat)
      requires Shaped()
      modifies this`ready, this`tokens
      ensures Shaped() && S() == AddFirst(old(S()), p)
      ensures var l := Level(cmn, pcbs, p);
              ready == if l < levels then old(ready)[l := [p] + old(ready)[l]] else old(ready)
    {
      var l := Level(cmn, pcbs, p);
      if l < levels {
        ready := ready[l := [p] + ready[l]];
        tokens := tokens + 1;
      }
    }

    /** `quitar_de_ready_por_pid`: no token is taken. */
    method TakeFromReady(p: nat) returns (found: bool)
      requires Shaped()
      modifies this`ready
      ensures Shaped()
      ensures var l := LevelHolding(old(ready), p);
              && found == l.Some?
              && ready == if l.None? then old(ready) else old(ready)[l.value := Without(old(ready)[l.value], p)]
    {
      var l: nat := 0;
      while l < levels
        invariant l <= levels && ready == old(ready) && forall k :: 0 <= k < l ==> p !in ready[k]
      {
        var rest, here := Remove(ready[l], p);
        if here {
          assert LevelHolding(ready, p) == Some(l);
          ready := ready[l := rest];
          return true;
        }
        l := l + 1;
      }
      found := false;
    }

    /** `reinsertar_al_principio_de_ready`: no token is given, the process has its own. */
    method Reinsert(p: nat)
      requires Shaped()
      modifies this`ready
      ensures Shaped()
      ensures var l := Level(cmn, pcbs, p);
              ready == if l < levels then old(ready)[l := [p] + old(ready)[l]] else old(ready)
    {
      var l := Level(cmn, pcbs, p);
      if l < levels { ready := ready[l := [p] + ready[l]]; }
    }

    // --------------------------------------------------------- running processes and CPUs

    /** `quitar_de_exec`. */
    method RemoveFromExec(p: nat)
      modifies this`exec, this`pairs
      ensures S() == Unexec(old(S()), p)
    {
      var rest, found := Remove(exec, p);
      exec := rest;
      if found {
        var k := Search(PidsOf(pairs), p);
        if k.Some? { pairs := RemoveAt(pairs, k.value); }
      }
    }

    /** `cambiar_estado`. */
    method ChangeStatus(p: nat, status: Status)
      modifies this`pcbs
      ensures S() == old(S()).(pcbs := SetStatus(old(pcbs), p, status))
    {
      if p in pcbs { pcbs := pcbs[p := pcbs[p].(status := status)]; }
    }

    /** `agregar_cpu_libre`. */
    method AddFreeCpu(cpu: nat)
      modifies this`free
      ensures S() == FreeCpu(old(S()), cpu)
    {
      free := free + [cpu];
    }

    /** A CPU connects. */
    method Connect(cpu: nat)
      requires Sound(S()) && Arrives(S(), ConnectCpu(cpu))
      modifies this`free, this`cpus
      ensures Sound(S()) && S() == Apply(old(S()), ConnectCpu(cpu))
    {
      hide SoundBut;
      StepSound(S(), ConnectCpu(cpu));
      cpus := cpus + {cpu};
      AddFreeCpu(cpu);
    }

    /** `obtener_siguiente_proceso`, where the dispatcher waits for a token first. */
    method TakeNext()
      requires Sound(S()) && Shaped() && tokens > 0 && hand.None?
      modifies this`ready, this`tokens, this`hand
      ensures Sound(S()) && Shaped() && S() == Apply(old(S()), Take) && hand.Some?
    {
      hide SoundBut, Total, Assigned, Spawned, Ticked, MutexCreated, LockHandled, UnlockHandled, IoBlocked,
           IoEnded, Exited, Requeued, Unexec;
      TakesBest(S());
      ghost var t := TakenByDispatcher(S());
      assert FirstNonempty(ready).Some?;
      tokens := tokens - 1;
      var l: nat := 0;
      while l < levels && hand.None?
        invariant l <= levels && Shaped() && tokens == old(tokens) - 1
        invariant hand.None? ==> ready == old(ready) && forall k :: 0 <= k < l ==> ready[k] == []
        invariant hand.Some? ==> S() == t
      {
        if ready[l] != [] {
          assert FirstNonempty(ready) == Some(l);
          hand := Some(ready[l][0]);
          ready := ready[l := ready[l][1..]];
        }
        l := l + 1;
      }
    }

    /** The rest of the dispatcher's turn, once it has a free CPU. */
    method DispatchTo() returns (cpu: nat)
      requires Sound(S()) && Shaped() && hand.Some? && free != []
      modifies this`free, this`hand, this`pcbs, this`exec, this`pairs
      ensures Sound(S()) && Shaped() && S() == Apply(old(S()), Assign) && Pair(cpu, old(hand.value)) in pairs
    {
      hide SoundBut, TakenByDispatcher, Spawned, Ticked, MutexCreated, LockHandled, UnlockHandled, IoBlocked,
           IoEnded, Exited, Requeued, Unexec, SetStatus, Without, Total;
      Assigns(S());
      cpu := free[0];
      free := free[1..];
      var p := hand.value;
      hand := None;
      ChangeStatus(p, Exec);
      exec := exec + [p];
      pairs := pairs + [Pair(cpu, p)];
      assert pairs[|pairs| - 1] == Pair(cpu, p);
    }

    /** `manejar_tick_progress`: whether the CPU must stop. */
    method HandleTick(p: nat, cpu: nat, compacting: bool) returns (stop: bool)
      requires Sound(S()) && Shaped() && Arrives(S(), Tick(p, cpu, compacting))
      modifies this
      ensures Sound(S()) && Shaped() && S() == Apply(old(S()), Tick(p, cpu, compacting))
      ensures stop <==> cpu in old(interrupts)
      ensures forall c :: MarksOf(S(), c) + (if stop && c == cpu then 1 else 0) ==
                          old(MarksOf(S(), c)) + Made(old(S()), Tick(p, cpu, compacting), S(), c)
    {
      hide SoundBut, AddReady, AddFirst, Unexec, Without, Made, MarksOf;
      TickMarked(S(), p, cpu, compacting);
      TickSound(S(), p, cpu, compacting);
      var rest, found := Remove(interrupts, cpu);
      if !found { return false; }
      interrupts := rest;
      UnexecKeeps(S(), p);
      RemoveFromExec(p);
      ChangeStatus(p, Ready);
      if compacting { AddToFront(p); } else { AddToReady(p); }
      AddFreeCpu(cpu);
      stop := true;
    }

    // --------------------------------------------------------- mutexes

    /** `buscar_mutex`. */
    method Lookup(name: string) returns (r: Option<nat>)
      ensures r == FindMutex(mutexes, name)
    {
      var i: nat := 0;
      while i < |mutexes|
        invariant i <= |mutexes| && forall j :: 0 <= j < i ==> mutexes[j].name != name
      {
        if mutexes[i].name == name { return Some(i); }
        i := i + 1;
      }
      r := None;
    }

    /** `crear_mutex`. */
    method HandleMutexCreate(name: string)
      requires Sound(S()) && Shaped()
      modifies this`mutexes
      ensures Sound(S()) && Shaped() && S() == Apply(old(S()), CreateMutex(name))
      ensures exists m :: m in mutexes && m.name == name
      ensures forall m :: m in mutexes && m !in old(mutexes) ==> m == Mutex(name, None, [])
    {
      hide SoundBut;
      CreateSound(S(), name);
      var i := Lookup(name);
      if i.None? {
        mutexes := mutexes + [Mutex(name, None, [])];
        assert mutexes[|mutexes| - 1] in mutexes;
      } else {
        assert mutexes[i.value] in mutexes;
      }
    }

    /** The owner inherits a better priority, and moves to the front of its new queue. */
    method Boost(o: nat, v: nat)
      requires Shaped()
      modifies this`pcbs, this`ready
      ensures Shaped() && S() == Boosted(old(S()), o, v)
    {
      var wasReady := HasStatus(pcbs, o, Ready);
      pcbs := SetPrio(pcbs, o, v);
      if wasReady {
        var found := TakeFromReady(o);
        if found { Reinsert(o); }
      }
    }

    /** `mutex_lock`. */
    method LockMutex(name: string, p: nat) returns (got: bool)
      requires Shaped()
      modifies this
      ensures Shaped() && (S(), got) == Lock(old(S()), name, p)
    {
      hide Waiting;
      var i := Lookup(name);
      if i.None? { return false; }
      var m := mutexes[i.value];
      if m.owner.None? {
        mutexes := mutexes[i.value := m.(owner := Some(p))];
        history := history + [Requested(m.name, p), Granted(m.name, p)];
        return true;
      }
      WaitFor(i.value, p);
      got := false;
    }

    /** The part of `mutex_lock` for a mutex that has an owner. */
    method WaitFor(i: nat, p: nat)
      requires Shaped() && i < |mutexes| && mutexes[i].owner.Some?
      modifies this
      ensures Shaped() && S() == Waiting(old(S()), i, p)
    {
      hide Boosted, Unexec, Waiting, SetStatus;
      var m := mutexes[i];
      mutexes := mutexes[i := m.(waiters := m.waiters + [p])];
      history := history + [Requested(m.name, p)];
      if Prio(pcbs, p) < Prio(pcbs, m.owner.value) { Boost(m.owner.value, Prio(pcbs, p)); }
      RemoveFromExec(p);
      ChangeStatus(p, Block);
      block := block + [p];
      WaitingOrder(old(S()), i, p, S());
    }

    /** Leaving the CPU first, as `Waiting` has it, or last, as the code has it, comes to the same. */
    static lemma WaitingOrder(s: Sched, i: nat, p: nat, t: Sched)
      requires i < |s.mutexes| && s.mutexes[i].owner.Some?
      requires var m, o, v := s.mutexes[i], s.mutexes[i].owner.value, Prio(s.pcbs, p);
               var queued := s.(mutexes := s.mutexes[i := m.(waiters := m.waiters + [p])],
                                history := s.history + [Requested(m.name, p)]);
               var boosted := if v < Prio(s.pcbs, o) then Boosted(queued, o, v) else queued;
               var out := Unexec(boosted, p);
               t == out.(pcbs := SetStatus(out.pcbs, p, Block), block := out.block + [p])
      ensures t == Waiting(s, i, p)
    {
      hide Boosted, Unexec;
      var m, o, v := s.mutexes[i], s.mutexes[i].owner.value, Prio(s.pcbs, p);
      var queued := s.(mutexes := s.mutexes[i := m.(waiters := m.waiters + [p])],
                       history := s.history + [Requested(m.name, p)]);
      var boosted := if v < Prio(s.pcbs, o) then Boosted(queued, o, v) else queued;
      BoostKeeps(queued, o, v);
      BoostKeeps(Unexec(s, p), o, v);
      UnexecKeeps(s, p);
      UnexecKeeps(boosted, p);
      UnexecSame(s, boosted, p);
      BoostSame(queued, Unexec(s, p), o, v);
    }

    static lemma UnexecSame(s: Sched, t: Sched, p: nat)
      requires t.exec == s.exec && t.pairs == s.pairs
      ensures Unexec(t, p).exec == Unexec(s, p).exec && Unexec(t, p).pairs == Unexec(s, p).pairs
    {
    }

    static lemma BoostSame(s: Sched, t: Sched, o: nat, v: nat)
      requires t.levels == s.levels && t.cmn == s.cmn && t.pcbs == s.pcbs && t.ready == s.ready
      ensures Boosted(t, o, v).ready == Boosted(s, o, v).ready
    {
      hide LevelHolding, Without;
    }

    /** The syscall MUTEX_LOCK. */
    method HandleMutexLock(name: string, p: nat, cpu: nat) returns (got: bool)
      requires Sound(S()) && Shaped() && Arrives(S(), LockCall(name, p, cpu))
      modifies this
      ensures Shaped() && S() == Apply(old(S()), LockCall(name, p, cpu))
      ensures got <==> exists m :: m in old(mutexes) && m.name == name && m.owner.None?
      ensures got ==> exists m :: m in mutexes && m.name == name && m.owner == Some(p)
      ensures Sound(S()) <==> FindMutex(old(mutexes), name).Some?
      ensures old(Inherits(S())) ==> (Inherits(S()) <==> !old(Chained(S(), name, p)))
    {
      hide SoundBut, InheritsBut, Chained, Lock;
      LockSoundIff(S(), name, p, cpu);
      LockAnswers(S(), name, p);
      if Inherits(S()) { LockInheritsIff(S(), name, p, cpu); }
      got := LockMutex(name, p);
      if !got { AddFreeCpu(cpu); }
    }

    /** `calcular_prioridad_necesaria`. */
    method NeededPriority(p: nat) returns (v: nat)
      requires p in pcbs
      ensures v == Needed(pcbs, mutexes, p) && NeededIs(pcbs, mutexes, p, v)
    {
      v := pcbs[p].orig;
      var i: nat := 0;
      while i < |mutexes|
        invariant i <= |mutexes| && v == LeastOver(pcbs, mutexes[..i], p, pcbs[p].orig)
      {
        assert mutexes[..i + 1][..i] == mutexes[..i];
        var m := mutexes[i];
        if m.owner == Some(p) { v := LeastOf(m.waiters, v); }
        i := i + 1;
      }
      assert mutexes[..i] == mutexes;
      NeededMeets(pcbs, mutexes, p);
    }

    /** The inner loop over the waiters of one mutex. */
    method LeastOf(ws: seq<nat>, start: nat) returns (v: nat)
      ensures v == Least(pcbs, ws, start)
    {
      v := start;
      var j: nat := 0;
      while j < |ws|
        invariant j <= |ws| && v == Least(pcbs, ws[..j], start)
      {
        assert ws[..j + 1][..j] == ws[..j];
        if Prio(pcbs, ws[j]) < v { v := Prio(pcbs, ws[j]); }
        j := j + 1;
      }
      assert ws[..j] == ws;
    }

    /** The branch of `mutex_unlock` with waiters: the first of them has the mutex. */
    method HandOver(i: nat)
      requires Shaped() && i < |mutexes| && mutexes[i].waiters != []
      modifies this
      ensures Shaped() && S() == HandedOver(old(S()), i)
    {
      hide AddReady, Least;
      var m := mutexes[i];
      var next := m.waiters[0];
      mutexes := mutexes[i := Mutex(m.name, Some(next), m.waiters[1..])];
      history := history + Passing(m);
      var v := LeastOf(m.waiters[1..], Prio(pcbs, next));
      pcbs := SetPrio(pcbs, next, v);
      ChangeStatus(next, Ready);
      AddToReady(next);
    }

    /** `mutex_unlock`. */
    method UnlockMutex(name: string)
      requires Shaped()
      modifies this
      ensures Shaped() && S() == Unlock(old(S()), name)
    {
      hide HandedOver, Needed;
      var i := Lookup(name);
      if i.None? { return; }
      var m := mutexes[i.value];
      if m.owner.None? { return; }
      if m.waiters == [] {
        mutexes := mutexes[i.value := m.(owner := None)];
        history := history + Passing(m);
      } else {
        HandOver(i.value);
      }
      if m.owner.value in pcbs {
        var v := NeededPriority(m.owner.value);
        if Prio(pcbs, m.owner.value) != v { pcbs := SetPrio(pcbs, m.owner.value, v); }
        SetSame(pcbs, m.owner.value, v);
      }
    }

    static lemma SetSame(pcbs: map<nat, Pcb>, p: nat, v: nat)
      requires Prio(pcbs, p) == v
      ensures SetPrio(pcbs, p, v) == pcbs
    {
    }

    /** The syscall MUTEX_UNLOCK. */
    method HandleMutexUnlock(name: string, p: nat, cpu: nat)
      requires Sound(S()) && Shaped() && Arrives(S(), UnlockCall(name, p, cpu))
      modifies this
      ensures Shaped() && S() == Apply(old(S()), UnlockCall(name, p, cpu))
      ensures Sound(S()) <==> !old(Misfiles(S(), name))
      ensures old(OwnedOrIdle(S(), name, p)) ==> Sound(S()) && (old(Inherits(S())) ==> Inherits(S()))
    {
      hide SoundBut, InheritsBut, OwnedOrIdle, Unlock, Unexec, AddReady, Misfiles;
      UnlockSoundIff(S(), name, p, cpu);
      if OwnedOrIdle(S(), name, p) {
        UnlockCallSound(S(), name, p, cpu);
        if Inherits(S()) { UnlockCallInherits(S(), name, p, cpu); }
      }
      RemoveFromExec(p);
      UnlockMutex(name);
      ChangeStatus(p, Ready);
      AddToReady(p);
      AddFreeCpu(cpu);
    }

    // --------------------------------------------------------- memory, IO, new processes and exit

    /** The syscalls MEM_ALLOC and MEM_FREE: `pausar_en_exec` and then `agregar_a_exec`. */
    method HandleMemoryCall(p: nat, cpu: nat)
      requires Sound(S()) && Shaped() && Arrives(S(), MemoryCall(p, cpu))
      modifies this`exec
      ensures Sound(S()) && Shaped() && S() == Apply(old(S()), MemoryCall(p, cpu))
    {
      hide SoundBut;
      MemorySound(S(), p, cpu);
      var rest, found := Remove(exec, p);
      exec := rest;
      exec := exec + [p];
    }

    /** `manejar_syscall_io`; `served` when an interface of that kind is connected. */
    method HandleIoCall(p: nat, cpu: nat, served: bool)
      requires Sound(S()) && Shaped() && Arrives(S(), IoCall(p, cpu, served))
      modifies this
      ensures Sound(S()) && Shaped() && S() == Apply(old(S()), IoCall(p, cpu, served))
      ensures HasStatus(pcbs, p, Block) && if served then p in io else Stranded(S(), p)
    {
      hide SoundBut, Unexec, Stranded;
      IoCallBlocks(S(), p, cpu, served);
      IoCallSound(S(), p, cpu, served);
      UnexecKeeps(S(), p);
      RemoveFromExec(p);
      ChangeStatus(p, Block);
      block := block + [p];
      AddFreeCpu(cpu);
      if served { io := io + [p]; }
    }

    /** The end of a turn of `hilo_io_listener`. */
    method HandleIoEnd(p: nat)
      requires Sound(S()) && Shaped() && Arrives(S(), IoEnd(p))
      modifies this
      ensures Sound(S()) && Shaped() && S() == Apply(old(S()), IoEnd(p))
      ensures p !in io && HasStatus(pcbs, p, Ready)
      ensures Plannable(S(), p) ==> Queued(ready, Level(cmn, pcbs, p), p)
    {
      hide SoundBut, AddReady, Without, Plannable;
      AnswerWakes(S(), p);
      IoEndSound(S(), p);
      var pending, known := Remove(io, p);
      io := pending;
      var rest, found := Remove(block, p);
      if found {
        block := rest;
        ChangeStatus(p, Ready);
        AddToReady(p);
      }
    }

    /** `crear_proceso`; kernel memory accepts the process, or not. */
    method CreateProcess(prio: nat, accepted: bool)
      requires Sound(S()) && Shaped()
      modifies this
      ensures Sound(S()) && Shaped() && S() == Apply(old(S()), Spawn(prio, accepted))
      ensures nextPid == old(nextPid) + 1
      ensures pcbs == if accepted then old(pcbs)[old(nextPid) := Pcb(Ready, prio, prio)] else old(pcbs)
    {
      hide SoundBut, AddReady, Assigned, TakenByDispatcher, Ticked, MutexCreated, LockHandled, UnlockHandled,
           IoBlocked, IoEnded, Exited, Requeued, Unexec;
      SpawnSound(S(), prio, accepted);
      SpawnOrigs(S(), prio, accepted);
      SpawnBlock(S(), prio, accepted);
      var pid := nextPid;
      nextPid := nextPid + 1;
      if !accepted { return; }
      pcbs := pcbs[pid := Pcb(New, prio, prio)];
      ChangeStatus(pid, Ready);
      assert pcbs == old(pcbs)[pid := Pcb(Ready, prio, prio)];
      AddToReady(pid);
    }

    /** The syscall INIT_PROC. */
    method HandleInitProcess(prio: nat, accepted: bool, p: nat, cpu: nat)
      requires Sound(S()) && Shaped() && Arrives(S(), InitCall(prio, accepted, p, cpu))
      modifies this
      ensures Sound(S()) && Shaped() && S() == Apply(old(S()), InitCall(prio, accepted, p, cpu))
    {
      hide SoundBut, AddReady, Unexec, Spawned;
      InitSound(S(), prio, accepted, p, cpu);
      CreateProcess(prio, accepted);
      RemoveFromExec(p);
      ChangeStatus(p, Ready);
      AddToReady(p);
      AddFreeCpu(cpu);
    }

    /** `liberar_mutexes_de_proceso`: the names first, then one unlock for each. */
    method ReleaseMutexes(p: nat)
      requires Shaped()
      modifies this
      ensures Shaped() && S() == UnlockAll(old(S()), OwnedNames(old(mutexes), p))
    {
      hide Unlock;
      var names: seq<string> := [];
      var i: nat := 0;
      while i < |mutexes|
        invariant i <= |mutexes| && names == OwnedNames(mutexes[..i], p) && S() == old(S()) && Shaped()
      {
        assert mutexes[..i + 1][..i] == mutexes[..i];
        if mutexes[i].owner == Some(p) { names := names + [mutexes[i].name]; }
        i := i + 1;
      }
      assert mutexes[..i] == mutexes;
      var k: nat := 0;
      while k < |names|
        invariant k <= |names| && Shaped() && S() == UnlockAll(old(S()), names[..k])
      {
        assert names[..k + 1][..k] == names[..k];
        UnlockMutex(names[k]);
        k := k + 1;
      }
      assert names[..k] == names;
    }

    /** The syscall EXIT, and the end of a process after a segmentation fault. */
    method HandleExit(p: nat, cpu: nat)
      requires Sound(S()) && Shaped() && Arrives(S(), ExitCall(p, cpu))
      modifies this
      ensures Sound(S()) && Shaped() && S() == Apply(old(S()), ExitCall(p, cpu))
      ensures p !in pcbs && Released(old(mutexes), p, mutexes)
    {
      hide SoundBut, Unexec, UnlockAll, OwnedNames, Released, SetStatus, Assigned, TakenByDispatcher, Spawned, Ticked,
           MutexCreated, LockHandled, UnlockHandled, IoBlocked, IoEnded, Requeued;
      ExitSound(S(), p, cpu);
      RemoveFromExec(p);
      ChangeStatus(p, Exit);
      ReleaseMutexes(p);
      pcbs := pcbs - {p};
      AddFreeCpu(cpu);
    }
  }
}
