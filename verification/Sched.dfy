/** The kernel scheduler as a value: processes, queues, CPUs and mutexes, and what each event does to them
    (kernel_scheduler/src/scheduler.c, mutex_manager.c, planificador.c, IO_manager.c). */
module Scheduling {
  import opened Common

  datatype Status = New | Ready | Exec | Block | Exit

  /** `t_pcb`; a smaller number is a higher priority. */
  datatype Pcb = Pcb(status: Status, prio: nat, orig: nat)

  datatype Mutex = Mutex(name: string, owner: Option<nat>, waiters: seq<nat>)

  /** `t_cpu_proceso`. */
  datatype Pair = Pair(cpu: nat, pid: nat)

  /** What the log of a mutex says: asked for, had, and let go. */
  datatype Event =
    | Requested(name: string, pid: nat)
    | Granted(name: string, pid: nat)
    | Returned(name: string, pid: nat)

  datatype Sched = Sched(
    levels: nat,                 // cant_prioridades
    cmn: bool,                   // multilevel queues, or one queue
    preempt: bool,               // hay_desalojo_cmn
    pcbs: map<nat, Pcb>,         // p_activos_global
    nextPid: nat,
    ready: seq<seq<nat>>,        // colas_ready
    tokens: nat,                 // sem_procesos_en_ready
    hand: Option<nat>,           // the process the dispatcher took and has no CPU for yet
    exec: seq<nat>,              // lista_exec
    pairs: seq<Pair>,            // lista_cpu_proceso
    free: seq<nat>,              // cola_cpus_libres
    cpus: set<nat>,              // every CPU that has connected
    interrupts: seq<nat>,        // cpus_con_interrupcion
    block: seq<nat>,             // lista_block; entries of processes woken by a mutex stay behind
    io: seq<nat>,                // requests the IO modules have not answered yet
    mutexes: seq<Mutex>,         // lista_mutexes
    history: seq<Event>)         // what was asked of the mutexes, granted and let go, in order

  function Prio(pcbs: map<nat, Pcb>, p: nat): nat {
    if p in pcbs then pcbs[p].prio else 0
  }

  function SetPrio(pcbs: map<nat, Pcb>, p: nat, v: nat): map<nat, Pcb> {
    if p in pcbs then pcbs[p := pcbs[p].(prio := v)] else pcbs
  }

  function SetStatus(pcbs: map<nat, Pcb>, p: nat, status: Status): map<nat, Pcb> {
    if p in pcbs then pcbs[p := pcbs[p].(status := status)] else pcbs
  }

  predicate HasStatus(pcbs: map<nat, Pcb>, p: nat, status: Status) {
    p in pcbs && pcbs[p].status == status
  }

  /** `nivel_de`. */
  function Level(cmn: bool, pcbs: map<nat, Pcb>, p: nat): nat {
    if cmn then Prio(pcbs, p) else 0
  }

  // ----------------------------------------------------------- lists

  function IndexOf<T(==)>(s: seq<T>, x: T): (r: Option<nat>)
    ensures r.None? <==> x !in s
    ensures r.Some? ==> r.value < |s| && s[r.value] == x && x !in s[..r.value]
  {
    if s == [] then None
    else if s[0] == x then Some(0)
    else
      var r := IndexOf(s[1..], x);
      assert s == [s[0]] + s[1..];
      if r.None? then None
      else
        assert s[..r.value + 1] == [s[0]] + s[1..][..r.value];
        Some(r.value + 1)
  }

  /** `s` without the first `x` in it. */
  function Without<T(==)>(s: seq<T>, x: T): seq<T> {
    var i := IndexOf(s, x);
    if i.None? then s else RemoveAt(s, i.value)
  }

  function PidsOf(pairs: seq<Pair>): (r: seq<nat>)
    ensures |r| == |pairs|
  {
    seq(|pairs|, i requires 0 <= i < |pairs| => pairs[i].pid)
  }

  function CpusOf(pairs: seq<Pair>): (r: seq<nat>)
    ensures |r| == |pairs|
  {
    seq(|pairs|, i requires 0 <= i < |pairs| => pairs[i].cpu)
  }

  /** `obtener_socket_cpu_de`. */
  function CpuRunning(pairs: seq<Pair>, p: nat): Option<nat> {
    var i := IndexOf(PidsOf(pairs), p);
    if i.None? then None else Some(pairs[i.value].cpu)
  }

  function DropPair(pairs: seq<Pair>, p: nat): seq<Pair> {
    var i := IndexOf(PidsOf(pairs), p);
    if i.None? then pairs else RemoveAt(pairs, i.value)
  }

  // ----------------------------------------------------------- ready queues

  function Total(ready: seq<seq<nat>>): nat {
    if ready == [] then 0 else Total(ready[..|ready| - 1]) + |ready[|ready| - 1]|
  }

  /** The running process that must give way to one of priority `prio`: the first of the worst ones. */
  function Worst(pcbs: map<nat, Pcb>, exec: seq<nat>, prio: nat): Option<nat> {
    if exec == [] then None
    else
      var r := Worst(pcbs, exec[..|exec| - 1], prio);
      var p := exec[|exec| - 1];
      if Prio(pcbs, p) > prio && (r.None? || Prio(pcbs, p) > Prio(pcbs, r.value)) then Some(p) else r
  }

  /** The end of `agregar_a_ready`: mark the CPU of the process that must give way. */
  function Marked(s: Sched, p: nat): seq<nat> {
    if !s.preempt then s.interrupts
    else
      var w := Worst(s.pcbs, s.exec, Prio(s.pcbs, p));
      if w.None? then s.interrupts
      else
        var cpu := CpuRunning(s.pairs, w.value);
        if cpu.None? then s.interrupts else s.interrupts + [cpu.value]
  }

  /** `agregar_a_ready`. */
  function AddReady(s: Sched, p: nat): Sched {
    var l := Level(s.cmn, s.pcbs, p);
    if l >= s.levels || l >= |s.ready| then s
    else s.(ready := s.ready[l := s.ready[l] + [p]], tokens := s.tokens + 1, interrupts := Marked(s, p))
  }

  /** `agregar_al_principio_de_ready`. */
  function AddFirst(s: Sched, p: nat): Sched {
    var l := Level(s.cmn, s.pcbs, p);
    if l >= s.levels || l >= |s.ready| then s
    else s.(ready := s.ready[l := [p] + s.ready[l]], tokens := s.tokens + 1)
  }

  /** The first queue `p` is in. */
  function LevelHolding(ready: seq<seq<nat>>, p: nat): (r: Option<nat>)
    ensures r.None? ==> forall l :: 0 <= l < |ready| ==> p !in ready[l]
    ensures r.Some? ==> r.value < |ready| && p in ready[r.value] && forall l :: 0 <= l < r.value ==> p !in ready[l]
  {
    if ready == [] then None
    else
      var r := LevelHolding(ready[..|ready| - 1], p);
      if r.Some? then r else if p in ready[|ready| - 1] then Some(|ready| - 1) else None
  }

  /** The queue the dispatcher serves: the first that is not empty. */
  function FirstNonempty(ready: seq<seq<nat>>): (r: Option<nat>)
    ensures r.None? ==> forall l :: 0 <= l < |ready| ==> ready[l] == []
    ensures r.Some? ==> r.value < |ready| && ready[r.value] != [] && forall l :: 0 <= l < r.value ==> ready[l] == []
  {
    if ready == [] then None
    else
      var r := FirstNonempty(ready[..|ready| - 1]);
      if r.Some? then r else if ready[|ready| - 1] != [] then Some(|ready| - 1) else None
  }

  /** `quitar_de_exec`: the pair goes only if the process was in the list. */
  function Unexec(s: Sched, p: nat): Sched {
    if p !in s.exec then s else s.(exec := Without(s.exec, p), pairs := DropPair(s.pairs, p))
  }

  function FreeCpu(s: Sched, cpu: nat): Sched {
    s.(free := s.free + [cpu])
  }

  // ----------------------------------------------------------- mutexes

  /** `buscar_mutex`. */
  function FindMutex(ms: seq<Mutex>, name: string): (r: Option<nat>)
    ensures r.None? ==> forall i :: 0 <= i < |ms| ==> ms[i].name != name
    ensures r.Some? ==> r.value < |ms| && ms[r.value].name == name
    ensures r.Some? ==> forall i :: 0 <= i < r.value ==> ms[i].name != name
  {
    if ms == [] then None
    else
      var r := FindMutex(ms[..|ms| - 1], name);
      if r.Some? then r else if ms[|ms| - 1].name == name then Some(|ms| - 1) else None
  }

  /** The owner inherits `v`; in a queue it moves to the front of the one it now belongs to. */
  function Boosted(s: Sched, o: nat, v: nat): Sched {
    var pcbs := SetPrio(s.pcbs, o, v);
    var from := LevelHolding(s.ready, o);
    if !HasStatus(s.pcbs, o, Ready) || from.None? then s.(pcbs := pcbs)
    else
      var taken := s.ready[from.value := Without(s.ready[from.value], o)];
      var l := Level(s.cmn, pcbs, o);
      s.(pcbs := pcbs, ready := if l < s.levels && l < |taken| then taken[l := [o] + taken[l]] else taken)
  }

  /** The part of `mutex_lock` in which the process becomes a waiter of mutex number `i`: it leaves its
      CPU, its priority goes to the owner if that one is worse, and it blocks. */
  function Waiting(s: Sched, i: nat, p: nat): Sched
    requires i < |s.mutexes| && s.mutexes[i].owner.Some?
  {
    var m, o, v := s.mutexes[i], s.mutexes[i].owner.value, Prio(s.pcbs, p);
    var out := Unexec(s, p);
    Enlisted(if v < Prio(s.pcbs, o) then Boosted(out, o, v) else out, i, p)
  }

  function Enlisted(s: Sched, i: nat, p: nat): Sched
    requires i < |s.mutexes|
  {
    var m := s.mutexes[i];
    s.(mutexes := s.mutexes[i := m.(waiters := m.waiters + [p])], history := s.history + [Requested(m.name, p)],
       pcbs := SetStatus(s.pcbs, p, Block), block := s.block + [p])
  }

  function Taken(s: Sched, i: nat, p: nat): Sched
    requires i < |s.mutexes|
  {
    s.(mutexes := s.mutexes[i := s.mutexes[i].(owner := Some(p))],
       history := s.history + [Requested(s.mutexes[i].name, p), Granted(s.mutexes[i].name, p)])
  }

  /** `mutex_lock`, and whether the mutex was had at once. */
  function Lock(s: Sched, name: string, p: nat): (Sched, bool) {
    var i := FindMutex(s.mutexes, name);
    if i.None? then (s, false)
    else if s.mutexes[i.value].owner.None? then (Taken(s, i.value, p), true)
    else (Waiting(s, i.value, p), false)
  }

  /** The least of `v` and the priorities of `ws`. */
  function Least(pcbs: map<nat, Pcb>, ws: seq<nat>, v: nat): nat {
    if ws == [] then v
    else
      var r := Least(pcbs, ws[..|ws| - 1], v);
      if Prio(pcbs, ws[|ws| - 1]) < r then Prio(pcbs, ws[|ws| - 1]) else r
  }

  /** The least of `v` and the priorities of the waiters on the mutexes of `p`. */
  function LeastOver(pcbs: map<nat, Pcb>, ms: seq<Mutex>, p: nat, v: nat): nat {
    if ms == [] then v
    else
      var r := LeastOver(pcbs, ms[..|ms| - 1], p, v);
      if ms[|ms| - 1].owner == Some(p) then Least(pcbs, ms[|ms| - 1].waiters, r) else r
  }

  /** `calcular_prioridad_necesaria`. */
  function Needed(pcbs: map<nat, Pcb>, ms: seq<Mutex>, p: nat): nat
    requires p in pcbs
  {
    LeastOver(pcbs, ms, p, pcbs[p].orig)
  }

  function Restored(s: Sched, p: nat): Sched {
    if p in s.pcbs then s.(pcbs := SetPrio(s.pcbs, p, Needed(s.pcbs, s.mutexes, p))) else s
  }

  /** What becomes of a mutex its owner lets go. */
  function Passed(m: Mutex): Mutex {
    if m.waiters == [] then m.(owner := None) else Mutex(m.name, Some(m.waiters[0]), m.waiters[1..])
  }

  /** What is logged when that happens. */
  function Passing(m: Mutex): seq<Event> {
    (if m.owner.Some? then [Returned(m.name, m.owner.value)] else []) +
    (if m.waiters != [] then [Granted(m.name, m.waiters[0])] else [])
  }

  /** Mutex number `i` goes to its first waiter, who inherits from the rest. */
  function HandedOver(s: Sched, i: nat): Sched
    requires i < |s.mutexes| && s.mutexes[i].waiters != []
  {
    var m := s.mutexes[i];
    var next, rest := m.waiters[0], m.waiters[1..];
    var inherited := SetPrio(s.pcbs, next, Least(s.pcbs, rest, Prio(s.pcbs, next)));
    AddReady(s.(mutexes := s.mutexes[i := Passed(m)],
                pcbs := SetStatus(inherited, next, Ready),
                history := s.history + Passing(m)), next)
  }

  /** An owned mutex is let go: it is free, or its first waiter has it. */
  function PassedOn(s: Sched, i: nat): Sched
    requires i < |s.mutexes|
  {
    var m := s.mutexes[i];
    if m.waiters == [] then s.(mutexes := s.mutexes[i := Passed(m)], history := s.history + Passing(m))
    else HandedOver(s, i)
  }

  /** `mutex_unlock`. */
  function Unlock(s: Sched, name: string): Sched {
    var i := FindMutex(s.mutexes, name);
    if i.None? || s.mutexes[i.value].owner.None? then s
    else Restored(PassedOn(s, i.value), s.mutexes[i.value].owner.value)
  }

  /** The names `liberar_mutexes_de_proceso` collects. */
  function OwnedNames(ms: seq<Mutex>, p: nat): seq<string> {
    if ms == [] then []
    else
      var r := OwnedNames(ms[..|ms| - 1], p);
      if ms[|ms| - 1].owner == Some(p) then r + [ms[|ms| - 1].name] else r
  }

  function UnlockAll(s: Sched, names: seq<string>): Sched {
    if names == [] then s else Unlock(UnlockAll(s, names[..|names| - 1]), names[|names| - 1])
  }

  // ----------------------------------------------------------- events

  datatype Op =
    | ConnectCpu(cpu: nat)
    | Interrupt(cpu: nat)
    | Spawn(prio: nat, accepted: bool)
    | Take
    | Assign
    | Tick(pid: nat, cpu: nat, compacting: bool)
    | CreateMutex(name: string)
    | LockCall(name: string, pid: nat, cpu: nat)
    | UnlockCall(name: string, pid: nat, cpu: nat)
    | MemoryCall(pid: nat, cpu: nat)
    | IoCall(pid: nat, cpu: nat, served: bool)
    | IoEnd(pid: nat)
    | InitCall(prio: nat, accepted: bool, pid: nat, cpu: nat)
    | ExitCall(pid: nat, cpu: nat)

  /** `crear_proceso`; kernel memory may refuse the process. */
  function Spawned(s: Sched, prio: nat, accepted: bool): Sched {
    var t := s.(nextPid := s.nextPid + 1);
    if accepted then AddReady(t.(pcbs := t.pcbs[s.nextPid := Pcb(Ready, prio, prio)]), s.nextPid) else t
  }

  /** A process leaves its CPU and goes to the end of its queue. */
  function Requeued(s: Sched, p: nat): Sched {
    AddReady(s.(pcbs := SetStatus(s.pcbs, p, Ready)), p)
  }

  function TakenByDispatcher(s: Sched): Sched {
    var l := FirstNonempty(s.ready);
    if s.tokens == 0 || s.hand.Some? then s
    else if l.None? then s.(tokens := s.tokens - 1)
    else
      s.(tokens := s.tokens - 1, hand := Some(s.ready[l.value][0]),
         ready := s.ready[l.value := s.ready[l.value][1..]])
  }

  function Assigned(s: Sched): Sched {
    if s.hand.None? || s.free == [] then s
    else
      var p, cpu := s.hand.value, s.free[0];
      s.(hand := None, free := s.free[1..], pcbs := SetStatus(s.pcbs, p, Exec),
         exec := s.exec + [p], pairs := s.pairs + [Pair(cpu, p)])
  }

  function Ticked(s: Sched, p: nat, cpu: nat, compacting: bool): Sched {
    if cpu !in s.interrupts then s
    else
      var out := Unexec(s.(interrupts := Without(s.interrupts, cpu)), p);
      var t := out.(pcbs := SetStatus(out.pcbs, p, Ready));
      FreeCpu(if compacting then AddFirst(t, p) else AddReady(t, p), cpu)
  }

  function MutexCreated(s: Sched, name: string): Sched {
    if FindMutex(s.mutexes, name).Some? then s else s.(mutexes := s.mutexes + [Mutex(name, None, [])])
  }

  /** A mutex that does not exist is taken for one that is busy, though the process keeps its place. */
  function LockHandled(s: Sched, name: string, p: nat, cpu: nat): Sched {
    var r := Lock(s, name, p);
    if r.1 then r.0 else FreeCpu(r.0, cpu)
  }

  function UnlockHandled(s: Sched, name: string, p: nat, cpu: nat): Sched {
    FreeCpu(Requeued(Unlock(Unexec(s, p), name), p), cpu)
  }

  function IoBlocked(s: Sched, p: nat, cpu: nat, served: bool): Sched {
    var out := Unexec(s, p);
    var t := FreeCpu(out.(pcbs := SetStatus(out.pcbs, p, Block), block := out.block + [p]), cpu);
    if served then t.(io := t.io + [p]) else t
  }

  function IoEnded(s: Sched, p: nat): Sched {
    if p !in s.io then s
    else
      var t := s.(io := Without(s.io, p));
      if p in t.block then Requeued(t.(block := Without(t.block, p)), p) else t
  }

  function Exited(s: Sched, p: nat, cpu: nat): Sched {
    var out := Unexec(s, p);
    var gone := out.(pcbs := SetStatus(out.pcbs, p, Exit));
    var t := UnlockAll(gone, OwnedNames(gone.mutexes, p));
    FreeCpu(t.(pcbs := t.pcbs - {p}), cpu)
  }

  function Apply(s: Sched, op: Op): Sched {
    match op
    case ConnectCpu(cpu) => s.(cpus := s.cpus + {cpu}, free := s.free + [cpu])
    case Interrupt(cpu) => s.(interrupts := s.interrupts + [cpu])
    case Spawn(prio, accepted) => Spawned(s, prio, accepted)
    case Take => TakenByDispatcher(s)
    case Assign => Assigned(s)
    case Tick(p, cpu, compacting) => Ticked(s, p, cpu, compacting)
    case CreateMutex(name) => MutexCreated(s, name)
    case LockCall(name, p, cpu) => LockHandled(s, name, p, cpu)
    case UnlockCall(name, p, cpu) => UnlockHandled(s, name, p, cpu)
    case MemoryCall(p, cpu) => s.(exec := Without(s.exec, p) + [p])
    case IoCall(p, cpu, served) => IoBlocked(s, p, cpu, served)
    case IoEnd(p) => IoEnded(s, p)
    case InitCall(prio, accepted, p, cpu) => FreeCpu(Requeued(Unexec(Spawned(s, prio, accepted), p), p), cpu)
    case ExitCall(p, cpu) => Exited(s, p, cpu)
  }
}
