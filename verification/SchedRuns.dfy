/** Runs of the scheduler: what every event keeps, and so what holds in every reachable state. */
module SchedRuns {
  import opened Common
  import opened Scheduling
  import opened Soundness
  import opened MutexLaws
  import opened Inheritance

  /** A call comes from the CPU that runs the process; the IO module answers requests that are pending. */
  ghost predicate Arrives(s: Sched, op: Op) {
    match op
    case ConnectCpu(cpu) => cpu !in s.cpus
    case Take => s.hand.None? && s.tokens > 0
    case Assign => s.hand.Some? && s.free != []
    case Tick(p, cpu, compacting) => Pair(cpu, p) in s.pairs
    case LockCall(name, p, cpu) => Pair(cpu, p) in s.pairs
    case UnlockCall(name, p, cpu) => Pair(cpu, p) in s.pairs
    case MemoryCall(p, cpu) => Pair(cpu, p) in s.pairs
    case IoCall(p, cpu, served) => Pair(cpu, p) in s.pairs
    case IoEnd(p) => p in s.io
    case InitCall(prio, accepted, p, cpu) => Pair(cpu, p) in s.pairs
    case ExitCall(p, cpu) => Pair(cpu, p) in s.pairs
    case _ => true
  }

  /** What programs see to: they lock mutexes that exist, and unlock their own. */
  ghost predicate Behaved(s: Sched, op: Op) {
    match op
    case LockCall(name, p, cpu) => FindMutex(s.mutexes, name).Some?
    case UnlockCall(name, p, cpu) => OwnedOrIdle(s, name, p)
    case _ => true
  }

  // ----------------------------------------------------------- soundness of each event

  /** A lock leaves the scheduler sound exactly when the mutex exists: otherwise the CPU is handed out
      again while the process still counts as running on it. */
  lemma LockSoundIff(s: Sched, name: string, p: nat, cpu: nat)
    requires Sound(s) && Pair(cpu, p) in s.pairs
    ensures Sound(LockHandled(s, name, p, cpu)) <==> FindMutex(s.mutexes, name).Some?
  {
    hide SoundBut, Taken, Waiting, FreeCpu;
    RunningKnown(s, p, cpu);
    var i := FindMutex(s.mutexes, name);
    if i.None? {
      TwoPlaces(s, p, cpu);
    } else if s.mutexes[i.value].owner.None? {
      TakenSound(s, {}, {}, i.value, p);
    } else {
      WaitingSound(s, i.value, p, cpu);
      CpuReturns(Waiting(s, i.value, p), {}, cpu);
    }
  }

  lemma TwoPlaces(s: Sched, p: nat, cpu: nat)
    requires Pair(cpu, p) in s.pairs
    ensures !Sound(FreeCpu(s, cpu))
  {
    PairListed(s.pairs, cpu, p);
    assert cpu in FreeCpu(s, cpu).free;
  }

  lemma RequeueSound(s: Sched, p: nat, cpu: nat)
    requires SoundBut(s, {p}, {cpu})
    ensures Sound(FreeCpu(Requeued(s, p), cpu))
  {
    hide SoundBut, AddReady, FreeCpu;
    Enters(s, {p}, {cpu}, p, false);
    assert {p} - {p} == {};
    CpuReturns(Requeued(s, p), {}, cpu);
  }

  lemma TickSound(s: Sched, p: nat, cpu: nat, compacting: bool)
    requires Sound(s) && Pair(cpu, p) in s.pairs
    ensures Sound(Ticked(s, p, cpu, compacting))
  {
    hide SoundBut, AddReady, AddFirst, FreeCpu, Unexec;
    if cpu in s.interrupts {
      var u := s.(interrupts := Without(s.interrupts, cpu));
      InterruptsFree(s, Without(s.interrupts, cpu));
      Leaves(u, p, cpu);
      var out := Unexec(u, p);
      Enters(out, {p}, {cpu}, p, compacting);
      assert {p} - {p} == {};
      var r := out.(pcbs := SetStatus(out.pcbs, p, Ready));
      CpuReturns(if compacting then AddFirst(r, p) else AddReady(r, p), {}, cpu);
    }
  }

  lemma InterruptsFree(s: Sched, interrupts: seq<nat>)
    requires Sound(s)
    ensures Sound(s.(interrupts := interrupts))
  {
    SameProcessors(s, s.(interrupts := interrupts), {});
  }

  lemma SpawnSound(s: Sched, prio: nat, accepted: bool)
    requires Sound(s)
    ensures Sound(Spawned(s, prio, accepted))
  {
    hide SoundBut, AddReady;
    NumberUsed(s);
    if accepted {
      var pcb := Pcb(Ready, prio, prio);
      NewcomerMoves(s, pcb);
      var t := s.(nextPid := s.nextPid + 1, pcbs := s.pcbs[s.nextPid := pcb]);
      Enters(t, {s.nextPid}, {}, s.nextPid, false);
      assert {s.nextPid} - {s.nextPid} == {};
      assert SetStatus(t.pcbs, s.nextPid, Ready) == t.pcbs;
    }
  }

  lemma NumberUsed(s: Sched)
    requires Sound(s)
    ensures Sound(s.(nextPid := s.nextPid + 1))
  {
    SameProcessors(s, s.(nextPid := s.nextPid + 1), {});
  }

  lemma NewcomerMoves(s: Sched, pcb: Pcb)
    requires Sound(s) && pcb.prio <= pcb.orig
    ensures SoundBut(s.(nextPid := s.nextPid + 1, pcbs := s.pcbs[s.nextPid := pcb]), {s.nextPid}, {})
  {
    hide Processors;
    var t := s.(nextPid := s.nextPid + 1, pcbs := s.pcbs[s.nextPid := pcb]);
    assert s.nextPid !in s.pcbs;
    assert forall x :: x != s.nextPid ==> Level(t.cmn, t.pcbs, x) == Level(s.cmn, s.pcbs, x);
    assert forall x, st :: x != s.nextPid ==> (HasStatus(t.pcbs, x, st) <==> HasStatus(s.pcbs, x, st));
    SameProcessors(s, t, {});
  }

  lemma OnlyMutexes(s: Sched, t: Sched)
    requires Sound(s) && Mutexes(t, {}) && t == s.(mutexes := t.mutexes)
    ensures Sound(t)
  {
    hide Mutexes;
    SameProcessors(s, t, {});
  }

  lemma CreatedMutexes(s: Sched, name: string)
    requires Mutexes(s, {})
    ensures Mutexes(MutexCreated(s, name), {})
  {
    var t := MutexCreated(s, name);
    forall j: nat, x ensures WaitsOn(t.mutexes, j, x) <==> WaitsOn(s.mutexes, j, x) {}
  }

  lemma CreateSound(s: Sched, name: string)
    requires Sound(s)
    ensures Sound(MutexCreated(s, name))
  {
    hide Mutexes, Queues, Running, Processors, Requests, Processes;
    CreatedMutexes(s, name);
    OnlyMutexes(s, MutexCreated(s, name));
  }

  lemma UnlockCallSound(s: Sched, name: string, p: nat, cpu: nat)
    requires Sound(s) && Pair(cpu, p) in s.pairs && OwnedOrIdle(s, name, p)
    ensures Sound(UnlockHandled(s, name, p, cpu))
  {
    hide SoundBut, Unlock, Unexec, Requeued, FreeCpu;
    Leaves(s, p, cpu);
    UnexecKeeps(s, p);
    UnlockSound(Unexec(s, p), {p}, {cpu}, name, p);
    RequeueSound(Unlock(Unexec(s, p), name), p, cpu);
  }

  lemma MemorySound(s: Sched, p: nat, cpu: nat)
    requires Sound(s) && Pair(cpu, p) in s.pairs
    ensures Sound(s.(exec := Without(s.exec, p) + [p]))
  {
    hide Processors, Processes, Queues, Mutexes, Requests;
    var t := s.(exec := Without(s.exec, p) + [p]);
    PairListed(s.pairs, cpu, p);
    WithoutMembers(s.exec, p);
    AppendNoDup(Without(s.exec, p), p);
    ExecReordered(s, t);
    SameProcessors(s, t, {});
  }

  /** Only the list of running processes is another one. */
  lemma ExecReordered(s: Sched, t: Sched)
    requires t == s.(exec := t.exec)
    requires Processes(s, {}) && Queues(s, {}) && Mutexes(s, {}) && Requests(s, {})
    ensures Processes(t, {}) && Queues(t, {}) && Mutexes(t, {}) && Requests(t, {})
  {
  }

  lemma IoCallSound(s: Sched, p: nat, cpu: nat, served: bool)
    requires Sound(s) && Pair(cpu, p) in s.pairs
    ensures Sound(IoBlocked(s, p, cpu, served))
  {
    hide SoundBut, Unexec;
    Leaves(s, p, cpu);
    var out := Unexec(s, p);
    Blocks(out, {p}, {cpu}, p, served);
    assert {p} - {p} == {};
    var t := out.(pcbs := SetStatus(out.pcbs, p, Block), block := out.block + [p],
                  io := if served then out.io + [p] else out.io);
    CpuReturns(t, {}, cpu);
  }

  lemma WithoutOthers(s: seq<nat>, x: nat)
    ensures forall y :: y in s && y != x ==> y in Without(s, x)
  {
    var i := IndexOf(s, x);
    if i.Some? {
      var r := RemoveAt(s, i.value);
      forall y | y in s && y != x ensures y in r {
        var j :| 0 <= j < |s| && s[j] == y;
        assert r[if j < i.value then j else j - 1] == y;
      }
    }
  }

  lemma IoEndSound(s: Sched, p: nat)
    requires Sound(s) && p in s.io
    ensures Sound(IoEnded(s, p)) && p in s.block
  {
    hide SoundBut, AddReady;
    RequestListed(s, p);
    WithoutOthers(s.block, p);
    Wakes(s, p, Without(s.block, p));
    var t := s.(io := Without(s.io, p), block := Without(s.block, p));
    Enters(t, {p}, {}, p, false);
    assert {p} - {p} == {};
  }

  lemma RequestListed(s: Sched, p: nat)
    requires Sound(s) && p in s.io
    ensures p in s.block
  {
  }

  lemma InitSound(s: Sched, prio: nat, accepted: bool, p: nat, cpu: nat)
    requires Sound(s) && Pair(cpu, p) in s.pairs
    ensures Sound(FreeCpu(Requeued(Unexec(Spawned(s, prio, accepted), p), p), cpu))
  {
    hide SoundBut, Unexec, Requeued, FreeCpu;
    SpawnSound(s, prio, accepted);
    SpawnedPairs(s, prio, accepted);
    Leaves(Spawned(s, prio, accepted), p, cpu);
    RequeueSound(Unexec(Spawned(s, prio, accepted), p), p, cpu);
  }

  lemma SpawnedPairs(s: Sched, prio: nat, accepted: bool)
    ensures Spawned(s, prio, accepted).pairs == s.pairs && Spawned(s, prio, accepted).mutexes == s.mutexes
    ensures Spawned(s, prio, accepted).history == s.history
  {
    hide Marked;
  }

  lemma ConnectSound(s: Sched, cpu: nat)
    requires Sound(s) && cpu !in s.cpus
    ensures Sound(s.(cpus := s.cpus + {cpu}, free := s.free + [cpu]))
  {
    AppendNoDup(s.free, cpu);
    hide Queues, Running, Mutexes;
  }

  /** Every event keeps the scheduler sound: queues agree with priorities, tokens with queues, running
      processes with CPUs, and no process is in two places. */
  lemma StepSound(s: Sched, op: Op)
    requires Sound(s) && Arrives(s, op) && Behaved(s, op)
    ensures Sound(Apply(s, op))
  {
    hide SoundBut, Requeued, FreeCpu, Unexec, Spawned, Ticked, LockHandled, UnlockHandled, IoBlocked, IoEnded, Exited,
      TakenByDispatcher, Assigned, MutexCreated, OwnedOrIdle;
    match op
    case ConnectCpu(cpu) => ConnectSound(s, cpu);
    case Interrupt(cpu) => InterruptsFree(s, s.interrupts + [cpu]);
    case Spawn(prio, accepted) => SpawnSound(s, prio, accepted);
    case Take => TakesBest(s);
    case Assign => Assigns(s);
    case Tick(p, cpu, compacting) => TickSound(s, p, cpu, compacting);
    case CreateMutex(name) => CreateSound(s, name);
    case LockCall(name, p, cpu) => LockSoundIff(s, name, p, cpu);
    case UnlockCall(name, p, cpu) => UnlockCallSound(s, name, p, cpu);
    case MemoryCall(p, cpu) => MemorySound(s, p, cpu);
    case IoCall(p, cpu, served) => IoCallSound(s, p, cpu, served);
    case IoEnd(p) => IoEndSound(s, p);
    case InitCall(prio, accepted, p, cpu) => InitSound(s, prio, accepted, p, cpu);
    case ExitCall(p, cpu) => ExitSound(s, p, cpu);
  }

  // ----------------------------------------------------------- inheritance over each event

  lemma RequeueInherits(s: Sched, p: nat)
    requires Inherits(s)
    ensures Inherits(Requeued(s, p))
  {
    hide AddReady, WaitsFor, InheritsBut;
    var r := s.(pcbs := SetStatus(s.pcbs, p, Ready));
    AddReadyKeeps(r, p);
    InheritsFrame(s, Requeued(s, p), {});
  }

  lemma UnlockCallInherits(s: Sched, name: string, p: nat, cpu: nat)
    requires Sound(s) && Inherits(s) && Pair(cpu, p) in s.pairs && OwnedOrIdle(s, name, p)
    ensures Inherits(UnlockHandled(s, name, p, cpu))
  {
    hide SoundBut, Unlock, Unexec, Requeued, FreeCpu, InheritsBut, WaitsFor;
    Leaves(s, p, cpu);
    UnexecKeeps(s, p);
    InheritsFrame(s, Unexec(s, p), {});
    UnlockInherits(Unexec(s, p), {p}, {cpu}, name, p);
    var u := Unlock(Unexec(s, p), name);
    RequeueInherits(u, p);
    FreeInherits(Requeued(u, p), cpu);
  }

  lemma InitInherits(s: Sched, prio: nat, accepted: bool, p: nat, cpu: nat)
    requires Sound(s) && Inherits(s)
    ensures Inherits(FreeCpu(Requeued(Unexec(Spawned(s, prio, accepted), p), p), cpu))
  {
    hide SoundBut, Unexec, Requeued, FreeCpu, Spawned, InheritsBut, WaitsFor;
    SpawnInherits(s, prio, accepted);
    var u := Spawned(s, prio, accepted);
    UnexecKeeps(u, p);
    InheritsFrame(u, Unexec(u, p), {});
    RequeueInherits(Unexec(u, p), p);
    FreeInherits(Requeued(Unexec(u, p), p), cpu);
  }

  /** At most the state of one process differs. */
  ghost predicate OnlyStatus(s: Sched, t: Sched, p: nat, status: Status) {
    t.mutexes == s.mutexes && t.history == s.history && (t.pcbs == s.pcbs || t.pcbs == SetStatus(s.pcbs, p, status))
  }

  lemma StatusInherits(s: Sched, t: Sched, p: nat, status: Status)
    requires Inherits(s) && OnlyStatus(s, t, p, status)
    ensures Inherits(t)
  {
    hide WaitsFor, InheritsBut;
    InheritsFrame(s, t, {});
  }

  lemma TickMoves(s: Sched, p: nat, cpu: nat, compacting: bool)
    ensures OnlyStatus(s, Ticked(s, p, cpu, compacting), p, Ready)
  {
    hide AddReady, Unexec, Without;
    var u := s.(interrupts := Without(s.interrupts, cpu));
    UnexecKeeps(u, p);
    AddReadyKeeps(Unexec(u, p).(pcbs := SetStatus(u.pcbs, p, Ready)), p);
  }

  lemma IoCallMoves(s: Sched, p: nat, cpu: nat, served: bool)
    ensures OnlyStatus(s, IoBlocked(s, p, cpu, served), p, Block)
  {
    hide Unexec;
    UnexecKeeps(s, p);
  }

  lemma IoEndMoves(s: Sched, p: nat)
    ensures OnlyStatus(s, IoEnded(s, p), p, Ready)
  {
    hide AddReady, Without;
    var u := s.(io := Without(s.io, p), block := Without(s.block, p));
    AddReadyKeeps(u.(pcbs := SetStatus(u.pcbs, p, Ready)), p);
  }

  lemma DispatchMoves(s: Sched)
    ensures OnlyStatus(s, TakenByDispatcher(s), 0, Exec)
    ensures OnlyStatus(s, Assigned(s), if s.hand.Some? then s.hand.value else 0, Exec)
  {
    hide FirstNonempty, SetStatus;
  }

  /** The events that move processes about touch neither mutexes nor priorities. */
  lemma Moves(s: Sched, op: Op) returns (p: nat, status: Status)
    requires
      || op.ConnectCpu? || op.Interrupt? || op.Take? || op.Assign? || op.Tick?
      || op.MemoryCall? || op.IoCall? || op.IoEnd?
    ensures OnlyStatus(s, Apply(s, op), p, status)
  {
    hide TakenByDispatcher, Assigned, Ticked, IoBlocked, IoEnded, SetStatus;
    p, status := 0, Exec;
    DispatchMoves(s);
    match op
    case Assign => if s.hand.Some? { p := s.hand.value; }
    case Tick(q, cpu, compacting) => p, status := q, Ready; TickMoves(s, q, cpu, compacting);
    case IoCall(q, cpu, served) => p, status := q, Block; IoCallMoves(s, q, cpu, served);
    case IoEnd(q) => p, status := q, Ready; IoEndMoves(s, q);
    case _ =>
  }

  lemma CreateInherits(s: Sched, name: string)
    requires Inherits(s)
    ensures Inherits(MutexCreated(s, name))
  {
    var t := MutexCreated(s, name);
    forall w: nat, q: nat ensures WaitsFor(t.mutexes, w, q) <==> WaitsFor(s.mutexes, w, q) {
      if FindMutex(s.mutexes, name).None? {
        assert t.mutexes[..|t.mutexes| - 1] == s.mutexes;
        WaitsForSplits(t.mutexes, w, q);
      }
    }
    hide WaitsFor;
    InheritsFrame(s, t, {});
  }

  ghost predicate Unchained(s: Sched, op: Op) {
    op.LockCall? ==> !Chained(s, op.name, op.pid)
  }

  /** Every event keeps inheritance, but for a lock that would have to lend priority to an owner's owner. */
  lemma StepInherits(s: Sched, op: Op)
    requires Sound(s) && Inherits(s) && Arrives(s, op) && Behaved(s, op) && Unchained(s, op)
    ensures Inherits(Apply(s, op))
  {
    hide SoundBut, InheritsBut, Requeued, FreeCpu, Unexec, Spawned, LockHandled, UnlockHandled, Exited,
      MutexCreated, OwnedOrIdle, Chained;
    match op
    case Spawn(prio, accepted) => SpawnInherits(s, prio, accepted);
    case CreateMutex(name) => CreateInherits(s, name);
    case LockCall(name, p, cpu) => LockInheritsIff(s, name, p, cpu);
    case UnlockCall(name, p, cpu) => UnlockCallInherits(s, name, p, cpu);
    case InitCall(prio, accepted, p, cpu) => InitInherits(s, prio, accepted, p, cpu);
    case ExitCall(p, cpu) => ExitInherits(s, p, cpu);
    case _ =>
      var p, status := Moves(s, op);
      StatusInherits(s, Apply(s, op), p, status);
  }
}
