/** Exactly when programs that misuse mutexes do harm, and small states in which they do. */
module Misuse {
  import opened Common
  import opened Scheduling
  import opened Soundness
  import opened MutexLaws
  import opened Inheritance
  import opened SchedRuns
  import opened Fairness

  /** Once the mutex is passed on, its old owner would have another priority than the one it is queued
      at. Either it is in a ready queue now, or it is the first to wait for its own mutex and is queued by
      the hand-over, at the least of its priority and those left in line. Only the unlock of a process
      that is not the owner can meet this. */
  predicate Misfiles(s: Sched, name: string) {
    var i := FindMutex(s.mutexes, name);
    && s.cmn && i.Some? && s.mutexes[i.value].owner.Some? && s.mutexes[i.value].owner.value in s.pcbs
    && var m, o := s.mutexes[i.value], s.mutexes[i.value].owner.value;
       var due := Needed(s.pcbs, s.mutexes[i.value := Passed(m)], o);
       if m.waiters != [] && m.waiters[0] == o then
         var v := Least(s.pcbs, m.waiters[1..], Prio(s.pcbs, o));
         v < s.levels && due != v
       else LevelHolding(s.ready, o).Some? && due != Prio(s.pcbs, o)
  }

  /** The same, of the state in which the mutex has been passed on and the priority is not restored yet. */
  ghost predicate Misfiled(t: Sched, o: nat) {
    t.cmn && o in t.pcbs && (exists l: nat :: Queued(t.ready, l, o)) && Needed(t.pcbs, t.mutexes, o) != Prio(t.pcbs, o)
  }

  // ----------------------------------------------------------- the condition before the call

  lemma {:induction false} LeastSame(pcbs: map<nat, Pcb>, qcbs: map<nat, Pcb>, ws: seq<nat>, v: nat)
    requires forall w :: w in ws ==> Prio(qcbs, w) == Prio(pcbs, w)
    ensures Least(qcbs, ws, v) == Least(pcbs, ws, v)
  {
    if ws != [] {
      assert ws == ws[..|ws| - 1] + [ws[|ws| - 1]];
      LeastSame(pcbs, qcbs, ws[..|ws| - 1], v);
    }
  }

  lemma {:induction false} LeastOverSame(pcbs: map<nat, Pcb>, qcbs: map<nat, Pcb>, ms: seq<Mutex>, p: nat, v: nat)
    requires forall w :: WaitsFor(ms, w, p) ==> Prio(qcbs, w) == Prio(pcbs, w)
    ensures LeastOver(qcbs, ms, p, v) == LeastOver(pcbs, ms, p, v)
  {
    if ms != [] {
      var front, last := ms[..|ms| - 1], ms[|ms| - 1];
      forall w ensures WaitsFor(ms, w, p) <==> WaitsFor(front, w, p) || (last.owner == Some(p) && w in last.waiters) {
        WaitsForSplits(ms, w, p);
      }
      LeastOverSame(pcbs, qcbs, front, p, v);
      if last.owner == Some(p) { LeastSame(pcbs, qcbs, last.waiters, LeastOver(pcbs, front, p, v)); }
    }
  }

  /** Passing a mutex on changes no priority that its old owner's depends on. */
  lemma DueSame(s: Sched, moving: set<nat>, i: nat, o: nat)
    requires Mutexes(s, moving) && i < |s.mutexes| && o in s.pcbs
    ensures var t := PassedOn(s, i);
            && o in t.pcbs && t.mutexes == s.mutexes[i := Passed(s.mutexes[i])]
            && Needed(t.pcbs, t.mutexes, o) == Needed(s.pcbs, t.mutexes, o)
  {
    hide Mutexes, WaitsFor, Passed, HandedOver;
    var t := PassedOn(s, i);
    if s.mutexes[i].waiters != [] {
      HandedOverPrios(s, i);
      WaitsAfterPassing(s, moving, i, t.mutexes);
      LeastOverSame(s.pcbs, t.pcbs, t.mutexes, o, s.pcbs[o].orig);
    }
  }

  /** Who is queued once the mutex is passed on: those who were, and the first waiter. */
  lemma QueuedAfterPassing(s: Sched, i: nat, o: nat)
    requires i < |s.mutexes| && o in s.pcbs && s.cmn && |s.ready| == s.levels
    ensures var t, m := PassedOn(s, i), s.mutexes[i];
            && t.cmn
            && (m.waiters == [] || m.waiters[0] != o ==>
                  && ((exists l: nat :: Queued(t.ready, l, o)) <==> LevelHolding(s.ready, o).Some?)
                  && Prio(t.pcbs, o) == Prio(s.pcbs, o))
            && (m.waiters != [] && m.waiters[0] == o && LevelHolding(s.ready, o).None? ==>
                  var v := Least(s.pcbs, m.waiters[1..], Prio(s.pcbs, o));
                  && ((exists l: nat :: Queued(t.ready, l, o)) <==> v < s.levels)
                  && Prio(t.pcbs, o) == v)
  {
    hide Least, Marked;
    var t, m := PassedOn(s, i), s.mutexes[i];
    var held := LevelHolding(s.ready, o);
    if held.Some? { assert Queued(s.ready, held.value, o); }
    if m.waiters != [] {
      var v := Least(s.pcbs, m.waiters[1..], Prio(s.pcbs, m.waiters[0]));
      if m.waiters[0] == o {
        if v < s.levels { assert Queued(t.ready, v, o); }
      } else {
        forall l: nat ensures Queued(t.ready, l, o) <==> Queued(s.ready, l, o) {}
      }
    }
  }

  lemma WaiterUnqueued(s: Sched, i: nat)
    requires Sound(s) && i < |s.mutexes| && s.mutexes[i].waiters != []
    ensures LevelHolding(s.ready, s.mutexes[i].waiters[0]).None?
  {
    var o := s.mutexes[i].waiters[0];
    assert WaitsOn(s.mutexes, i, o);
    var l := LevelHolding(s.ready, o);
    if l.Some? { assert Queued(s.ready, l.value, o); }
  }

  lemma SoundShape(s: Sched)
    requires Sound(s)
    ensures Mutexes(s, {}) && |s.ready| == s.levels
  {
  }

  lemma MisfilesExact(s: Sched, name: string, p: nat)
    requires Sound(s)
    ensures var i := FindMutex(s.mutexes, name);
            Misfiles(s, name) <==> i.Some? && s.mutexes[i.value].owner.Some? &&
                                   Misfiled(PassedOn(Unexec(s, p), i.value), s.mutexes[i.value].owner.value)
  {
    hide SoundBut, Mutexes, PassedOn, Needed, Least, Queued;
    var i, out := FindMutex(s.mutexes, name), Unexec(s, p);
    UnexecKeeps(s, p);
    if i.Some? && s.mutexes[i.value].owner.Some? {
      var o := s.mutexes[i.value].owner.value;
      OwnerKnown(s, i.value);
      SoundShape(s);
      UnexecMutexes(s, p);
      DueSame(out, {}, i.value, o);
      PassedOnKeeps(out, i.value);
      if s.cmn { QueuedAfterPassing(out, i.value, o); }
      if s.mutexes[i.value].waiters != [] { WaiterUnqueued(s, i.value); }
    }
  }

  lemma UnexecMutexes(s: Sched, p: nat)
    requires Mutexes(s, {})
    ensures Mutexes(Unexec(s, p), {})
  {
  }

  // ----------------------------------------------------------- soundness of an unlock

  lemma PassedOnSound(s: Sched, moving: set<nat>, loose: set<nat>, i: nat)
    requires SoundBut(s, moving, loose) && i < |s.mutexes|
    ensures SoundBut(PassedOn(s, i), moving, loose)
  {
    hide SoundBut, HandedOver, Passed;
    if s.mutexes[i].waiters == [] { FreedSound(s, moving, loose, i); } else { HandOverSound(s, moving, loose, i); }
  }

  /** Restoring anybody's priority is harmless unless it leaves a process in the queue of another priority. */
  lemma RestoreSoundIf(s: Sched, moving: set<nat>, loose: set<nat>, o: nat)
    requires SoundBut(s, moving, loose) && o in s.pcbs
    requires !s.cmn || Needed(s.pcbs, s.mutexes, o) == Prio(s.pcbs, o) || forall l: nat :: !Queued(s.ready, l, o)
    ensures SoundBut(Restored(s, o), moving, loose)
  {
    hide Needed, Running, Mutexes, Requests, Processors;
    var v, t := Needed(s.pcbs, s.mutexes, o), Restored(s, o);
    NeededMeets(s.pcbs, s.mutexes, o);
    RestoreRest(s, moving, loose, o, v);
    if forall l: nat :: !Queued(s.ready, l, o) {
      UnqueuedPrio(s, moving, o, v);
    } else {
      assert forall x :: Level(t.cmn, t.pcbs, x) == Level(s.cmn, s.pcbs, x);
    }
  }

  lemma RestoreMisfiles(s: Sched, moving: set<nat>, o: nat, l: nat, t: Sched)
    requires Queues(s, moving) && o in s.pcbs && s.cmn && Queued(s.ready, l, o)
    requires t.cmn && Queued(t.ready, l, o) && Prio(t.pcbs, o) != Prio(s.pcbs, o)
    ensures !Sound(t)
  {
  }

  lemma RequeueKeeps(s: Sched, p: nat, cpu: nat, o: nat, l: nat)
    requires Queued(s.ready, l, o)
    ensures var t := FreeCpu(Requeued(s, p), cpu);
            t.cmn == s.cmn && Queued(t.ready, l, o) && Prio(t.pcbs, o) == Prio(s.pcbs, o)
  {
    hide Marked;
  }

  /** An unlock, whoever asks for it, leaves the scheduler sound exactly when it does not change the
      priority of a process that is in a ready queue. */
  lemma UnlockSoundIff(s: Sched, name: string, p: nat, cpu: nat)
    requires Sound(s) && Pair(cpu, p) in s.pairs
    ensures Sound(UnlockHandled(s, name, p, cpu)) <==> !Misfiles(s, name)
  {
    hide SoundBut, Unexec, PassedOn, Requeued, FreeCpu, Needed, Misfiles;
    MisfilesExact(s, name, p);
    Leaves(s, p, cpu);
    UnexecKeeps(s, p);
    var out, i := Unexec(s, p), FindMutex(s.mutexes, name);
    if i.None? || s.mutexes[i.value].owner.None? {
      RequeueSound(out, p, cpu);
    } else {
      var t, o := PassedOn(out, i.value), s.mutexes[i.value].owner.value;
      OwnerKnown(s, i.value);
      PassedOnSound(out, {p}, {cpu}, i.value);
      PassedOnKeeps(out, i.value);
      if Misfiled(t, o) {
        var l: nat :| Queued(t.ready, l, o);
        var r := Restored(t, o);
        RequeueKeeps(r, p, cpu, o, l);
        SoundQueues(t, {p}, {cpu});
        RestoreMisfiles(t, {p}, o, l, FreeCpu(Requeued(r, p), cpu));
      } else {
        RestoreSoundIf(t, {p}, {cpu}, o);
        RequeueSound(Restored(t, o), p, cpu);
      }
    }
  }

  /** The owner's own unlock never does. */
  lemma OwnersUnlockFine(s: Sched, name: string, p: nat, cpu: nat)
    requires Sound(s) && Pair(cpu, p) in s.pairs && OwnedOrIdle(s, name, p)
    ensures !Misfiles(s, name)
  {
    hide SoundBut, Misfiles, OwnedOrIdle, UnlockHandled;
    UnlockCallSound(s, name, p, cpu);
    UnlockSoundIff(s, name, p, cpu);
  }

  lemma PassedOnKeeps(s: Sched, i: nat)
    requires i < |s.mutexes|
    ensures PassedOn(s, i).pcbs.Keys == s.pcbs.Keys && PassedOn(s, i).cmn == s.cmn
  {
    hide Marked, Least;
  }

  lemma SoundQueues(s: Sched, moving: set<nat>, loose: set<nat>)
    requires SoundBut(s, moving, loose)
    ensures Queues(s, moving)
  {
  }

  // ----------------------------------------------------------- a boost that stops

  /** Process 1 owns A and waits for B, which 2 owns; 0, the best of all, is about to ask for A. */
  const CHAIN := Sched(
    3, true, false,
    map[0 := Pcb(Exec, 0, 0), 1 := Pcb(Block, 1, 1), 2 := Pcb(Exec, 1, 2)], 3,
    [[], [], []], 0, None, [0, 2], [Pair(10, 0), Pair(11, 2)], [], {10, 11}, [], [1], [],
    [Mutex("A", Some(1), []), Mutex("B", Some(2), [1])], [])

  /** Priority goes one step and stops: 2 keeps priority 1 although 0, through 1, now waits for it. */
  lemma BoostStops()
    ensures Sound(CHAIN) && Inherits(CHAIN)
    ensures Arrives(CHAIN, LockCall("A", 0, 10)) && Behaved(CHAIN, LockCall("A", 0, 10))
    ensures !Inherits(LockHandled(CHAIN, "A", 0, 10))
  {
    hide SoundBut, InheritsBut, LockHandled;
    ChainSound();
    ChainInherits();
    var ms := CHAIN.mutexes;
    FindFirst(ms, "A");
    assert WaitsOn(ms, 1, 1) && WaitsFor(ms, 1, 2);
    assert Chained(CHAIN, "A", 0);
    assert CHAIN.pairs[0] == Pair(10, 0);
    LockInheritsIff(CHAIN, "A", 0, 10);
  }

  lemma FindFirst(ms: seq<Mutex>, name: string)
    requires ms != [] && ms[0].name == name
    ensures FindMutex(ms, name) == Some(0)
  {
    assert FindMutex(ms, name).Some?;
  }

  lemma ChainInherits()
    ensures Inherits(CHAIN)
  {
    var s, ms := CHAIN, CHAIN.mutexes;
    forall w: nat, p: nat ensures WaitsFor(ms, w, p) <==> w == 1 && p == 2 {
      assert WaitsOn(ms, 1, 1) && ms[1].owner == Some(2);
    }
    hide WaitsFor;
    assert WaitsFor(ms, 1, 2) && Prio(s.pcbs, 1) == 1;
    assert NeededIs(s.pcbs, ms, 0, 0) && NeededIs(s.pcbs, ms, 1, 1) && NeededIs(s.pcbs, ms, 2, 1);
  }

  lemma ChainQueues()
    ensures Queues(CHAIN, {}) && Requests(CHAIN, {})
  {
    assert Total(CHAIN.ready) == 0 by { TotalZero(CHAIN.ready); }
  }

  lemma ChainRuns()
    ensures Running(CHAIN, {}) && Processors(CHAIN, {})
  {
    assert PidsOf(CHAIN.pairs) == [0, 2] && CpusOf(CHAIN.pairs) == [10, 11];
  }

  lemma ChainMutexes()
    ensures Mutexes(CHAIN, {})
  {
  }

  lemma ChainSound()
    ensures Sound(CHAIN)
  {
    hide Queues, Running, Processors, Requests, Mutexes;
    ChainMutexes();
    ChainQueues();
    ChainRuns();
  }

  // ----------------------------------------------------------- an unlock that misfiles

  /** Process 1 owns A and is queued at the priority of 2, who waits for A; 0 is about to unlock it. */
  const LENT := Sched(
    3, true, false,
    map[0 := Pcb(Exec, 2, 2), 1 := Pcb(Ready, 0, 1), 2 := Pcb(Block, 0, 0)], 3,
    [[1], [], []], 1, None, [0], [Pair(10, 0)], [], {10}, [], [2], [],
    [Mutex("A", Some(1), [2])], [])

  lemma LentQueues()
    ensures Queues(LENT, {}) && Requests(LENT, {})
  {
    var ready: seq<seq<nat>> := LENT.ready;
    var none: seq<seq<nat>> := ready[..1][..0];
    assert ready[..2][..1] == ready[..1] && none == [];
    assert Total(ready[..1]) == 1 && Total(ready[..2]) == 1 && Total(ready) == 1;
  }

  lemma LentRuns()
    ensures Running(LENT, {}) && Processors(LENT, {})
  {
    assert PidsOf(LENT.pairs) == [0] && CpusOf(LENT.pairs) == [10];
  }

  lemma LentSound()
    ensures Sound(LENT)
  {
    hide Queues, Requests, Running, Processors;
    LentQueues();
    LentRuns();
  }

  lemma LentInherits()
    ensures Inherits(LENT)
  {
    var s, ms := LENT, LENT.mutexes;
    forall w: nat, p: nat ensures WaitsFor(ms, w, p) <==> w == 2 && p == 1 {
      assert WaitsOn(ms, 0, 2) && ms[0].owner == Some(1);
    }
    hide WaitsFor;
    assert WaitsFor(ms, 2, 1) && Prio(s.pcbs, 2) == 0;
    assert NeededIs(s.pcbs, ms, 0, 2) && NeededIs(s.pcbs, ms, 1, 0) && NeededIs(s.pcbs, ms, 2, 0);
  }

  lemma LentMisfiles()
    ensures Misfiles(LENT, "A")
  {
    var s, ms := LENT, LENT.mutexes;
    FindFirst(ms, "A");
    var ns := ms[0 := Passed(ms[0])];
    assert ms[0].waiters[1..] == [];
    assert ns == [Mutex("A", Some(2), [])] && ns[..0] == [];
    assert LeastOver(s.pcbs, ns[..0], 1, 1) == 1;
    assert Needed(s.pcbs, ns, 1) == 1;
    assert LevelHolding(s.ready, 1).Some? by { assert 1 in s.ready[0]; }
  }

  /** Taking A from 1 restores its priority to 1 and leaves it in the queue of priority 0. */
  lemma UnlockMisfiles()
    ensures Sound(LENT) && Inherits(LENT) && Arrives(LENT, UnlockCall("A", 0, 10))
    ensures !Sound(UnlockHandled(LENT, "A", 0, 10))
  {
    hide SoundBut, InheritsBut, UnlockHandled, Misfiles;
    LentSound();
    LentInherits();
    LentMisfiles();
    assert LENT.pairs[0] == Pair(10, 0);
    UnlockSoundIff(LENT, "A", 0, 10);
  }

  // ----------------------------------------------------------- a lock that gives a CPU away

  ghost predicate Reachable(s: Sched) {
    exists states, ops :: Run(states, ops) && states[|ops|] == s
  }

  lemma Reaches(s: Sched, op: Op, t: Sched)
    requires Reachable(s) && Arrives(s, op) && Behaved(s, op) && t == Apply(s, op)
    ensures Reachable(t)
  {
    hide Arrives, Behaved, Apply, Initial;
    var states, ops :| Run(states, ops) && states[|ops|] == s;
    var more, calls := states + [t], ops + [op];
    assert Run(more, calls) && more[|calls|] == t;
  }

  /** One process of the only priority runs on the only CPU, and no mutex exists. */
  const ALONE := Sched(
    1, true, false, map[0 := Pcb(Exec, 0, 0)], 1,
    [[]], 0, None, [0], [Pair(10, 0)], [], {10}, [], [], [], [], [])

  lemma AloneReached()
    ensures Reachable(ALONE)
  {
    hide Reachable;
    FirstSpawned();
    var s := ALONE.(pcbs := map[0 := Pcb(Ready, 0, 0)], ready := [[0]], tokens := 1,
                    exec := [], pairs := [], free := [10]);
    assert |s.ready[..0]| == 0 && FirstNonempty(s.ready) == Some(0);
    var t := s.(tokens := 0, hand := Some(0), ready := [[]]);
    assert s.ready[0][1..] == [] && [[0]][0 := []] == [[]];
    Reaches(s, Take, t);
    assert t.free[1..] == [] && SetStatus(t.pcbs, 0, Exec) == ALONE.pcbs;
    assert Assigned(t) == ALONE;
    Reaches(t, Assign, ALONE);
  }

  lemma FirstSpawned()
    ensures Reachable(ALONE.(pcbs := map[0 := Pcb(Ready, 0, 0)], ready := [[0]], tokens := 1, exec := [], pairs := [],
                             free := [10]))
  {
    var s := Initial(1, true, false);
    var ops: seq<Op> := [];
    assert Run([s], ops) && [s][|ops|] == s;
    assert s.ready == [[]];
    var t := s.(cpus := {10}, free := [10]);
    hide Reachable, Initial;
    Reaches(s, ConnectCpu(10), t);
    var u := t.(nextPid := 1, pcbs := map[0 := Pcb(Ready, 0, 0)], ready := [[0]], tokens := 1);
    assert t.pcbs[0 := Pcb(Ready, 0, 0)] == u.pcbs && t.ready[0] + [0] == [0] && t.ready[0 := [0]] == [[0]];
    assert Spawned(t, 0, true) == u;
    Reaches(t, Spawn(0, true), u);
  }

  /** Locking a mutex nobody created frees the CPU that the caller still runs on. */
  lemma LockLosesCpu()
    ensures Reachable(ALONE) && Sound(ALONE) && Arrives(ALONE, LockCall("Z", 0, 10))
    ensures !Sound(LockHandled(ALONE, "Z", 0, 10))
  {
    hide SoundBut, LockHandled, Fifo, Initial;
    AloneReached();
    var states, ops :| Run(states, ops) && states[|ops|] == ALONE;
    RunSound(states, ops, |ops|);
    assert ALONE.pairs[0] == Pair(10, 0);
    LockSoundIff(ALONE, "Z", 0, 10);
  }
}
