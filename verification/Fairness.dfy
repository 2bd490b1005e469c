/** Mutexes are granted in the order they were asked for, and what holds over whole runs. */
module Fairness {
  import opened Common
  import opened Scheduling
  import opened Soundness
  import opened MutexLaws
  import opened Inheritance
  import opened SchedRuns

  function RequestsOf(h: seq<Event>, name: string): seq<nat> {
    if h == [] then []
    else
      var r := RequestsOf(h[..|h| - 1], name);
      match h[|h| - 1]
      case Requested(n, p) => if n == name then r + [p] else r
      case _ => r
  }

  function GrantsOf(h: seq<Event>, name: string): seq<nat> {
    if h == [] then []
    else
      var r := GrantsOf(h[..|h| - 1], name);
      match h[|h| - 1]
      case Granted(n, p) => if n == name then r + [p] else r
      case _ => r
  }

  /** Who waits for the mutex of that name, in order. */
  function Line(ms: seq<Mutex>, name: string): seq<nat> {
    var i := FindMutex(ms, name);
    if i.None? then [] else ms[i.value].waiters
  }

  /** Those who asked for a mutex are those who got it, in that order, and then those who wait for it. */
  ghost predicate Fifo(s: Sched) {
    forall name :: RequestsOf(s.history, name) == GrantsOf(s.history, name) + Line(s.mutexes, name)
  }

  // ----------------------------------------------------------- one mutex changes

  lemma Logged(h: seq<Event>, e: Event)
    ensures forall name :: RequestsOf(h + [e], name) ==
                           if e.Requested? && e.name == name then RequestsOf(h, name) + [e.pid] else RequestsOf(h, name)
    ensures forall name :: GrantsOf(h + [e], name) ==
                           if e.Granted? && e.name == name then GrantsOf(h, name) + [e.pid] else GrantsOf(h, name)
  {
    assert (h + [e])[..|h|] == h;
  }

  lemma {:induction false} FindSameNames(ms: seq<Mutex>, ns: seq<Mutex>, name: string)
    requires |ns| == |ms| && forall j :: 0 <= j < |ms| ==> ns[j].name == ms[j].name
    ensures FindMutex(ns, name) == FindMutex(ms, name)
  {
    if ms != [] { FindSameNames(ms[..|ms| - 1], ns[..|ns| - 1], name); }
  }

  lemma LineChanged(ms: seq<Mutex>, i: nat, m: Mutex)
    requires i < |ms| && FindMutex(ms, ms[i].name) == Some(i) && m.name == ms[i].name
    ensures forall name :: Line(ms[i := m], name) == if name == m.name then m.waiters else Line(ms, name)
  {
    forall name ensures Line(ms[i := m], name) == if name == m.name then m.waiters else Line(ms, name) {
      FindSameNames(ms, ms[i := m], name);
    }
  }

  lemma TakenFifo(s: Sched, i: nat, p: nat)
    requires Fifo(s) && i < |s.mutexes|
    requires FindMutex(s.mutexes, s.mutexes[i].name) == Some(i) && s.mutexes[i].waiters == []
    ensures Fifo(Taken(s, i, p))
  {
    hide RequestsOf, GrantsOf, Line;
    var n, h := s.mutexes[i].name, s.history;
    Logged(h, Requested(n, p));
    Logged(h + [Requested(n, p)], Granted(n, p));
    assert h + [Requested(n, p), Granted(n, p)] == h + [Requested(n, p)] + [Granted(n, p)];
    LineChanged(s.mutexes, i, s.mutexes[i].(owner := Some(p)));
    LineIs(s.mutexes, i);
  }

  lemma LineIs(ms: seq<Mutex>, i: nat)
    requires i < |ms| && FindMutex(ms, ms[i].name) == Some(i)
    ensures Line(ms, ms[i].name) == ms[i].waiters
  {
  }

  lemma WaitingFifo(s: Sched, i: nat, p: nat)
    requires Fifo(s) && i < |s.mutexes|
    requires FindMutex(s.mutexes, s.mutexes[i].name) == Some(i) && s.mutexes[i].owner.Some?
    ensures Fifo(Waiting(s, i, p))
  {
    hide RequestsOf, GrantsOf, Line, Boosted, Unexec;
    var m, o, v := s.mutexes[i], s.mutexes[i].owner.value, Prio(s.pcbs, p);
    UnexecKeeps(s, p);
    BoostKeeps(Unexec(s, p), o, v);
    Logged(s.history, Requested(m.name, p));
    LineChanged(s.mutexes, i, m.(waiters := m.waiters + [p]));
    LineIs(s.mutexes, i);
    assert Waiting(s, i, p).history == s.history + [Requested(m.name, p)];
  }

  lemma HandedOverHistory(s: Sched, i: nat)
    requires i < |s.mutexes| && s.mutexes[i].waiters != []
    ensures HandedOver(s, i).mutexes == s.mutexes[i := Passed(s.mutexes[i])]
    ensures HandedOver(s, i).history == s.history + Passing(s.mutexes[i])
  {
    hide AddReady, Least, Passed;
    var m := s.mutexes[i];
    var next := m.waiters[0];
    var inherited := SetPrio(s.pcbs, next, Least(s.pcbs, m.waiters[1..], Prio(s.pcbs, next)));
    AddReadyKeeps(s.(mutexes := s.mutexes[i := Passed(m)], pcbs := SetStatus(inherited, next, Ready),
                     history := s.history + Passing(m)), next);
  }

  lemma UnlockFifo(s: Sched, name: string)
    requires Fifo(s)
    ensures Fifo(Unlock(s, name))
  {
    hide RequestsOf, GrantsOf, Line, HandedOver, Needed;
    var i := FindMutex(s.mutexes, name);
    if i.Some? && s.mutexes[i.value].owner.Some? {
      var m := s.mutexes[i.value];
      LineChanged(s.mutexes, i.value, Passed(m));
      LineIs(s.mutexes, i.value);
      Logged(s.history, Returned(name, m.owner.value));
      if m.waiters == [] {
        assert s.history + Passing(m) == s.history + [Returned(name, m.owner.value)];
      } else {
        HandedOverHistory(s, i.value);
        Logged(s.history + [Returned(name, m.owner.value)], Granted(name, m.waiters[0]));
        assert s.history + Passing(m) == s.history + [Returned(name, m.owner.value)] + [Granted(name, m.waiters[0])];
        assert m.waiters == [m.waiters[0]] + m.waiters[1..];
        var g := GrantsOf(s.history, name);
        assert g + m.waiters == g + [m.waiters[0]] + m.waiters[1..];
      }
    }
  }

  lemma {:induction false} UnlockAllFifo(s: Sched, names: seq<string>)
    requires Fifo(s)
    ensures Fifo(UnlockAll(s, names))
  {
    hide Unlock, Fifo;
    if names != [] {
      UnlockAllFifo(s, names[..|names| - 1]);
      UnlockFifo(UnlockAll(s, names[..|names| - 1]), names[|names| - 1]);
    }
  }

  lemma FifoFrame(s: Sched, t: Sched)
    requires Fifo(s) && t.mutexes == s.mutexes && t.history == s.history
    ensures Fifo(t)
  {
  }

  lemma CreateFifo(s: Sched, name: string)
    requires Fifo(s)
    ensures Fifo(MutexCreated(s, name))
  {
    hide RequestsOf, GrantsOf;
    var t := MutexCreated(s, name);
    if FindMutex(s.mutexes, name).None? {
      assert t.mutexes[..|t.mutexes| - 1] == s.mutexes;
      forall n ensures Line(t.mutexes, n) == Line(s.mutexes, n) {}
    }
  }

  lemma LockFifo(s: Sched, name: string, p: nat, cpu: nat)
    requires Sound(s) && Fifo(s)
    ensures Fifo(LockHandled(s, name, p, cpu))
  {
    hide SoundBut, Taken, Waiting, Fifo, FreeCpu;
    var i := FindMutex(s.mutexes, name);
    FreeFifo(s, cpu);
    if i.Some? {
      if s.mutexes[i.value].owner.None? {
        IdleMutex(s, i.value);
        TakenFifo(s, i.value, p);
      } else {
        WaitingFifo(s, i.value, p);
        FreeFifo(Waiting(s, i.value, p), cpu);
      }
    }
  }

  lemma FreeFifo(s: Sched, cpu: nat)
    requires Fifo(s)
    ensures Fifo(FreeCpu(s, cpu))
  {
  }

  lemma UnlockCallFifo(s: Sched, name: string, p: nat, cpu: nat)
    requires Fifo(s)
    ensures Fifo(UnlockHandled(s, name, p, cpu))
  {
    hide Fifo, Unlock, Unexec, AddReady;
    UnexecKeeps(s, p);
    FifoFrame(s, Unexec(s, p));
    UnlockFifo(Unexec(s, p), name);
    var u := Unlock(Unexec(s, p), name);
    AddReadyKeeps(u.(pcbs := SetStatus(u.pcbs, p, Ready)), p);
    FifoFrame(u, UnlockHandled(s, name, p, cpu));
  }

  lemma ExitFifo(s: Sched, p: nat, cpu: nat)
    requires Fifo(s)
    ensures Fifo(Exited(s, p, cpu))
  {
    hide Fifo, UnlockAll, Unexec, OwnedNames;
    UnexecKeeps(s, p);
    var out := Unexec(s, p);
    var gone := out.(pcbs := SetStatus(out.pcbs, p, Exit));
    FifoFrame(s, gone);
    UnlockAllFifo(gone, OwnedNames(gone.mutexes, p));
    FifoFrame(UnlockAll(gone, OwnedNames(gone.mutexes, p)), Exited(s, p, cpu));
  }

  lemma InitFifo(s: Sched, prio: nat, accepted: bool, p: nat, cpu: nat)
    requires Fifo(s)
    ensures Fifo(FreeCpu(Requeued(Unexec(Spawned(s, prio, accepted), p), p), cpu))
  {
    hide Fifo, Unexec, AddReady, Spawned;
    SpawnedPairs(s, prio, accepted);
    var u := Spawned(s, prio, accepted);
    UnexecKeeps(u, p);
    AddReadyKeeps(Unexec(u, p).(pcbs := SetStatus(u.pcbs, p, Ready)), p);
    FifoFrame(s, FreeCpu(Requeued(Unexec(u, p), p), cpu));
  }

  /** No event breaks the order in which a mutex was asked for. */
  lemma StepFifo(s: Sched, op: Op)
    requires Sound(s) && Fifo(s)
    ensures Fifo(Apply(s, op))
  {
    hide Fifo, SoundBut, Requeued, FreeCpu, Unexec, Spawned, LockHandled, UnlockHandled, Exited, MutexCreated;
    match op
    case Spawn(prio, accepted) =>
      SpawnedPairs(s, prio, accepted);
      FifoFrame(s, Spawned(s, prio, accepted));
    case CreateMutex(name) => CreateFifo(s, name);
    case LockCall(name, p, cpu) => LockFifo(s, name, p, cpu);
    case UnlockCall(name, p, cpu) => UnlockCallFifo(s, name, p, cpu);
    case InitCall(prio, accepted, p, cpu) => InitFifo(s, prio, accepted, p, cpu);
    case ExitCall(p, cpu) => ExitFifo(s, p, cpu);
    case _ =>
      var p, status := Moves(s, op);
      FifoFrame(s, Apply(s, op));
  }

  // ----------------------------------------------------------- runs

  function Initial(levels: nat, cmn: bool, preempt: bool): Sched {
    Sched(levels, cmn, preempt, map[], 0, seq(levels, _ => []), 0, None, [], [], [], {}, [], [], [], [], [])
  }

  lemma {:induction false} TotalEmpty(levels: nat)
    ensures Total(seq(levels, _ => [])) == 0
  {
    TotalZero(seq(levels, _ => []));
  }

  lemma InitialGood(levels: nat, cmn: bool, preempt: bool)
    requires levels > 0 && (preempt ==> cmn)
    ensures Sound(Initial(levels, cmn, preempt)) && Inherits(Initial(levels, cmn, preempt))
    ensures Fifo(Initial(levels, cmn, preempt))
  {
    TotalEmpty(levels);
  }

  ghost predicate Run(states: seq<Sched>, ops: seq<Op>) {
    && |states| == |ops| + 1
    && states[0].levels > 0 && (states[0].preempt ==> states[0].cmn)
    && states[0] == Initial(states[0].levels, states[0].cmn, states[0].preempt)
    && forall i :: 0 <= i < |ops| ==>
         Arrives(states[i], ops[i]) && Behaved(states[i], ops[i]) && states[i + 1] == Apply(states[i], ops[i])
  }

  /** Every reachable state is sound, and every mutex has been granted in the order it was asked for. */
  lemma {:induction false} RunSound(states: seq<Sched>, ops: seq<Op>, i: nat)
    requires Run(states, ops) && i < |states|
    ensures Sound(states[i]) && Fifo(states[i])
  {
    hide SoundBut, Fifo, Apply, Arrives, Behaved, Initial;
    if i == 0 {
      InitialGood(states[0].levels, states[0].cmn, states[0].preempt);
    } else {
      RunSound(states, ops, i - 1);
      StepSound(states[i - 1], ops[i - 1]);
      StepFifo(states[i - 1], ops[i - 1]);
    }
  }

  /** While no lock targets an owner that waits for someone of worse priority than the caller, every
      process runs at the least of its own priority and its waiters'. */
  lemma {:induction false} RunInherits(states: seq<Sched>, ops: seq<Op>, i: nat)
    requires Run(states, ops) && i < |states|
    requires forall j :: 0 <= j < i ==> Unchained(states[j], ops[j])
    ensures Inherits(states[i])
  {
    hide SoundBut, InheritsBut, Apply, Arrives, Behaved, Initial, Fifo, Unchained;
    if i == 0 {
      InitialGood(states[0].levels, states[0].cmn, states[0].preempt);
    } else {
      RunInherits(states, ops, i - 1);
      RunSound(states, ops, i - 1);
      StepInherits(states[i - 1], ops[i - 1]);
    }
  }
}
