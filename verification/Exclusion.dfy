/** One process at a time has a mutex: what each event does to the mutexes, and the log of every run. */
module Exclusion {
  import opened Common
  import opened Scheduling
  import opened Soundness
  import opened MutexLaws
  import opened SchedRuns
  import opened Fairness

  // ----------------------------------------------------------- one event

  /** Who has it lets go: the first of those who wait has it, or nobody. */
  function Next(m: Mutex): Mutex {
    if m.waiters == [] then Mutex(m.name, None, []) else Mutex(m.name, Some(m.waiters[0]), m.waiters[1..])
  }

  /** What an event makes of a mutex. */
  function After(m: Mutex, op: Op): Mutex {
    match op
    case LockCall(name, p, cpu) =>
      if m.name != name then m
      else if m.owner.None? then Mutex(name, Some(p), m.waiters)
      else Mutex(name, m.owner, m.waiters + [p])
    case UnlockCall(name, p, cpu) => if m.name == name && m.owner.Some? then Next(m) else m
    case ExitCall(p, cpu) => if m.owner == Some(p) then Next(m) else m
    case _ => m
  }

  /** The mutexes after an event: each as it should be, and a new one, nobody's, only where none had its name. */
  ghost predicate MutexesAfter(ms: seq<Mutex>, op: Op, ns: seq<Mutex>) {
    var created := op.CreateMutex? && forall i :: 0 <= i < |ms| ==> ms[i].name != op.name;
    && |ns| == |ms| + (if created then 1 else 0)
    && (forall i :: 0 <= i < |ms| ==> ns[i] == After(ms[i], op))
    && (created ==> ns[|ms|] == Mutex(op.name, None, []))
  }

  lemma LockMutexes(s: Sched, name: string, p: nat, cpu: nat)
    requires Mutexes(s, {})
    ensures MutexesAfter(s.mutexes, LockCall(name, p, cpu), LockHandled(s, name, p, cpu).mutexes)
    ensures Lock(s, name, p).1 <==>
            exists i :: 0 <= i < |s.mutexes| && s.mutexes[i].name == name && s.mutexes[i].owner.None?
  {
    hide Boosted, Unexec;
    var i := FindMutex(s.mutexes, name);
    if i.Some? && s.mutexes[i.value].owner.Some? {
      UnexecKeeps(s, p);
      BoostKeeps(Unexec(s, p), s.mutexes[i.value].owner.value, Prio(s.pcbs, p));
    }
  }

  lemma UnlockMutexes(s: Sched, name: string, p: nat, cpu: nat)
    requires UniqueNames(s.mutexes)
    ensures MutexesAfter(s.mutexes, UnlockCall(name, p, cpu), UnlockHandled(s, name, p, cpu).mutexes)
  {
    hide Unlock, Unexec, AddReady;
    UnexecKeeps(s, p);
    UnlockShape(Unexec(s, p), name);
    var u := Unlock(Unexec(s, p), name);
    AddReadyKeeps(u.(pcbs := SetStatus(u.pcbs, p, Ready)), p);
  }

  lemma OtherMutexes(s: Sched, op: Op)
    requires !op.CreateMutex? && !op.LockCall? && !op.UnlockCall? && !op.ExitCall?
    ensures Apply(s, op).mutexes == s.mutexes
  {
    hide Requeued, FreeCpu, Unexec, Spawned;
    match op
    case Spawn(prio, accepted) => SpawnedPairs(s, prio, accepted);
    case InitCall(prio, accepted, p, cpu) => InitMutexes(s, prio, accepted, p, cpu);
    case _ => var p, status := Moves(s, op);
  }

  lemma InitMutexes(s: Sched, prio: nat, accepted: bool, p: nat, cpu: nat)
    ensures Apply(s, InitCall(prio, accepted, p, cpu)).mutexes == s.mutexes
    ensures Apply(s, InitCall(prio, accepted, p, cpu)).history == s.history
  {
    hide Unexec, AddReady, Spawned;
    SpawnedPairs(s, prio, accepted);
    var u := Spawned(s, prio, accepted);
    UnexecKeeps(u, p);
    AddReadyKeeps(Unexec(u, p).(pcbs := SetStatus(u.pcbs, p, Ready)), p);
  }

  /** A free mutex goes to who asks; a busy one gets one more waiter, last in line; who lets go hands it to the
      first in line or frees it; and no event touches any other mutex. */
  lemma MutexLaw(s: Sched, op: Op)
    requires Sound(s) && Arrives(s, op)
    ensures MutexesAfter(s.mutexes, op, Apply(s, op).mutexes)
  {
    hide LockHandled, UnlockHandled, Exited, Processes, Queues, Running, Processors, Requests;
    match op
    case LockCall(name, p, cpu) => LockMutexes(s, name, p, cpu);
    case UnlockCall(name, p, cpu) => UnlockMutexes(s, name, p, cpu);
    case CreateMutex(name) =>
    case ExitCall(p, cpu) => ExitSound(s, p, cpu);
    case _ => OtherMutexes(s, op);
  }

  /** MUTEX_LOCK says yes exactly when the mutex exists and nobody has it; then the caller has it. */
  lemma LockAnswers(s: Sched, name: string, p: nat)
    requires Sound(s)
    ensures var (t, got) := Lock(s, name, p);
            && (got <==> exists m :: m in s.mutexes && m.name == name && m.owner.None?)
            && (got ==> exists m :: m in t.mutexes && m.name == name && m.owner == Some(p))
  {
    hide Waiting, Processes, Queues, Running, Processors, Requests;
    var i := FindMutex(s.mutexes, name);
    if i.Some? {
      assert s.mutexes[i.value] in s.mutexes;
      if s.mutexes[i.value].owner.None? {
        var t := Taken(s, i.value, p);
        assert t.mutexes[i.value] in t.mutexes;
      }
    }
  }

  // ----------------------------------------------------------- the log

  /** Who was granted the mutex last, unless it has been let go since. */
  function Holder(h: seq<Event>, name: string): Option<nat> {
    if h == [] then None
    else
      var r := Holder(h[..|h| - 1], name);
      match h[|h| - 1]
      case Requested(n, p) => r
      case Granted(n, p) => if n == name then Some(p) else r
      case Returned(n, p) => if n == name then None else r
  }

  /** Only what nobody has is granted, and only who has it lets go. */
  ghost predicate Orderly(h: seq<Event>) {
    forall i :: 0 <= i < |h| ==>
      match h[i]
      case Requested(n, p) => true
      case Granted(n, p) => Holder(h[..i], n) == None
      case Returned(n, p) => Holder(h[..i], n) == Some(p)
  }

  function OwnerOf(ms: seq<Mutex>, name: string): Option<nat> {
    var i := FindMutex(ms, name);
    if i.None? then None else ms[i.value].owner
  }

  /** The log is orderly, and the owner of each mutex is who has it by the log. */
  ghost predicate Exclusive(s: Sched) {
    Orderly(s.history) && forall name :: OwnerOf(s.mutexes, name) == Holder(s.history, name)
  }

  lemma OneMore(h: seq<Event>, e: Event)
    requires Orderly(h)
    requires (e.Granted? ==> Holder(h, e.name) == None) && (e.Returned? ==> Holder(h, e.name) == Some(e.pid))
    ensures Orderly(h + [e])
    ensures forall name :: Holder(h + [e], name) ==
                           if e.Requested? || e.name != name then Holder(h, name)
                           else if e.Granted? then Some(e.pid) else None
  {
    var g := h + [e];
    assert g[..|h|] == h;
    forall i | 0 <= i < |h| ensures g[i] == h[i] && g[..i] == h[..i] {}
  }

  lemma OwnerChanged(ms: seq<Mutex>, i: nat, m: Mutex)
    requires i < |ms| && FindMutex(ms, ms[i].name) == Some(i) && m.name == ms[i].name
    ensures forall name :: OwnerOf(ms[i := m], name) == if name == m.name then m.owner else OwnerOf(ms, name)
    ensures OwnerOf(ms, m.name) == ms[i].owner
  {
    forall name ensures OwnerOf(ms[i := m], name) == if name == m.name then m.owner else OwnerOf(ms, name) {
      FindSameNames(ms, ms[i := m], name);
    }
  }

  lemma TakenExclusive(s: Sched, i: nat, p: nat)
    requires Exclusive(s) && i < |s.mutexes|
    requires FindMutex(s.mutexes, s.mutexes[i].name) == Some(i) && s.mutexes[i].owner.None?
    ensures Exclusive(Taken(s, i, p))
  {
    hide Holder, Orderly, OwnerOf;
    var n, h := s.mutexes[i].name, s.history;
    OwnerChanged(s.mutexes, i, s.mutexes[i].(owner := Some(p)));
    OneMore(h, Requested(n, p));
    OneMore(h + [Requested(n, p)], Granted(n, p));
    assert h + [Requested(n, p), Granted(n, p)] == h + [Requested(n, p)] + [Granted(n, p)];
  }

  lemma WaitingExclusive(s: Sched, i: nat, p: nat)
    requires Exclusive(s) && i < |s.mutexes|
    requires FindMutex(s.mutexes, s.mutexes[i].name) == Some(i) && s.mutexes[i].owner.Some?
    ensures Exclusive(Waiting(s, i, p))
  {
    hide Holder, Orderly, OwnerOf, Boosted, Unexec;
    var m := s.mutexes[i];
    UnexecKeeps(s, p);
    BoostKeeps(Unexec(s, p), m.owner.value, Prio(s.pcbs, p));
    OwnerChanged(s.mutexes, i, m.(waiters := m.waiters + [p]));
    OneMore(s.history, Requested(m.name, p));
  }

  lemma UnlockExclusive(s: Sched, name: string)
    requires Exclusive(s)
    ensures Exclusive(Unlock(s, name))
  {
    hide Holder, Orderly, OwnerOf, HandedOver, Needed;
    var i := FindMutex(s.mutexes, name);
    if i.Some? && s.mutexes[i.value].owner.Some? {
      var m := s.mutexes[i.value];
      OwnerChanged(s.mutexes, i.value, Passed(m));
      var returned := Returned(name, m.owner.value);
      OneMore(s.history, returned);
      if m.waiters == [] {
        assert s.history + Passing(m) == s.history + [returned];
      } else {
        HandedOverHistory(s, i.value);
        OneMore(s.history + [returned], Granted(name, m.waiters[0]));
        assert s.history + Passing(m) == s.history + [returned] + [Granted(name, m.waiters[0])];
      }
    }
  }

  lemma {:induction false} UnlockAllExclusive(s: Sched, names: seq<string>)
    requires Exclusive(s)
    ensures Exclusive(UnlockAll(s, names))
  {
    hide Unlock, Exclusive;
    if names != [] {
      UnlockAllExclusive(s, names[..|names| - 1]);
      UnlockExclusive(UnlockAll(s, names[..|names| - 1]), names[|names| - 1]);
    }
  }

  lemma ExclusiveFrame(s: Sched, t: Sched)
    requires Exclusive(s) && t.mutexes == s.mutexes && t.history == s.history
    ensures Exclusive(t)
  {
  }

  lemma CreateExclusive(s: Sched, name: string)
    requires Exclusive(s)
    ensures Exclusive(MutexCreated(s, name))
  {
    hide Holder, Orderly;
    var t := MutexCreated(s, name);
    if FindMutex(s.mutexes, name).None? {
      assert t.mutexes[..|t.mutexes| - 1] == s.mutexes;
      forall n ensures OwnerOf(t.mutexes, n) == OwnerOf(s.mutexes, n) {}
    }
  }

  lemma LockExclusive(s: Sched, name: string, p: nat, cpu: nat)
    requires Exclusive(s)
    ensures Exclusive(LockHandled(s, name, p, cpu))
  {
    hide Taken, Waiting, Exclusive;
    var i := FindMutex(s.mutexes, name);
    ExclusiveFrame(s, FreeCpu(s, cpu));
    if i.Some? {
      if s.mutexes[i.value].owner.None? {
        TakenExclusive(s, i.value, p);
      } else {
        WaitingExclusive(s, i.value, p);
        ExclusiveFrame(Waiting(s, i.value, p), FreeCpu(Waiting(s, i.value, p), cpu));
      }
    }
  }

  lemma UnlockCallExclusive(s: Sched, name: string, p: nat, cpu: nat)
    requires Exclusive(s)
    ensures Exclusive(UnlockHandled(s, name, p, cpu))
  {
    hide Exclusive, Unlock, Unexec, AddReady;
    UnexecKeeps(s, p);
    ExclusiveFrame(s, Unexec(s, p));
    UnlockExclusive(Unexec(s, p), name);
    var u := Unlock(Unexec(s, p), name);
    AddReadyKeeps(u.(pcbs := SetStatus(u.pcbs, p, Ready)), p);
    ExclusiveFrame(u, UnlockHandled(s, name, p, cpu));
  }

  lemma ExitExclusive(s: Sched, p: nat, cpu: nat)
    requires Exclusive(s)
    ensures Exclusive(Exited(s, p, cpu))
  {
    hide Exclusive, UnlockAll, Unexec, OwnedNames;
    UnexecKeeps(s, p);
    var out := Unexec(s, p);
    var gone := out.(pcbs := SetStatus(out.pcbs, p, Exit));
    ExclusiveFrame(s, gone);
    UnlockAllExclusive(gone, OwnedNames(gone.mutexes, p));
    ExclusiveFrame(UnlockAll(gone, OwnedNames(gone.mutexes, p)), Exited(s, p, cpu));
  }

  /** No event grants a mutex that someone has. */
  lemma StepExclusive(s: Sched, op: Op)
    requires Exclusive(s)
    ensures Exclusive(Apply(s, op))
  {
    hide Exclusive, Requeued, FreeCpu, Unexec, Spawned, LockHandled, UnlockHandled, Exited, MutexCreated;
    match op
    case Spawn(prio, accepted) =>
      SpawnedPairs(s, prio, accepted);
      ExclusiveFrame(s, Spawned(s, prio, accepted));
    case CreateMutex(name) => CreateExclusive(s, name);
    case LockCall(name, p, cpu) => LockExclusive(s, name, p, cpu);
    case UnlockCall(name, p, cpu) => UnlockCallExclusive(s, name, p, cpu);
    case InitCall(prio, accepted, p, cpu) =>
      InitMutexes(s, prio, accepted, p, cpu);
      ExclusiveFrame(s, Apply(s, op));
    case ExitCall(p, cpu) => ExitExclusive(s, p, cpu);
    case _ =>
      var p, status := Moves(s, op);
      ExclusiveFrame(s, Apply(s, op));
  }

  /** In every reachable state the owner of each mutex is who was granted it last and has not let go. */
  lemma {:induction false} RunExclusive(states: seq<Sched>, ops: seq<Op>, i: nat)
    requires Run(states, ops) && i < |states|
    ensures Exclusive(states[i])
  {
    hide Apply, Arrives, Behaved;
    if i > 0 {
      hide Initial, Exclusive;
      RunExclusive(states, ops, i - 1);
      StepExclusive(states[i - 1], ops[i - 1]);
    }
  }

  lemma {:induction false} HeldUntilReturned(h: seq<Event>, i: nat, j: nat)
    requires Orderly(h) && i < j <= |h| && h[i].Granted?
    requires forall k :: i < k < j ==> h[k] != Returned(h[i].name, h[i].pid)
    ensures Holder(h[..j], h[i].name) == Some(h[i].pid)
    decreases j
  {
    var g, e := h[..j], h[j - 1];
    assert g[..|g| - 1] == h[..j - 1] && g[|g| - 1] == e;
    if i < j - 1 {
      HeldUntilReturned(h, i, j - 1);
      assert e.Granted? ==> Holder(h[..j - 1], e.name) == None;
      assert e.Returned? ==> Holder(h[..j - 1], e.name) == Some(e.pid);
    }
  }

  /** Between two grants of a mutex, in any run, the first process has let go of it. */
  lemma GrantedOneAtATime(states: seq<Sched>, ops: seq<Op>, n: nat, i: nat, j: nat)
    requires Run(states, ops) && n < |states| && i < j < |states[n].history|
    requires states[n].history[i].Granted? && states[n].history[j].Granted?
    requires states[n].history[i].name == states[n].history[j].name
    ensures var h := states[n].history; exists k :: i < k < j && h[k] == Returned(h[i].name, h[i].pid)
  {
    hide Run, Holder;
    RunExclusive(states, ops, n);
    var h := states[n].history;
    if forall k :: i < k < j ==> h[k] != Returned(h[i].name, h[i].pid) { HeldUntilReturned(h, i, j); }
  }
}
