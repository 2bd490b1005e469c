/** What becomes of the mark that asks a CPU to stop: it stays with the CPU, whoever runs there next. */
module Marks {
  import opened Common
  import opened Scheduling
  import opened Soundness
  import opened MutexLaws
  import opened SchedRuns
  import opened Fairness
  import opened Dispatch
  import opened Lives
  import opened Turns

  /** Every CPU that was marked still is. */
  ghost predicate StillMarked(s: Sched, t: Sched) {
    forall c :: c in s.interrupts ==> c in t.interrupts
  }

  lemma AddReadyMarks(s: Sched, p: nat)
    ensures StillMarked(s, AddReady(s, p))
  {
    hide Worst, IndexOf;
  }

  lemma HandedOverMarks(s: Sched, i: nat)
    requires i < |s.mutexes| && s.mutexes[i].waiters != []
    ensures StillMarked(s, HandedOver(s, i))
  {
    hide AddReady, Least, Passed;
    var m := s.mutexes[i];
    var next := m.waiters[0];
    var inherited := SetPrio(s.pcbs, next, Least(s.pcbs, m.waiters[1..], Prio(s.pcbs, next)));
    AddReadyMarks(s.(mutexes := s.mutexes[i := Passed(m)], pcbs := SetStatus(inherited, next, Ready),
                     history := s.history + Passing(m)), next);
  }

  lemma UnlockMarks(s: Sched, name: string)
    ensures StillMarked(s, Unlock(s, name))
  {
    hide HandedOver, Needed;
    var i := FindMutex(s.mutexes, name);
    if i.Some? && s.mutexes[i.value].waiters != [] { HandedOverMarks(s, i.value); }
  }

  lemma {:induction false} UnlockAllMarks(s: Sched, names: seq<string>)
    ensures StillMarked(s, UnlockAll(s, names))
  {
    hide Unlock;
    if names != [] {
      UnlockAllMarks(s, names[..|names| - 1]);
      UnlockMarks(UnlockAll(s, names[..|names| - 1]), names[|names| - 1]);
    }
  }

  lemma WaitingMarks(s: Sched, i: nat, p: nat)
    requires i < |s.mutexes| && s.mutexes[i].owner.Some?
    ensures Waiting(s, i, p).interrupts == s.interrupts
  {
    hide Boosted, Unexec;
    UnexecKeeps(s, p);
    BoostKeeps(Unexec(s, p), s.mutexes[i].owner.value, Prio(s.pcbs, p));
  }

  lemma LockMarks(s: Sched, name: string, p: nat, cpu: nat)
    ensures LockHandled(s, name, p, cpu).interrupts == s.interrupts
  {
    hide Waiting;
    var i := FindMutex(s.mutexes, name);
    if i.Some? && s.mutexes[i.value].owner.Some? { WaitingMarks(s, i.value, p); }
  }

  lemma SpawnMarks(s: Sched, prio: nat, accepted: bool)
    ensures StillMarked(s, Spawned(s, prio, accepted))
  {
    hide AddReady;
    AddReadyMarks(s.(nextPid := s.nextPid + 1, pcbs := s.pcbs[s.nextPid := Pcb(Ready, prio, prio)]), s.nextPid);
  }

  lemma RequeueMarks(s: Sched, p: nat, cpu: nat)
    ensures StillMarked(s, FreeCpu(Requeued(Unexec(s, p), p), cpu))
  {
    hide AddReady, Unexec;
    UnexecKeeps(s, p);
    var out := Unexec(s, p);
    AddReadyMarks(out.(pcbs := SetStatus(out.pcbs, p, Ready)), p);
  }

  lemma UnlockCallMarks(s: Sched, name: string, p: nat, cpu: nat)
    ensures StillMarked(s, UnlockHandled(s, name, p, cpu))
  {
    hide AddReady, Unexec, Unlock;
    UnexecKeeps(s, p);
    var u := Unlock(Unexec(s, p), name);
    UnlockMarks(Unexec(s, p), name);
    AddReadyMarks(u.(pcbs := SetStatus(u.pcbs, p, Ready)), p);
  }

  lemma ExitMarks(s: Sched, p: nat, cpu: nat)
    ensures StillMarked(s, Exited(s, p, cpu))
  {
    hide Unexec, UnlockAll, OwnedNames;
    UnexecKeeps(s, p);
    var out := Unexec(s, p);
    var gone := out.(pcbs := SetStatus(out.pcbs, p, Exit));
    UnlockAllMarks(gone, OwnedNames(gone.mutexes, p));
  }

  lemma IoCallMarks(s: Sched, p: nat, cpu: nat, served: bool)
    ensures IoBlocked(s, p, cpu, served).interrupts == s.interrupts
  {
    hide Unexec;
    UnexecKeeps(s, p);
  }

  lemma IoEndMarks(s: Sched, p: nat)
    ensures StillMarked(s, IoEnded(s, p))
  {
    hide AddReady, Without;
    var t := s.(io := Without(s.io, p), block := Without(s.block, p));
    AddReadyMarks(t.(pcbs := SetStatus(t.pcbs, p, Ready)), p);
  }

  lemma TickMarks(s: Sched, p: nat, cpu: nat, compacting: bool, c: nat)
    requires c in s.interrupts && c != cpu
    ensures c in Ticked(s, p, cpu, compacting).interrupts
  {
    hide AddReady, Unexec, Without;
    WithoutOthers(s.interrupts, cpu);
    var u := s.(interrupts := Without(s.interrupts, cpu));
    UnexecKeeps(u, p);
    var out := Unexec(u, p);
    AddReadyMarks(out.(pcbs := SetStatus(out.pcbs, p, Ready)), p);
  }

  /** Only a tick of the CPU itself takes a mark of it away. */
  lemma MarkStays(s: Sched, op: Op, c: nat)
    requires c in s.interrupts && !(op.Tick? && op.cpu == c)
    ensures c in Apply(s, op).interrupts
  {
    hide Requeued, FreeCpu, Unexec, Spawned, Ticked, LockHandled, UnlockHandled, IoEnded, Exited, FirstNonempty;
    match op
    case Spawn(prio, accepted) => SpawnMarks(s, prio, accepted);
    case Tick(p, cpu, compacting) => TickMarks(s, p, cpu, compacting, c);
    case LockCall(name, p, cpu) => LockMarks(s, name, p, cpu);
    case UnlockCall(name, p, cpu) => UnlockCallMarks(s, name, p, cpu);
    case IoCall(p, cpu, served) => IoCallMarks(s, p, cpu, served);
    case IoEnd(p) => IoEndMarks(s, p);
    case InitCall(prio, accepted, p, cpu) =>
      SpawnMarks(s, prio, accepted);
      RequeueMarks(Spawned(s, prio, accepted), p, cpu);
    case ExitCall(p, cpu) => ExitMarks(s, p, cpu);
    case _ =>
  }

  /** The event marks CPU `c`, perhaps once more. */
  ghost predicate Adds(s: Sched, op: Op, c: nat) {
    multiset(Apply(s, op).interrupts)[c] > multiset(s.interrupts)[c]
  }

  ghost predicate Follows(states: seq<Sched>, ops: seq<Op>, i: nat, j: nat) {
    && i <= j <= |ops| && |states| == |ops| + 1
    && forall k :: i <= k < j ==> states[k + 1] == Apply(states[k], ops[k])
  }

  /** Between its ticks a CPU is marked exactly when it was before, or some event has marked it. */
  lemma {:induction false} MarkedSince(states: seq<Sched>, ops: seq<Op>, i: nat, j: nat, c: nat)
    requires Follows(states, ops, i, j)
    requires forall k :: i <= k < j ==> !(ops[k].Tick? && ops[k].cpu == c)
    ensures c in states[j].interrupts <==>
            c in states[i].interrupts || exists k :: i <= k < j && Adds(states[k], ops[k], c)
    decreases j - i
  {
    hide Apply;
    if i < j {
      MarkedSince(states, ops, i, j - 1, c);
      var s, t := states[j - 1], states[j];
      assert t == Apply(s, ops[j - 1]);
      if c in s.interrupts { MarkStays(s, ops[j - 1], c); }
      assert multiset(t.interrupts)[c] > 0 <==> c in t.interrupts;
      assert multiset(s.interrupts)[c] > 0 <==> c in s.interrupts;
      assert c in t.interrupts && c !in s.interrupts ==> Adds(s, ops[j - 1], c);
      if Adds(s, ops[j - 1], c) { assert c in t.interrupts; }
    }
  }

  /** A tick takes the process off its CPU exactly when the CPU is marked. */
  lemma TickEvictsIff(s: Sched, p: nat, cpu: nat, compacting: bool)
    requires Sound(s) && Pair(cpu, p) in s.pairs
    ensures p !in Apply(s, Tick(p, cpu, compacting)).exec <==> cpu in s.interrupts
  {
    hide Queues, Mutexes, Requests, Processors, AddReady, AddFirst, Without, DropPair, Marked;
    PairListed(s.pairs, cpu, p);
    if cpu in s.interrupts {
      var u := s.(interrupts := Without(s.interrupts, cpu));
      WithoutMembers(s.exec, p);
      var r := Unexec(u, p).(pcbs := SetStatus(u.pcbs, p, Ready));
      AddReadyKeeps(r, p);
      AddFirstKeeps(r, p);
    }
  }

  lemma AddFirstKeeps(s: Sched, p: nat)
    ensures AddFirst(s, p).exec == s.exec
  {
  }

  /** A process that was given CPU `c` is evicted at its first tick exactly when the CPU came to it marked,
      for someone before it, or has been marked since. */
  lemma EvictedIff(states: seq<Sched>, ops: seq<Op>, i: nat, j: nat, p: nat, c: nat, compacting: bool)
    requires Follows(states, ops, i, j) && j < |ops| && i < j
    requires ops[i] == Assign && states[i].hand == Some(p) && states[i].free != [] && states[i].free[0] == c
    requires forall k :: i < k < j ==> !(ops[k].Tick? && ops[k].cpu == c)
    requires ops[j] == Tick(p, c, compacting) && Sound(states[j]) && Pair(c, p) in states[j].pairs
    ensures p !in Apply(states[j], ops[j]).exec <==>
            c in states[i].interrupts || exists k :: i < k < j && Adds(states[k], ops[k], c)
  {
    hide SoundBut, Apply;
    TickEvictsIff(states[j], p, c, compacting);
    assert states[i + 1] == Apply(states[i], ops[i]);
    AssignMarks(states[i]);
    MarkedSince(states, ops, i + 1, j, c);
  }

  lemma AssignMarks(s: Sched)
    ensures Apply(s, Assign).interrupts == s.interrupts
  {
  }

  // ----------------------------------------------------------- marks made and marks used

  /** The marks an event makes on CPU `c`: one for an interruption, and one for each process it makes ready while `c`
      runs the worst of those that go on running, which is worse. */
  ghost function Made(s: Sched, op: Op, t: Sched, c: nat): nat {
    match op
    case Interrupt(cpu) => if cpu == c then 1 else 0
    case Spawn(prio, accepted) => Struck(s, s.exec, Entries(t.pcbs, Newcomers(s, op)), c)
    case IoEnd(p) => Struck(s, s.exec, Entries(t.pcbs, Newcomers(s, op)), c)
    case Tick(p, cpu, compacting) => Struck(s, Without(s.exec, p), Entries(t.pcbs, Newcomers(s, op)), c)
    case UnlockCall(name, p, cpu) => Struck(s, Without(s.exec, p), Entries(t.pcbs, Newcomers(s, op)), c)
    case ExitCall(p, cpu) => Struck(s, Without(s.exec, p), Entries(t.pcbs, Newcomers(s, op)), c)
    case InitCall(prio, accepted, p, cpu) =>
      (if accepted then Struck(s, s.exec, [Entry(s.nextPid, prio)], c) else 0) +
      Struck(s, Without(s.exec, p), Entries(t.pcbs, [p]), c)
    case _ => 0
  }

  /** The event stops CPU `c`, as a mark of it asks. */
  predicate StopsCpu(s: Sched, op: Op, c: nat) {
    op.Tick? && op.cpu == c && c in s.interrupts
  }

  function MarksOf(s: Sched, c: nat): nat {
    multiset(s.interrupts)[c]
  }

  lemma {:induction false} StruckLeft(s: Sched, p: nat, cpu: nat, out: Sched, es: seq<Entry>, c: nat)
    requires Sound(s) && Pair(cpu, p) in s.pairs
    requires out == Unexec(s, p).(interrupts := out.interrupts)
    ensures Struck(out, out.exec, es, c) == Struck(s, Without(s.exec, p), es, c)
  {
    hide SoundBut, Strikes;
    if es != [] {
      StruckLeft(s, p, cpu, out, es[..|es| - 1], c);
      StrikesLeft(s, p, cpu, out, es[|es| - 1].prio, c);
    }
    LeftExec(s, p, cpu);
  }

  lemma LeftExec(s: Sched, p: nat, cpu: nat)
    requires Sound(s) && Pair(cpu, p) in s.pairs
    ensures Unexec(s, p).exec == Without(s.exec, p) && p !in Without(s.exec, p)
  {
    PairListed(s.pairs, cpu, p);
    WithoutMembers(s.exec, p);
  }

  lemma StrikesLeft(s: Sched, p: nat, cpu: nat, out: Sched, v: nat, c: nat)
    requires Sound(s) && Pair(cpu, p) in s.pairs
    requires out == Unexec(s, p).(interrupts := out.interrupts)
    ensures Strikes(out, out.exec, v, c) <==> Strikes(s, Without(s.exec, p), v, c)
  {
    hide SoundBut, IsWorst, Unexec, Without;
    LeftExec(s, p, cpu);
    UnexecKeeps(s, p);
    forall w | IsWorst(s.pcbs, Without(s.exec, p), v, w) ensures Pair(c, w) in out.pairs <==> Pair(c, w) in s.pairs {
      OneWorst(s.pcbs, Without(s.exec, p), v, w, w);
      PairsLeft(s, p, cpu, c, w);
    }
  }

  lemma JoinsMarks(r: Sched, es: seq<Entry>, t: Sched, c: nat)
    requires Joins(r, es, t)
    ensures MarksOf(t, c) == MarksOf(r, c) + Struck(r, r.exec, es, c)
  {
  }

  lemma WithoutOne(s: seq<nat>, x: nat)
    ensures forall c :: multiset(Without(s, x))[c] == multiset(s)[c] - if c == x && x in s then 1 else 0
  {
    var i := IndexOf(s, x);
    if i.Some? {
      assert s == s[..i.value] + [x] + s[i.value + 1..];
    }
  }

  lemma TickMade(s: Sched, p: nat, cpu: nat, compacting: bool, c: nat)
    requires Sound(s) && Pair(cpu, p) in s.pairs
    ensures var op := Tick(p, cpu, compacting);
            var t := Apply(s, op);
            MarksOf(t, c) + (if StopsCpu(s, op, c) then 1 else 0) == MarksOf(s, c) + Made(s, op, t, c)
  {
    hide SoundBut, Unexec, AddReady, Struck, Joins, Without;
    var op := Tick(p, cpu, compacting);
    var t := Apply(s, op);
    WithoutOne(s.interrupts, cpu);
    if cpu !in s.interrupts || compacting {
      assert Entries(t.pcbs, Newcomers(s, op)) == [];
      NobodyStrikes(s, Without(s.exec, p), c);
      var u := s.(interrupts := Without(s.interrupts, cpu));
      UnexecKeeps(u, p);
    } else {
      var out := Unexec(s, p).(interrupts := Without(s.interrupts, cpu));
      TickJoins(s, p, cpu);
      JoinsMarks(out, Entries(t.pcbs, [p]), t, c);
      StruckLeft(s, p, cpu, out, Entries(t.pcbs, [p]), c);
    }
  }

  lemma TickMarked(s: Sched, p: nat, cpu: nat, compacting: bool)
    requires Sound(s) && Pair(cpu, p) in s.pairs
    ensures var op, t := Tick(p, cpu, compacting), Apply(s, Tick(p, cpu, compacting));
            forall c :: MarksOf(t, c) + (if c == cpu && cpu in s.interrupts then 1 else 0) ==
                        MarksOf(s, c) + Made(s, op, t, c)
  {
    hide SoundBut, Apply, MarksOf, Made;
    var op, t := Tick(p, cpu, compacting), Apply(s, Tick(p, cpu, compacting));
    forall c
      ensures MarksOf(t, c) + (if c == cpu && cpu in s.interrupts then 1 else 0) == MarksOf(s, c) + Made(s, op, t, c)
    {
      TickMade(s, p, cpu, compacting, c);
    }
  }

  lemma NobodyStrikes(s: Sched, running: seq<nat>, c: nat)
    ensures Struck(s, running, [], c) == 0
  {
  }

  lemma UnlockMade(s: Sched, name: string, p: nat, cpu: nat, c: nat)
    requires Sound(s) && Pair(cpu, p) in s.pairs && OwnedOrIdle(s, name, p)
    ensures var op := UnlockCall(name, p, cpu);
            var t := Apply(s, op);
            MarksOf(t, c) == MarksOf(s, c) + Made(s, op, t, c)
  {
    hide SoundBut, UnlockHandled, Struck, Joins, Unexec, Entries, HeirOf, OwnedOrIdle;
    var t := UnlockHandled(s, name, p, cpu);
    var es := Entries(t.pcbs, HeirOf(s.mutexes, name) + [p]);
    UnexecKeeps(s, p);
    UnlockCallJoins(s, name, p, cpu);
    JoinsMarks(Unexec(s, p), es, t, c);
    StruckLeft(s, p, cpu, Unexec(s, p), es, c);
  }

  lemma ExitMade(s: Sched, p: nat, cpu: nat, c: nat)
    requires Sound(s) && Pair(cpu, p) in s.pairs
    ensures var op := ExitCall(p, cpu);
            var t := Apply(s, op);
            MarksOf(t, c) == MarksOf(s, c) + Made(s, op, t, c)
  {
    hide SoundBut, Exited, Struck, Joins, Unexec, Entries, Heirs;
    var t := Exited(s, p, cpu);
    var es := Entries(t.pcbs, Heirs(s.mutexes, p));
    UnexecKeeps(s, p);
    ExitJoins(s, p, cpu);
    JoinsMarks(Unexec(s, p), es, t, c);
    StruckLeft(s, p, cpu, Unexec(s, p), es, c);
  }

  lemma SpawnMade(s: Sched, prio: nat, accepted: bool, c: nat)
    requires Sound(s)
    ensures var op := Spawn(prio, accepted);
            var t := Apply(s, op);
            && MarksOf(t, c) == MarksOf(s, c) + Made(s, op, t, c)
            && Made(s, op, t, c) == if accepted then Struck(s, s.exec, [Entry(s.nextPid, prio)], c) else 0
  {
    hide SoundBut, Spawned, Struck, Joins;
    var op := Spawn(prio, accepted);
    var t := Apply(s, op);
    var es := if accepted then [Entry(s.nextPid, prio)] else [];
    SpawnJoins(s, prio, accepted);
    JoinsMarks(s, es, t, c);
    NobodyStrikes(s, s.exec, c);
    assert Entries(t.pcbs, Newcomers(s, op)) == es;
  }

  lemma InitMade(s: Sched, prio: nat, accepted: bool, p: nat, cpu: nat, c: nat)
    requires Sound(s) && Pair(cpu, p) in s.pairs
    ensures var op := InitCall(prio, accepted, p, cpu);
            var t := Apply(s, op);
            MarksOf(t, c) == MarksOf(s, c) + Made(s, op, t, c)
  {
    hide SoundBut, Spawned, Struck, Joins, Unexec, Entries, Requeued;
    var op := InitCall(prio, accepted, p, cpu);
    var t, u := Apply(s, op), Spawned(s, prio, accepted);
    var es := Entries(t.pcbs, [p]);
    SpawnMade(s, prio, accepted, c);
    InitJoins(s, prio, accepted, p, cpu);
    SpawnSound(s, prio, accepted);
    SpawnDesks(s, prio, accepted);
    UnexecKeeps(u, p);
    JoinsMarks(Unexec(u, p), es, t, c);
    StruckLeft(u, p, cpu, Unexec(u, p), es, c);
    assert Struck(u, Without(s.exec, p), es, c) == Struck(s, Without(s.exec, p), es, c) by {
      NewcomerStrikes(s, prio, accepted, p, cpu, es, c);
    }
  }

  lemma {:induction false} NewcomerStrikes(s: Sched, prio: nat, accepted: bool, p: nat, cpu: nat, es: seq<Entry>,
                                           c: nat)
    requires Sound(s) && Pair(cpu, p) in s.pairs
    ensures Struck(Spawned(s, prio, accepted), Without(s.exec, p), es, c) == Struck(s, Without(s.exec, p), es, c)
  {
    hide SoundBut, Spawned, Strikes, Without;
    if es != [] {
      NewcomerStrikes(s, prio, accepted, p, cpu, es[..|es| - 1], c);
      var u, v := Spawned(s, prio, accepted), es[|es| - 1].prio;
      SpawnOrigs(s, prio, accepted);
      SpawnDesks(s, prio, accepted);
      SoundPaired(s, {}, {});
      forall x | x in Without(s.exec, p) ensures Prio(u.pcbs, x) == Prio(s.pcbs, x) { WithoutLess(s.exec, p, x); }
      StrikesAlike(s, u, Without(s.exec, p), v, c);
    }
  }

  lemma WithoutLess(s: seq<nat>, x: nat, y: nat)
    requires y in Without(s, x)
    ensures y in s
  {
  }

  lemma StrikesAlike(s: Sched, u: Sched, running: seq<nat>, v: nat, c: nat)
    requires u.preempt == s.preempt && u.levels == s.levels && u.pairs == s.pairs
    requires forall x :: x in running ==> Prio(u.pcbs, x) == Prio(s.pcbs, x)
    ensures Strikes(u, running, v, c) <==> Strikes(s, running, v, c)
  {
    forall w ensures IsWorst(u.pcbs, running, v, w) <==> IsWorst(s.pcbs, running, v, w) {
      if w in running { WorstSame(s.pcbs, u.pcbs, running, v, w); }
    }
  }

  /** The marks of a CPU after any event: those it had, and those made, less the one its own stop uses up. */
  lemma MarkLaw(s: Sched, op: Op, c: nat)
    requires Sound(s) && Arrives(s, op) && Behaved(s, op)
    ensures var t := Apply(s, op);
            MarksOf(t, c) + (if StopsCpu(s, op, c) then 1 else 0) == MarksOf(s, c) + Made(s, op, t, c)
  {
    hide SoundBut, Unexec, Spawned, Ticked, LockHandled, UnlockHandled, IoEnded, Exited, IoBlocked, Struck, Entries,
      TakenByDispatcher, Assigned, Requeued, Heirs, HeirOf, OwnedOrIdle, Without;
    match op
    case Spawn(prio, accepted) => SpawnMade(s, prio, accepted, c);
    case Take => DispatchMarks(s);
    case Assign => DispatchMarks(s);
    case Tick(p, cpu, compacting) => TickMade(s, p, cpu, compacting, c);
    case LockCall(name, p, cpu) => LockMarks(s, name, p, cpu);
    case UnlockCall(name, p, cpu) => UnlockMade(s, name, p, cpu, c);
    case IoCall(p, cpu, served) => IoCallMarks(s, p, cpu, served);
    case IoEnd(p) =>
      IoEndJoins(s, p);
      JoinsMarks(s, Entries(Apply(s, op).pcbs, [p]), Apply(s, op), c);
    case InitCall(prio, accepted, p, cpu) => InitMade(s, prio, accepted, p, cpu, c);
    case ExitCall(p, cpu) => ExitMade(s, p, cpu, c);
    case _ =>
  }

  lemma DispatchMarks(s: Sched)
    ensures Apply(s, Take).interrupts == s.interrupts && Apply(s, Assign).interrupts == s.interrupts
  {
    hide FirstNonempty;
  }

  /** Between two states of a run, the marks made on CPU `c` and the stops that used one up. */
  ghost function AllMade(states: seq<Sched>, ops: seq<Op>, i: nat, j: nat, c: nat): nat
    requires i <= j <= |ops| < |states|
    decreases j
  {
    if i == j then 0 else AllMade(states, ops, i, j - 1, c) + Made(states[j - 1], ops[j - 1], states[j], c)
  }

  function AllStops(states: seq<Sched>, ops: seq<Op>, i: nat, j: nat, c: nat): nat
    requires i <= j <= |ops| < |states|
    decreases j
  {
    if i == j then 0 else AllStops(states, ops, i, j - 1, c) + if StopsCpu(states[j - 1], ops[j - 1], c) then 1 else 0
  }

  /** In every run the marks of a CPU are those it had, and those made since, less its stops: each stop has a mark of
      its own. */
  lemma {:induction false} MarksBalance(states: seq<Sched>, ops: seq<Op>, i: nat, j: nat, c: nat)
    requires Run(states, ops) && i <= j < |states|
    ensures MarksOf(states[j], c) + AllStops(states, ops, i, j, c) ==
            MarksOf(states[i], c) + AllMade(states, ops, i, j, c)
    decreases j
  {
    hide SoundBut, Fifo, Apply, Behaved, Arrives, Initial, Made, StopsCpu, MarksOf;
    if i < j {
      MarksBalance(states, ops, i, j - 1, c);
      RunSound(states, ops, j - 1);
      MarkLaw(states[j - 1], ops[j - 1], c);
    }
  }

  // ----------------------------------------------------------- a mark that finds another process

  /** The quantum of 0 has expired on CPU 10, and 1 waits for a CPU. */
  const LATE := Sched(
    2, true, true, map[0 := Pcb(Exec, 1, 1), 1 := Pcb(Ready, 0, 0)], 2,
    [[1], []], 1, None, [0], [Pair(10, 0)], [], {10}, [10], [], [], [], [])

  /** The same once 0 has blocked for IO. */
  const IDLE := LATE.(exec := [], pairs := [], pcbs := map[0 := Pcb(Block, 1, 1), 1 := Pcb(Ready, 0, 0)], block := [0],
                      free := [10])

  /** The dispatcher has taken 1. */
  const HELD := IDLE.(tokens := 0, hand := Some(1), ready := [[], []])

  /** And 1 runs on CPU 10. */
  const STRUCK := HELD.(hand := None, free := [], pcbs := map[0 := Pcb(Block, 1, 1), 1 := Pcb(Exec, 0, 0)],
                        exec := [1], pairs := [Pair(10, 1)])

  lemma LateQueues()
    ensures Queues(LATE, {}) && Requests(LATE, {}) && Mutexes(LATE, {})
  {
    var ready: seq<seq<nat>> := LATE.ready;
    var none: seq<seq<nat>> := ready[..1][..0];
    assert none == [] && Total(ready[..1]) == 1 && Total(ready) == 1;
  }

  lemma LateSound()
    ensures Sound(LATE)
  {
    hide Queues, Requests, Mutexes;
    LateQueues();
    assert PidsOf(LATE.pairs) == [0] && CpusOf(LATE.pairs) == [10];
  }

  lemma LateBlocks()
    ensures Apply(LATE, IoCall(0, 10, false)) == IDLE
  {
    assert PidsOf(LATE.pairs) == [0];
    assert Unexec(LATE, 0) == LATE.(exec := [], pairs := []);
  }

  lemma IdleTaken()
    ensures Apply(IDLE, Take) == HELD
  {
    assert FirstNonempty(IDLE.ready) == Some(0);
    assert IDLE.ready[0][1..] == [] && IDLE.ready[0 := []] == [[], []];
  }

  lemma HeldAssigned()
    ensures Apply(HELD, Assign) == STRUCK
  {
    assert HELD.free[1..] == [] && SetStatus(HELD.pcbs, 1, Exec) == STRUCK.pcbs;
  }

  lemma StruckSound()
    ensures Sound(STRUCK)
  {
    hide SoundBut, Apply;
    LateSound();
    LateBlocks();
    IdleTaken();
    HeldAssigned();
    assert LATE.pairs[0] == Pair(10, 0);
    StepSound(LATE, IoCall(0, 10, false));
    StepSound(IDLE, Take);
    StepSound(HELD, Assign);
  }

  /** The mark made for 0 evicts 1, which had just begun and has the better priority. */
  lemma MarkStrikesAnother()
    ensures Sound(LATE) && Pair(10, 0) in LATE.pairs && LATE.interrupts == [10]
    ensures STRUCK == Apply(Apply(Apply(LATE, IoCall(0, 10, false)), Take), Assign)
    ensures Pair(10, 1) in STRUCK.pairs && Prio(STRUCK.pcbs, 1) < Prio(STRUCK.pcbs, 0)
    ensures 1 in STRUCK.exec && 1 !in Apply(STRUCK, Tick(1, 10, false)).exec
  {
    hide SoundBut, Apply;
    LateSound();
    LateBlocks();
    IdleTaken();
    HeldAssigned();
    StruckSound();
    assert LATE.pairs[0] == Pair(10, 0) && STRUCK.pairs[0] == Pair(10, 1);
    TickEvictsIff(STRUCK, 1, 10, false);
  }
}
