/** The life of a process: which events change its state, its CPU and its pending request, and how. */
module Lives {
  import opened Common
  import opened Scheduling
  import opened Soundness
  import opened MutexLaws
  import opened SchedRuns
  import opened Fairness
  import opened Exclusion

  // ----------------------------------------------------------- states

  /** The state of a process that exists. */
  function StatusOf(pcbs: map<nat, Pcb>, q: nat): Option<Status> {
    if q in pcbs then Some(pcbs[q].status) else None
  }

  /** The first in line for this mutex, which someone has. */
  predicate Heir(m: Mutex, q: nat) {
    m.owner.Some? && m.waiters != [] && m.waiters[0] == q
  }

  /** The event lets go of a mutex that `q` is the first to wait for. */
  ghost predicate HandedTo(ms: seq<Mutex>, op: Op, q: nat) {
    exists i ::
      && 0 <= i < |ms| && Heir(ms[i], q)
      && ((op.UnlockCall? && ms[i].name == op.name) || (op.ExitCall? && ms[i].owner == Some(op.pid)))
  }

  ghost predicate Busy(ms: seq<Mutex>, name: string) {
    exists i :: 0 <= i < |ms| && ms[i].name == name && ms[i].owner.Some?
  }

  /** The event makes `q` ready: it is new, it gave up its CPU, its IO is done, or a mutex is its own at last. */
  ghost predicate Readies(s: Sched, op: Op, q: nat) {
    || ((op.Spawn? || op.InitCall?) && op.accepted && q == s.nextPid)
    || (op.Tick? && op.pid == q && op.cpu in s.interrupts)
    || ((op.UnlockCall? || op.InitCall? || op.IoEnd?) && op.pid == q)
    || HandedTo(s.mutexes, op, q)
  }

  /** The event makes `q` wait: for IO, or for a mutex someone has. */
  ghost predicate Stops(s: Sched, op: Op, q: nat) {
    || (op.IoCall? && op.pid == q)
    || (op.LockCall? && op.pid == q && Busy(s.mutexes, op.name))
  }

  /** What becomes of the state of `q`. */
  ghost function Becomes(s: Sched, op: Op, q: nat): Option<Status> {
    if op.ExitCall? && op.pid == q then None
    else if Readies(s, op, q) then Some(Ready)
    else if Stops(s, op, q) then Some(Block)
    else if op.Assign? && s.hand == Some(q) then Some(Exec)
    else StatusOf(s.pcbs, q)
  }

  lemma AddReadyPcbs(s: Sched, p: nat)
    ensures AddReady(s, p).pcbs == s.pcbs && AddFirst(s, p).pcbs == s.pcbs
  {
    hide Marked;
  }

  lemma HandedOverStatus(s: Sched, i: nat, q: nat)
    requires i < |s.mutexes| && s.mutexes[i].waiters != []
    ensures var t := HandedOver(s, i);
            StatusOf(t.pcbs, q) ==
            if q == s.mutexes[i].waiters[0] && q in s.pcbs then Some(Ready) else StatusOf(s.pcbs, q)
  {
    hide AddReady, Least, Passed, Passing;
    var m := s.mutexes[i];
    var next := m.waiters[0];
    var inherited := SetPrio(s.pcbs, next, Least(s.pcbs, m.waiters[1..], Prio(s.pcbs, next)));
    AddReadyPcbs(s.(mutexes := s.mutexes[i := Passed(m)], pcbs := SetStatus(inherited, next, Ready),
                    history := s.history + Passing(m)), next);
  }

  lemma UnlockStatus(s: Sched, name: string, q: nat)
    ensures var i := FindMutex(s.mutexes, name);
            StatusOf(Unlock(s, name).pcbs, q) ==
            if i.Some? && Heir(s.mutexes[i.value], q) && q in s.pcbs then Some(Ready) else StatusOf(s.pcbs, q)
  {
    hide HandedOver, Needed;
    var i := FindMutex(s.mutexes, name);
    if i.Some? && s.mutexes[i.value].waiters != [] { HandedOverStatus(s, i.value, q); }
  }

  ghost predicate HeirByName(ms: seq<Mutex>, names: seq<string>, q: nat) {
    exists j :: 0 <= j < |ms| && ms[j].name in names && Heir(ms[j], q)
  }

  lemma {:induction false} UnlockAllStatus(s: Sched, moving: set<nat>, loose: set<nat>, names: seq<string>, p: nat,
                                           q: nat)
    requires SoundBut(s, moving, loose) && p in moving && UniqueNames(s.mutexes)
    requires NoDup(names) && forall name :: name in names ==> Owns(s.mutexes, p, name)
    ensures StatusOf(UnlockAll(s, names).pcbs, q) ==
            if q in s.pcbs && HeirByName(s.mutexes, names, q) then Some(Ready) else StatusOf(s.pcbs, q)
  {
    hide SoundBut, Unlock, UniqueNames, Heir;
    if names != [] {
      var front, last := names[..|names| - 1], names[|names| - 1];
      assert names == front + [last];
      assert last in names && forall name :: name in front ==> name in names;
      UnlockAllStatus(s, moving, loose, front, p, q);
      UnlockAllSound(s, moving, loose, front, p);
      var m := UnlockAll(s, front);
      var j :| 0 <= j < |s.mutexes| && s.mutexes[j].name == last && s.mutexes[j].owner == Some(p);
      PassedMore(s.mutexes, front, last, m.mutexes, j);
      UnlockStatus(m, last, q);
      OneName(s.mutexes, front, last, j, q);
    }
  }

  lemma OneName(ms: seq<Mutex>, front: seq<string>, last: string, j: nat, q: nat)
    requires UniqueNames(ms) && j < |ms| && ms[j].name == last
    ensures HeirByName(ms, front + [last], q) <==> HeirByName(ms, front, q) || Heir(ms[j], q)
  {
    hide Heir;
    if HeirByName(ms, front + [last], q) {
      var k :| 0 <= k < |ms| && ms[k].name in front + [last] && Heir(ms[k], q);
      assert ms[k].name in front || k == j;
    }
    if HeirByName(ms, front, q) {
      var k :| 0 <= k < |ms| && ms[k].name in front && Heir(ms[k], q);
      assert ms[k].name in front + [last];
    }
    if Heir(ms[j], q) { assert ms[j].name in front + [last]; }
  }

  lemma ExitStatus(s: Sched, p: nat, cpu: nat, q: nat)
    requires Sound(s) && Pair(cpu, p) in s.pairs
    ensures StatusOf(Exited(s, p, cpu).pcbs, q) == Becomes(s, ExitCall(p, cpu), q)
  {
    hide SoundBut, UnlockAll, OwnedNames, Unexec, UniqueNames;
    Leaves(s, p, cpu);
    UnexecKeeps(s, p);
    var out := Unexec(s, p);
    MovingStatus(out, {p}, {cpu}, p, Exit);
    var gone := out.(pcbs := SetStatus(out.pcbs, p, Exit));
    SoundNames(gone, {p}, {cpu}, p);
    OwnedNamesExact(gone.mutexes, p);
    var names := OwnedNames(gone.mutexes, p);
    UnlockAllStatus(gone, {p}, {cpu}, names, p, q);
    OwnersHeir(s, names, ExitCall(p, cpu), q);
    HeirKnown(s, q);
  }

  /** The names of the mutexes `p` owns lead to the heirs of those mutexes, and to nobody else. */
  lemma OwnersHeir(s: Sched, names: seq<string>, op: Op, q: nat)
    requires op.ExitCall? && UniqueNames(s.mutexes) && forall name :: name in names <==> Owns(s.mutexes, op.pid, name)
    ensures HeirByName(s.mutexes, names, q) <==> HandedTo(s.mutexes, op, q)
  {
    var ms := s.mutexes;
    if HeirByName(ms, names, q) {
      var j :| 0 <= j < |ms| && ms[j].name in names && Heir(ms[j], q);
      var k :| 0 <= k < |ms| && ms[k].name == ms[j].name && ms[k].owner == Some(op.pid);
      assert k == j;
    }
    if HandedTo(ms, op, q) {
      var j :| 0 <= j < |ms| && Heir(ms[j], q) && ms[j].owner == Some(op.pid);
      assert ms[j].name in names;
    }
  }

  lemma HeirKnown(s: Sched, q: nat)
    requires Sound(s)
    ensures forall i :: 0 <= i < |s.mutexes| && Heir(s.mutexes[i], q) ==> HasStatus(s.pcbs, q, Block)
  {
    forall i | 0 <= i < |s.mutexes| && Heir(s.mutexes[i], q) ensures HasStatus(s.pcbs, q, Block) {
      assert WaitsOn(s.mutexes, i, q);
    }
  }

  lemma UnlockCallStatus(s: Sched, name: string, p: nat, cpu: nat, q: nat)
    requires Sound(s) && Pair(cpu, p) in s.pairs
    ensures StatusOf(UnlockHandled(s, name, p, cpu).pcbs, q) == Becomes(s, UnlockCall(name, p, cpu), q)
  {
    hide SoundBut, Unlock, Unexec, AddReady, Heir;
    UnexecKeeps(s, p);
    UnlockStatus(Unexec(s, p), name, q);
    var u := Unlock(Unexec(s, p), name);
    AddReadyPcbs(u.(pcbs := SetStatus(u.pcbs, p, Ready)), p);
    HeirKnown(s, q);
    RunningHere(s, p, cpu);
    UnlockStatus(Unexec(s, p), name, p);
    SoundUnique(s);
  }

  lemma SoundUnique(s: Sched)
    requires Sound(s)
    ensures UniqueNames(s.mutexes)
  {
  }

  lemma RunningHere(s: Sched, p: nat, cpu: nat)
    requires Sound(s) && Pair(cpu, p) in s.pairs
    ensures HasStatus(s.pcbs, p, Exec) && p < s.nextPid && s.nextPid !in s.pcbs
  {
    PairListed(s.pairs, cpu, p);
  }

  lemma LockStatus(s: Sched, name: string, p: nat, cpu: nat, q: nat)
    requires Sound(s) && Pair(cpu, p) in s.pairs
    ensures StatusOf(LockHandled(s, name, p, cpu).pcbs, q) == Becomes(s, LockCall(name, p, cpu), q)
  {
    hide SoundBut, Boosted, Unexec;
    RunningHere(s, p, cpu);
    SoundUnique(s);
    var i := FindMutex(s.mutexes, name);
    if i.Some? && s.mutexes[i.value].owner.Some? {
      UnexecKeeps(s, p);
      BoostKeeps(Unexec(s, p), s.mutexes[i.value].owner.value, Prio(s.pcbs, p));
    }
  }

  lemma SpawnStatus(s: Sched, prio: nat, accepted: bool, q: nat)
    ensures StatusOf(Spawned(s, prio, accepted).pcbs, q) == Becomes(s, Spawn(prio, accepted), q)
  {
    hide AddReady;
    AddReadyPcbs(s.(nextPid := s.nextPid + 1, pcbs := s.pcbs[s.nextPid := Pcb(Ready, prio, prio)]), s.nextPid);
  }

  lemma InitStatus(s: Sched, prio: nat, accepted: bool, p: nat, cpu: nat, q: nat)
    requires Sound(s) && Pair(cpu, p) in s.pairs
    ensures var op := InitCall(prio, accepted, p, cpu); StatusOf(Apply(s, op).pcbs, q) == Becomes(s, op, q)
  {
    hide SoundBut, AddReady, Unexec, Spawned;
    RunningHere(s, p, cpu);
    SpawnStatus(s, prio, accepted, q);
    SpawnStatus(s, prio, accepted, p);
    var u := Spawned(s, prio, accepted);
    UnexecKeeps(u, p);
    AddReadyPcbs(Unexec(u, p).(pcbs := SetStatus(u.pcbs, p, Ready)), p);
  }

  lemma TickStatus(s: Sched, p: nat, cpu: nat, compacting: bool, q: nat)
    requires Sound(s) && Pair(cpu, p) in s.pairs
    ensures StatusOf(Ticked(s, p, cpu, compacting).pcbs, q) == Becomes(s, Tick(p, cpu, compacting), q)
  {
    hide SoundBut, AddReady, AddFirst, Unexec, Without;
    RunningHere(s, p, cpu);
    var u := s.(interrupts := Without(s.interrupts, cpu));
    UnexecKeeps(u, p);
    AddReadyPcbs(Unexec(u, p).(pcbs := SetStatus(u.pcbs, p, Ready)), p);
  }

  lemma IoStatus(s: Sched, p: nat, cpu: nat, served: bool, q: nat)
    requires Sound(s) && Pair(cpu, p) in s.pairs
    ensures StatusOf(IoBlocked(s, p, cpu, served).pcbs, q) == Becomes(s, IoCall(p, cpu, served), q)
  {
    hide SoundBut, Unexec;
    RunningHere(s, p, cpu);
    UnexecKeeps(s, p);
  }

  lemma IoEndStatus(s: Sched, p: nat, q: nat)
    requires Sound(s) && p in s.io
    ensures StatusOf(IoEnded(s, p).pcbs, q) == Becomes(s, IoEnd(p), q)
    ensures HasStatus(s.pcbs, p, Block)
  {
    hide AddReady, Without, Queues, Mutexes, Running, Processors;
    var u := s.(io := Without(s.io, p), block := Without(s.block, p));
    AddReadyPcbs(u.(pcbs := SetStatus(u.pcbs, p, Ready)), p);
  }

  lemma HandKnown(s: Sched)
    requires Sound(s) && s.hand.Some?
    ensures s.hand.value in s.pcbs
  {
  }

  /** The state of every process after every event: it changes for these reasons and no others. */
  lemma LifeLaw(s: Sched, op: Op, q: nat)
    requires Sound(s) && Arrives(s, op)
    ensures StatusOf(Apply(s, op).pcbs, q) == Becomes(s, op, q)
  {
    hide SoundBut, Requeued, FreeCpu, Unexec, Spawned, Ticked, LockHandled, UnlockHandled, IoBlocked, IoEnded, Exited,
      FirstNonempty, Heir;
    match op
    case Spawn(prio, accepted) => SpawnStatus(s, prio, accepted, q);
    case Assign => HandKnown(s);
    case Tick(p, cpu, compacting) => TickStatus(s, p, cpu, compacting, q);
    case LockCall(name, p, cpu) => LockStatus(s, name, p, cpu, q);
    case UnlockCall(name, p, cpu) => UnlockCallStatus(s, name, p, cpu, q);
    case IoCall(p, cpu, served) => IoStatus(s, p, cpu, served, q);
    case IoEnd(p) => IoEndStatus(s, p, q);
    case InitCall(prio, accepted, p, cpu) => InitStatus(s, prio, accepted, p, cpu, q);
    case ExitCall(p, cpu) => ExitStatus(s, p, cpu, q);
    case _ =>
  }

  // ----------------------------------------------------------- requests for IO

  /** Unlocking and spawning leave CPUs, running processes and requests alone. */
  ghost predicate SameDesks(s: Sched, t: Sched) {
    && t.exec == s.exec && t.pairs == s.pairs && t.free == s.free && t.io == s.io && t.hand == s.hand
    && t.levels == s.levels && t.cmn == s.cmn && t.preempt == s.preempt
  }

  lemma UnlockDesks(s: Sched, name: string)
    ensures SameDesks(s, Unlock(s, name))
  {
    hide AddReady, Needed, Least;
    var i := FindMutex(s.mutexes, name);
    if i.Some? && s.mutexes[i.value].waiters != [] {
      var m := s.mutexes[i.value];
      var next := m.waiters[0];
      var inherited := SetPrio(s.pcbs, next, Least(s.pcbs, m.waiters[1..], Prio(s.pcbs, next)));
      AddReadyKeeps(s.(mutexes := s.mutexes[i.value := Passed(m)], pcbs := SetStatus(inherited, next, Ready),
                       history := s.history + Passing(m)), next);
    }
  }

  lemma {:induction false} UnlockAllDesks(s: Sched, names: seq<string>)
    ensures SameDesks(s, UnlockAll(s, names))
  {
    hide Unlock;
    if names != [] {
      UnlockAllDesks(s, names[..|names| - 1]);
      UnlockDesks(UnlockAll(s, names[..|names| - 1]), names[|names| - 1]);
    }
  }

  lemma SpawnDesks(s: Sched, prio: nat, accepted: bool)
    ensures SameDesks(s, Spawned(s, prio, accepted))
  {
    hide AddReady;
    AddReadyKeeps(s.(nextPid := s.nextPid + 1, pcbs := s.pcbs[s.nextPid := Pcb(Ready, prio, prio)]), s.nextPid);
  }

  lemma ReadyDesks(s: Sched, p: nat)
    ensures SameDesks(s, AddReady(s, p)) && SameDesks(s, AddFirst(s, p)) && SameDesks(s, Requeued(s, p))
  {
    hide Marked;
  }

  /** Where a running process and its CPU go: the process off its CPU, the CPU last in the line of free ones. */
  ghost predicate Vacates(s: Sched, p: nat, cpu: nat, t: Sched) {
    && t.exec == Unexec(s, p).exec && t.pairs == Unexec(s, p).pairs && t.free == s.free + [cpu]
    && t.levels == s.levels && t.cmn == s.cmn && t.preempt == s.preempt && t.hand == s.hand
  }

  lemma UnlockVacates(s: Sched, name: string, p: nat, cpu: nat)
    ensures Vacates(s, p, cpu, UnlockHandled(s, name, p, cpu)) && UnlockHandled(s, name, p, cpu).io == s.io
  {
    hide Unlock, Unexec, Requeued;
    UnexecKeeps(s, p);
    UnlockDesks(Unexec(s, p), name);
    ReadyDesks(Unlock(Unexec(s, p), name), p);
  }

  lemma ExitVacates(s: Sched, p: nat, cpu: nat)
    ensures Vacates(s, p, cpu, Exited(s, p, cpu)) && Exited(s, p, cpu).io == s.io
  {
    hide UnlockAll, OwnedNames, Unexec;
    UnexecKeeps(s, p);
    var out := Unexec(s, p);
    var gone := out.(pcbs := SetStatus(out.pcbs, p, Exit));
    UnlockAllDesks(gone, OwnedNames(gone.mutexes, p));
  }

  lemma InitVacates(s: Sched, prio: nat, accepted: bool, p: nat, cpu: nat)
    ensures var t := Apply(s, InitCall(prio, accepted, p, cpu));
            t.exec == Unexec(s, p).exec && Vacates(s, p, cpu, t) && t.io == s.io
  {
    hide Requeued, Spawned;
    SpawnDesks(s, prio, accepted);
    var u := Spawned(s, prio, accepted);
    UnexecKeeps(u, p);
    ReadyDesks(Unexec(u, p), p);
  }

  lemma TickVacates(s: Sched, p: nat, cpu: nat, compacting: bool)
    ensures var t := Ticked(s, p, cpu, compacting);
            t.io == s.io && if cpu in s.interrupts then Vacates(s, p, cpu, t) else t == s
  {
    hide AddReady, AddFirst, Without, DropPair;
    var u := s.(interrupts := Without(s.interrupts, cpu));
    UnexecKeeps(u, p);
    ReadyDesks(Unexec(u, p).(pcbs := SetStatus(u.pcbs, p, Ready)), p);
  }

  lemma LockVacates(s: Sched, name: string, p: nat, cpu: nat)
    ensures var (t, i) := (LockHandled(s, name, p, cpu), FindMutex(s.mutexes, name));
            && t.io == s.io
            && if i.None? then t == FreeCpu(s, cpu)
               else if s.mutexes[i.value].owner.None? then SameDesks(s, t)
               else Vacates(s, p, cpu, t)
  {
    hide Boosted, Unexec;
    var i := FindMutex(s.mutexes, name);
    UnexecKeeps(s, p);
    if i.Some? && s.mutexes[i.value].owner.Some? {
      BoostKeeps(Unexec(s, p), s.mutexes[i.value].owner.value, Prio(s.pcbs, p));
    }
  }

  lemma IoVacates(s: Sched, p: nat, cpu: nat, served: bool)
    ensures var t := IoBlocked(s, p, cpu, served);
            Vacates(s, p, cpu, t) && t.io == s.io + if served then [p] else []
  {
    hide Unexec;
    UnexecKeeps(s, p);
  }

  /** A request is pending from the call an interface serves to its answer. */
  lemma RequestLaw(s: Sched, op: Op, q: nat)
    requires Sound(s) && Arrives(s, op)
    ensures q in Apply(s, op).io <==>
            (op.IoCall? && op.pid == q && op.served) || (q in s.io && !(op.IoEnd? && op.pid == q))
  {
    hide Processes, Queues, Running, Processors, Mutexes, Requeued, FreeCpu, Unexec, Spawned, Ticked, LockHandled,
      UnlockHandled, IoBlocked, Exited, FirstNonempty, Without;
    match op
    case Spawn(prio, accepted) => SpawnDesks(s, prio, accepted);
    case Tick(p, cpu, compacting) => TickVacates(s, p, cpu, compacting);
    case LockCall(name, p, cpu) => LockVacates(s, name, p, cpu);
    case UnlockCall(name, p, cpu) => UnlockVacates(s, name, p, cpu);
    case IoCall(p, cpu, served) => IoVacates(s, p, cpu, served);
    case IoEnd(p) =>
      WithoutMembers(s.io, p);
      ReadyDesks(s.(io := Without(s.io, p), block := Without(s.block, p)), p);
    case InitCall(prio, accepted, p, cpu) => InitVacates(s, prio, accepted, p, cpu);
    case ExitCall(p, cpu) => ExitVacates(s, p, cpu);
    case _ =>
  }

  /** The answer to a request makes its process ready, in the queue of its priority if there is one, and
      concerns nobody else. */
  lemma AnswerWakes(s: Sched, p: nat)
    requires Sound(s) && p in s.io
    ensures var t := Apply(s, IoEnd(p));
            && p !in t.io && HasStatus(s.pcbs, p, Block) && HasStatus(t.pcbs, p, Ready)
            && (Plannable(t, p) ==> Queued(t.ready, Level(t.cmn, t.pcbs, p), p))
            && forall q :: q != p ==> StatusOf(t.pcbs, q) == StatusOf(s.pcbs, q) && (q in t.io <==> q in s.io)
  {
    hide SoundBut, Apply;
    var t := Apply(s, IoEnd(p));
    forall q ensures StatusOf(t.pcbs, q) == Becomes(s, IoEnd(p), q) { LifeLaw(s, IoEnd(p), q); }
    forall q ensures q in t.io <==> q in s.io && q != p { RequestLaw(s, IoEnd(p), q); }
    IoEndStatus(s, p, p);
    StepSound(s, IoEnd(p));
    AnswerDesks(s, p);
    WokenQueued(s, t, p);
  }

  lemma AnswerDesks(s: Sched, p: nat)
    requires Sound(s) && p in s.io
    ensures Apply(s, IoEnd(p)).hand == s.hand
  {
    hide Requeued, Without, Queues, Mutexes, Running, Processors, Processes;
    ReadyDesks(s.(io := Without(s.io, p), block := Without(s.block, p)), p);
  }

  lemma WokenQueued(s: Sched, t: Sched, p: nat)
    requires Sound(s) && Sound(t) && t.hand == s.hand && HasStatus(s.pcbs, p, Block) && HasStatus(t.pcbs, p, Ready)
    ensures Plannable(t, p) ==> Queued(t.ready, Level(t.cmn, t.pcbs, p), p)
  {
  }

  /** While no answer comes the process stays blocked, whatever else happens. */
  lemma PendingStays(s: Sched, op: Op, p: nat)
    requires Sound(s) && Arrives(s, op) && p in s.io && op != IoEnd(p)
    ensures p in Apply(s, op).io && HasStatus(Apply(s, op).pcbs, p, Block)
  {
    hide SoundBut, Apply, Heir;
    LifeLaw(s, op, p);
    RequestLaw(s, op, p);
    PendingIdle(s, op, p);
  }

  lemma PendingIdle(s: Sched, op: Op, p: nat)
    requires Sound(s) && p in s.io
    ensures StatusOf(s.pcbs, p) == Some(Block) && p != s.nextPid && s.hand != Some(p)
    ensures forall c :: Pair(c, p) !in s.pairs
    ensures !HandedTo(s.mutexes, op, p)
  {
    forall c ensures Pair(c, p) !in s.pairs {
      if Pair(c, p) in s.pairs { PairListed(s.pairs, c, p); }
    }
    forall i | 0 <= i < |s.mutexes| ensures !Heir(s.mutexes[i], p) { assert !WaitsOn(s.mutexes, i, p); }
  }

  /** Blocked, with no request that could be answered and in no line for a mutex. */
  ghost predicate Stranded(s: Sched, p: nat) {
    && HasStatus(s.pcbs, p, Block) && p !in s.io
    && forall m :: m in s.mutexes ==> p !in m.waiters
  }

  /** Nothing ever wakes such a process: no event makes it anything but blocked. */
  lemma StrandedStays(s: Sched, op: Op, p: nat)
    requires Sound(s) && Arrives(s, op) && Stranded(s, p)
    ensures Stranded(Apply(s, op), p)
  {
    hide SoundBut, Apply, Heir;
    var t := Apply(s, op);
    BlockedIdle(s, op, p);
    LifeLaw(s, op, p);
    RequestLaw(s, op, p);
    MutexLaw(s, op);
    forall m | m in t.mutexes ensures p !in m.waiters {
      var i :| 0 <= i < |t.mutexes| && t.mutexes[i] == m;
      if i < |s.mutexes| { assert s.mutexes[i] in s.mutexes; }
    }
  }

  lemma BlockedIdle(s: Sched, op: Op, p: nat)
    requires Sound(s) && Stranded(s, p)
    ensures p != s.nextPid && s.hand != Some(p) && !HandedTo(s.mutexes, op, p)
    ensures forall c :: Pair(c, p) !in s.pairs
  {
    forall c ensures Pair(c, p) !in s.pairs {
      if Pair(c, p) in s.pairs { PairListed(s.pairs, c, p); }
    }
    forall i | 0 <= i < |s.mutexes| ensures !Heir(s.mutexes[i], p) { assert s.mutexes[i] in s.mutexes; }
  }

  /** A call for IO blocks its process; it has a request to be answered exactly when an interface serves it. */
  lemma IoCallBlocks(s: Sched, p: nat, cpu: nat, served: bool)
    requires Sound(s) && Pair(cpu, p) in s.pairs
    ensures var t := Apply(s, IoCall(p, cpu, served));
            HasStatus(t.pcbs, p, Block) && (if served then p in t.io else Stranded(t, p))
  {
    hide SoundBut, Apply;
    var op := IoCall(p, cpu, served);
    LifeLaw(s, op, p);
    RequestLaw(s, op, p);
    MutexLaw(s, op);
    RunningWaits(s, p, cpu);
  }

  lemma RunningWaits(s: Sched, p: nat, cpu: nat)
    requires Sound(s) && Pair(cpu, p) in s.pairs
    ensures p !in s.io && forall m :: m in s.mutexes ==> p !in m.waiters
  {
    PairListed(s.pairs, cpu, p);
    forall m | m in s.mutexes ensures p !in m.waiters {
      var i :| 0 <= i < |s.mutexes| && s.mutexes[i] == m;
      assert p in m.waiters ==> WaitsOn(s.mutexes, i, p);
    }
  }

  /** In every run a process that called for IO is blocked until the answer comes, and if no interface serves
      the call it is blocked for ever. */
  lemma {:induction false} BlockedUntilAnswered(states: seq<Sched>, ops: seq<Op>, i: nat, j: nat, p: nat)
    requires Run(states, ops) && i < j < |states| && ops[i].IoCall? && ops[i].pid == p
    requires forall k :: i < k < j ==> ops[k] != IoEnd(p)
    ensures HasStatus(states[j].pcbs, p, Block)
    ensures if ops[i].served then p in states[j].io else Stranded(states[j], p)
    decreases j
  {
    hide SoundBut, Fifo, Apply, Behaved, Initial, Stranded;
    RunSound(states, ops, j - 1);
    assert Arrives(states[j - 1], ops[j - 1]) && states[j] == Apply(states[j - 1], ops[j - 1]);
    if j == i + 1 {
      IoCallBlocks(states[i], p, ops[i].cpu, ops[i].served);
    } else {
      BlockedUntilAnswered(states, ops, i, j - 1, p);
      if ops[i].served {
        PendingStays(states[j - 1], ops[j - 1], p);
      } else {
        StrandedStays(states[j - 1], ops[j - 1], p);
      }
    }
    StrandedBlocked(states[j], p);
  }

  lemma StrandedBlocked(s: Sched, p: nat)
    ensures Stranded(s, p) ==> HasStatus(s.pcbs, p, Block)
  {
  }

  /** No answer comes for a call that nobody serves. */
  lemma UnservedUnanswered(states: seq<Sched>, ops: seq<Op>, i: nat, j: nat, p: nat)
    requires Run(states, ops) && i < j < |ops| && ops[i].IoCall? && ops[i].pid == p && !ops[i].served
    requires forall k :: i < k < j ==> ops[k] != IoEnd(p)
    ensures ops[j] != IoEnd(p)
  {
    hide SoundBut, Fifo, Apply, Behaved, Initial;
    BlockedUntilAnswered(states, ops, i, j, p);
    assert Arrives(states[j], ops[j]);
  }

  // ----------------------------------------------------------- who a process is

  /** Own priorities are kept. */
  ghost predicate SameOrigs(s: Sched, t: Sched) {
    t.pcbs.Keys <= s.pcbs.Keys && forall q :: q in t.pcbs ==> t.pcbs[q].orig == s.pcbs[q].orig
  }

  lemma UnlockOrigs(s: Sched, name: string)
    ensures SameOrigs(s, Unlock(s, name))
  {
    hide AddReady, Needed, Least;
    var i := FindMutex(s.mutexes, name);
    if i.Some? && s.mutexes[i.value].waiters != [] {
      var m := s.mutexes[i.value];
      var next := m.waiters[0];
      var inherited := SetPrio(s.pcbs, next, Least(s.pcbs, m.waiters[1..], Prio(s.pcbs, next)));
      AddReadyPcbs(s.(mutexes := s.mutexes[i.value := Passed(m)], pcbs := SetStatus(inherited, next, Ready),
                      history := s.history + Passing(m)), next);
    }
  }

  lemma {:induction false} UnlockAllOrigs(s: Sched, names: seq<string>)
    ensures SameOrigs(s, UnlockAll(s, names))
  {
    hide Unlock;
    if names != [] {
      UnlockAllOrigs(s, names[..|names| - 1]);
      UnlockOrigs(UnlockAll(s, names[..|names| - 1]), names[|names| - 1]);
    }
  }

  lemma UnlockCallOrigs(s: Sched, name: string, p: nat, cpu: nat)
    ensures SameOrigs(s, UnlockHandled(s, name, p, cpu))
  {
    hide Unlock, Unexec, AddReady;
    UnexecKeeps(s, p);
    UnlockOrigs(Unexec(s, p), name);
    var u := Unlock(Unexec(s, p), name);
    AddReadyPcbs(u.(pcbs := SetStatus(u.pcbs, p, Ready)), p);
  }

  lemma ExitOrigs(s: Sched, p: nat, cpu: nat)
    ensures SameOrigs(s, Exited(s, p, cpu))
  {
    hide UnlockAll, OwnedNames, Unexec;
    UnexecKeeps(s, p);
    var out := Unexec(s, p);
    var gone := out.(pcbs := SetStatus(out.pcbs, p, Exit));
    UnlockAllOrigs(gone, OwnedNames(gone.mutexes, p));
  }

  lemma LockOrigs(s: Sched, name: string, p: nat, cpu: nat)
    ensures SameOrigs(s, LockHandled(s, name, p, cpu))
  {
    hide Boosted, Unexec;
    var i := FindMutex(s.mutexes, name);
    UnexecKeeps(s, p);
    if i.Some? && s.mutexes[i.value].owner.Some? {
      BoostKeeps(Unexec(s, p), s.mutexes[i.value].owner.value, Prio(s.pcbs, p));
    }
  }

  lemma NumberNew(s: Sched)
    requires Sound(s)
    ensures s.nextPid !in s.pcbs
  {
  }

  ghost predicate Creates(s: Sched, op: Op) {
    (op.Spawn? || op.InitCall?) && op.accepted
  }

  lemma SpawnOrigs(s: Sched, prio: nat, accepted: bool)
    ensures Spawned(s, prio, accepted).pcbs == if accepted then s.pcbs[s.nextPid := Pcb(Ready, prio, prio)] else s.pcbs
  {
    hide AddReady;
    AddReadyPcbs(s.(nextPid := s.nextPid + 1, pcbs := s.pcbs[s.nextPid := Pcb(Ready, prio, prio)]), s.nextPid);
  }

  lemma InitOrigs(s: Sched, prio: nat, accepted: bool, p: nat, cpu: nat)
    ensures Apply(s, InitCall(prio, accepted, p, cpu)).pcbs == SetStatus(Spawned(s, prio, accepted).pcbs, p, Ready)
  {
    hide AddReady, Unexec, Spawned;
    var u := Spawned(s, prio, accepted);
    UnexecKeeps(u, p);
    AddReadyPcbs(Unexec(u, p).(pcbs := SetStatus(u.pcbs, p, Ready)), p);
  }

  /** A process starts, once kernel memory accepts it, at the priority it was asked for, which stays its own. */
  lemma PriorityLaw(s: Sched, op: Op, q: nat)
    requires Sound(s) && Arrives(s, op) && q in Apply(s, op).pcbs
    ensures var t := Apply(s, op);
            if q in s.pcbs then t.pcbs[q].orig == s.pcbs[q].orig
            else Creates(s, op) && q == s.nextPid && t.pcbs[q] == Pcb(Ready, op.prio, op.prio)
  {
    hide SoundBut, Requeued, FreeCpu, Unexec, Spawned, Ticked, LockHandled, UnlockHandled, IoBlocked, IoEnded, Exited,
      FirstNonempty;
    match op
    case Spawn(prio, accepted) =>
      SpawnOrigs(s, prio, accepted);
      NumberNew(s);
    case LockCall(name, p, cpu) => LockOrigs(s, name, p, cpu);
    case UnlockCall(name, p, cpu) => UnlockCallOrigs(s, name, p, cpu);
    case InitCall(prio, accepted, p, cpu) =>
      SpawnOrigs(s, prio, accepted);
      InitOrigs(s, prio, accepted, p, cpu);
      RunningHere(s, p, cpu);
    case ExitCall(p, cpu) => ExitOrigs(s, p, cpu);
    case CreateMutex(name) =>
    case _ => var p, status := Moves(s, op);
  }

  // ----------------------------------------------------------- CPUs

  /** The CPU the event sets free. */
  ghost function Freed(s: Sched, op: Op): seq<nat> {
    match op
    case ConnectCpu(cpu) => [cpu]
    case Tick(p, cpu, compacting) => if cpu in s.interrupts then [cpu] else []
    case LockCall(name, p, cpu) =>
      if exists m :: m in s.mutexes && m.name == name && m.owner.None? then [] else [cpu]
    case UnlockCall(name, p, cpu) => [cpu]
    case IoCall(p, cpu, served) => [cpu]
    case InitCall(prio, accepted, p, cpu) => [cpu]
    case ExitCall(p, cpu) => [cpu]
    case _ => []
  }

  lemma PairsLeft(s: Sched, p: nat, cpu: nat, c: nat, q: nat)
    requires Sound(s) && Pair(cpu, p) in s.pairs
    ensures Pair(c, q) in Unexec(s, p).pairs <==> Pair(c, q) in s.pairs && q != p
  {
    hide Queues, Mutexes, Requests, Processes, Processors, IndexOf, HasStatus, Without, SetStatus;
    PairListed(s.pairs, cpu, p);
    var k := IndexOf(PidsOf(s.pairs), p).value;
    assert s.pairs[k].pid == p && Unexec(s, p).pairs == RemoveAt(s.pairs, k);
    var r := RemoveAt(s.pairs, k);
    if Pair(c, q) in s.pairs && q != p {
      var j :| 0 <= j < |s.pairs| && s.pairs[j] == Pair(c, q);
      assert r[if j < k then j else j - 1] == Pair(c, q);
    }
    if Pair(c, q) in r {
      var j :| 0 <= j < |r| && r[j] == Pair(c, q);
      var i := if j < k then j else j + 1;
      assert s.pairs[i] == r[j] && PidsOf(s.pairs)[i] == q && PidsOf(s.pairs)[k] == p;
    }
  }

  /** Free CPUs are handed out in the order they became free. */
  lemma CpuLaw(s: Sched, op: Op)
    requires Sound(s) && Arrives(s, op)
    ensures Apply(s, op).free == (if op.Assign? then s.free[1..] else s.free) + Freed(s, op)
  {
    hide Processes, Queues, Running, Processors, Requests, Requeued, Unexec, Spawned, Ticked, LockHandled,
      UnlockHandled, IoBlocked, Exited, FirstNonempty, Without;
    match op
    case Spawn(prio, accepted) => SpawnDesks(s, prio, accepted);
    case Tick(p, cpu, compacting) => TickVacates(s, p, cpu, compacting);
    case LockCall(name, p, cpu) =>
      LockVacates(s, name, p, cpu);
      LockAnswers(s, name, p);
    case UnlockCall(name, p, cpu) => UnlockVacates(s, name, p, cpu);
    case IoCall(p, cpu, served) => IoVacates(s, p, cpu, served);
    case IoEnd(p) => ReadyDesks(s.(io := Without(s.io, p), block := Without(s.block, p)), p);
    case InitCall(prio, accepted, p, cpu) => InitVacates(s, prio, accepted, p, cpu);
    case ExitCall(p, cpu) => ExitVacates(s, p, cpu);
    case _ =>
  }

  /** The event takes the process that makes the call, or is stopped, off its CPU. */
  ghost predicate TakesOff(s: Sched, op: Op) {
    || (op.Tick? && op.cpu in s.interrupts)
    || (op.LockCall? && Busy(s.mutexes, op.name))
    || op.UnlockCall? || op.IoCall? || op.InitCall? || op.ExitCall?
  }

  lemma VacatesPair(s: Sched, p: nat, cpu: nat, t: Sched, c: nat, q: nat)
    requires Sound(s) && Pair(cpu, p) in s.pairs && Vacates(s, p, cpu, t)
    ensures Pair(c, q) in t.pairs <==> Pair(c, q) in s.pairs && q != p
  {
    hide SoundBut, Unexec;
    PairsLeft(s, p, cpu, c, q);
  }

  lemma RunsOn(s: Sched, op: Op, c: nat, q: nat)
    requires Sound(s) && Arrives(s, op) && Pair(c, q) in s.pairs
    ensures Becomes(s, op, q) == Some(Exec) <==> !(TakesOff(s, op) && op.pid == q)
  {
    hide SoundBut, HandedTo, Busy;
    RunningHere(s, q, c);
    NotHeir(s, op, q);
    RunningWaits(s, q, c);
  }

  lemma OffOrNot(s: Sched, op: Op)
    requires Sound(s) && Arrives(s, op)
    ensures if TakesOff(s, op) then Vacates(s, op.pid, op.cpu, Apply(s, op))
            else op.Assign? || Apply(s, op).pairs == s.pairs
  {
    hide SoundBut, Requeued, Unexec, Spawned, Ticked, LockHandled, UnlockHandled, IoBlocked, Exited, FirstNonempty,
      Without, AddReady, Busy, SetStatus, Vacates;
    match op
    case Spawn(prio, accepted) => SpawnDesks(s, prio, accepted);
    case Tick(p, cpu, compacting) => TickVacates(s, p, cpu, compacting);
    case LockCall(name, p, cpu) =>
      LockVacates(s, name, p, cpu);
      BusyFound(s, name);
    case UnlockCall(name, p, cpu) => UnlockVacates(s, name, p, cpu);
    case IoCall(p, cpu, served) => IoVacates(s, p, cpu, served);
    case IoEnd(p) => ReadyDesks(s.(io := Without(s.io, p), block := Without(s.block, p)), p);
    case InitCall(prio, accepted, p, cpu) => InitVacates(s, prio, accepted, p, cpu);
    case ExitCall(p, cpu) => ExitVacates(s, p, cpu);
    case _ =>
  }

  /** A process stays on the CPU it was given until it stops running. */
  lemma PairLaw(s: Sched, op: Op, c: nat, q: nat)
    requires Sound(s) && Arrives(s, op)
    ensures Pair(c, q) in Apply(s, op).pairs <==>
            (Pair(c, q) in s.pairs && Becomes(s, op, q) == Some(Exec)) ||
            (op.Assign? && s.hand == Some(q) && s.free[0] == c)
  {
    hide SoundBut, Apply, Becomes, Busy, Vacates;
    OffOrNot(s, op);
    if Pair(c, q) in s.pairs { RunsOn(s, op, c, q); }
    if TakesOff(s, op) {
      VacatesPair(s, op.pid, op.cpu, Apply(s, op), c, q);
    } else if op.Assign? {
      AssignedPair(s, c, q);
    }
  }

  lemma AssignedPair(s: Sched, c: nat, q: nat)
    requires s.hand.Some? && s.free != []
    ensures Pair(c, q) in Apply(s, Assign).pairs <==> Pair(c, q) in s.pairs || (s.hand == Some(q) && s.free[0] == c)
  {
    var x := Pair(s.free[0], s.hand.value);
    assert forall y :: y in s.pairs + [x] <==> y in s.pairs || y == x;
  }

  lemma NotHeir(s: Sched, op: Op, q: nat)
    requires Sound(s) && HasStatus(s.pcbs, q, Exec)
    ensures !HandedTo(s.mutexes, op, q)
  {
    forall i | 0 <= i < |s.mutexes| ensures !Heir(s.mutexes[i], q) { assert !WaitsOn(s.mutexes, i, q); }
  }

  lemma BusyFound(s: Sched, name: string)
    requires Sound(s)
    ensures var i := FindMutex(s.mutexes, name);
            Busy(s.mutexes, name) <==> i.Some? && s.mutexes[i.value].owner.Some?
  {
  }

  /** The list of running processes keeps its order: who stops running leaves it, who starts comes last, and so does
      who has had an answer from kernel memory. */
  lemma RunningLaw(s: Sched, op: Op)
    requires Sound(s) && Arrives(s, op)
    ensures var t := Apply(s, op);
            match op
            case Assign => t.exec == s.exec + [s.hand.value]
            case MemoryCall(p, cpu) =>
              exists i :: 0 <= i < |s.exec| && s.exec[i] == p && t.exec == RemoveAt(s.exec, i) + [p]
            case Tick(p, cpu, compacting) => if cpu in s.interrupts then Off(s.exec, p, t.exec) else t.exec == s.exec
            case LockCall(name, p, cpu) => if Busy(s.mutexes, name) then Off(s.exec, p, t.exec) else t.exec == s.exec
            case UnlockCall(name, p, cpu) => Off(s.exec, p, t.exec)
            case IoCall(p, cpu, served) => Off(s.exec, p, t.exec)
            case InitCall(prio, accepted, p, cpu) => Off(s.exec, p, t.exec)
            case ExitCall(p, cpu) => Off(s.exec, p, t.exec)
            case _ => t.exec == s.exec
  {
    hide SoundBut, Requeued, Unexec, Spawned, Ticked, LockHandled, UnlockHandled, IoBlocked, Exited, FirstNonempty,
      Without, Off;
    match op
    case Spawn(prio, accepted) => SpawnDesks(s, prio, accepted);
    case Tick(p, cpu, compacting) =>
      TickVacates(s, p, cpu, compacting);
      TakenOff(s, p, cpu);
    case MemoryCall(p, cpu) => TakenOff(s, p, cpu);
    case LockCall(name, p, cpu) =>
      LockVacates(s, name, p, cpu);
      TakenOff(s, p, cpu);
      BusyFound(s, name);
    case UnlockCall(name, p, cpu) =>
      UnlockVacates(s, name, p, cpu);
      TakenOff(s, p, cpu);
    case IoCall(p, cpu, served) =>
      IoVacates(s, p, cpu, served);
      TakenOff(s, p, cpu);
    case IoEnd(p) => ReadyDesks(s.(io := Without(s.io, p), block := Without(s.block, p)), p);
    case InitCall(prio, accepted, p, cpu) =>
      InitVacates(s, prio, accepted, p, cpu);
      TakenOff(s, p, cpu);
    case ExitCall(p, cpu) =>
      ExitVacates(s, p, cpu);
      TakenOff(s, p, cpu);
    case _ =>
  }

  /** `rest` is the list without `p`. */
  ghost predicate Off(q: seq<nat>, p: nat, rest: seq<nat>) {
    exists i :: 0 <= i < |q| && q[i] == p && rest == RemoveAt(q, i)
  }

  lemma TakenOff(s: Sched, p: nat, cpu: nat)
    requires Sound(s) && Pair(cpu, p) in s.pairs
    ensures Off(s.exec, p, Unexec(s, p).exec)
    ensures exists i :: 0 <= i < |s.exec| && s.exec[i] == p && Without(s.exec, p) == RemoveAt(s.exec, i)
  {
    hide Queues, Mutexes, Requests, Processes, Processors;
    PairListed(s.pairs, cpu, p);
  }

  /** The list of blocked processes: who starts to wait comes last, and only an answer from IO takes one off. */
  lemma BlockedLaw(s: Sched, op: Op)
    requires Sound(s) && Arrives(s, op)
    ensures var t := Apply(s, op);
            if op.IoEnd? then Off(s.block, op.pid, t.block)
            else if op.IoCall? || (op.LockCall? && Busy(s.mutexes, op.name)) then t.block == s.block + [op.pid]
            else t.block == s.block
  {
    hide SoundBut, AddReady, AddFirst, Unexec, Spawned, Unlock, UnlockAll, OwnedNames, Boosted, FirstNonempty, Without,
      Off;
    match op
    case Spawn(prio, accepted) => SpawnBlock(s, prio, accepted);
    case Tick(p, cpu, compacting) => TickBlock(s, p, cpu, compacting);
    case LockCall(name, p, cpu) => LockBlock(s, name, p, cpu);
    case UnlockCall(name, p, cpu) =>
      UnexecKeeps(s, p);
      UnlockBlock(Unexec(s, p), name);
      var u := Unlock(Unexec(s, p), name);
      ReadyBlock(u.(pcbs := SetStatus(u.pcbs, p, Ready)), p);
    case IoCall(p, cpu, served) => UnexecKeeps(s, p);
    case IoEnd(p) =>
      RequestListed(s, p);
      AnsweredOff(s.block, p);
      var u := s.(io := Without(s.io, p), block := Without(s.block, p));
      ReadyBlock(u.(pcbs := SetStatus(u.pcbs, p, Ready)), p);
    case InitCall(prio, accepted, p, cpu) =>
      SpawnBlock(s, prio, accepted);
      var u := Spawned(s, prio, accepted);
      UnexecKeeps(u, p);
      ReadyBlock(Unexec(u, p).(pcbs := SetStatus(u.pcbs, p, Ready)), p);
    case ExitCall(p, cpu) =>
      UnexecKeeps(s, p);
      var out := Unexec(s, p);
      var gone := out.(pcbs := SetStatus(out.pcbs, p, Exit));
      UnlockAllBlock(gone, OwnedNames(gone.mutexes, p));
    case _ =>
  }

  lemma AnsweredOff(q: seq<nat>, p: nat)
    requires p in q
    ensures Off(q, p, Without(q, p))
  {
  }

  lemma ReadyBlock(s: Sched, p: nat)
    ensures AddReady(s, p).block == s.block && AddFirst(s, p).block == s.block
  {
    hide Marked;
  }

  lemma SpawnBlock(s: Sched, prio: nat, accepted: bool)
    ensures Spawned(s, prio, accepted).block == s.block && Spawned(s, prio, accepted).nextPid == s.nextPid + 1
  {
    hide AddReady;
    AddReadyKeeps(s.(nextPid := s.nextPid + 1, pcbs := s.pcbs[s.nextPid := Pcb(Ready, prio, prio)]), s.nextPid);
  }

  lemma TickBlock(s: Sched, p: nat, cpu: nat, compacting: bool)
    ensures Ticked(s, p, cpu, compacting).block == s.block
  {
    hide AddReady, AddFirst, Unexec, Without;
    var u := s.(interrupts := Without(s.interrupts, cpu));
    UnexecKeeps(u, p);
    ReadyBlock(Unexec(u, p).(pcbs := SetStatus(u.pcbs, p, Ready)), p);
  }

  lemma LockBlock(s: Sched, name: string, p: nat, cpu: nat)
    requires Sound(s)
    ensures LockHandled(s, name, p, cpu).block == s.block + if Busy(s.mutexes, name) then [p] else []
  {
    hide SoundBut, Boosted, Unexec;
    BusyFound(s, name);
    var i := FindMutex(s.mutexes, name);
    UnexecKeeps(s, p);
    if i.Some? && s.mutexes[i.value].owner.Some? {
      BoostKeeps(Unexec(s, p), s.mutexes[i.value].owner.value, Prio(s.pcbs, p));
    }
  }

  lemma UnlockBlock(s: Sched, name: string)
    ensures Unlock(s, name).block == s.block
  {
    hide AddReady, Needed, Least;
    var i := FindMutex(s.mutexes, name);
    if i.Some? && s.mutexes[i.value].waiters != [] {
      var m := s.mutexes[i.value];
      var next := m.waiters[0];
      var inherited := SetPrio(s.pcbs, next, Least(s.pcbs, m.waiters[1..], Prio(s.pcbs, next)));
      AddReadyKeeps(s.(mutexes := s.mutexes[i.value := Passed(m)], pcbs := SetStatus(inherited, next, Ready),
                       history := s.history + Passing(m)), next);
    }
  }

  lemma {:induction false} UnlockAllBlock(s: Sched, names: seq<string>)
    ensures UnlockAll(s, names).block == s.block
  {
    hide Unlock;
    if names != [] {
      UnlockAllBlock(s, names[..|names| - 1]);
      UnlockBlock(UnlockAll(s, names[..|names| - 1]), names[|names| - 1]);
    }
  }
}
