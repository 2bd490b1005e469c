/** The order inside the ready queues: who comes in where, who is taken, and who is never overtaken. */
module Turns {
  import opened Common
  import opened Scheduling
  import opened Soundness
  import opened MutexLaws
  import opened Inheritance
  import opened SchedRuns
  import opened Fairness
  import opened Dispatch
  import opened Lives

  // ----------------------------------------------------------- coming in

  /** A process that becomes ready, and the priority it has then. */
  datatype Entry = Entry(pid: nat, prio: nat)

  /** A queue after these have come in, each last in the queue of its priority, or in the only queue. */
  function Joined(q: seq<nat>, es: seq<Entry>, cmn: bool, l: nat): seq<nat> {
    if es == [] then q
    else
      var e := es[|es| - 1];
      Joined(q, es[..|es| - 1], cmn, l) + if l == (if cmn then e.prio else 0) then [e.pid] else []
  }

  /** A process of priority `v` that becomes ready while these run interrupts CPU `c`: the one with the first of
      the worst of them, when that one is worse. */
  ghost predicate Strikes(s: Sched, running: seq<nat>, v: nat, c: nat) {
    s.preempt && v < s.levels && exists w :: IsWorst(s.pcbs, running, v, w) && Pair(c, w) in s.pairs
  }

  /** How many of these interrupt CPU `c`. */
  ghost function Struck(s: Sched, running: seq<nat>, es: seq<Entry>, c: nat): nat {
    if es == [] then 0
    else Struck(s, running, es[..|es| - 1], c) + if Strikes(s, running, es[|es| - 1].prio, c) then 1 else 0
  }

  /** From one state to the next these have come in, in this order, and nobody has left. */
  ghost predicate Joins(s: Sched, es: seq<Entry>, t: Sched) {
    && t.levels == s.levels && t.cmn == s.cmn && t.preempt == s.preempt && t.hand == s.hand
    && t.exec == s.exec && t.pairs == s.pairs && |t.ready| == |s.ready|
    && (forall l :: 0 <= l < |s.ready| ==> t.ready[l] == Joined(s.ready[l], es, s.cmn, l))
    && (forall c :: multiset(t.interrupts)[c] == multiset(s.interrupts)[c] + Struck(s, s.exec, es, c))
    && (forall x :: x in s.exec ==> Prio(t.pcbs, x) == Prio(s.pcbs, x))
  }

  lemma JoinsNobody(s: Sched, t: Sched)
    requires t == s.(pcbs := t.pcbs, mutexes := t.mutexes, history := t.history, nextPid := t.nextPid,
                     free := t.free, tokens := t.tokens, io := t.io, block := t.block)
    requires forall x :: x in s.exec ==> Prio(t.pcbs, x) == Prio(s.pcbs, x)
    ensures Joins(s, [], t)
  {
  }

  /** The pairs name each running process once. */
  ghost predicate Paired(s: Sched) {
    && NoDup(PidsOf(s.pairs)) && |s.ready| == s.levels
    && forall x :: x in s.exec ==> x in PidsOf(s.pairs)
  }

  lemma CpuFound(pairs: seq<Pair>, w: nat, c: nat)
    requires NoDup(PidsOf(pairs)) && w in PidsOf(pairs)
    ensures CpuRunning(pairs, w) == Some(c) <==> Pair(c, w) in pairs
  {
    var k := IndexOf(PidsOf(pairs), w).value;
    assert pairs[k] == Pair(pairs[k].cpu, w);
    if Pair(c, w) in pairs {
      var j :| 0 <= j < |pairs| && pairs[j] == Pair(c, w);
      assert PidsOf(pairs)[j] == w && PidsOf(pairs)[k] == w;
    }
  }

  lemma OneWorst(pcbs: map<nat, Pcb>, exec: seq<nat>, v: nat, w: nat, x: nat)
    requires IsWorst(pcbs, exec, v, w) && IsWorst(pcbs, exec, v, x)
    ensures w == x && w in exec
  {
    var i: nat :| i < |exec| && exec[i] == w && (forall j :: 0 <= j < i ==> Prio(pcbs, exec[j]) < Prio(pcbs, w));
    var k: nat :| k < |exec| && exec[k] == x && (forall j :: 0 <= j < k ==> Prio(pcbs, exec[j]) < Prio(pcbs, x));
    assert Prio(pcbs, exec[i]) <= Prio(pcbs, x) && Prio(pcbs, exec[k]) <= Prio(pcbs, w);
  }

  lemma NoneWorse(pcbs: map<nat, Pcb>, exec: seq<nat>, v: nat)
    requires forall j :: 0 <= j < |exec| ==> Prio(pcbs, exec[j]) <= v
    ensures forall w :: !IsWorst(pcbs, exec, v, w)
  {
  }

  lemma MarkedStrikes(s: Sched, p: nat, c: nat)
    requires Paired(s) && Level(s.cmn, s.pcbs, p) < s.levels && (s.preempt ==> s.cmn)
    ensures multiset(Marked(s, p))[c] ==
            multiset(s.interrupts)[c] + if Strikes(s, s.exec, Prio(s.pcbs, p), c) then 1 else 0
  {
    hide Worst, IsWorst, CpuRunning, NoDup;
    var v := Prio(s.pcbs, p);
    if s.preempt {
      WorstFound(s.pcbs, s.exec, v);
      var w := Worst(s.pcbs, s.exec, v);
      if w.None? {
        NoneWorse(s.pcbs, s.exec, v);
      } else {
        OneWorst(s.pcbs, s.exec, v, w.value, w.value);
        CpuFound(s.pairs, w.value, c);
        forall x | IsWorst(s.pcbs, s.exec, v, x) ensures x == w.value { OneWorst(s.pcbs, s.exec, v, w.value, x); }
      }
    }
  }

  /** `agregar_a_ready` is one process coming in. */
  lemma AddReadyJoins(s: Sched, p: nat)
    requires Paired(s) && (s.preempt ==> s.cmn) && s.levels > 0
    ensures Joins(s, [Entry(p, Prio(s.pcbs, p))], AddReady(s, p))
  {
    hide Marked, Strikes, NoDup;
    var t, v := AddReady(s, p), Prio(s.pcbs, p);
    var es := [Entry(p, v)];
    assert es[..0] == [];
    forall l | 0 <= l < |s.ready| ensures t.ready[l] == Joined(s.ready[l], es, s.cmn, l) {
      assert Joined(s.ready[l], es[..0], s.cmn, l) == s.ready[l];
    }
    forall c ensures multiset(t.interrupts)[c] == multiset(s.interrupts)[c] + Struck(s, s.exec, es, c) {
      assert Struck(s, s.exec, es[..0], c) == 0;
      if Level(s.cmn, s.pcbs, p) < s.levels { MarkedStrikes(s, p, c); } else { NoQueueNoStrike(s, v, c); }
    }
  }

  lemma NoQueueNoStrike(s: Sched, v: nat, c: nat)
    requires (s.preempt ==> s.cmn) && (if s.cmn then v else 0) >= s.levels && s.levels > 0
    ensures !Strikes(s, s.exec, v, c)
  {
  }

  lemma {:induction false} JoinedTwice(q: seq<nat>, a: seq<Entry>, b: seq<Entry>, cmn: bool, l: nat)
    ensures Joined(Joined(q, a, cmn, l), b, cmn, l) == Joined(q, a + b, cmn, l)
  {
    if b == [] {
      assert a + b == a;
    } else {
      var n := |a + b| - 1;
      assert (a + b)[..n] == a + b[..|b| - 1] && (a + b)[n] == b[|b| - 1];
      JoinedTwice(q, a, b[..|b| - 1], cmn, l);
    }
  }

  lemma StrikesSame(s: Sched, m: Sched, v: nat, c: nat)
    requires m.preempt == s.preempt && m.levels == s.levels && m.pairs == s.pairs && m.exec == s.exec
    requires forall x :: x in s.exec ==> Prio(m.pcbs, x) == Prio(s.pcbs, x)
    ensures Strikes(m, m.exec, v, c) <==> Strikes(s, s.exec, v, c)
  {
    forall w ensures IsWorst(m.pcbs, m.exec, v, w) <==> IsWorst(s.pcbs, s.exec, v, w) {
      if w in s.exec { WorstSame(s.pcbs, m.pcbs, s.exec, v, w); }
    }
  }

  lemma WorstSame(pcbs: map<nat, Pcb>, qcbs: map<nat, Pcb>, exec: seq<nat>, v: nat, w: nat)
    requires w in exec && forall x :: x in exec ==> Prio(qcbs, x) == Prio(pcbs, x)
    ensures IsWorst(qcbs, exec, v, w) <==> IsWorst(pcbs, exec, v, w)
  {
  }

  lemma {:induction false} StruckTwice(s: Sched, m: Sched, a: seq<Entry>, b: seq<Entry>, c: nat)
    requires m.preempt == s.preempt && m.levels == s.levels && m.pairs == s.pairs && m.exec == s.exec
    requires forall x :: x in s.exec ==> Prio(m.pcbs, x) == Prio(s.pcbs, x)
    ensures Struck(s, s.exec, a, c) + Struck(m, m.exec, b, c) == Struck(s, s.exec, a + b, c)
  {
    hide Strikes;
    if b == [] {
      assert a + b == a;
    } else {
      var n := |a + b| - 1;
      assert (a + b)[..n] == a + b[..|b| - 1] && (a + b)[n] == b[|b| - 1];
      StruckTwice(s, m, a, b[..|b| - 1], c);
      StrikesSame(s, m, b[|b| - 1].prio, c);
    }
  }

  lemma JoinsTwice(s: Sched, a: seq<Entry>, m: Sched, b: seq<Entry>, t: Sched)
    requires Joins(s, a, m) && Joins(m, b, t)
    ensures Joins(s, a + b, t)
  {
    hide Joined, Struck;
    forall l | 0 <= l < |s.ready| ensures t.ready[l] == Joined(s.ready[l], a + b, s.cmn, l) {
      JoinedTwice(s.ready[l], a, b, s.cmn, l);
    }
    forall c ensures multiset(t.interrupts)[c] == multiset(s.interrupts)[c] + Struck(s, s.exec, a + b, c) {
      StruckTwice(s, m, a, b, c);
    }
  }

  // ----------------------------------------------------------- who comes in

  /** The first in line for each mutex of `p`, in the order of the mutexes. */
  function Heirs(ms: seq<Mutex>, p: nat): seq<nat> {
    if ms == [] then []
    else
      var m := ms[|ms| - 1];
      Heirs(ms[..|ms| - 1], p) + if m.owner == Some(p) && m.waiters != [] then [m.waiters[0]] else []
  }

  /** The first in line for the mutex of this name, if someone has it. */
  function HeirOf(ms: seq<Mutex>, name: string): seq<nat> {
    var i := FindMutex(ms, name);
    if i.Some? && ms[i.value].owner.Some? && ms[i.value].waiters != [] then [ms[i.value].waiters[0]] else []
  }

  /** Those an event appends to the ready queues, in this order. */
  function Newcomers(s: Sched, op: Op): seq<nat> {
    match op
    case Spawn(prio, accepted) => if accepted then [s.nextPid] else []
    case Tick(p, cpu, compacting) => if cpu in s.interrupts && !compacting then [p] else []
    case UnlockCall(name, p, cpu) => HeirOf(s.mutexes, name) + [p]
    case IoEnd(p) => [p]
    case InitCall(prio, accepted, p, cpu) => (if accepted then [s.nextPid] else []) + [p]
    case ExitCall(p, cpu) => Heirs(s.mutexes, p)
    case _ => []
  }

  /** With the priorities they have once the event is over. */
  function Entries(pcbs: map<nat, Pcb>, ps: seq<nat>): (es: seq<Entry>)
    ensures |es| == |ps|
  {
    seq(|ps|, i requires 0 <= i < |ps| => Entry(ps[i], Prio(pcbs, ps[i])))
  }

  lemma EntriesSplit(pcbs: map<nat, Pcb>, a: seq<nat>, b: seq<nat>)
    ensures Entries(pcbs, a + b) == Entries(pcbs, a) + Entries(pcbs, b)
  {
  }

  lemma EntriesSame(pcbs: map<nat, Pcb>, qcbs: map<nat, Pcb>, ps: seq<nat>)
    requires forall x :: x in ps ==> Prio(qcbs, x) == Prio(pcbs, x)
    ensures Entries(qcbs, ps) == Entries(pcbs, ps)
  {
  }

  // ----------------------------------------------------------- each event

  lemma SoundPaired(s: Sched, moving: set<nat>, loose: set<nat>)
    requires SoundBut(s, moving, loose)
    ensures Paired(s) && s.levels > 0 && (s.preempt ==> s.cmn)
    ensures forall x :: x in s.exec ==> x in s.pcbs && x !in moving && HasStatus(s.pcbs, x, Exec)
    ensures s.nextPid !in s.pcbs
  {
  }

  /** One process comes in whose state has just been set. */
  lemma RequeueJoins(s: Sched, p: nat, prior: seq<Entry>, r: Sched)
    requires Paired(s) && Paired(r) && s.levels > 0 && (s.preempt ==> s.cmn) && p !in s.exec && Joins(s, prior, r)
    ensures Joins(s, prior + [Entry(p, Prio(r.pcbs, p))], Requeued(r, p))
  {
    hide Joins, Paired, AddReady;
    var q := r.(pcbs := SetStatus(r.pcbs, p, Ready));
    RequeueParts(s, p, prior, r);
    AddReadyJoins(q, p);
    JoinsTwice(r, [], q, [Entry(p, Prio(r.pcbs, p))], AddReady(q, p));
    assert [] + [Entry(p, Prio(r.pcbs, p))] == [Entry(p, Prio(r.pcbs, p))];
    JoinsTwice(s, prior, r, [Entry(p, Prio(r.pcbs, p))], AddReady(q, p));
  }

  lemma RequeueParts(s: Sched, p: nat, prior: seq<Entry>, r: Sched)
    requires Paired(r) && Joins(s, prior, r) && s.levels > 0 && (s.preempt ==> s.cmn)
    ensures var q := r.(pcbs := SetStatus(r.pcbs, p, Ready));
            Joins(r, [], q) && Paired(q) && (q.preempt ==> q.cmn) && q.levels > 0 && Prio(q.pcbs, p) == Prio(r.pcbs, p)
  {
    JoinsNobody(r, r.(pcbs := SetStatus(r.pcbs, p, Ready)));
  }

  lemma JoinsPaired(s: Sched, es: seq<Entry>, t: Sched)
    requires Paired(s) && Joins(s, es, t)
    ensures Paired(t)
  {
  }

  lemma SpawnJoins(s: Sched, prio: nat, accepted: bool)
    requires Sound(s)
    ensures Joins(s, if accepted then [Entry(s.nextPid, prio)] else [], Spawned(s, prio, accepted))
    ensures accepted ==> Prio(Spawned(s, prio, accepted).pcbs, s.nextPid) == prio
  {
    hide SoundBut, Joins, Paired, AddReady;
    SoundPaired(s, {}, {});
    var m := s.(nextPid := s.nextPid + 1);
    if accepted {
      m := m.(pcbs := s.pcbs[s.nextPid := Pcb(Ready, prio, prio)]);
      JoinsNobody(s, m);
      JoinsPaired(s, [], m);
      AddReadyJoins(m, s.nextPid);
      AddReadyPcbs(m, s.nextPid);
      JoinsTwice(s, [], m, [Entry(s.nextPid, prio)], AddReady(m, s.nextPid));
      assert [] + [Entry(s.nextPid, prio)] == [Entry(s.nextPid, prio)];
    } else {
      JoinsNobody(s, m);
    }
  }

  lemma HandedOverJoins(s: Sched, moving: set<nat>, loose: set<nat>, i: nat)
    requires SoundBut(s, moving, loose) && i < |s.mutexes| && s.mutexes[i].waiters != []
    ensures var next := s.mutexes[i].waiters[0];
            && Joins(s, [Entry(next, Prio(HandedOver(s, i).pcbs, next))], HandedOver(s, i))
            && forall x :: x != next ==> Prio(HandedOver(s, i).pcbs, x) == Prio(s.pcbs, x)
  {
    hide SoundBut, Joins, Paired, AddReady, Least, Passed, Passing;
    SoundPaired(s, moving, loose);
    var m := s.mutexes[i];
    var next := m.waiters[0];
    WaiterIdle(s, moving, loose, i);
    var inherited := SetPrio(s.pcbs, next, Least(s.pcbs, m.waiters[1..], Prio(s.pcbs, next)));
    var mid := s.(mutexes := s.mutexes[i := Passed(m)], pcbs := SetStatus(inherited, next, Ready),
                  history := s.history + Passing(m));
    JoinsNobody(s, mid);
    JoinsPaired(s, [], mid);
    AddReadyJoins(mid, next);
    AddReadyPcbs(mid, next);
    JoinsTwice(s, [], mid, [Entry(next, Prio(mid.pcbs, next))], AddReady(mid, next));
    assert [] + [Entry(next, Prio(mid.pcbs, next))] == [Entry(next, Prio(mid.pcbs, next))];
  }

  lemma WaiterIdle(s: Sched, moving: set<nat>, loose: set<nat>, i: nat)
    requires SoundBut(s, moving, loose) && i < |s.mutexes| && s.mutexes[i].waiters != []
    ensures s.mutexes[i].waiters[0] !in s.exec && s.mutexes[i].waiters[0] !in moving
  {
    assert WaitsOn(s.mutexes, i, s.mutexes[i].waiters[0]);
  }

  /** An unlock by the owner, off its CPU already, brings in the first in line. */
  lemma UnlockJoins(s: Sched, moving: set<nat>, loose: set<nat>, name: string, p: nat)
    requires SoundBut(s, moving, loose) && p in moving && OwnedOrIdle(s, name, p)
    ensures var t := Unlock(s, name);
            && Joins(s, Entries(t.pcbs, HeirOf(s.mutexes, name)), t)
            && forall x :: x != p && x !in HeirOf(s.mutexes, name) ==> Prio(t.pcbs, x) == Prio(s.pcbs, x)
  {
    hide SoundBut, Joins, HandedOver, Needed, Passed, Passing;
    SoundPaired(s, moving, loose);
    var i := FindMutex(s.mutexes, name);
    var t, heirs := Unlock(s, name), HeirOf(s.mutexes, name);
    if i.Some? && s.mutexes[i.value].owner.Some? {
      var m := PassedOn(s, i.value);
      if s.mutexes[i.value].waiters == [] {
        JoinsNobody(s, t);
        assert Entries(t.pcbs, heirs) == [];
      } else {
        WaiterIdle(s, moving, loose, i.value);
        HandedOverJoins(s, moving, loose, i.value);
        var es := [Entry(heirs[0], Prio(m.pcbs, heirs[0]))];
        JoinsExec(s, es, m);
        JoinsNobody(m, t);
        JoinsTwice(s, es, m, [], t);
        assert es + [] == es && Entries(t.pcbs, heirs) == es;
      }
    } else {
      JoinsNobody(s, s);
      assert Entries(t.pcbs, heirs) == [];
    }
  }

  lemma JoinsExec(s: Sched, es: seq<Entry>, t: Sched)
    requires Joins(s, es, t)
    ensures t.exec == s.exec
  {
  }

  function HeirsNamed(ms: seq<Mutex>, names: seq<string>): seq<nat> {
    if names == [] then [] else HeirsNamed(ms, names[..|names| - 1]) + HeirOf(ms, names[|names| - 1])
  }

  lemma {:induction false} HeirsWait(ms: seq<Mutex>, names: seq<string>, x: nat)
    requires x in HeirsNamed(ms, names)
    ensures exists k: nat :: WaitsOn(ms, k, x) && ms[k].name in names
  {
    var front, last := names[..|names| - 1], names[|names| - 1];
    assert names == front + [last];
    if x in HeirsNamed(ms, front) {
      HeirsWait(ms, front, x);
      var k: nat :| WaitsOn(ms, k, x) && ms[k].name in front;
      assert ms[k].name in names;
    } else {
      assert WaitsOn(ms, FindMutex(ms, last).value, x);
    }
  }

  /** Who waits for one mutex waits for no other, and is not the process that lets go. */
  lemma HeirsApart(s: Sched, moving: set<nat>, front: seq<string>, last: string, p: nat, x: nat)
    requires Mutexes(s, moving) && p in moving && last !in front && x in HeirsNamed(s.mutexes, front)
    ensures x != p && x !in HeirOf(s.mutexes, last)
  {
    HeirsWait(s.mutexes, front, x);
    var k: nat :| WaitsOn(s.mutexes, k, x) && s.mutexes[k].name in front;
    if x in HeirOf(s.mutexes, last) { assert WaitsOn(s.mutexes, FindMutex(s.mutexes, last).value, x); }
  }

  lemma {:induction false} UnlockAllJoins(s: Sched, moving: set<nat>, loose: set<nat>, names: seq<string>, p: nat)
    requires SoundBut(s, moving, loose) && p in moving && UniqueNames(s.mutexes)
    requires NoDup(names) && forall name :: name in names ==> Owns(s.mutexes, p, name)
    ensures var t := UnlockAll(s, names); Joins(s, Entries(t.pcbs, HeirsNamed(s.mutexes, names)), t)
  {
    hide SoundBut, Unlock, UniqueNames, Joins, Passed, HeirOf, Entries;
    if names == [] {
      NobodyEnters(s);
    } else {
      var front, last := names[..|names| - 1], names[|names| - 1];
      assert names == front + [last];
      assert last in names && forall name :: name in front ==> name in names;
      UnlockAllJoins(s, moving, loose, front, p);
      UnlockAllSound(s, moving, loose, front, p);
      var m, t := UnlockAll(s, front), UnlockAll(s, names);
      var j :| 0 <= j < |s.mutexes| && s.mutexes[j].name == last && s.mutexes[j].owner == Some(p);
      PassedMore(s.mutexes, front, last, m.mutexes, j);
      FindUnique(s.mutexes, j);
      SameHeir(s.mutexes, m.mutexes, last, j);
      UnlockJoins(m, moving, loose, last, p);
      SoundMutexes(s, moving, loose, p);
      forall x | x in HeirsNamed(s.mutexes, front) ensures Prio(t.pcbs, x) == Prio(m.pcbs, x) {
        HeirsApart(s, moving, front, last, p, x);
      }
      EntriesSame(m.pcbs, t.pcbs, HeirsNamed(s.mutexes, front));
      EntriesSplit(t.pcbs, HeirsNamed(s.mutexes, front), HeirOf(s.mutexes, last));
      JoinsTwice(s, Entries(t.pcbs, HeirsNamed(s.mutexes, front)), m, Entries(t.pcbs, HeirOf(s.mutexes, last)), t);
    }
  }

  lemma NobodyEnters(s: Sched)
    ensures Joins(s, Entries(s.pcbs, []), s)
  {
    JoinsNobody(s, s);
    assert Entries(s.pcbs, []) == [];
  }

  lemma SameHeir(ms: seq<Mutex>, ns: seq<Mutex>, name: string, j: nat)
    requires FindMutex(ms, name) == Some(j) && FindMutex(ns, name) == Some(j) && ns[j] == ms[j]
    ensures HeirOf(ns, name) == HeirOf(ms, name)
  {
  }

  lemma {:induction false} HeirsByName(ms: seq<Mutex>, k: nat, p: nat)
    requires UniqueNames(ms) && k <= |ms|
    ensures HeirsNamed(ms, OwnedNames(ms[..k], p)) == Heirs(ms[..k], p)
  {
    hide FindMutex, UniqueNames, HeirsNamed;
    if k == 0 {
      assert ms[..k] == [];
      NoHeirs(ms);
    } else {
      var m, names := ms[k - 1], OwnedNames(ms[..k - 1], p);
      assert ms[..k][..k - 1] == ms[..k - 1];
      HeirsByName(ms, k - 1, p);
      FindUnique(ms, k - 1);
      OneMoreName(ms, names, m.name);
    }
  }

  lemma NoHeirs(ms: seq<Mutex>)
    ensures HeirsNamed(ms, []) == []
  {
  }

  lemma OneMoreName(ms: seq<Mutex>, names: seq<string>, name: string)
    ensures HeirsNamed(ms, names + [name]) == HeirsNamed(ms, names) + HeirOf(ms, name)
  {
    assert (names + [name])[..|names|] == names;
  }

  lemma ExitJoins(s: Sched, p: nat, cpu: nat)
    requires Sound(s) && Pair(cpu, p) in s.pairs
    ensures var t := Exited(s, p, cpu);
            Joins(Unexec(s, p), Entries(t.pcbs, Heirs(s.mutexes, p)), t)
  {
    hide SoundBut, UnlockAll, OwnedNames, Unexec, UniqueNames, Joins, Heirs, HeirsNamed, Entries;
    Leaves(s, p, cpu);
    UnexecKeeps(s, p);
    var out := Unexec(s, p);
    MovingStatus(out, {p}, {cpu}, p, Exit);
    var gone := out.(pcbs := SetStatus(out.pcbs, p, Exit));
    SoundNames(gone, {p}, {cpu}, p);
    OwnedNamesExact(gone.mutexes, p);
    var names := OwnedNames(gone.mutexes, p);
    UnlockAllJoins(gone, {p}, {cpu}, names, p);
    assert gone.mutexes[..|gone.mutexes|] == gone.mutexes;
    HeirsByName(gone.mutexes, |gone.mutexes|, p);
    var u, heirs := UnlockAll(gone, names), Heirs(s.mutexes, p);
    var t := Exited(s, p, cpu);
    SoundPaired(out, {p}, {cpu});
    JoinsNobody(out, gone);
    JoinsTwice(out, [], gone, Entries(u.pcbs, heirs), u);
    assert [] + Entries(u.pcbs, heirs) == Entries(u.pcbs, heirs);
    JoinsExec(out, Entries(u.pcbs, heirs), u);
    JoinsNobody(u, t);
    JoinsTwice(out, Entries(u.pcbs, heirs), u, [], t);
    assert Entries(u.pcbs, heirs) + [] == Entries(u.pcbs, heirs);
    forall x | x in heirs ensures x != p { HeirsOther(gone, {p}, {cpu}, names, p, x); }
    EntriesSame(u.pcbs, t.pcbs, heirs);
  }

  lemma HeirsOther(s: Sched, moving: set<nat>, loose: set<nat>, names: seq<string>, p: nat, x: nat)
    requires SoundBut(s, moving, loose) && p in moving && x in HeirsNamed(s.mutexes, names)
    ensures x != p
  {
    HeirsWait(s.mutexes, names, x);
    var k: nat :| WaitsOn(s.mutexes, k, x) && s.mutexes[k].name in names;
  }

  lemma UnlockCallJoins(s: Sched, name: string, p: nat, cpu: nat)
    requires Sound(s) && Pair(cpu, p) in s.pairs && OwnedOrIdle(s, name, p)
    ensures var t := UnlockHandled(s, name, p, cpu);
            Joins(Unexec(s, p), Entries(t.pcbs, HeirOf(s.mutexes, name) + [p]), t)
  {
    hide SoundBut, Unlock, Unexec, Requeued, Joins, HeirOf, Paired;
    Leaves(s, p, cpu);
    UnexecKeeps(s, p);
    var out := Unexec(s, p);
    UnlockJoins(out, {p}, {cpu}, name, p);
    var u, heirs := Unlock(out, name), HeirOf(s.mutexes, name);
    SoundPaired(out, {p}, {cpu});
    JoinsPaired(out, Entries(u.pcbs, heirs), u);
    RequeueJoins(out, p, Entries(u.pcbs, heirs), u);
    var r, t := Requeued(u, p), UnlockHandled(s, name, p, cpu);
    assert Entries(u.pcbs, heirs) + [Entry(p, Prio(u.pcbs, p))] == Entries(u.pcbs, heirs + [p]);
    JoinsExec(out, Entries(u.pcbs, heirs + [p]), r);
    JoinsNobody(r, t);
    JoinsTwice(out, Entries(u.pcbs, heirs + [p]), r, [], t);
    assert Entries(u.pcbs, heirs + [p]) + [] == Entries(u.pcbs, heirs + [p]);
    RequeuePrios(u, p);
    EntriesSame(u.pcbs, t.pcbs, heirs + [p]);
  }

  lemma RequeuePrios(s: Sched, p: nat)
    ensures forall x :: Prio(Requeued(s, p).pcbs, x) == Prio(s.pcbs, x)
  {
    hide AddReady;
    AddReadyPcbs(s.(pcbs := SetStatus(s.pcbs, p, Ready)), p);
  }

  lemma TickJoins(s: Sched, p: nat, cpu: nat)
    requires Sound(s) && Pair(cpu, p) in s.pairs && cpu in s.interrupts
    ensures var t := Ticked(s, p, cpu, false);
            Joins(Unexec(s, p).(interrupts := Without(s.interrupts, cpu)), Entries(t.pcbs, [p]), t)
  {
    hide SoundBut, Unexec, AddReady, Joins, Paired, Without;
    Leaves(s, p, cpu);
    UnexecKeeps(s, p);
    var u := s.(interrupts := Without(s.interrupts, cpu));
    InterruptsFree(s, Without(s.interrupts, cpu));
    Leaves(u, p, cpu);
    UnexecKeeps(u, p);
    var out := Unexec(u, p);
    assert out == Unexec(s, p).(interrupts := u.interrupts) by { UnexecAlike(s, u, p); }
    SoundPaired(out, {p}, {cpu});
    JoinsNobody(out, out);
    RequeueJoins(out, p, [], out);
    RequeuePrios(out, p);
    var r, t := Requeued(out, p), Ticked(s, p, cpu, false);
    var e := [Entry(p, Prio(out.pcbs, p))];
    assert [] + e == e;
    JoinsExec(out, e, r);
    JoinsNobody(r, t);
    JoinsTwice(out, e, r, [], t);
    assert e + [] == e && Entries(t.pcbs, [p]) == e;
  }

  lemma UnexecAlike(s: Sched, u: Sched, p: nat)
    requires u == s.(interrupts := u.interrupts)
    ensures Unexec(u, p) == Unexec(s, p).(interrupts := u.interrupts)
  {
  }

  lemma IoEndJoins(s: Sched, p: nat)
    requires Sound(s) && p in s.io
    ensures var t := IoEnded(s, p); Joins(s, Entries(t.pcbs, [p]), t)
  {
    hide SoundBut, AddReady, Joins, Paired, Without;
    RequestListed(s, p);
    SoundPaired(s, {}, {});
    IoEndStatus(s, p, p);
    var u := s.(io := Without(s.io, p), block := Without(s.block, p));
    JoinsNobody(s, u);
    JoinsPaired(s, [], u);
    RequeueJoins(s, p, [], u);
    RequeuePrios(u, p);
    var e, t := [Entry(p, Prio(u.pcbs, p))], IoEnded(s, p);
    assert [] + e == e && Entries(t.pcbs, [p]) == e;
  }

  lemma InitJoins(s: Sched, prio: nat, accepted: bool, p: nat, cpu: nat)
    requires Sound(s) && Pair(cpu, p) in s.pairs
    ensures var first: seq<Entry> := if accepted then [Entry(s.nextPid, prio)] else [];
            var t := Apply(s, InitCall(prio, accepted, p, cpu));
            Joins(s, first, Spawned(s, prio, accepted)) &&
            Joins(Unexec(Spawned(s, prio, accepted), p), Entries(t.pcbs, [p]), t) &&
            first + Entries(t.pcbs, [p]) == Entries(t.pcbs, Newcomers(s, InitCall(prio, accepted, p, cpu)))
  {
    hide SoundBut, Unexec, AddReady, Joins, Paired, Spawned;
    RunningHere(s, p, cpu);
    SpawnJoins(s, prio, accepted);
    SpawnSound(s, prio, accepted);
    SpawnedPairs(s, prio, accepted);
    var u := Spawned(s, prio, accepted);
    Leaves(u, p, cpu);
    UnexecKeeps(u, p);
    var out := Unexec(u, p);
    SoundPaired(out, {p}, {cpu});
    JoinsNobody(out, out);
    RequeueJoins(out, p, [], out);
    RequeuePrios(out, p);
    var r, t := Requeued(out, p), Apply(s, InitCall(prio, accepted, p, cpu));
    var e := [Entry(p, Prio(out.pcbs, p))];
    assert [] + e == e;
    JoinsExec(out, e, r);
    JoinsNobody(r, t);
    JoinsTwice(out, e, r, [], t);
    assert e + [] == e && Entries(t.pcbs, [p]) == e;
    EntriesSplit(t.pcbs, if accepted then [s.nextPid] else [], [p]);
    if accepted { assert Entries(t.pcbs, [s.nextPid]) == [Entry(s.nextPid, prio)]; }
  }

  // ----------------------------------------------------------- the queues after any event

  /** The lock lends priority to `o`, who has the mutex and is in a queue. */
  ghost predicate MovesUp(s: Sched, op: Op, o: nat) {
    && op.LockCall? && Prio(s.pcbs, op.pid) < Prio(s.pcbs, o)
    && (exists m :: m in s.mutexes && m.name == op.name && m.owner == Some(o))
    && exists l: nat :: Queued(s.ready, l, o)
  }

  /** A process that was running goes first in its queue because memory is to be compacted. */
  predicate Evicts(s: Sched, op: Op) {
    op.Tick? && op.compacting && op.cpu in s.interrupts
  }

  /** In the queue of its priority, in front of everyone. */
  function InFront(q: seq<nat>, o: nat, cmn: bool, prio: nat, l: nat): seq<nat> {
    (if l == (if cmn then prio else 0) then [o] else []) + q
  }

  /** The dispatcher has the first of the first queue that is not empty. */
  ghost predicate TakesFirst(s: Sched, t: Sched) {
    exists l: nat ::
      && l < |s.ready| && (forall k :: 0 <= k < l ==> s.ready[k] == []) && s.ready[l] != []
      && t.hand == Some(s.ready[l][0]) && t.ready == s.ready[l := s.ready[l][1..]]
  }

  lemma TakeQueues(s: Sched)
    requires Sound(s) && s.hand.None? && s.tokens > 0
    ensures TakesFirst(s, Apply(s, Take)) && |Apply(s, Take).ready| == |s.ready|
  {
    hide SoundBut;
    TakesBest(s);
    var k: nat :| Queued(s.ready, k, TakenByDispatcher(s).hand.value);
    assert k < |s.ready| && s.ready[k] != [];
  }

  lemma EvictQueues(s: Sched, p: nat, cpu: nat)
    requires Sound(s) && Pair(cpu, p) in s.pairs && cpu in s.interrupts
    ensures var t := Ticked(s, p, cpu, true);
            && |t.ready| == |s.ready| && t.hand == s.hand
            && forall l :: 0 <= l < |s.ready| ==> t.ready[l] == InFront(s.ready[l], p, s.cmn, Prio(t.pcbs, p), l)
  {
    hide Without, Unexec, Processes, Running, Processors, Mutexes, Requests;
    var u := s.(interrupts := Without(s.interrupts, cpu));
    UnexecKeeps(u, p);
    var out := Unexec(u, p);
    assert Prio(SetStatus(out.pcbs, p, Ready), p) == Prio(s.pcbs, p);
  }

  lemma MoveUpQueues(s: Sched, name: string, p: nat, cpu: nat, o: nat)
    requires Sound(s) && Pair(cpu, p) in s.pairs && MovesUp(s, LockCall(name, p, cpu), o)
    ensures var t := LockHandled(s, name, p, cpu);
            && |t.ready| == |s.ready| && t.hand == s.hand && Prio(t.pcbs, o) == Prio(s.pcbs, p)
            && forall l :: 0 <= l < |s.ready| ==>
                 t.ready[l] == InFront(Without(s.ready[l], o), o, s.cmn, Prio(s.pcbs, p), l)
  {
    hide Without, Unexec, Processes, Running, Processors, Requests;
    MoveUpFound(s, name, p, cpu, o);
    var i := FindMutex(s.mutexes, name).value;
    UnexecKeeps(s, p);
    var out, v := Unexec(s, p), Prio(s.pcbs, p);
    BoostKeeps(out, o, v);
    BoostQueues(s, o, v);
    BoostedAlike(s, out, o, v);
  }

  lemma MoveUpFound(s: Sched, name: string, p: nat, cpu: nat, o: nat)
    requires Sound(s) && MovesUp(s, LockCall(name, p, cpu), o)
    ensures var i := FindMutex(s.mutexes, name); i.Some? && s.mutexes[i.value].owner == Some(o)
    ensures o in s.pcbs
  {
    var m :| m in s.mutexes && m.name == name && m.owner == Some(o);
    var k :| 0 <= k < |s.mutexes| && s.mutexes[k] == m;
  }

  lemma BoostedAlike(s: Sched, out: Sched, o: nat, v: nat)
    requires out == s.(exec := out.exec, pairs := out.pairs)
    ensures Boosted(out, o, v).ready == Boosted(s, o, v).ready
  {
  }

  lemma BoostQueues(s: Sched, o: nat, v: nat)
    requires Queues(s, {}) && o in s.pcbs && v < s.pcbs[o].prio && exists l: nat :: Queued(s.ready, l, o)
    ensures |Boosted(s, o, v).ready| == |s.ready|
    ensures forall l :: 0 <= l < |s.ready| ==>
              Boosted(s, o, v).ready[l] == InFront(Without(s.ready[l], o), o, s.cmn, v, l)
  {
    var k: nat :| Queued(s.ready, k, o);
    var from := LevelHolding(s.ready, o).value;
    assert Queued(s.ready, from, o);
    forall l | 0 <= l < |s.ready| && l != from ensures Without(s.ready[l], o) == s.ready[l] {
      assert !Queued(s.ready, l, o);
    }
  }

  lemma StillLock(s: Sched, name: string, p: nat, cpu: nat)
    requires Sound(s) && Pair(cpu, p) in s.pairs && forall o :: !MovesUp(s, LockCall(name, p, cpu), o)
    ensures LockHandled(s, name, p, cpu).ready == s.ready && LockHandled(s, name, p, cpu).hand == s.hand
  {
    hide Without, Unexec, Processes, Running, Processors, Requests, Queues;
    var i := FindMutex(s.mutexes, name);
    UnexecKeeps(s, p);
    if i.Some? && s.mutexes[i.value].owner.Some? {
      var o, v, out := s.mutexes[i.value].owner.value, Prio(s.pcbs, p), Unexec(s, p);
      BoostKeeps(out, o, v);
      if v < Prio(s.pcbs, o) {
        assert s.mutexes[i.value] in s.mutexes && !MovesUp(s, LockCall(name, p, cpu), o);
        var from := LevelHolding(s.ready, o);
        assert from.Some? ==> Queued(s.ready, from.value, o);
      }
    }
  }

  /** The queues after an event: a process that becomes ready is last in the queue of its priority, behind everyone
      who was there; only the dispatcher takes one away, the first of all; and only a loan of priority, or an
      eviction for a compaction, puts one in front. */
  ghost predicate QueuesAfter(s: Sched, op: Op, t: Sched) {
    && |t.ready| == |s.ready|
    && (if op.Take? then TakesFirst(s, t) else t.hand == if op.Assign? then None else s.hand)
    && (Evicts(s, op) ==> forall l :: 0 <= l < |s.ready| ==>
          t.ready[l] == InFront(s.ready[l], op.pid, s.cmn, Prio(t.pcbs, op.pid), l))
    && (forall o, l :: MovesUp(s, op, o) && 0 <= l < |s.ready| ==>
          t.ready[l] == InFront(Without(s.ready[l], o), o, s.cmn, Prio(t.pcbs, o), l))
    && (!op.Take? && !Evicts(s, op) && (forall o :: !MovesUp(s, op, o)) ==> forall l :: 0 <= l < |s.ready| ==>
          t.ready[l] == Joined(s.ready[l], Entries(t.pcbs, Newcomers(s, op)), s.cmn, l))
  }

  lemma JoinsQueues(s: Sched, r: Sched, es: seq<Entry>, t: Sched)
    requires Joins(r, es, t) && r.ready == s.ready && r.cmn == s.cmn && r.hand == s.hand
    ensures |t.ready| == |s.ready| && t.hand == s.hand
    ensures forall l :: 0 <= l < |s.ready| ==> t.ready[l] == Joined(s.ready[l], es, s.cmn, l)
  {
  }

  /** Nobody comes in. */
  lemma Untouched(s: Sched, op: Op)
    requires op.ConnectCpu? || op.Interrupt? || op.CreateMutex? || op.MemoryCall? || op.IoCall? || op.Assign?
    requires Arrives(s, op)
    ensures Apply(s, op).ready == s.ready && Apply(s, op).hand == (if op.Assign? then None else s.hand)
    ensures Entries(Apply(s, op).pcbs, Newcomers(s, op)) == []
  {
    hide Unexec, Without;
    if op.IoCall? { UnexecKeeps(s, op.pid); }
  }

  lemma SpawnQueues(s: Sched, prio: nat, accepted: bool)
    requires Sound(s)
    ensures QueuesAfter(s, Spawn(prio, accepted), Apply(s, Spawn(prio, accepted)))
  {
    hide SoundBut, Spawned, Joins, Joined;
    var op := Spawn(prio, accepted);
    var t := Apply(s, op);
    SpawnJoins(s, prio, accepted);
    JoinsQueues(s, s, if accepted then [Entry(s.nextPid, prio)] else [], t);
    assert Entries(t.pcbs, Newcomers(s, op)) == if accepted then [Entry(s.nextPid, prio)] else [];
  }

  lemma InitQueues(s: Sched, prio: nat, accepted: bool, p: nat, cpu: nat)
    requires Sound(s) && Pair(cpu, p) in s.pairs
    ensures QueuesAfter(s, InitCall(prio, accepted, p, cpu), Apply(s, InitCall(prio, accepted, p, cpu)))
  {
    hide SoundBut, Spawned, Joins, Joined, Entries, Unexec, Apply, Newcomers;
    var op := InitCall(prio, accepted, p, cpu);
    var t, u := Apply(s, op), Spawned(s, prio, accepted);
    var first := if accepted then [Entry(s.nextPid, prio)] else [];
    InitJoins(s, prio, accepted, p, cpu);
    JoinsQueues(s, s, first, u);
    UnexecKeeps(u, p);
    SpawnDesks(s, prio, accepted);
    JoinsQueues(u, Unexec(u, p), Entries(t.pcbs, [p]), t);
    forall l | 0 <= l < |s.ready|
      ensures t.ready[l] == Joined(s.ready[l], Entries(t.pcbs, Newcomers(s, op)), s.cmn, l)
    {
      JoinedTwice(s.ready[l], first, Entries(t.pcbs, [p]), s.cmn, l);
    }
  }

  /** The order of every queue after every event. */
  lemma QueueLaw(s: Sched, op: Op)
    requires Sound(s) && Arrives(s, op) && Behaved(s, op)
    ensures QueuesAfter(s, op, Apply(s, op))
  {
    hide SoundBut, Unexec, Spawned, Ticked, LockHandled, UnlockHandled, IoEnded, Exited, IoBlocked, Joins, Joined,
      Entries, TakenByDispatcher, Assigned, Requeued, Heirs, HeirOf, OwnedOrIdle, MovesUp, InFront, TakesFirst,
      MutexCreated;
    var t := Apply(s, op);
    NoLoans(s, op);
    match op
    case Take => TakeQueues(s);
    case Spawn(prio, accepted) => SpawnQueues(s, prio, accepted);
    case InitCall(prio, accepted, p, cpu) => InitQueues(s, prio, accepted, p, cpu);
    case IoEnd(p) =>
      IoEndJoins(s, p);
      JoinsQueues(s, s, Entries(t.pcbs, [p]), t);
    case Tick(p, cpu, compacting) => TickQueues(s, p, cpu, compacting);
    case UnlockCall(name, p, cpu) =>
      UnexecKeeps(s, p);
      UnlockCallJoins(s, name, p, cpu);
      JoinsQueues(s, Unexec(s, p), Entries(t.pcbs, HeirOf(s.mutexes, name) + [p]), t);
    case ExitCall(p, cpu) =>
      UnexecKeeps(s, p);
      ExitJoins(s, p, cpu);
      JoinsQueues(s, Unexec(s, p), Entries(t.pcbs, Heirs(s.mutexes, p)), t);
    case LockCall(name, p, cpu) => LockQueues(s, name, p, cpu);
    case _ =>
      Untouched(s, op);
      StayQueues(s, op, t);
  }

  lemma NoLoans(s: Sched, op: Op)
    ensures !op.LockCall? ==> forall o :: !MovesUp(s, op, o)
  {
  }

  lemma StayQueues(s: Sched, op: Op, t: Sched)
    requires t.ready == s.ready && Entries(t.pcbs, Newcomers(s, op)) == []
    ensures forall l :: 0 <= l < |s.ready| ==>
              t.ready[l] == Joined(s.ready[l], Entries(t.pcbs, Newcomers(s, op)), s.cmn, l)
  {
  }

  lemma TickQueues(s: Sched, p: nat, cpu: nat, compacting: bool)
    requires Sound(s) && Pair(cpu, p) in s.pairs
    ensures QueuesAfter(s, Tick(p, cpu, compacting), Apply(s, Tick(p, cpu, compacting)))
  {
    hide SoundBut, Unexec, Joins, InFront, MovesUp, AddReady, AddFirst, Without;
    var op := Tick(p, cpu, compacting);
    var t := Apply(s, op);
    NoLoans(s, op);
    if cpu !in s.interrupts {
      assert t == s && Entries(t.pcbs, Newcomers(s, op)) == [];
      StayQueues(s, op, t);
    } else if compacting {
      EvictQueues(s, p, cpu);
    } else {
      UnexecKeeps(s, p);
      TickJoins(s, p, cpu);
      JoinsQueues(s, Unexec(s, p).(interrupts := Without(s.interrupts, cpu)), Entries(t.pcbs, [p]), t);
    }
  }

  lemma LockQueues(s: Sched, name: string, p: nat, cpu: nat)
    requires Sound(s) && Pair(cpu, p) in s.pairs
    ensures QueuesAfter(s, LockCall(name, p, cpu), Apply(s, LockCall(name, p, cpu)))
  {
    hide SoundBut, MovesUp, InFront, LockHandled, Without;
    var op := LockCall(name, p, cpu);
    var t := Apply(s, op);
    if forall o :: !MovesUp(s, op, o) {
      StillLock(s, name, p, cpu);
      assert Entries(t.pcbs, Newcomers(s, op)) == [];
      StayQueues(s, op, t);
    } else {
      forall o | MovesUp(s, op, o)
        ensures |t.ready| == |s.ready| && t.hand == s.hand
        ensures forall l :: 0 <= l < |s.ready| ==>
                  t.ready[l] == InFront(Without(s.ready[l], o), o, s.cmn, Prio(t.pcbs, o), l)
      {
        MoveUpQueues(s, name, p, cpu, o);
      }
    }
  }

  // ----------------------------------------------------------- nobody is overtaken

  ghost predicate Ahead(q: seq<nat>, a: nat, b: nat) {
    exists i, j :: 0 <= i < j < |q| && q[i] == a && q[j] == b
  }

  /** `a` is in a better queue than `b`, or ahead of it in the same one. */
  ghost predicate Precedes(ready: seq<seq<nat>>, a: nat, b: nat) {
    exists la: nat, lb: nat ::
      && Queued(ready, la, a) && Queued(ready, lb, b)
      && (la < lb || (la == lb && Ahead(ready[la], a, b)))
  }

  lemma {:induction false} JoinedPrefix(q: seq<nat>, es: seq<Entry>, cmn: bool, l: nat)
    ensures q <= Joined(q, es, cmn, l)
  {
    if es != [] { JoinedPrefix(q, es[..|es| - 1], cmn, l); }
  }

  /** Queues that only grow at their ends keep the order. */
  lemma GrownKeeps(ready: seq<seq<nat>>, grown: seq<seq<nat>>, a: nat, b: nat)
    requires |grown| == |ready| && Precedes(ready, a, b)
    requires forall l :: 0 <= l < |ready| ==> ready[l] <= grown[l]
    ensures Precedes(grown, a, b)
  {
    var la: nat, lb: nat :|
      && Queued(ready, la, a) && Queued(ready, lb, b) && (la < lb || (la == lb && Ahead(ready[la], a, b)));
    assert Queued(grown, la, a) && Queued(grown, lb, b);
    if la == lb {
      var i, j :| 0 <= i < j < |ready[la]| && ready[la][i] == a && ready[la][j] == b;
      assert grown[la][i] == a && grown[la][j] == b;
    }
  }

  lemma AheadInFront(q: seq<nat>, a: nat, b: nat, o: nat)
    requires Ahead(q, a, b)
    ensures Ahead([o] + q, a, b)
  {
    var i, j :| 0 <= i < j < |q| && q[i] == a && q[j] == b;
    assert ([o] + q)[i + 1] == a && ([o] + q)[j + 1] == b;
  }

  lemma AheadWithout(q: seq<nat>, a: nat, b: nat, o: nat)
    requires Ahead(q, a, b) && a != o && b != o
    ensures Ahead(Without(q, o), a, b)
  {
    var i, j :| 0 <= i < j < |q| && q[i] == a && q[j] == b;
    var k := IndexOf(q, o);
    if k.Some? {
      var r := RemoveAt(q, k.value);
      var x, y := if i < k.value then i else i - 1, if j < k.value then j else j - 1;
      assert r[x] == a && r[y] == b;
    }
  }

  /** One process comes in front of a queue. */
  lemma FrontKeeps(ready: seq<seq<nat>>, next: seq<seq<nat>>, o: nat, cmn: bool, prio: nat, a: nat, b: nat)
    requires |next| == |ready| && Precedes(ready, a, b)
    requires forall l :: 0 <= l < |ready| ==> next[l] == InFront(ready[l], o, cmn, prio, l)
    ensures Precedes(next, a, b)
  {
    hide Ahead;
    var la: nat, lb: nat :|
      && Queued(ready, la, a) && Queued(ready, lb, b) && (la < lb || (la == lb && Ahead(ready[la], a, b)));
    assert Queued(next, la, a) && Queued(next, lb, b);
    if la == lb {
      AheadInFront(ready[la], a, b, o);
      assert [] + ready[la] == ready[la];
    }
  }

  function AllWithout(ready: seq<seq<nat>>, o: nat): seq<seq<nat>> {
    seq(|ready|, l requires 0 <= l < |ready| => Without(ready[l], o))
  }

  /** Another process leaves its queue. */
  lemma WithoutKeeps(ready: seq<seq<nat>>, o: nat, a: nat, b: nat)
    requires Precedes(ready, a, b) && a != o && b != o
    ensures Precedes(AllWithout(ready, o), a, b)
  {
    hide Ahead, Without;
    var rest := AllWithout(ready, o);
    var la: nat, lb: nat :|
      && Queued(ready, la, a) && Queued(ready, lb, b) && (la < lb || (la == lb && Ahead(ready[la], a, b)));
    WithoutOthers(ready[la], o);
    WithoutOthers(ready[lb], o);
    assert Queued(rest, la, a) && Queued(rest, lb, b);
    if la == lb { AheadWithout(ready[la], a, b, o); }
  }

  /** A queued process that goes in front of its new queue precedes at least those it preceded before. */
  lemma LoanKeeps(ready: seq<seq<nat>>, next: seq<seq<nat>>, o: nat, cmn: bool, v: nat, b: nat)
    requires |next| == |ready| && b != o && Precedes(ready, o, b)
    requires forall l :: 0 <= l < |ready| ==> next[l] == InFront(Without(ready[l], o), o, cmn, v, l)
    requires forall l: nat :: Queued(ready, l, o) ==> (if cmn then v else 0) <= l
    ensures Precedes(next, o, b)
  {
    hide Ahead, Without;
    var la: nat, lb: nat :| Queued(ready, la, o) && Queued(ready, lb, b) && la <= lb;
    var l := if cmn then v else 0;
    WithoutOthers(ready[lb], o);
    assert next[lb] == InFront(Without(ready[lb], o), o, cmn, v, lb);
    assert next[l] == [o] + Without(ready[l], o);
    assert Queued(next, l, o) && Queued(next, lb, b);
    if l == lb { FirstAhead(Without(ready[l], o), o, b); }
  }

  lemma LoanLevel(s: Sched, op: Op, o: nat)
    requires Sound(s) && MovesUp(s, op, o)
    ensures forall l: nat :: Queued(s.ready, l, o) ==> (if s.cmn then Prio(s.pcbs, op.pid) else 0) <= l
  {
    forall l: nat | Queued(s.ready, l, o) ensures (if s.cmn then Prio(s.pcbs, op.pid) else 0) <= l {
      LevelQueued(s, l, o);
    }
  }

  lemma LoanPrio(s: Sched, op: Op, o: nat)
    requires Sound(s) && Arrives(s, op) && MovesUp(s, op, o)
    ensures op.LockCall? && Prio(Apply(s, op).pcbs, o) == Prio(s.pcbs, op.pid)
  {
    hide SoundBut, LockHandled, InFront, Without;
    match op
    case LockCall(name, p, cpu) => MoveUpQueues(s, name, p, cpu, o);
  }

  lemma FirstAhead(q: seq<nat>, a: nat, b: nat)
    requires b in q
    ensures Ahead([a] + q, a, b)
  {
    var j :| 0 <= j < |q| && q[j] == b;
    assert ([a] + q)[0] == a && ([a] + q)[j + 1] == b;
  }

  lemma LevelQueued(s: Sched, l: nat, p: nat)
    requires Sound(s) && Queued(s.ready, l, p)
    ensures l == (if s.cmn then Prio(s.pcbs, p) else 0) && l < |s.ready|
  {
  }

  lemma AheadNext(q: seq<nat>, a: nat, b: nat)
    requires Ahead(q, a, b) && q[0] != a
    ensures Ahead(q[1..], a, b)
  {
    var i, j :| 0 <= i < j < |q| && q[i] == a && q[j] == b;
    assert q[1..][i - 1] == a && q[1..][j - 1] == b;
  }

  lemma AheadOfFirst(q: seq<nat>, a: nat, b: nat)
    requires Ahead(q, a, b) && NoDup(q)
    ensures q != [] && q[0] != b && b in q && a in q
  {
  }

  lemma InRest(q: seq<nat>, x: nat)
    requires x in q && q[0] != x
    ensures x in q[1..]
  {
    assert q == [q[0]] + q[1..];
  }

  lemma QueueOnce(s: Sched, l: nat)
    requires Sound(s) && l < |s.ready|
    ensures NoDup(s.ready[l])
  {
  }

  /** The dispatcher takes somebody else than the one ahead, and so not the one behind either. */
  lemma TakeKeeps(s: Sched, t: Sched, a: nat, b: nat)
    requires Sound(s) && TakesFirst(s, t) && t.hand != Some(a) && Precedes(s.ready, a, b)
    ensures Precedes(t.ready, a, b) && t.hand != Some(b)
  {
    hide SoundBut, Ahead, NoDup;
    var l: nat :|
      && l < |s.ready| && (forall k :: 0 <= k < l ==> s.ready[k] == []) && s.ready[l] != []
      && t.hand == Some(s.ready[l][0]) && t.ready == s.ready[l := s.ready[l][1..]];
    var la: nat, lb: nat :|
      && Queued(s.ready, la, a) && Queued(s.ready, lb, b) && (la < lb || (la == lb && Ahead(s.ready[la], a, b)));
    assert l <= la;
    QueueOnce(s, la);
    if la == lb { AheadOfFirst(s.ready[la], a, b); }
    if t.hand == Some(b) { LevelQueued(s, l, b); LevelQueued(s, lb, b); }
    if la == l { InRest(s.ready[l], a); }
    if lb == l { InRest(s.ready[l], b); }
    assert Queued(t.ready, la, a) && Queued(t.ready, lb, b);
    if la == lb == l { AheadNext(s.ready[l], a, b); }
  }

  /** Who precedes another goes on to precede it through any event, unless it is taken first, or the other one
      is lent priority. */
  lemma StepPrecedes(s: Sched, op: Op, a: nat, b: nat)
    requires Sound(s) && Arrives(s, op) && Behaved(s, op) && a != b && Precedes(s.ready, a, b) && !MovesUp(s, op, b)
    requires op.Take? ==> Apply(s, op).hand != Some(a)
    ensures Precedes(Apply(s, op).ready, a, b) && (op.Take? ==> Apply(s, op).hand != Some(b))
  {
    hide SoundBut, LockHandled, Precedes, MovesUp, InFront, Entries, Newcomers, Joined, Without,
      Unexec, Spawned, Ticked, UnlockHandled, IoEnded, Exited, IoBlocked, Requeued, TakenByDispatcher, Assigned;
    var t := Apply(s, op);
    QueueLaw(s, op);
    if op.Take? {
      TakeKeeps(s, t, a, b);
    } else if Evicts(s, op) {
      FrontKeeps(s.ready, t.ready, op.pid, s.cmn, Prio(t.pcbs, op.pid), a, b);
    } else if forall o :: !MovesUp(s, op, o) {
      forall l | 0 <= l < |s.ready| ensures s.ready[l] <= t.ready[l] {
        JoinedPrefix(s.ready[l], Entries(t.pcbs, Newcomers(s, op)), s.cmn, l);
      }
      GrownKeeps(s.ready, t.ready, a, b);
    } else {
      var o :| MovesUp(s, op, o);
      if o == a {
        LoanLevel(s, op, a);
        LoanPrio(s, op, a);
        LoanKeeps(s.ready, t.ready, a, s.cmn, Prio(t.pcbs, a), b);
      } else {
        WithoutKeeps(s.ready, o, a, b);
        FrontKeeps(AllWithout(s.ready, o), t.ready, o, s.cmn, Prio(t.pcbs, o), a, b);
      }
    }
  }

  /** In every run, of two processes in the ready queues the one in the better queue, or ahead in the same one, is
      taken first, unless the other is lent priority meanwhile. */
  lemma {:induction false} NeverOvertaken(states: seq<Sched>, ops: seq<Op>, i: nat, j: nat, a: nat, b: nat)
    requires Run(states, ops) && i <= j < |states| && a != b && Precedes(states[i].ready, a, b)
    requires forall k :: i <= k < j ==> !MovesUp(states[k], ops[k], b)
    requires forall k :: i <= k < j && ops[k].Take? ==> states[k + 1].hand != Some(a)
    ensures Precedes(states[j].ready, a, b)
    ensures forall k :: i <= k < j && ops[k].Take? ==> states[k + 1].hand != Some(b)
    decreases j
  {
    hide SoundBut, Fifo, Apply, Behaved, Arrives, Initial, Precedes, MovesUp;
    if i < j {
      NeverOvertaken(states, ops, i, j - 1, a, b);
      RunSound(states, ops, j - 1);
      StepPrecedes(states[j - 1], ops[j - 1], a, b);
    }
  }

  // ----------------------------------------------------------- everyone's turn comes

  /** How often the dispatcher took a process between two states. */
  function Takes(ops: seq<Op>, i: nat, j: nat): nat
    requires i <= j <= |ops|
    decreases j
  {
    if i == j then 0 else Takes(ops, i, j - 1) + if ops[j - 1].Take? then 1 else 0
  }

  /** With one queue, and while nobody is put in front, a process with `k` others before it is the first after `k` of
      them were taken, and is taken next. */
  lemma {:induction false} TurnComes(states: seq<Sched>, ops: seq<Op>, i: nat, j: nat, p: nat, k: nat)
    requires Run(states, ops) && i <= j <= |ops| && !states[i].cmn
    requires |states[i].ready| > 0 && k < |states[i].ready[0]| && states[i].ready[0][k] == p
    requires forall n :: i <= n < j ==> !Evicts(states[n], ops[n]) && forall o :: !MovesUp(states[n], ops[n], o)
    requires Takes(ops, i, j) <= k
    ensures !states[j].cmn && |states[j].ready| > 0
    ensures |states[j].ready[0]| > k - Takes(ops, i, j) && states[j].ready[0][k - Takes(ops, i, j)] == p
    ensures j < |ops| && Takes(ops, i, j) == k && ops[j].Take? ==> states[j + 1].hand == Some(p)
    decreases j
  {
    hide SoundBut, Fifo, Apply, Behaved, Arrives, Initial, MovesUp, Entries, Newcomers, Joined, InFront;
    if i < j {
      TurnComes(states, ops, i, j - 1, p, k);
      var s, op := states[j - 1], ops[j - 1];
      RunSound(states, ops, j - 1);
      QueueLaw(s, op);
      SameKind(s, op);
      if op.Take? {
        OneQueue(s);
      } else {
        JoinedPrefix(s.ready[0], Entries(states[j].pcbs, Newcomers(s, op)), s.cmn, 0);
      }
    }
    RunSound(states, ops, j);
    OneQueue(states[j]);
    if j < |ops| && Takes(ops, i, j) == k && ops[j].Take? { QueueLaw(states[j], ops[j]); }
  }

  /** The dispatcher has work to do exactly while some process is queued. */
  lemma QueuedMeansToken(s: Sched)
    requires Sound(s)
    ensures s.tokens > 0 <==> exists l: nat, p :: Queued(s.ready, l, p)
  {
    if l: nat, p :| Queued(s.ready, l, p) {
      TotalUpdated(s.ready, l, []);
    } else {
      forall l: nat | l < |s.ready| ensures s.ready[l] == [] {
        if s.ready[l] != [] { assert Queued(s.ready, l, s.ready[l][0]); }
      }
      TotalZero(s.ready);
    }
  }

  lemma OneQueue(s: Sched)
    requires Sound(s) && !s.cmn
    ensures forall l :: 0 < l < |s.ready| ==> s.ready[l] == []
  {
    forall l: nat | 0 < l < |s.ready| ensures s.ready[l] == [] {
      if s.ready[l] != [] { LevelQueued(s, l, s.ready[l][0]); }
    }
  }

  lemma SameKind(s: Sched, op: Op)
    requires Sound(s) && Arrives(s, op) && Behaved(s, op)
    ensures Apply(s, op).cmn == s.cmn
  {
    hide SoundBut, Unexec, Spawned, Ticked, UnlockHandled, IoEnded, Exited, IoBlocked, LockHandled, Requeued;
    match op
    case Spawn(prio, accepted) => SpawnDesks(s, prio, accepted);
    case Tick(p, cpu, compacting) => TickVacates(s, p, cpu, compacting);
    case LockCall(name, p, cpu) => LockVacates(s, name, p, cpu);
    case UnlockCall(name, p, cpu) => UnlockVacates(s, name, p, cpu);
    case IoCall(p, cpu, served) => IoVacates(s, p, cpu, served);
    case IoEnd(p) => IoEndJoinsKind(s, p);
    case InitCall(prio, accepted, p, cpu) => InitVacates(s, prio, accepted, p, cpu);
    case ExitCall(p, cpu) => ExitVacates(s, p, cpu);
    case _ =>
  }

  lemma IoEndJoinsKind(s: Sched, p: nat)
    requires Sound(s) && p in s.io
    ensures IoEnded(s, p).cmn == s.cmn
  {
    hide Joined, Struck;
    IoEndJoins(s, p);
  }
}
