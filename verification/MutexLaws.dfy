/** Mutexes and the priorities they lend: what locking, handing over and releasing keep. */
module MutexLaws {
  import opened Common
  import opened Scheduling
  import opened Soundness

  // ----------------------------------------------------------- priorities

  lemma {:induction false} LeastBounds(pcbs: map<nat, Pcb>, ws: seq<nat>, v: nat)
    ensures Least(pcbs, ws, v) <= v
    ensures forall w :: w in ws ==> Least(pcbs, ws, v) <= Prio(pcbs, w)
    ensures Least(pcbs, ws, v) == v || exists w :: w in ws && Least(pcbs, ws, v) == Prio(pcbs, w)
  {
    if ws != [] {
      var front, last := ws[..|ws| - 1], ws[|ws| - 1];
      assert ws == front + [last];
      LeastBounds(pcbs, front, v);
      var r := Least(pcbs, front, v);
      if Prio(pcbs, last) >= r && r != v {
        var w :| w in front && r == Prio(pcbs, w);
        assert w in ws;
      }
    }
  }

  /** `w` waits for a mutex that `p` owns. */
  ghost predicate WaitsFor(ms: seq<Mutex>, w: nat, p: nat) {
    exists i: nat :: WaitsOn(ms, i, w) && ms[i].owner == Some(p)
  }

  /** `v` is the least of the process's own priority and those of the processes that wait for it. */
  ghost predicate NeededIs(pcbs: map<nat, Pcb>, ms: seq<Mutex>, p: nat, v: nat)
    requires p in pcbs
  {
    && v <= pcbs[p].orig
    && (forall w :: WaitsFor(ms, w, p) ==> v <= Prio(pcbs, w))
    && (v == pcbs[p].orig || exists w :: WaitsFor(ms, w, p) && v == Prio(pcbs, w))
  }

  lemma WaitsForSplits(ms: seq<Mutex>, w: nat, p: nat)
    requires ms != []
    ensures WaitsFor(ms, w, p) <==>
            WaitsFor(ms[..|ms| - 1], w, p) || (ms[|ms| - 1].owner == Some(p) && w in ms[|ms| - 1].waiters)
  {
    var n := |ms| - 1;
    if WaitsFor(ms, w, p) {
      var i: nat :| WaitsOn(ms, i, w) && ms[i].owner == Some(p);
      assert i < n ==> WaitsOn(ms[..n], i, w) && ms[..n][i].owner == Some(p);
    }
    if WaitsFor(ms[..n], w, p) {
      var i: nat :| WaitsOn(ms[..n], i, w) && ms[..n][i].owner == Some(p);
      assert WaitsOn(ms, i, w) && ms[i].owner == Some(p);
    }
    if ms[n].owner == Some(p) && w in ms[n].waiters { assert WaitsOn(ms, n, w); }
  }

  lemma {:induction false} LeastOverBounds(pcbs: map<nat, Pcb>, ms: seq<Mutex>, p: nat, v: nat)
    ensures LeastOver(pcbs, ms, p, v) <= v
    ensures forall w :: WaitsFor(ms, w, p) ==> LeastOver(pcbs, ms, p, v) <= Prio(pcbs, w)
    ensures LeastOver(pcbs, ms, p, v) == v ||
            exists w :: WaitsFor(ms, w, p) && LeastOver(pcbs, ms, p, v) == Prio(pcbs, w)
  {
    if ms != [] {
      var front, last := ms[..|ms| - 1], ms[|ms| - 1];
      LeastOverBounds(pcbs, front, p, v);
      var r := LeastOver(pcbs, front, p, v);
      LeastBounds(pcbs, last.waiters, r);
      forall w ensures WaitsFor(ms, w, p) <==> WaitsFor(front, w, p) || (last.owner == Some(p) && w in last.waiters) {
        WaitsForSplits(ms, w, p);
      }
    }
  }

  /** `calcular_prioridad_necesaria` computes what inheritance calls for. */
  lemma NeededMeets(pcbs: map<nat, Pcb>, ms: seq<Mutex>, p: nat)
    requires p in pcbs
    ensures NeededIs(pcbs, ms, p, Needed(pcbs, ms, p))
  {
    LeastOverBounds(pcbs, ms, p, pcbs[p].orig);
  }

  /** Every process but those of `except` runs at the least of its own priority and those of its waiters. */
  ghost predicate InheritsBut(s: Sched, except: set<nat>) {
    forall p :: p in s.pcbs && p !in except ==> NeededIs(s.pcbs, s.mutexes, p, s.pcbs[p].prio)
  }

  ghost predicate Inherits(s: Sched) {
    InheritsBut(s, {})
  }

  // ----------------------------------------------------------- a boost

  /** A process leaves its queue, and its token with it. */
  lemma QueueLoses(s: Sched, moving: set<nat>, k: nat, o: nat)
    requires Queues(s, moving) && Queued(s.ready, k, o)
    ensures s.tokens > 0
    ensures Queues(s.(ready := s.ready[k := Without(s.ready[k], o)], tokens := s.tokens - 1), moving + {o})
  {
    var rest := Without(s.ready[k], o);
    var taken := s.ready[k := rest];
    WithoutMembers(s.ready[k], o);
    TotalUpdated(s.ready, k, rest);
    assert forall j: nat :: Queued(s.ready, j, o) ==> j == k;
    forall j: nat, x ensures Queued(taken, j, x) <==> Queued(s.ready, j, x) && x != o {
      if j == k {
        assert taken[j] == rest;
      } else if j < |taken| {
        assert taken[j] == s.ready[j];
        assert x == o ==> !Queued(s.ready, j, x);
      }
    }
  }

  lemma MovingPrio(s: Sched, moving: set<nat>, o: nat, v: nat)
    requires Queues(s, moving) && Processes(s, moving) && o in moving && v <= s.pcbs[o].orig
    ensures Queues(s.(pcbs := SetPrio(s.pcbs, o, v)), moving) && Processes(s.(pcbs := SetPrio(s.pcbs, o, v)), moving)
  {
    var t := s.(pcbs := SetPrio(s.pcbs, o, v));
    assert forall x :: x != o ==> Level(t.cmn, t.pcbs, x) == Level(s.cmn, s.pcbs, x);
  }

  lemma UnqueuedPrio(s: Sched, moving: set<nat>, o: nat, v: nat)
    requires Queues(s, moving) && o in s.pcbs && forall l: nat :: !Queued(s.ready, l, o)
    ensures Queues(s.(pcbs := SetPrio(s.pcbs, o, v)), moving)
  {
    var t := s.(pcbs := SetPrio(s.pcbs, o, v));
    assert forall x :: x != o ==> Level(t.cmn, t.pcbs, x) == Level(s.cmn, s.pcbs, x);
    if HasStatus(s.pcbs, o, Ready) { assert !Queued(s.ready, Level(s.cmn, s.pcbs, o), o); }
  }

  /** A boosted process that is queued is found at the front of the queue of its new priority. */
  lemma QueueMoves(s: Sched, moving: set<nat>, o: nat, v: nat)
    requires Queues(s, moving) && Processes(s, moving) && o in s.pcbs && v < s.pcbs[o].prio
    ensures Queues(Boosted(s, o, v), moving)
  {
    var from := LevelHolding(s.ready, o);
    if from.None? || !HasStatus(s.pcbs, o, Ready) {
      forall l: nat ensures !Queued(s.ready, l, o) {}
      UnqueuedPrio(s, moving, o, v);
    } else {
      QueuedLevel(s, moving, from.value, o);
      hide Queues;
      QueueLoses(s, moving, from.value, o);
      var out := s.(ready := s.ready[from.value := Without(s.ready[from.value], o)], tokens := s.tokens - 1);
      MovingPrio(out, moving + {o}, o, v);
      var m := out.(pcbs := SetPrio(out.pcbs, o, v));
      var t := Boosted(s, o, v);
      QueueGains(m, moving + {o}, o, t, [o] + m.ready[Level(m.cmn, m.pcbs, o)]);
      assert moving + {o} - {o} == moving;
    }
  }

  lemma QueuedLevel(s: Sched, moving: set<nat>, k: nat, o: nat)
    requires Queues(s, moving) && Queued(s.ready, k, o) && o in s.pcbs
    ensures o !in moving && HasStatus(s.pcbs, o, Ready) && k == Level(s.cmn, s.pcbs, o) && |s.ready| == s.levels
  {
  }

  lemma BoostSound(s: Sched, moving: set<nat>, loose: set<nat>, o: nat, v: nat)
    requires SoundBut(s, moving, loose) && o in s.pcbs && v < s.pcbs[o].prio
    ensures SoundBut(Boosted(s, o, v), moving, loose)
  {
    hide Queues;
    QueueMoves(s, moving, o, v);
    var t := Boosted(s, o, v);
    SameProcessors(s, t, loose);
    BoostRest(s, moving, o, v, t);
  }

  lemma BoostRest(s: Sched, moving: set<nat>, o: nat, v: nat, t: Sched)
    requires Processes(s, moving) && Running(s, moving) && Mutexes(s, moving) && Requests(s, moving)
    requires o in s.pcbs && v < s.pcbs[o].prio && t == s.(pcbs := SetPrio(s.pcbs, o, v), ready := t.ready)
    ensures Processes(t, moving) && Running(t, moving) && Mutexes(t, moving) && Requests(t, moving)
  {
  }

  // ----------------------------------------------------------- becoming a waiter

  lemma EnlistSound(s: Sched, loose: set<nat>, i: nat, p: nat)
    requires SoundBut(s, {p}, loose) && i < |s.mutexes| && s.mutexes[i].owner.Some?
    ensures SoundBut(Enlisted(s, i, p), {}, loose)
  {
    hide Queues, Processors, Mutexes;
    var m, t := s.mutexes[i], Enlisted(s, i, p);
    Blocks(s, {p}, loose, p, false);
    assert {p} - {p} == {};
    var b := s.(pcbs := SetStatus(s.pcbs, p, Block), block := s.block + [p]);
    WaiterAdded(s, i, p, t);
    SameProcessors(s, t, loose);
    SameQueues(b, t);
  }

  lemma SameQueues(s: Sched, t: Sched)
    requires Queues(s, {}) && t == s.(mutexes := t.mutexes, history := t.history)
    ensures Queues(t, {})
  {
  }

  lemma WaiterAdded(s: Sched, i: nat, p: nat, t: Sched)
    requires Mutexes(s, {p}) && Requests(s, {p}) && i < |s.mutexes| && s.mutexes[i].owner.Some? && p in s.pcbs
    requires var m := s.mutexes[i];
             t == s.(mutexes := s.mutexes[i := m.(waiters := m.waiters + [p])], history := t.history,
                     pcbs := SetStatus(s.pcbs, p, Block), block := t.block)
    ensures Mutexes(t, {})
  {
    assert p !in s.mutexes[i].waiters by { assert !WaitsOn(s.mutexes, i, p); }
    AppendNoDup(s.mutexes[i].waiters, p);
    forall j: nat, x ensures WaitsOn(t.mutexes, j, x) <==> WaitsOn(s.mutexes, j, x) || (j == i && x == p) {}
  }

  /** A process that waits leaves nothing behind: its CPU is loose, the owner's queue is right again. */
  lemma WaitingSound(s: Sched, i: nat, p: nat, cpu: nat)
    requires Sound(s) && Pair(cpu, p) in s.pairs && i < |s.mutexes| && s.mutexes[i].owner.Some?
    ensures SoundBut(Waiting(s, i, p), {}, {cpu})
  {
    hide SoundBut, Enlisted, Unexec, Boosted;
    OwnerKnown(s, i);
    Leaves(s, p, cpu);
    UnexecKeeps(s, p);
    var out, o, v := Unexec(s, p), s.mutexes[i].owner.value, Prio(s.pcbs, p);
    if v < Prio(s.pcbs, o) {
      BoostSound(out, {p}, {cpu}, o, v);
      BoostKeeps(out, o, v);
      EnlistSound(Boosted(out, o, v), {cpu}, i, p);
    } else {
      EnlistSound(out, {cpu}, i, p);
    }
  }

  lemma OwnerKnown(s: Sched, i: nat)
    requires Sound(s) && i < |s.mutexes| && s.mutexes[i].owner.Some?
    ensures s.mutexes[i].owner.value in s.pcbs
  {
  }

  lemma UnexecKeeps(s: Sched, p: nat)
    ensures Unexec(s, p) == s.(exec := Unexec(s, p).exec, pairs := Unexec(s, p).pairs)
  {
  }

  lemma BoostKeeps(s: Sched, o: nat, v: nat)
    ensures Boosted(s, o, v) == s.(pcbs := SetPrio(s.pcbs, o, v), ready := Boosted(s, o, v).ready)
  {
  }

  lemma TakenSound(s: Sched, moving: set<nat>, loose: set<nat>, i: nat, p: nat)
    requires SoundBut(s, moving, loose) && i < |s.mutexes| && s.mutexes[i].owner.None? && p in s.pcbs
    ensures SoundBut(Taken(s, i, p), moving, loose)
  {
    var t := Taken(s, i, p);
    forall j: nat, x ensures WaitsOn(t.mutexes, j, x) <==> WaitsOn(s.mutexes, j, x) {}
    SameProcessors(s, t, loose);
  }

  // ----------------------------------------------------------- handing over

  /** The first waiter becomes the owner and is, for a moment, in no list. */
  lemma NextMoves(s: Sched, moving: set<nat>, loose: set<nat>, i: nat, v: nat, h: seq<Event>)
    requires SoundBut(s, moving, loose) && i < |s.mutexes| && s.mutexes[i].waiters != []
    requires var next := s.mutexes[i].waiters[0]; next in s.pcbs ==> v <= s.pcbs[next].orig
    ensures var next := s.mutexes[i].waiters[0];
            && next !in moving && HasStatus(s.pcbs, next, Block)
            && SoundBut(s.(mutexes := s.mutexes[i := Passed(s.mutexes[i])], pcbs := SetPrio(s.pcbs, next, v),
                           history := h),
                        moving + {next}, loose)
  {
    var m, next := s.mutexes[i], s.mutexes[i].waiters[0];
    assert WaitsOn(s.mutexes, i, next);
    var t := s.(mutexes := s.mutexes[i := Passed(m)], pcbs := SetPrio(s.pcbs, next, v), history := h);
    NextMutexes(s, moving, i, t);
    assert forall x :: x != next ==> Level(t.cmn, t.pcbs, x) == Level(s.cmn, s.pcbs, x);
    SameProcessors(s, t, loose);
    forall l: nat ensures !Queued(s.ready, l, next) {}
  }

  lemma NextMutexes(s: Sched, moving: set<nat>, i: nat, t: Sched)
    requires Mutexes(s, moving) && i < |s.mutexes| && s.mutexes[i].waiters != []
    requires t.mutexes == s.mutexes[i := Passed(s.mutexes[i])] && t.io == s.io
    requires t.pcbs.Keys == s.pcbs.Keys && forall x, st :: HasStatus(t.pcbs, x, st) <==> HasStatus(s.pcbs, x, st)
    ensures Mutexes(t, moving + {s.mutexes[i].waiters[0]})
  {
    var m, next := s.mutexes[i], s.mutexes[i].waiters[0];
    assert m.waiters == [next] + Passed(m).waiters;
    assert WaitsOn(s.mutexes, i, next);
    forall j: nat, x ensures WaitsOn(t.mutexes, j, x) <==> WaitsOn(s.mutexes, j, x) && x != next {
      if j != i && WaitsOn(s.mutexes, j, x) { assert t.mutexes[j] == s.mutexes[j]; }
    }
  }

  lemma HandOverSound(s: Sched, moving: set<nat>, loose: set<nat>, i: nat)
    requires SoundBut(s, moving, loose) && i < |s.mutexes| && s.mutexes[i].waiters != []
    ensures SoundBut(HandedOver(s, i), moving, loose)
  {
    hide SoundBut, AddReady;
    var m := s.mutexes[i];
    var next, v := m.waiters[0], Least(s.pcbs, m.waiters[1..], Prio(s.pcbs, m.waiters[0]));
    LeastBounds(s.pcbs, m.waiters[1..], Prio(s.pcbs, next));
    PrioBound(s, moving, loose, next);
    var h := s.history + Passing(m);
    NextMoves(s, moving, loose, i, v, h);
    var mid := s.(mutexes := s.mutexes[i := Passed(m)], pcbs := SetPrio(s.pcbs, next, v), history := h);
    Enters(mid, moving + {next}, loose, next, false);
    assert moving + {next} - {next} == moving;
  }

  lemma PrioBound(s: Sched, moving: set<nat>, loose: set<nat>, p: nat)
    requires SoundBut(s, moving, loose)
    ensures p in s.pcbs ==> Prio(s.pcbs, p) <= s.pcbs[p].orig
  {
  }

  lemma RestoreSound(s: Sched, moving: set<nat>, loose: set<nat>, p: nat)
    requires SoundBut(s, moving, loose) && p in moving
    ensures SoundBut(Restored(s, p), moving, loose)
  {
    hide Queues;
    var v := Needed(s.pcbs, s.mutexes, p);
    NeededMeets(s.pcbs, s.mutexes, p);
    MovingPrio(s, moving, p, v);
    RestoreRest(s, moving, loose, p, v);
  }

  lemma RestoreRest(s: Sched, moving: set<nat>, loose: set<nat>, p: nat, v: nat)
    requires Running(s, moving) && Mutexes(s, moving) && Requests(s, moving) && Processors(s, loose)
    ensures var t := s.(pcbs := SetPrio(s.pcbs, p, v));
            Running(t, moving) && Mutexes(t, moving) && Requests(t, moving) && Processors(t, loose)
  {
  }

  lemma FreedSound(s: Sched, moving: set<nat>, loose: set<nat>, i: nat)
    requires SoundBut(s, moving, loose) && i < |s.mutexes| && s.mutexes[i].waiters == []
    ensures SoundBut(PassedOn(s, i), moving, loose)
  {
    var t := PassedOn(s, i);
    forall j: nat, x ensures WaitsOn(t.mutexes, j, x) <==> WaitsOn(s.mutexes, j, x) {}
    SameProcessors(s, t, loose);
  }

  /** The mutex is free or nobody's, or its owner is the process that is letting go of it. */
  predicate OwnedOrIdle(s: Sched, name: string, p: nat) {
    var i := FindMutex(s.mutexes, name);
    i.None? || s.mutexes[i.value].owner.None? || s.mutexes[i.value].owner == Some(p)
  }

  lemma UnlockSound(s: Sched, moving: set<nat>, loose: set<nat>, name: string, p: nat)
    requires SoundBut(s, moving, loose) && p in moving && OwnedOrIdle(s, name, p)
    ensures SoundBut(Unlock(s, name), moving, loose)
  {
    hide SoundBut, HandedOver, Restored;
    var i := FindMutex(s.mutexes, name);
    if i.Some? && s.mutexes[i.value].owner.Some? {
      if s.mutexes[i.value].waiters == [] {
        FreedSound(s, moving, loose, i.value);
        RestoreSound(PassedOn(s, i.value), moving, loose, p);
      } else {
        HandOverSound(s, moving, loose, i.value);
        RestoreSound(HandedOver(s, i.value), moving, loose, p);
      }
    }
  }

  // ----------------------------------------------------------- releasing everything

  lemma UnlockShape(s: Sched, name: string)
    ensures var i := FindMutex(s.mutexes, name);
            Unlock(s, name).mutexes ==
            if i.None? || s.mutexes[i.value].owner.None? then s.mutexes
            else s.mutexes[i.value := Passed(s.mutexes[i.value])]
    ensures Unlock(s, name).pcbs.Keys == s.pcbs.Keys
  {
    hide AddReady, Needed, Least, Passed;
    var i := FindMutex(s.mutexes, name);
    if i.Some? && s.mutexes[i.value].waiters != [] { HandedOverShape(s, i.value); }
  }

  lemma AddReadyKeeps(s: Sched, p: nat)
    ensures var t := AddReady(s, p); t == s.(ready := t.ready, tokens := t.tokens, interrupts := t.interrupts)
  {
    hide Marked;
  }

  lemma HandedOverShape(s: Sched, i: nat)
    requires i < |s.mutexes| && s.mutexes[i].waiters != []
    ensures HandedOver(s, i).mutexes == s.mutexes[i := Passed(s.mutexes[i])]
    ensures HandedOver(s, i).pcbs.Keys == s.pcbs.Keys
  {
    hide AddReady, Least, Passed;
    var m := s.mutexes[i];
    var next := m.waiters[0];
    var inherited := SetPrio(s.pcbs, next, Least(s.pcbs, m.waiters[1..], Prio(s.pcbs, next)));
    AddReadyKeeps(s.(mutexes := s.mutexes[i := Passed(m)], pcbs := SetStatus(inherited, next, Ready),
                     history := s.history + Passing(m)), next);
  }

  ghost predicate UniqueNames(ms: seq<Mutex>) {
    forall i, j :: 0 <= i < j < |ms| ==> ms[i].name != ms[j].name
  }

  lemma FindUnique(ms: seq<Mutex>, j: nat)
    requires UniqueNames(ms) && j < |ms|
    ensures FindMutex(ms, ms[j].name) == Some(j)
  {
  }

  ghost predicate Owns(ms: seq<Mutex>, p: nat, name: string) {
    exists j :: 0 <= j < |ms| && ms[j].name == name && ms[j].owner == Some(p)
  }

  lemma {:induction false} OwnedNamesExact(ms: seq<Mutex>, p: nat)
    requires UniqueNames(ms)
    ensures NoDup(OwnedNames(ms, p)) && forall name :: name in OwnedNames(ms, p) <==> Owns(ms, p, name)
  {
    if ms != [] {
      var front, last := ms[..|ms| - 1], ms[|ms| - 1];
      OwnedNamesExact(front, p);
      assert !Owns(front, p, last.name);
      forall name ensures Owns(ms, p, name) <==> Owns(front, p, name) || (last.name == name && last.owner == Some(p)) {
        if Owns(front, p, name) {
          var j :| 0 <= j < |front| && front[j].name == name && front[j].owner == Some(p);
          assert ms[j] == front[j];
        }
      }
    }
  }

  /** The mutexes after the ones named have been let go. */
  ghost predicate AllPassed(ms: seq<Mutex>, names: seq<string>, ns: seq<Mutex>) {
    && |ns| == |ms|
    && forall j :: 0 <= j < |ms| ==> ns[j] == if ms[j].name in names then Passed(ms[j]) else ms[j]
  }

  lemma PassedMore(ms: seq<Mutex>, front: seq<string>, last: string, ns: seq<Mutex>, j: nat)
    requires UniqueNames(ms) && AllPassed(ms, front, ns) && last !in front
    requires j < |ms| && ms[j].name == last
    ensures ns[j] == ms[j] && FindMutex(ns, last) == Some(j)
    ensures AllPassed(ms, front + [last], ns[j := Passed(ns[j])])
  {
    assert UniqueNames(ns);
    FindUnique(ns, j);
  }

  lemma {:induction false} UnlockAllSound(s: Sched, moving: set<nat>, loose: set<nat>, names: seq<string>, p: nat)
    requires SoundBut(s, moving, loose) && p in moving && UniqueNames(s.mutexes)
    requires NoDup(names) && forall name :: name in names ==> Owns(s.mutexes, p, name)
    ensures SoundBut(UnlockAll(s, names), moving, loose)
    ensures AllPassed(s.mutexes, names, UnlockAll(s, names).mutexes)
    ensures UnlockAll(s, names).pcbs.Keys == s.pcbs.Keys
  {
    hide SoundBut, Unlock, UniqueNames, Passed;
    if names != [] {
      var front, last := names[..|names| - 1], names[|names| - 1];
      assert names == front + [last];
      assert last in names && forall name :: name in front ==> name in names;
      UnlockAllSound(s, moving, loose, front, p);
      var m := UnlockAll(s, front);
      var j :| 0 <= j < |s.mutexes| && s.mutexes[j].name == last && s.mutexes[j].owner == Some(p);
      PassedMore(s.mutexes, front, last, m.mutexes, j);
      UnlockSound(m, moving, loose, last, p);
      UnlockShape(m, last);
    }
  }

  lemma MovingStatus(s: Sched, moving: set<nat>, loose: set<nat>, p: nat, status: Status)
    requires SoundBut(s, moving, loose) && p in moving
    ensures SoundBut(s.(pcbs := SetStatus(s.pcbs, p, status)), moving, loose)
  {
    hide Processors;
    var t := s.(pcbs := SetStatus(s.pcbs, p, status));
    assert forall x :: Level(t.cmn, t.pcbs, x) == Level(s.cmn, s.pcbs, x);
    SameProcessors(s, t, loose);
  }

  lemma Disappears(s: Sched, moving: set<nat>, loose: set<nat>, p: nat)
    requires SoundBut(s, moving, loose) && p in moving
    requires forall j :: 0 <= j < |s.mutexes| ==> s.mutexes[j].owner != Some(p)
    ensures SoundBut(s.(pcbs := s.pcbs - {p}), moving - {p}, loose)
  {
    var t := s.(pcbs := s.pcbs - {p});
    assert forall x :: x != p ==> Level(t.cmn, t.pcbs, x) == Level(s.cmn, s.pcbs, x);
    assert forall x, st :: x != p ==> (HasStatus(t.pcbs, x, st) <==> HasStatus(s.pcbs, x, st));
    SameProcessors(s, t, loose);
  }

  /** What the mutexes are once a process has ended: each it owned is free, or belongs to the process that
      had waited longest; every other one is as it was; and the process owns nothing. */
  ghost predicate Released(ms: seq<Mutex>, p: nat, ns: seq<Mutex>) {
    && |ns| == |ms|
    && (forall j :: 0 <= j < |ms| ==> ns[j] == if ms[j].owner == Some(p) then Passed(ms[j]) else ms[j])
    && (forall j :: 0 <= j < |ns| ==> ns[j].owner != Some(p))
  }

  /** The state in which an ended process has let go of all its mutexes. */
  function LetGo(s: Sched, p: nat): Sched {
    var out := Unexec(s, p);
    var gone := out.(pcbs := SetStatus(out.pcbs, p, Exit));
    UnlockAll(gone, OwnedNames(gone.mutexes, p))
  }

  lemma LetGoSound(s: Sched, p: nat, cpu: nat)
    requires Sound(s) && Pair(cpu, p) in s.pairs
    ensures SoundBut(LetGo(s, p), {p}, {cpu}) && Released(s.mutexes, p, LetGo(s, p).mutexes)
    ensures LetGo(s, p).pcbs.Keys == s.pcbs.Keys
  {
    hide SoundBut, UnlockAll, OwnedNames, Unexec;
    Leaves(s, p, cpu);
    UnexecKeeps(s, p);
    var out := Unexec(s, p);
    MovingStatus(out, {p}, {cpu}, p, Exit);
    var gone := out.(pcbs := SetStatus(out.pcbs, p, Exit));
    SoundNames(gone, {p}, {cpu}, p);
    OwnedNamesExact(gone.mutexes, p);
    UnlockAllSound(gone, {p}, {cpu}, OwnedNames(gone.mutexes, p), p);
    var t := LetGo(s, p);
    forall j | 0 <= j < |s.mutexes|
      ensures s.mutexes[j].name in OwnedNames(gone.mutexes, p) <==> s.mutexes[j].owner == Some(p)
    {
      FindUnique(gone.mutexes, j);
      if Owns(gone.mutexes, p, s.mutexes[j].name) {
        var k :|
          && 0 <= k < |gone.mutexes| && gone.mutexes[k].name == s.mutexes[j].name
          && gone.mutexes[k].owner == Some(p);
        FindUnique(gone.mutexes, k);
      }
    }
  }

  lemma SoundNames(s: Sched, moving: set<nat>, loose: set<nat>, p: nat)
    requires SoundBut(s, moving, loose) && p in moving
    ensures UniqueNames(s.mutexes)
    ensures forall j :: 0 <= j < |s.mutexes| && s.mutexes[j].waiters != [] ==> s.mutexes[j].waiters[0] != p
  {
    forall j | 0 <= j < |s.mutexes| && s.mutexes[j].waiters != [] ensures s.mutexes[j].waiters[0] != p {
      assert WaitsOn(s.mutexes, j, s.mutexes[j].waiters[0]);
    }
  }

  lemma ExitSound(s: Sched, p: nat, cpu: nat)
    requires Sound(s) && Pair(cpu, p) in s.pairs
    ensures Sound(Exited(s, p, cpu)) && Released(s.mutexes, p, Exited(s, p, cpu).mutexes)
    ensures p !in Exited(s, p, cpu).pcbs
  {
    hide SoundBut, LetGo;
    LetGoSound(s, p, cpu);
    var t := LetGo(s, p);
    assert Exited(s, p, cpu) == FreeCpu(t.(pcbs := t.pcbs - {p}), cpu) by { ExitedLetsGo(s, p, cpu); }
    Disappears(t, {p}, {cpu}, p);
    assert {p} - {p} == {};
    CpuReturns(t.(pcbs := t.pcbs - {p}), {}, cpu);
  }

  lemma ExitedLetsGo(s: Sched, p: nat, cpu: nat)
    ensures Exited(s, p, cpu) == FreeCpu(LetGo(s, p).(pcbs := LetGo(s, p).pcbs - {p}), cpu)
  {
  }
}
