/** Priority inheritance: when every process runs at the priority its waiters call for. */
module Inheritance {
  import opened Common
  import opened Scheduling
  import opened Soundness
  import opened MutexLaws

  // ----------------------------------------------------------- what inheritance depends on

  /** The same processes with the same priorities of their own. */
  ghost predicate SamePeople(s: Sched, t: Sched) {
    t.pcbs.Keys == s.pcbs.Keys && forall p :: p in s.pcbs ==> t.pcbs[p].orig == s.pcbs[p].orig
  }

  ghost predicate SamePrios(s: Sched, t: Sched) {
    SamePeople(s, t) && forall p :: p in s.pcbs ==> t.pcbs[p].prio == s.pcbs[p].prio
  }

  ghost predicate SameWaits(ms: seq<Mutex>, ns: seq<Mutex>) {
    forall w, p :: WaitsFor(ns, w, p) <==> WaitsFor(ms, w, p)
  }

  lemma InheritsFrame(s: Sched, t: Sched, except: set<nat>)
    requires InheritsBut(s, except) && SamePrios(s, t) && SameWaits(s.mutexes, t.mutexes)
    ensures InheritsBut(t, except)
  {
    forall p | p in t.pcbs && p !in except ensures NeededIs(t.pcbs, t.mutexes, p, t.pcbs[p].prio) {
      SameNeeded(s, t, p);
    }
  }

  lemma SameNeeded(s: Sched, t: Sched, p: nat)
    requires p in s.pcbs && SamePrios(s, t) && SameWaits(s.mutexes, t.mutexes)
    requires NeededIs(s.pcbs, s.mutexes, p, s.pcbs[p].prio)
    ensures NeededIs(t.pcbs, t.mutexes, p, t.pcbs[p].prio)
  {
    hide WaitsFor;
    assert forall x :: Prio(t.pcbs, x) == Prio(s.pcbs, x);
  }

  lemma WaitsAfterTaking(ms: seq<Mutex>, i: nat, p: nat)
    requires i < |ms| && ms[i].waiters == []
    ensures SameWaits(ms, ms[i := ms[i].(owner := Some(p))])
  {
    var ns := ms[i := ms[i].(owner := Some(p))];
    forall w: nat, q: nat ensures WaitsFor(ns, w, q) <==> WaitsFor(ms, w, q) {
      if WaitsFor(ms, w, q) {
        var j: nat :| WaitsOn(ms, j, w) && ms[j].owner == Some(q);
        assert WaitsOn(ns, j, w) && ns[j].owner == Some(q);
      }
      if WaitsFor(ns, w, q) {
        var j: nat :| WaitsOn(ns, j, w) && ns[j].owner == Some(q);
        assert WaitsOn(ms, j, w) && ms[j].owner == Some(q);
      }
    }
  }

  lemma WaitsAfterEnlisting(ms: seq<Mutex>, i: nat, o: nat, p: nat, ns: seq<Mutex>)
    requires i < |ms| && ms[i].owner == Some(o) && ns == ms[i := ms[i].(waiters := ms[i].waiters + [p])]
    ensures forall w, q :: WaitsFor(ns, w, q) <==> WaitsFor(ms, w, q) || (w == p && q == o)
  {
    forall w: nat, q: nat ensures WaitsFor(ns, w, q) <==> WaitsFor(ms, w, q) || (w == p && q == o) {
      if WaitsFor(ms, w, q) {
        var j: nat :| WaitsOn(ms, j, w) && ms[j].owner == Some(q);
        assert WaitsOn(ns, j, w) && ns[j].owner == Some(q);
      }
      if WaitsFor(ns, w, q) {
        var j: nat :| WaitsOn(ns, j, w) && ns[j].owner == Some(q);
        assert j != i || w != p ==> WaitsOn(ms, j, w) && ms[j].owner == Some(q);
      }
      assert WaitsOn(ns, i, p) && ns[i].owner == Some(o);
    }
  }

  /** Handing a mutex over: those left in line now wait for its new owner, who waits no more. */
  lemma WaitsAfterPassing(s: Sched, moving: set<nat>, i: nat, ns: seq<Mutex>)
    requires Mutexes(s, moving) && i < |s.mutexes| && s.mutexes[i].waiters != []
    requires ns == s.mutexes[i := Passed(s.mutexes[i])]
    ensures var m := s.mutexes[i];
            forall w: nat, q: nat :: WaitsFor(ns, w, q) <==>
              if w in m.waiters[1..] then q == m.waiters[0] else w != m.waiters[0] && WaitsFor(s.mutexes, w, q)
    ensures var m := s.mutexes[i];
            forall w: nat, q: nat :: w in m.waiters && WaitsFor(s.mutexes, w, q) ==> m.owner == Some(q)
    ensures s.mutexes[i].waiters[0] !in s.mutexes[i].waiters[1..]
  {
    var ms, m := s.mutexes, s.mutexes[i];
    var next, rest := m.waiters[0], m.waiters[1..];
    assert m.waiters == [next] + rest;
    forall w: nat, q: nat | w in m.waiters && WaitsFor(ms, w, q) ensures m.owner == Some(q) {
      var j: nat :| WaitsOn(ms, j, w) && ms[j].owner == Some(q);
      assert WaitsOn(ms, i, w);
    }
    forall w: nat, q: nat
      ensures WaitsFor(ns, w, q) <==> if w in rest then q == next else w != next && WaitsFor(ms, w, q)
    {
      if WaitsFor(ns, w, q) {
        var j: nat :| WaitsOn(ns, j, w) && ns[j].owner == Some(q);
        if j != i {
          assert WaitsOn(ms, j, w) && ms[j].owner == Some(q);
          assert w in m.waiters ==> WaitsOn(ms, i, w);
        }
      }
      if w in rest { assert WaitsOn(ns, i, w) && ns[i].owner == Some(next); }
      if w !in rest && w != next && WaitsFor(ms, w, q) {
        var j: nat :| WaitsOn(ms, j, w) && ms[j].owner == Some(q);
        assert WaitsOn(ns, j, w) && ns[j].owner == Some(q);
      }
    }
  }

  // ----------------------------------------------------------- locking

  /** The owner that is about to inherit waits itself, for a process that would then have to inherit too. */
  ghost predicate Chained(s: Sched, name: string, p: nat) {
    var i := FindMutex(s.mutexes, name);
    && i.Some? && s.mutexes[i.value].owner.Some?
    && var o := s.mutexes[i.value].owner.value;
       && Prio(s.pcbs, p) < Prio(s.pcbs, o)
       && exists q :: q != o && WaitsFor(s.mutexes, o, q) && Prio(s.pcbs, q) > Prio(s.pcbs, p)
  }

  /** What waiting does to priorities: at most the owner's changes, to the waiter's. */
  lemma WaitingPrios(s: Sched, i: nat, p: nat)
    requires i < |s.mutexes| && s.mutexes[i].owner.Some? && s.mutexes[i].owner.value in s.pcbs
    ensures var t, o, v := Waiting(s, i, p), s.mutexes[i].owner.value, Prio(s.pcbs, p);
            && SamePeople(s, t)
            && t.mutexes == s.mutexes[i := s.mutexes[i].(waiters := s.mutexes[i].waiters + [p])]
            && forall x :: Prio(t.pcbs, x) == if x == o && v < Prio(s.pcbs, o) then v else Prio(s.pcbs, x)
  {
    hide LevelHolding, Without, DropPair;
    var o, v, out := s.mutexes[i].owner.value, Prio(s.pcbs, p), Unexec(s, p);
    UnexecKeeps(s, p);
    BoostKeeps(out, o, v);
  }

  /** Waiting for a mutex keeps inheritance exactly when the boost does not have to travel further. */
  lemma WaitingInheritsIff(s: Sched, i: nat, p: nat, t: Sched)
    requires Inherits(s) && p in s.pcbs && i < |s.mutexes| && s.mutexes[i].owner.Some?
    requires var o, v := s.mutexes[i].owner.value, Prio(s.pcbs, p);
             && o in s.pcbs && SamePeople(s, t)
             && t.mutexes == s.mutexes[i := s.mutexes[i].(waiters := s.mutexes[i].waiters + [p])]
             && forall x :: Prio(t.pcbs, x) == if x == o && v < Prio(s.pcbs, o) then v else Prio(s.pcbs, x)
    requires forall q, w :: WaitsFor(s.mutexes, w, q) ==> q in s.pcbs
    ensures var o, v := s.mutexes[i].owner.value, Prio(s.pcbs, p);
            Inherits(t) <==>
            !(v < Prio(s.pcbs, o) && exists q :: q != o && WaitsFor(s.mutexes, o, q) && Prio(s.pcbs, q) > v)
  {
    var o, v := s.mutexes[i].owner.value, Prio(s.pcbs, p);
    WaitsAfterEnlisting(s.mutexes, i, o, p, t.mutexes);
    hide WaitsFor, WaitsOn;
    if v < Prio(s.pcbs, o) && exists q :: q != o && WaitsFor(s.mutexes, o, q) && Prio(s.pcbs, q) > v {
      var q :| q != o && WaitsFor(s.mutexes, o, q) && Prio(s.pcbs, q) > v;
      assert WaitsFor(t.mutexes, o, q) && Prio(t.pcbs, o) == v < t.pcbs[q].prio;
      assert !NeededIs(t.pcbs, t.mutexes, q, t.pcbs[q].prio);
    } else {
      forall q | q in t.pcbs ensures NeededIs(t.pcbs, t.mutexes, q, t.pcbs[q].prio) {
        assert NeededIs(s.pcbs, s.mutexes, q, s.pcbs[q].prio);
        if q == o { OwnerInherits(s, i, p, t); } else { OthersInherit(s, i, p, t, q); }
      }
    }
  }

  lemma OwnerInherits(s: Sched, i: nat, p: nat, t: Sched)
    requires i < |s.mutexes| && s.mutexes[i].owner.Some? && p in s.pcbs
    requires var o, v := s.mutexes[i].owner.value, Prio(s.pcbs, p);
             && o in s.pcbs && o in t.pcbs && t.pcbs[o].orig == s.pcbs[o].orig
             && NeededIs(s.pcbs, s.mutexes, o, s.pcbs[o].prio)
             && (forall x :: Prio(t.pcbs, x) == if x == o && v < Prio(s.pcbs, o) then v else Prio(s.pcbs, x))
             && forall w, q :: WaitsFor(t.mutexes, w, q) <==> WaitsFor(s.mutexes, w, q) || (w == p && q == o)
    ensures var o := s.mutexes[i].owner.value; NeededIs(t.pcbs, t.mutexes, o, t.pcbs[o].prio)
  {
    hide WaitsFor, WaitsOn;
    var o, v := s.mutexes[i].owner.value, Prio(s.pcbs, p);
    assert WaitsFor(t.mutexes, p, o);
    if v < Prio(s.pcbs, o) {
      assert Prio(t.pcbs, p) == v == Prio(t.pcbs, o);
    } else if s.pcbs[o].prio != s.pcbs[o].orig {
      var w :| WaitsFor(s.mutexes, w, o) && s.pcbs[o].prio == Prio(s.pcbs, w);
      assert WaitsFor(t.mutexes, w, o);
    }
  }

  lemma OthersInherit(s: Sched, i: nat, p: nat, t: Sched, q: nat)
    requires i < |s.mutexes| && s.mutexes[i].owner.Some? && p in s.pcbs && q in s.pcbs
    requires var o, v := s.mutexes[i].owner.value, Prio(s.pcbs, p);
             && q != o && o in s.pcbs && q in t.pcbs && t.pcbs[q].orig == s.pcbs[q].orig
             && NeededIs(s.pcbs, s.mutexes, q, s.pcbs[q].prio)
             && (forall x :: Prio(t.pcbs, x) == if x == o && v < Prio(s.pcbs, o) then v else Prio(s.pcbs, x))
             && (forall w, r :: WaitsFor(t.mutexes, w, r) <==> WaitsFor(s.mutexes, w, r) || (w == p && r == o))
             && (v < Prio(s.pcbs, o) && WaitsFor(s.mutexes, o, q) ==> Prio(s.pcbs, q) <= v)
    ensures NeededIs(t.pcbs, t.mutexes, q, t.pcbs[q].prio)
  {
    hide WaitsFor, WaitsOn;
    assert Prio(t.pcbs, q) == Prio(s.pcbs, q);
    if s.pcbs[q].prio != s.pcbs[q].orig {
      var w :| WaitsFor(s.mutexes, w, q) && s.pcbs[q].prio == Prio(s.pcbs, w);
      assert WaitsFor(t.mutexes, w, q);
    }
  }

  lemma OwnersKnown(s: Sched, moving: set<nat>)
    requires Mutexes(s, moving)
    ensures forall q, w :: WaitsFor(s.mutexes, w, q) ==> q in s.pcbs
  {
  }

  /** Locking keeps inheritance exactly when the owner is not itself waiting for a process of worse
      priority than the caller's: the boost goes one step, and no further. */
  lemma LockInheritsIff(s: Sched, name: string, p: nat, cpu: nat)
    requires Sound(s) && Inherits(s) && Pair(cpu, p) in s.pairs
    ensures Inherits(LockHandled(s, name, p, cpu)) <==> !Chained(s, name, p)
  {
    hide SoundBut, WaitsFor, Waiting, InheritsBut, Taken, FreeCpu, Chained;
    RunningKnown(s, p, cpu);
    NotChained(s, name, p);
    FreeInherits(s, cpu);
    var i := FindMutex(s.mutexes, name);
    if i.Some? && s.mutexes[i.value].owner.None? {
      TakenInherits(s, i.value, p);
    } else if i.Some? {
      BusyLockInherits(s, i.value, p);
      FreeInherits(Waiting(s, i.value, p), cpu);
    }
  }

  lemma RunningKnown(s: Sched, p: nat, cpu: nat)
    requires Sound(s) && Pair(cpu, p) in s.pairs
    ensures p in s.pcbs
  {
    Leaves(s, p, cpu);
  }

  lemma NotChained(s: Sched, name: string, p: nat)
    ensures var i := FindMutex(s.mutexes, name);
            Chained(s, name, p) <==>
            && i.Some? && s.mutexes[i.value].owner.Some?
            && var o := s.mutexes[i.value].owner.value;
               && Prio(s.pcbs, p) < Prio(s.pcbs, o)
               && exists q :: q != o && WaitsFor(s.mutexes, o, q) && Prio(s.pcbs, q) > Prio(s.pcbs, p)
  {
  }

  lemma TakenInherits(s: Sched, i: nat, p: nat)
    requires Sound(s) && Inherits(s) && i < |s.mutexes| && s.mutexes[i].owner.None?
    ensures Inherits(Taken(s, i, p))
  {
    hide SoundBut, WaitsFor, InheritsBut;
    IdleMutex(s, i);
    WaitsAfterTaking(s.mutexes, i, p);
    InheritsFrame(s, Taken(s, i, p), {});
  }

  lemma BusyLockInherits(s: Sched, i: nat, p: nat)
    requires Sound(s) && Inherits(s) && p in s.pcbs && i < |s.mutexes| && s.mutexes[i].owner.Some?
    ensures var o, v := s.mutexes[i].owner.value, Prio(s.pcbs, p);
            Inherits(Waiting(s, i, p)) <==>
            !(v < Prio(s.pcbs, o) && exists q :: q != o && WaitsFor(s.mutexes, o, q) && Prio(s.pcbs, q) > v)
  {
    hide SoundBut, WaitsFor, InheritsBut, Waiting;
    OwnerKnown(s, i);
    SoundOwners(s);
    WaitingPrios(s, i, p);
    WaitingInheritsIff(s, i, p, Waiting(s, i, p));
  }

  lemma FreeInherits(s: Sched, cpu: nat)
    ensures Inherits(FreeCpu(s, cpu)) <==> Inherits(s)
  {
    var t := FreeCpu(s, cpu);
    if Inherits(s) { InheritsFrame(s, t, {}); }
    if Inherits(t) { InheritsFrame(t, s, {}); }
  }

  lemma IdleMutex(s: Sched, i: nat)
    requires Sound(s) && i < |s.mutexes| && s.mutexes[i].owner.None?
    ensures s.mutexes[i].waiters == []
  {
  }

  lemma SoundOwners(s: Sched)
    requires Sound(s)
    ensures forall q, w :: WaitsFor(s.mutexes, w, q) ==> q in s.pcbs
  {
    OwnersKnown(s, {});
  }

  // ----------------------------------------------------------- unlocking

  lemma LettingGoWaits(s: Sched, moving: set<nat>, i: nat)
    requires Mutexes(s, moving) && i < |s.mutexes| && s.mutexes[i].waiters == []
    ensures SameWaits(s.mutexes, s.mutexes[i := Passed(s.mutexes[i])])
  {
    var ms, ns := s.mutexes, s.mutexes[i := Passed(s.mutexes[i])];
    forall w: nat, q: nat ensures WaitsFor(ns, w, q) <==> WaitsFor(ms, w, q) {
      if WaitsFor(ms, w, q) {
        var j: nat :| WaitsOn(ms, j, w) && ms[j].owner == Some(q);
        assert WaitsOn(ns, j, w) && ns[j].owner == Some(q);
      }
      if WaitsFor(ns, w, q) {
        var j: nat :| WaitsOn(ns, j, w) && ns[j].owner == Some(q);
        assert WaitsOn(ms, j, w) && ms[j].owner == Some(q);
      }
    }
  }

  /** What handing over does to priorities: only the new owner's changes, to the least of those left in line. */
  lemma HandedOverPrios(s: Sched, i: nat)
    requires i < |s.mutexes| && s.mutexes[i].waiters != []
    ensures var t, m := HandedOver(s, i), s.mutexes[i];
            && SamePeople(s, t) && t.mutexes == s.mutexes[i := Passed(m)]
            && forall x :: Prio(t.pcbs, x) ==
                 if x == m.waiters[0] && x in s.pcbs then Least(s.pcbs, m.waiters[1..], Prio(s.pcbs, x))
                 else Prio(s.pcbs, x)
  {
    hide AddReady, Least, Passed;
    var m := s.mutexes[i];
    var next := m.waiters[0];
    var inherited := SetPrio(s.pcbs, next, Least(s.pcbs, m.waiters[1..], Prio(s.pcbs, next)));
    AddReadyKeeps(s.(mutexes := s.mutexes[i := Passed(m)], pcbs := SetStatus(inherited, next, Ready),
                     history := s.history + Passing(m)), next);
  }

  /** After a hand-over everyone inherits rightly, except the old owner, whose priority is still to be restored. */
  lemma HandOverInherits(s: Sched, moving: set<nat>, i: nat, p: nat, t: Sched)
    requires Mutexes(s, moving) && Inherits(s) && p in moving
    requires i < |s.mutexes| && s.mutexes[i].owner == Some(p) && s.mutexes[i].waiters != []
    requires var m := s.mutexes[i];
             && SamePeople(s, t) && t.mutexes == s.mutexes[i := Passed(m)]
             && forall x :: Prio(t.pcbs, x) ==
                  if x == m.waiters[0] && x in s.pcbs then Least(s.pcbs, m.waiters[1..], Prio(s.pcbs, x))
                  else Prio(s.pcbs, x)
    ensures InheritsBut(t, {p})
  {
    hide Mutexes, WaitsFor, WaitsOn, Passed, Least;
    WaitsAfterPassing(s, moving, i, t.mutexes);
    NextInLine(s, moving, i, p);
    var next := s.mutexes[i].waiters[0];
    forall q | q in t.pcbs && q != p ensures NeededIs(t.pcbs, t.mutexes, q, t.pcbs[q].prio) {
      assert NeededIs(s.pcbs, s.mutexes, q, s.pcbs[q].prio);
      if q == next {
        NextInherits(s, i, p, t);
      } else if s.pcbs[q].prio != s.pcbs[q].orig {
        var w :| WaitsFor(s.mutexes, w, q) && s.pcbs[q].prio == Prio(s.pcbs, w);
        assert WaitsFor(t.mutexes, w, q);
      }
    }
  }

  lemma NextInLine(s: Sched, moving: set<nat>, i: nat, p: nat)
    requires Mutexes(s, moving) && p in moving
    requires i < |s.mutexes| && s.mutexes[i].owner == Some(p) && s.mutexes[i].waiters != []
    ensures var next := s.mutexes[i].waiters[0]; next in s.pcbs && next != p && WaitsFor(s.mutexes, next, p)
  {
    assert WaitsOn(s.mutexes, i, s.mutexes[i].waiters[0]);
  }

  lemma NextInherits(s: Sched, i: nat, p: nat, t: Sched)
    requires i < |s.mutexes| && s.mutexes[i].owner == Some(p) && s.mutexes[i].waiters != []
    requires var m, next := s.mutexes[i], s.mutexes[i].waiters[0];
             && next in s.pcbs && next in t.pcbs && t.pcbs[next].orig == s.pcbs[next].orig && next != p
             && NeededIs(s.pcbs, s.mutexes, next, s.pcbs[next].prio)
             && (forall x :: Prio(t.pcbs, x) ==
                   if x == next then Least(s.pcbs, m.waiters[1..], Prio(s.pcbs, x)) else Prio(s.pcbs, x))
             && (forall w: nat, q: nat :: WaitsFor(t.mutexes, w, q) <==>
                   if w in m.waiters[1..] then q == next else w != next && WaitsFor(s.mutexes, w, q))
             && (forall w: nat, q: nat :: w in m.waiters && WaitsFor(s.mutexes, w, q) ==> m.owner == Some(q))
             && next !in m.waiters[1..]
    ensures var next := s.mutexes[i].waiters[0]; NeededIs(t.pcbs, t.mutexes, next, t.pcbs[next].prio)
  {
    hide WaitsFor, WaitsOn, Least;
    var m := s.mutexes[i];
    var next, rest := m.waiters[0], m.waiters[1..];
    assert m.waiters == [next] + rest;
    LeastBounds(s.pcbs, rest, Prio(s.pcbs, next));
    var v := Least(s.pcbs, rest, Prio(s.pcbs, next));
    assert Prio(t.pcbs, next) == v;
    if v != Prio(s.pcbs, next) {
      var w :| w in rest && v == Prio(s.pcbs, w);
      assert WaitsFor(t.mutexes, w, next) && Prio(t.pcbs, w) == v;
    } else if v != s.pcbs[next].orig {
      var w :| WaitsFor(s.mutexes, w, next) && v == Prio(s.pcbs, w);
      assert WaitsFor(t.mutexes, w, next) && Prio(t.pcbs, w) == v;
    }
  }

  /** Restoring the old owner's priority makes inheritance right for it too; nobody depends on it. */
  lemma RestoreInherits(s: Sched, moving: set<nat>, p: nat)
    requires Mutexes(s, moving) && p in moving && p in s.pcbs && InheritsBut(s, {p})
    ensures Inherits(Restored(s, p))
  {
    var v := Needed(s.pcbs, s.mutexes, p);
    var t := Restored(s, p);
    NeededMeets(s.pcbs, s.mutexes, p);
    assert forall q :: !WaitsFor(s.mutexes, p, q);
    hide WaitsFor, WaitsOn, Needed;
    assert forall x :: x != p ==> Prio(t.pcbs, x) == Prio(s.pcbs, x);
    forall q | q in t.pcbs ensures NeededIs(t.pcbs, t.mutexes, q, t.pcbs[q].prio) {
      var u := t.pcbs[q].prio;
      assert NeededIs(s.pcbs, s.mutexes, q, u);
      if u != s.pcbs[q].orig {
        var w :| WaitsFor(s.mutexes, w, q) && u == Prio(s.pcbs, w);
        assert Prio(t.pcbs, w) == u;
      }
    }
  }

  lemma UnlockInherits(s: Sched, moving: set<nat>, loose: set<nat>, name: string, p: nat)
    requires SoundBut(s, moving, loose) && p in moving && OwnedOrIdle(s, name, p) && Inherits(s)
    ensures Inherits(Unlock(s, name))
  {
    hide SoundBut, InheritsBut, HandedOver, Restored, Passed;
    SoundMutexes(s, moving, loose, p);
    var i := FindMutex(s.mutexes, name);
    if i.Some? && s.mutexes[i.value].owner.Some? {
      var m := s.mutexes[i.value];
      if m.waiters == [] {
        var t := PassedOn(s, i.value);
        LettingGoWaits(s, moving, i.value);
        InheritsFrame(s, t, {});
        FreedSound(s, moving, loose, i.value);
        SoundMutexes(t, moving, loose, p);
        InheritsLess(t, p);
        RestoreInherits(t, moving, p);
      } else {
        var t := HandedOver(s, i.value);
        HandedOverPrios(s, i.value);
        HandOverInherits(s, moving, i.value, p, t);
        HandOverSound(s, moving, loose, i.value);
        SoundMutexes(t, moving, loose, p);
        RestoreInherits(t, moving, p);
      }
    }
  }

  lemma SoundMutexes(s: Sched, moving: set<nat>, loose: set<nat>, p: nat)
    requires SoundBut(s, moving, loose) && p in moving
    ensures Mutexes(s, moving) && p in s.pcbs
  {
  }

  lemma InheritsLess(s: Sched, p: nat)
    requires Inherits(s)
    ensures InheritsBut(s, {p})
  {
  }

  // ----------------------------------------------------------- the end of a process

  lemma {:induction false} UnlockAllInherits(s: Sched, moving: set<nat>, loose: set<nat>, names: seq<string>, p: nat)
    requires SoundBut(s, moving, loose) && p in moving && UniqueNames(s.mutexes) && Inherits(s)
    requires NoDup(names) && forall name :: name in names ==> Owns(s.mutexes, p, name)
    ensures Inherits(UnlockAll(s, names))
  {
    hide SoundBut, Unlock, UniqueNames, Passed, InheritsBut;
    if names != [] {
      var front, last := names[..|names| - 1], names[|names| - 1];
      assert names == front + [last];
      assert last in names && forall name :: name in front ==> name in names;
      UnlockAllInherits(s, moving, loose, front, p);
      UnlockAllSound(s, moving, loose, front, p);
      var m := UnlockAll(s, front);
      var j :| 0 <= j < |s.mutexes| && s.mutexes[j].name == last && s.mutexes[j].owner == Some(p);
      PassedMore(s.mutexes, front, last, m.mutexes, j);
      UnlockInherits(m, moving, loose, last, p);
    }
  }

  lemma LetGoInherits(s: Sched, p: nat, cpu: nat)
    requires Sound(s) && Inherits(s) && Pair(cpu, p) in s.pairs
    ensures Inherits(LetGo(s, p))
  {
    hide SoundBut, UnlockAll, OwnedNames, Unexec, InheritsBut;
    Leaves(s, p, cpu);
    UnexecKeeps(s, p);
    var out := Unexec(s, p);
    MovingStatus(out, {p}, {cpu}, p, Exit);
    var gone := out.(pcbs := SetStatus(out.pcbs, p, Exit));
    InheritsFrame(s, gone, {});
    SoundNames(gone, {p}, {cpu}, p);
    OwnedNamesExact(gone.mutexes, p);
    UnlockAllInherits(gone, {p}, {cpu}, OwnedNames(gone.mutexes, p), p);
  }

  /** Someone who owns nothing and waits for nothing can go without anyone's priority changing. */
  lemma DisappearsInherits(s: Sched, moving: set<nat>, p: nat)
    requires Mutexes(s, moving) && p in moving && Inherits(s)
    ensures Inherits(s.(pcbs := s.pcbs - {p}))
  {
    var t := s.(pcbs := s.pcbs - {p});
    assert forall q :: !WaitsFor(s.mutexes, p, q);
    hide WaitsFor, WaitsOn;
    assert forall x :: x != p ==> Prio(t.pcbs, x) == Prio(s.pcbs, x);
    forall q | q in t.pcbs ensures NeededIs(t.pcbs, t.mutexes, q, t.pcbs[q].prio) {
      assert NeededIs(s.pcbs, s.mutexes, q, s.pcbs[q].prio);
      if s.pcbs[q].prio != s.pcbs[q].orig {
        var w :| WaitsFor(s.mutexes, w, q) && s.pcbs[q].prio == Prio(s.pcbs, w);
        assert Prio(t.pcbs, w) == s.pcbs[q].prio;
      }
    }
  }

  lemma ExitInherits(s: Sched, p: nat, cpu: nat)
    requires Sound(s) && Inherits(s) && Pair(cpu, p) in s.pairs
    ensures Inherits(Exited(s, p, cpu))
  {
    hide SoundBut, LetGo, InheritsBut, Mutexes;
    LetGoSound(s, p, cpu);
    LetGoInherits(s, p, cpu);
    var t := LetGo(s, p);
    SoundMutexes(t, {p}, {cpu}, p);
    DisappearsInherits(t, {p}, p);
    FreeInherits(t.(pcbs := t.pcbs - {p}), cpu);
    assert Exited(s, p, cpu) == FreeCpu(t.(pcbs := t.pcbs - {p}), cpu) by { ExitedLetsGo(s, p, cpu); }
  }

  lemma Newcomer(s: Sched)
    requires Sound(s)
    ensures s.nextPid !in s.pcbs && forall q :: !WaitsFor(s.mutexes, s.nextPid, q)
  {
  }

  lemma NewcomerInherits(s: Sched, n: nat, pcb: Pcb, t: Sched)
    requires Inherits(s) && n !in s.pcbs && t.mutexes == s.mutexes && t.pcbs == s.pcbs[n := pcb] && pcb.prio == pcb.orig
    requires forall q, w :: WaitsFor(s.mutexes, w, q) ==> q in s.pcbs && w != n
    ensures Inherits(t)
  {
    hide WaitsFor;
    assert forall x :: x != n ==> Prio(t.pcbs, x) == Prio(s.pcbs, x);
    forall q | q in t.pcbs ensures NeededIs(t.pcbs, t.mutexes, q, t.pcbs[q].prio) {
      if q != n {
        assert NeededIs(s.pcbs, s.mutexes, q, s.pcbs[q].prio);
        if s.pcbs[q].prio != s.pcbs[q].orig {
          var w :| WaitsFor(s.mutexes, w, q) && s.pcbs[q].prio == Prio(s.pcbs, w);
          assert Prio(t.pcbs, w) == s.pcbs[q].prio;
        }
      }
    }
  }

  /** A new process runs at its own priority. */
  lemma SpawnInherits(s: Sched, prio: nat, accepted: bool)
    requires Sound(s) && Inherits(s)
    ensures Inherits(Spawned(s, prio, accepted))
  {
    hide WaitsFor, SoundBut, AddReady, InheritsBut;
    SoundOwners(s);
    Newcomer(s);
    if accepted {
      var pcb := Pcb(Ready, prio, prio);
      var t := s.(nextPid := s.nextPid + 1, pcbs := s.pcbs[s.nextPid := pcb]);
      NewcomerInherits(s, s.nextPid, pcb, t);
      AddReadyKeeps(t, s.nextPid);
      InheritsFrame(t, AddReady(t, s.nextPid), {});
    } else {
      InheritsFrame(s, Spawned(s, prio, accepted), {});
    }
  }
}
