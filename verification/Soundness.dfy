/** What holds of the scheduler between any two events, and of the pieces its handlers are made of. */
module Soundness {
  import opened Common
  import opened Scheduling

  /** A process whose own priority has a queue. */
  predicate Plannable(s: Sched, p: nat) {
    p in s.pcbs && (!s.cmn || s.pcbs[p].orig < s.levels)
  }

  predicate Queued(ready: seq<seq<nat>>, l: nat, p: nat) {
    l < |ready| && p in ready[l]
  }

  /** `moving` are the processes a handler has in its hands: in no list, and between two states. */
  ghost predicate Processes(s: Sched, moving: set<nat>) {
    && moving <= s.pcbs.Keys
    && (forall p :: p in s.pcbs ==> p < s.nextPid && s.pcbs[p].prio <= s.pcbs[p].orig)
    && (forall p :: p in s.pcbs && p !in moving ==> s.pcbs[p].status in {Ready, Exec, Block})
  }

  /** Queues hold ready processes, each in the queue of its priority; one token for each of them; and no
      ready process is lost. */
  ghost predicate Queues(s: Sched, moving: set<nat>) {
    && |s.ready| == s.levels > 0 && (s.preempt ==> s.cmn)
    && s.tokens == Total(s.ready)
    && (forall l :: 0 <= l < |s.ready| ==> NoDup(s.ready[l]))
    && (forall l: nat, p :: Queued(s.ready, l, p) ==>
          p !in moving && HasStatus(s.pcbs, p, Ready) && l == Level(s.cmn, s.pcbs, p) && s.hand != Some(p))
    && (s.hand.Some? ==> s.hand.value !in moving && HasStatus(s.pcbs, s.hand.value, Ready))
    && (forall p :: p !in moving && HasStatus(s.pcbs, p, Ready) && Plannable(s, p) && s.hand != Some(p) ==>
          Queued(s.ready, Level(s.cmn, s.pcbs, p), p))
  }

  /** The list of running processes and the pairs match one to one. */
  ghost predicate Running(s: Sched, moving: set<nat>) {
    && NoDup(s.exec)
    && (forall p :: p in s.exec <==> p !in moving && HasStatus(s.pcbs, p, Exec))
    && NoDup(PidsOf(s.pairs))
    && (forall p :: p in s.exec <==> p in PidsOf(s.pairs))
  }

  /** Every CPU is in one place: free, running a process, or (`loose`) in the hands of a handler. */
  ghost predicate Processors(s: Sched, loose: set<nat>) {
    && NoDup(s.free) && NoDup(CpusOf(s.pairs))
    && (forall c :: c in s.cpus <==> c in s.free || c in CpusOf(s.pairs) || c in loose)
    && (forall c :: c in s.free ==> c !in CpusOf(s.pairs) && c !in loose)
    && (forall c :: c in loose ==> c !in CpusOf(s.pairs))
  }

  ghost predicate WaitsOn(ms: seq<Mutex>, i: nat, p: nat) {
    i < |ms| && p in ms[i].waiters
  }

  /** Names are unique, a mutex without an owner has no waiters, and a waiter is blocked on one mutex only. */
  ghost predicate Mutexes(s: Sched, moving: set<nat>) {
    && (forall i, j :: 0 <= i < j < |s.mutexes| ==> s.mutexes[i].name != s.mutexes[j].name)
    && (forall i :: 0 <= i < |s.mutexes| && s.mutexes[i].owner.Some? ==> s.mutexes[i].owner.value in s.pcbs)
    && (forall i :: 0 <= i < |s.mutexes| && s.mutexes[i].owner.None? ==> s.mutexes[i].waiters == [])
    && (forall i :: 0 <= i < |s.mutexes| ==> NoDup(s.mutexes[i].waiters))
    && (forall i, j, p :: WaitsOn(s.mutexes, i, p) && WaitsOn(s.mutexes, j, p) ==> i == j)
    && (forall i, p :: WaitsOn(s.mutexes, i, p) ==> p !in moving && p !in s.io && HasStatus(s.pcbs, p, Block))
  }

  /** A process with an unanswered request is blocked, once, and can be found when the answer comes. */
  ghost predicate Requests(s: Sched, moving: set<nat>) {
    && NoDup(s.io)
    && (forall p :: p in s.io ==> p !in moving && p in s.block && HasStatus(s.pcbs, p, Block))
  }

  ghost predicate SoundBut(s: Sched, moving: set<nat>, loose: set<nat>) {
    && Processes(s, moving) && Queues(s, moving) && Running(s, moving)
    && Processors(s, loose) && Mutexes(s, moving) && Requests(s, moving)
  }

  ghost predicate Sound(s: Sched) {
    SoundBut(s, {}, {})
  }

  // ----------------------------------------------------------- lists

  lemma WithoutMembers<T>(s: seq<T>, x: T)
    requires NoDup(s)
    ensures NoDup(Without(s, x)) && forall y :: y in Without(s, x) <==> y in s && y != x
    ensures |Without(s, x)| == |s| - if x in s then 1 else 0
  {
    var i := IndexOf(s, x);
    if i.Some? {
      var r := RemoveAt(s, i.value);
      forall y | y in s && y != x ensures y in r {
        var j :| 0 <= j < |s| && s[j] == y;
        assert r[if j < i.value then j else j - 1] == y;
      }
    }
  }

  lemma AppendNoDup<T>(s: seq<T>, x: T)
    requires NoDup(s) && x !in s
    ensures NoDup(s + [x]) && NoDup([x] + s)
  {
  }

  lemma IndexAt<T>(s: seq<T>, k: nat)
    requires NoDup(s) && k < |s|
    ensures IndexOf(s, s[k]) == Some(k)
  {
  }

  /** Removing the pair of `p` frees its CPU and nothing else. */
  lemma DropPairParts(pairs: seq<Pair>, p: nat, cpu: nat)
    requires NoDup(PidsOf(pairs)) && NoDup(CpusOf(pairs)) && Pair(cpu, p) in pairs
    ensures NoDup(PidsOf(DropPair(pairs, p))) && NoDup(CpusOf(DropPair(pairs, p)))
    ensures forall q :: q in PidsOf(DropPair(pairs, p)) <==> q in PidsOf(pairs) && q != p
    ensures forall c :: c in CpusOf(DropPair(pairs, p)) <==> c in CpusOf(pairs) && c != cpu
  {
    hide IndexOf, NoDup;
    var k :| 0 <= k < |pairs| && pairs[k] == Pair(cpu, p);
    assert PidsOf(pairs)[k] == p && CpusOf(pairs)[k] == cpu;
    IndexAt(PidsOf(pairs), k);
    assert PidsOf(DropPair(pairs, p)) == RemoveAt(PidsOf(pairs), k);
    assert CpusOf(DropPair(pairs, p)) == RemoveAt(CpusOf(pairs), k);
    RemoveAtMembers(PidsOf(pairs), k);
    RemoveAtMembers(CpusOf(pairs), k);
  }

  lemma RemoveAtMembers<T>(s: seq<T>, k: nat)
    requires NoDup(s) && k < |s|
    ensures NoDup(RemoveAt(s, k)) && forall y :: y in RemoveAt(s, k) <==> y in s && y != s[k]
  {
    var r := RemoveAt(s, k);
    forall y | y in s && y != s[k] ensures y in r {
      var j :| 0 <= j < |s| && s[j] == y;
      assert r[if j < k then j else j - 1] == y;
    }
  }

  lemma PairListed(pairs: seq<Pair>, cpu: nat, p: nat)
    requires Pair(cpu, p) in pairs
    ensures p in PidsOf(pairs) && cpu in CpusOf(pairs)
  {
    var k :| 0 <= k < |pairs| && pairs[k] == Pair(cpu, p);
    assert PidsOf(pairs)[k] == p && CpusOf(pairs)[k] == cpu;
  }

  lemma {:induction false} TotalUpdated(ready: seq<seq<nat>>, l: nat, q: seq<nat>)
    requires l < |ready|
    ensures Total(ready[l := q]) == Total(ready) - |ready[l]| + |q|
  {
    var n := |ready| - 1;
    if l < n {
      TotalUpdated(ready[..n], l, q);
      assert ready[l := q][..n] == ready[..n][l := q];
    } else {
      assert ready[l := q][..n] == ready[..n];
    }
  }

  lemma {:induction false} TotalZero(ready: seq<seq<nat>>)
    requires forall l :: 0 <= l < |ready| ==> ready[l] == []
    ensures Total(ready) == 0
  {
    if ready != [] { TotalZero(ready[..|ready| - 1]); }
  }

  // ----------------------------------------------------------- leaving a CPU

  lemma Leaves(s: Sched, p: nat, cpu: nat)
    requires Sound(s) && Pair(cpu, p) in s.pairs
    ensures SoundBut(Unexec(s, p), {p}, {cpu})
    ensures HasStatus(s.pcbs, p, Exec)
  {
    hide Without, DropPair, Queues, Mutexes, Requests, Processes;
    PairListed(s.pairs, cpu, p);
    WithoutMembers(s.exec, p);
    DropPairParts(s.pairs, p, cpu);
    assert HasStatus(s.pcbs, p, Exec);
    LeavesRest(s, p, Unexec(s, p));
  }

  lemma LeavesRest(s: Sched, p: nat, t: Sched)
    requires Processes(s, {}) && Queues(s, {}) && Mutexes(s, {}) && Requests(s, {}) && HasStatus(s.pcbs, p, Exec)
    requires t == s.(exec := t.exec, pairs := t.pairs)
    ensures Processes(t, {p}) && Queues(t, {p}) && Mutexes(t, {p}) && Requests(t, {p})
  {
  }

  lemma CpuReturns(s: Sched, moving: set<nat>, cpu: nat)
    requires SoundBut(s, moving, {cpu})
    ensures SoundBut(FreeCpu(s, cpu), moving, {})
  {
    AppendNoDup(s.free, cpu);
    hide Queues, Running, Mutexes;
  }

  // ----------------------------------------------------------- entering a queue

  /** Appending (or putting first) a moving process whose state is now Ready. */
  lemma QueueGains(s: Sched, moving: set<nat>, p: nat, t: Sched, q: seq<nat>)
    requires Queues(s, moving) && Processes(s, moving) && p in moving
    requires var l := Level(s.cmn, s.pcbs, p);
             && l < |s.ready| && (q == s.ready[l] + [p] || q == [p] + s.ready[l])
             && t.ready == s.ready[l := q]
    requires t.levels == s.levels && t.cmn == s.cmn && t.preempt == s.preempt && t.hand == s.hand
    requires t.tokens == s.tokens + 1 && t.pcbs == SetStatus(s.pcbs, p, Ready)
    ensures Queues(t, moving - {p})
  {
    var l := Level(s.cmn, s.pcbs, p);
    TotalUpdated(s.ready, l, q);
    assert !Queued(s.ready, l, p);
    AppendNoDup(s.ready[l], p);
    forall k: nat, x ensures Queued(t.ready, k, x) <==> Queued(s.ready, k, x) || (k == l && x == p) {}
    assert forall x :: x != p ==> Level(t.cmn, t.pcbs, x) == Level(s.cmn, s.pcbs, x);
    assert Level(t.cmn, t.pcbs, p) == l;
  }

  /** A moving process becomes ready: it is queued, unless its priority has no queue. */
  lemma Enters(s: Sched, moving: set<nat>, loose: set<nat>, p: nat, first: bool)
    requires SoundBut(s, moving, loose) && p in moving
    ensures var r := s.(pcbs := SetStatus(s.pcbs, p, Ready));
            SoundBut(if first then AddFirst(r, p) else AddReady(r, p), moving - {p}, loose)
  {
    hide Processors, Marked;
    var r := s.(pcbs := SetStatus(s.pcbs, p, Ready));
    var t := if first then AddFirst(r, p) else AddReady(r, p);
    var l := Level(s.cmn, s.pcbs, p);
    assert l == Level(r.cmn, r.pcbs, p);
    if l < s.levels {
      QueueGains(s, moving, p, t, if first then [p] + s.ready[l] else s.ready[l] + [p]);
    } else {
      Unqueued(s, moving, p);
    }
    EntersRest(s, moving, p, t);
    SameProcessors(s, t, loose);
  }

  lemma SameProcessors(s: Sched, t: Sched, loose: set<nat>)
    requires Processors(s, loose) && t.free == s.free && t.pairs == s.pairs && t.cpus == s.cpus
    ensures Processors(t, loose)
  {
  }

  lemma Unqueued(s: Sched, moving: set<nat>, p: nat)
    requires Queues(s, moving) && Processes(s, moving) && p in moving && Level(s.cmn, s.pcbs, p) >= s.levels
    ensures Queues(s.(pcbs := SetStatus(s.pcbs, p, Ready)), moving - {p})
  {
    var t := s.(pcbs := SetStatus(s.pcbs, p, Ready));
    assert forall x :: x != p ==> Level(t.cmn, t.pcbs, x) == Level(s.cmn, s.pcbs, x);
  }

  lemma EntersRest(s: Sched, moving: set<nat>, p: nat, t: Sched)
    requires Processes(s, moving) && Running(s, moving) && Mutexes(s, moving) && Requests(s, moving) && p in moving
    requires t == s.(pcbs := SetStatus(s.pcbs, p, Ready), ready := t.ready, tokens := t.tokens,
                     interrupts := t.interrupts)
    ensures Processes(t, moving - {p}) && Running(t, moving - {p})
    ensures Mutexes(t, moving - {p}) && Requests(t, moving - {p})
  {
  }

  // ----------------------------------------------------------- the dispatcher

  /** While there is a token there is a process: the dispatcher never comes back empty-handed, and takes
      one of the best priority among all that are queued. */
  lemma TakesBest(s: Sched)
    requires Sound(s) && s.tokens > 0 && s.hand.None?
    ensures var t := TakenByDispatcher(s);
            && Sound(t) && t.hand.Some?
            && (exists l: nat :: Queued(s.ready, l, t.hand.value))
            && (s.cmn ==> forall l: nat, p :: Queued(s.ready, l, p) ==> Prio(s.pcbs, t.hand.value) <= Prio(s.pcbs, p))
  {
    hide Processors, Running, Mutexes, Requests, Total;
    if FirstNonempty(s.ready).None? { TotalZero(s.ready); }
    var l := FirstNonempty(s.ready).value;
    var t, p, rest := TakenByDispatcher(s), s.ready[l][0], s.ready[l][1..];
    assert Queued(s.ready, l, p);
    TotalUpdated(s.ready, l, rest);
    assert s.ready[l] == [p] + rest;
    forall k: nat, x ensures Queued(t.ready, k, x) <==> Queued(s.ready, k, x) && x != p {
      if Queued(s.ready, k, x) && x != p && k == l { assert x in rest; }
    }
    TakenRest(s, t);
  }

  lemma TakenRest(s: Sched, t: Sched)
    requires Processes(s, {}) && Running(s, {}) && Mutexes(s, {}) && Requests(s, {}) && Processors(s, {})
    requires t == s.(tokens := t.tokens, hand := t.hand, ready := t.ready)
    ensures Processes(t, {}) && Running(t, {}) && Mutexes(t, {}) && Requests(t, {}) && Processors(t, {})
  {
  }

  lemma Assigns(s: Sched)
    requires Sound(s)
    ensures Sound(Assigned(s))
  {
    hide Requests, Processors, Mutexes, Queues;
    if s.hand.Some? && s.free != [] {
      var t, p, cpu := Assigned(s), s.hand.value, s.free[0];
      HandReady(s);
      AppendNoDup(s.exec, p);
      assert PidsOf(t.pairs) == PidsOf(s.pairs) + [p];
      AppendNoDup(PidsOf(s.pairs), p);
      CpuTaken(s, p, t);
      HandLeaves(s, t);
      HandRest(s, p, t);
    }
  }

  lemma HandReady(s: Sched)
    requires Queues(s, {}) && s.hand.Some?
    ensures HasStatus(s.pcbs, s.hand.value, Ready)
  {
  }

  lemma CpuTaken(s: Sched, p: nat, t: Sched)
    requires Processors(s, {}) && s.free != []
    requires t.cpus == s.cpus && t.free == s.free[1..] && t.pairs == s.pairs + [Pair(s.free[0], p)]
    ensures Processors(t, {})
  {
    var cpu := s.free[0];
    assert s.free == [cpu] + t.free;
    assert CpusOf(t.pairs) == CpusOf(s.pairs) + [cpu];
    AppendNoDup(CpusOf(s.pairs), cpu);
  }

  lemma HandLeaves(s: Sched, t: Sched)
    requires Queues(s, {}) && s.hand.Some?
    requires t == s.(hand := None, free := t.free, exec := t.exec, pairs := t.pairs,
                     pcbs := SetStatus(s.pcbs, s.hand.value, Exec))
    ensures Queues(t, {})
  {
    assert forall x :: Level(t.cmn, t.pcbs, x) == Level(s.cmn, s.pcbs, x);
  }

  lemma HandRest(s: Sched, p: nat, t: Sched)
    requires Mutexes(s, {}) && Requests(s, {}) && HasStatus(s.pcbs, p, Ready)
    requires t == s.(hand := t.hand, free := t.free, exec := t.exec, pairs := t.pairs,
                     pcbs := SetStatus(s.pcbs, p, Exec))
    ensures Mutexes(t, {}) && Requests(t, {})
  {
  }

  // ----------------------------------------------------------- blocking

  /** A moving process blocks; if an IO module serves it, a request of its is pending. */
  lemma Blocks(s: Sched, moving: set<nat>, loose: set<nat>, p: nat, served: bool)
    requires SoundBut(s, moving, loose) && p in moving
    ensures SoundBut(s.(pcbs := SetStatus(s.pcbs, p, Block), block := s.block + [p],
                        io := if served then s.io + [p] else s.io), moving - {p}, loose)
  {
    hide Processors, Queues;
    var t := s.(pcbs := SetStatus(s.pcbs, p, Block), block := s.block + [p], io := if served then s.io + [p] else s.io);
    if served { AppendNoDup(s.io, p); }
    BlocksQueues(s, moving, p, t);
    SameProcessors(s, t, loose);
  }

  lemma BlocksQueues(s: Sched, moving: set<nat>, p: nat, t: Sched)
    requires Queues(s, moving) && p in moving
    requires t == s.(pcbs := SetStatus(s.pcbs, p, Block), block := t.block, io := t.io)
    ensures Queues(t, moving - {p})
  {
    assert forall x :: Level(t.cmn, t.pcbs, x) == Level(s.cmn, s.pcbs, x);
  }

  /** A blocked process that waits for no mutex, once its request is answered or dropped. */
  lemma Wakes(s: Sched, p: nat, block: seq<nat>)
    requires Sound(s) && p in s.io
    requires forall x :: x in s.block && x != p ==> x in block
    ensures SoundBut(s.(io := Without(s.io, p), block := block), {p}, {})
  {
    WithoutMembers(s.io, p);
    var t := s.(io := Without(s.io, p), block := block);
    forall i, x | WaitsOn(t.mutexes, i, x) ensures x != p { assert WaitsOn(s.mutexes, i, x); }
    SameProcessors(s, t, {});
  }
}
