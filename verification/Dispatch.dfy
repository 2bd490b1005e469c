/** Who is preempted, and how many CPUs, processes and pairs there are. */
module Dispatch {
  import opened Common
  import opened Scheduling
  import opened Soundness

  /** `w` is the first of the processes of `exec` with the worst priority, and it is worse than `prio`. */
  ghost predicate IsWorst(pcbs: map<nat, Pcb>, exec: seq<nat>, prio: nat, w: nat) {
    && Prio(pcbs, w) > prio
    && exists i: nat ::
         && i < |exec| && exec[i] == w
         && (forall j :: 0 <= j < |exec| ==> Prio(pcbs, exec[j]) <= Prio(pcbs, w))
         && (forall j :: 0 <= j < i ==> Prio(pcbs, exec[j]) < Prio(pcbs, w))
  }

  lemma {:induction false} WorstFound(pcbs: map<nat, Pcb>, exec: seq<nat>, prio: nat)
    ensures match Worst(pcbs, exec, prio)
            case None => forall j :: 0 <= j < |exec| ==> Prio(pcbs, exec[j]) <= prio
            case Some(w) => IsWorst(pcbs, exec, prio, w)
  {
    if exec != [] {
      var n := |exec| - 1;
      var front, p := exec[..n], exec[n];
      WorstFound(pcbs, front, prio);
      var r, q := Worst(pcbs, front, prio), Worst(pcbs, exec, prio);
      hide Worst, Prio;
      assert forall j :: 0 <= j < n ==> exec[j] == front[j];
      if q == Some(p) && q != r {
        assert exec[n] == p;
      } else if r.Some? {
        var i: nat :| i < |front| && front[i] == r.value
                      && (forall j :: 0 <= j < |front| ==> Prio(pcbs, front[j]) <= Prio(pcbs, r.value))
                      && (forall j :: 0 <= j < i ==> Prio(pcbs, front[j]) < Prio(pcbs, r.value));
        assert exec[i] == r.value;
      }
    }
  }

  /** A process that becomes ready preempts exactly when some process runs at a worse priority; then the
      CPU that is interrupted is the one running the worst of them. */
  lemma PreemptsWorst(s: Sched, moving: set<nat>, loose: set<nat>, p: nat)
    requires SoundBut(s, moving, loose) && s.preempt && Level(s.cmn, s.pcbs, p) < s.levels
    ensures var t := AddReady(s, p);
            if forall x :: x in s.exec ==> Prio(s.pcbs, x) <= Prio(s.pcbs, p) then t.interrupts == s.interrupts
            else exists w, cpu :: IsWorst(s.pcbs, s.exec, Prio(s.pcbs, p), w) && Pair(cpu, w) in s.pairs
                                  && t.interrupts == s.interrupts + [cpu]
  {
    hide Worst, IsWorst, Mutexes, Processors, Requests, Processes;
    var prio := Prio(s.pcbs, p);
    WorstFound(s.pcbs, s.exec, prio);
    var w := Worst(s.pcbs, s.exec, prio);
    if w.Some? {
      WorstRuns(s.pcbs, s.exec, prio, w.value);
      var k := IndexOf(PidsOf(s.pairs), w.value).value;
      assert s.pairs[k] == Pair(s.pairs[k].cpu, w.value);
    }
  }

  lemma WorstRuns(pcbs: map<nat, Pcb>, exec: seq<nat>, prio: nat, w: nat)
    requires IsWorst(pcbs, exec, prio, w)
    ensures w in exec && Prio(pcbs, w) > prio
  {
  }

  // ----------------------------------------------------------- counting

  ghost function Members(s: seq<nat>): set<nat> {
    set x | x in s
  }

  lemma {:induction false} MembersCounted(s: seq<nat>)
    requires NoDup(s)
    ensures |Members(s)| == |s|
  {
    if s == [] {
      assert Members(s) == {};
    } else {
      var front, last := s[..|s| - 1], s[|s| - 1];
      assert s == front + [last] && last !in front;
      MembersCounted(front);
      assert Members(s) == Members(front) + {last};
    }
  }

  /** Every connected CPU is free or runs one process, and no process runs twice. */
  lemma CpusCounted(s: Sched)
    requires Sound(s)
    ensures |s.cpus| == |s.free| + |s.pairs| && |s.exec| == |s.pairs|
  {
    hide Queues, Mutexes, Requests, Processes, HasStatus;
    MembersCounted(s.free);
    MembersCounted(CpusOf(s.pairs));
    MembersCounted(s.exec);
    MembersCounted(PidsOf(s.pairs));
    var free, busy := Members(s.free), Members(CpusOf(s.pairs));
    assert s.cpus == free + busy && free !! busy;
    assert |free + busy| == |free| + |busy|;
    assert Members(s.exec) == Members(PidsOf(s.pairs));
  }

  /** A process is in at most one place: one ready queue, the dispatcher's hand, or one CPU. */
  lemma OnePlace(s: Sched, p: nat, l: nat, k: nat)
    requires Sound(s)
    ensures Queued(s.ready, l, p) && Queued(s.ready, k, p) ==> l == k
    ensures Queued(s.ready, l, p) ==> s.hand != Some(p) && p !in s.exec && p !in s.io
    ensures s.hand == Some(p) ==> p !in s.exec && p !in s.io
    ensures p in s.exec ==> p !in s.io
  {
  }
}
