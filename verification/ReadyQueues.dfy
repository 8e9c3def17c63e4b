// Specification of the scheduling queues: dequeue, enqueue, enqueue_head, the RTS macros,
// pick_proc, the picking part of switch_to_user, and sched_proc, with what they keep.
module ReadyQueues {
  import opened Prelude
  import opened KernelState

  // A slot is on a ready queue exactly once, on that of its priority, iff it has no flags.
  ghost predicate ReadyInv(s: State) {
    && Shape(s)
    && (forall q, i :: 0 <= q < |s.ready| && 0 <= i < |s.ready[q]| ==>
          s.ready[q][i] < |s.procs| && Runnable(s.procs[s.ready[q][i]]) && s.procs[s.ready[q][i]].priority == q)
    && (forall q :: 0 <= q < |s.ready| ==> NoDup(s.ready[q]))
    && (forall p :: 0 <= p < |s.procs| && Runnable(s.procs[p]) ==> p in s.ready[s.procs[p].priority])
  }

  // ReadyInv, except that r is on its queue although it just lost runnability (before dequeue).
  ghost predicate ReadyButExtra(s: State, r: nat) {
    && Shape(s) && r < |s.procs| && !Runnable(s.procs[r])
    && ReadyInv(With(s, r, s.procs[r].(flags := {})))
  }

  // ReadyInv, except that r has become runnable without being on a queue yet (before enqueue).
  ghost predicate ReadyButMissing(s: State, r: nat) {
    && Shape(s) && r < |s.procs| && Runnable(s.procs[r])
    && ReadyInv(With(s, r, s.procs[r].(flags := {NO_QUANTUM})))
  }

  // A preemptible current process with a better one runnable is marked as preempted.
  ghost predicate PriorityInv(s: State) {
    && s.cur < |s.procs|
    && (s.procs[s.cur].preemptible ==>
          forall p :: 0 <= p < |s.procs| && Runnable(s.procs[p]) && s.procs[p].priority < s.procs[s.cur].priority ==>
            PREEMPTED in s.procs[s.cur].flags)
  }

  // ----- the operations -----

  function Dequeue(s: State, p: nat): State
    requires p < |s.procs| && s.procs[p].priority < |s.ready|
  {
    var q := s.procs[p].priority;
    s.(ready := s.ready[q := Remove(s.ready[q], p)])
  }

  function RtsSet(s: State, p: nat, fs: set<Flag>): (t: State)
    requires p < |s.procs| && s.procs[p].priority < |s.ready|
    ensures Shape(s) ==> Shape(t)
    ensures t.callers == s.callers && |t.procs| == |s.procs|
  {
    var before := s.procs[p].flags;
    var s1 := With(s, p, s.procs[p].(flags := before + fs));
    if before == {} && before + fs != {} then Dequeue(s1, p) else s1
  }

  predicate Preempts(s: State, p: nat)
    requires p < |s.procs| && s.cur < |s.procs|
  {
    s.procs[s.cur].priority > s.procs[p].priority && s.procs[s.cur].preemptible
  }

  function Append(s: State, p: nat): State
    requires p < |s.procs| && s.procs[p].priority < |s.ready|
  {
    var q := s.procs[p].priority;
    s.(ready := s.ready[q := s.ready[q] + [p]])
  }

  function Enqueue(s: State, p: nat): (t: State)
    requires Shape(s) && p < |s.procs|
    ensures Shape(t) && t.callers == s.callers && |t.procs| == |s.procs|
  {
    if Preempts(s, p) then RtsSet(Append(s, p), s.cur, {PREEMPTED}) else Append(s, p)
  }

  function EnqueueHead(s: State, p: nat): State
    requires p < |s.procs| && s.procs[p].priority < |s.ready|
  {
    var q := s.procs[p].priority;
    s.(ready := s.ready[q := [p] + s.ready[q]])
  }

  function RtsUnset(s: State, p: nat, fs: set<Flag>): (t: State)
    requires Shape(s) && p < |s.procs|
    ensures Shape(t) && t.callers == s.callers && |t.procs| == |s.procs|
  {
    var before := s.procs[p].flags;
    var s1 := With(s, p, s.procs[p].(flags := before - fs));
    if before != {} && before - fs == {} then Enqueue(s1, p) else s1
  }

  // The head of the best non-empty queue from q on.
  function PickFrom(ready: seq<seq<nat>>, q: nat): Option<nat>
    requires q <= |ready|
    decreases |ready| - q
  {
    if q == |ready| then None
    else if ready[q] != [] then Some(ready[q][0])
    else PickFrom(ready, q + 1)
  }

  // switch_to_user from not_runnable_pick_new up to the chosen process.
  function Requeue(s: State): State
    requires Shape(s)
  {
    var p := s.procs[s.cur];
    if PREEMPTED !in p.flags then s
    else
      var s1 := With(s, s.cur, p.(flags := p.flags - {PREEMPTED}));
      if p.flags - {PREEMPTED} != {} then s1
      else if p.timeLeft != 0 then EnqueueHead(s1, s.cur)
      else Enqueue(s1, s.cur)
  }

  function SwitchTo(s: State, idle: nat): State
    requires Shape(s)
  {
    var s1 := Requeue(s);
    match PickFrom(s1.ready, 0)
    case Some(p) => s1.(cur := p)
    case None => s1.(cur := idle)
  }

  // sched_proc once its arguments were accepted. The source also accepts priority
  // NR_SCHED_QUEUES, one past the queues; enqueueing there is shown here as no effect on them.
  function Reschedule(s: State, p: nat, priority: nat, quantum: nat): State
    requires Shape(s) && p < |s.procs|
  {
    var s1 := if Runnable(s.procs[p]) then RtsSet(s, p, {NO_QUANTUM}) else s;
    var s2 := With(s1, p, s1.procs[p].(priority := priority, quantum := quantum, timeLeft := quantum));
    if priority < NR_SCHED_QUEUES then
      assert Shape(s2);
      RtsUnset(s2, p, {NO_QUANTUM})
    else With(s2, p, s2.procs[p].(flags := s2.procs[p].flags - {NO_QUANTUM}))
  }

  function SchedProc(s: State, p: nat, priority: int, quantum: int): (Code, State)
    requires Shape(s) && p < |s.procs|
  {
    if priority < 0 || priority > NR_SCHED_QUEUES then (EINVAL, s)
    else if quantum <= 0 then (EINVAL, s)
    else (OK, Reschedule(s, p, priority, quantum))
  }

  // ----- what they keep -----

  // Nothing but flags and ready queues: p loses or gains flags of fs, the current process may
  // gain PREEMPTED, everybody else is as before.
  ghost predicate OnlyFlags(s: State, t: State, p: nat) {
    && t == s.(procs := t.procs, ready := t.ready)
    && |t.procs| == |s.procs| && |t.ready| == |s.ready|
    && (forall i :: 0 <= i < |s.procs| ==> t.procs[i] == s.procs[i].(flags := t.procs[i].flags))
    && (forall i :: 0 <= i < |s.procs| && i != p ==>
          t.procs[i].flags == s.procs[i].flags ||
          (i == s.cur && t.procs[i].flags == s.procs[i].flags + {PREEMPTED}))
  }

  // Rewriting a slot matters to the queues only through its flags and its priority.
  lemma SlotKeeps(s: State, p: nat, v: Proc)
    requires ReadyInv(s) && p < |s.procs| && v.priority < NR_SCHED_QUEUES
    requires Runnable(v) <==> Runnable(s.procs[p])
    requires Runnable(v) ==> v.priority == s.procs[p].priority
    ensures ReadyInv(With(s, p, v))
  {}

  lemma SlotPriority(s: State, p: nat, v: Proc)
    requires PriorityInv(s) && p < |s.procs|
    requires v.flags == s.procs[p].flags && v.priority == s.procs[p].priority && v.preemptible == s.procs[p].preemptible
    ensures PriorityInv(With(s, p, v))
  {}

  lemma DequeueKeeps(s: State, p: nat)
    requires ReadyButExtra(s, p)
    ensures ReadyInv(Dequeue(s, p))
  {
    var t := Dequeue(s, p);
    var u := With(s, p, s.procs[p].(flags := {}));
    var q := s.procs[p].priority;
    RemoveNoDup(s.ready[q], p);
    forall q', i | 0 <= q' < |t.ready| && 0 <= i < |t.ready[q']|
      ensures t.ready[q'][i] < |t.procs| && Runnable(t.procs[t.ready[q'][i]]) && t.procs[t.ready[q'][i]].priority == q'
    {
      var x := t.ready[q'][i];
      assert x in s.ready[q'];
      var j :| 0 <= j < |s.ready[q']| && s.ready[q'][j] == x;
      assert u.ready[q'][j] == x;
      assert x in t.ready[q'];
    }
    forall x | 0 <= x < |t.procs| && Runnable(t.procs[x]) ensures x in t.ready[t.procs[x].priority] {
      assert u.procs[x] == s.procs[x];
    }
  }

  lemma AppendKeeps(s: State, p: nat)
    requires ReadyButMissing(s, p)
    ensures ReadyInv(Append(s, p)) && ReadyInv(EnqueueHead(s, p))
    ensures forall q :: 0 <= q < |s.ready| ==> p !in s.ready[q]
  {
    MissingAbsent(s, p);
    InsertKeeps(s, p, s.ready[s.procs[p].priority] + [p]);
    InsertKeeps(s, p, [p] + s.ready[s.procs[p].priority]);
  }

  // The queues are right for everybody but p, who is on none.
  lemma MissingAbsent(s: State, p: nat)
    requires ReadyButMissing(s, p)
    ensures forall q :: 0 <= q < |s.ready| ==> p !in s.ready[q] && NoDup(s.ready[q])
    ensures forall q, i :: 0 <= q < |s.ready| && 0 <= i < |s.ready[q]| ==>
              s.ready[q][i] < |s.procs| && Runnable(s.procs[s.ready[q][i]]) && s.procs[s.ready[q][i]].priority == q
    ensures forall x :: 0 <= x < |s.procs| && Runnable(s.procs[x]) && x != p ==> x in s.ready[s.procs[x].priority]
  {
    var u := With(s, p, s.procs[p].(flags := {NO_QUANTUM}));
    forall q, i | 0 <= q < |s.ready| && 0 <= i < |s.ready[q]|
      ensures s.ready[q][i] < |s.procs| && s.ready[q][i] != p && Runnable(s.procs[s.ready[q][i]])
              && s.procs[s.ready[q][i]].priority == q
    {
      assert u.ready[q][i] == s.ready[q][i];
    }
    forall x | 0 <= x < |s.procs| && Runnable(s.procs[x]) && x != p ensures x in s.ready[s.procs[x].priority] {
      assert u.procs[x] == s.procs[x];
    }
    forall q | 0 <= q < |s.ready| ensures NoDup(s.ready[q]) { assert NoDup(u.ready[q]); }
  }

  lemma InsertKeeps(s: State, p: nat, queue: seq<nat>)
    requires ReadyButMissing(s, p)
    requires var before := s.ready[s.procs[p].priority]; queue == before + [p] || queue == [p] + before
    ensures ReadyInv(s.(ready := s.ready[s.procs[p].priority := queue]))
  {
    MissingAbsent(s, p);
    var q := s.procs[p].priority;
    var t := s.(ready := s.ready[q := queue]);
    assert NoDup(queue);
    forall r, i | 0 <= r < |t.ready| && 0 <= i < |t.ready[r]|
      ensures t.ready[r][i] < |t.procs| && Runnable(t.procs[t.ready[r][i]]) && t.procs[t.ready[r][i]].priority == r
    {
      if r == q { assert queue[i] == p || queue[i] in s.ready[q]; }
    }
    forall x | 0 <= x < |t.procs| && Runnable(t.procs[x]) ensures x in t.ready[t.procs[x].priority] {
      if x == p { assert p in queue; }
    }
  }

  lemma RtsSetKeeps(s: State, p: nat, fs: set<Flag>)
    requires ReadyInv(s) && p < |s.procs|
    ensures ReadyInv(RtsSet(s, p, fs))
    ensures OnlyFlags(s, RtsSet(s, p, fs), p)
    ensures RtsSet(s, p, fs).procs[p].flags == s.procs[p].flags + fs
    ensures PriorityInv(s) ==> PriorityInv(RtsSet(s, p, fs))
  {
    RtsSetReady(s, p, fs);
    var t := RtsSet(s, p, fs);
    assert t.procs == s.procs[p := s.procs[p].(flags := s.procs[p].flags + fs)];
    if PriorityInv(s) { MoreFlagsPriority(s, t, p); }
  }

  lemma MoreFlagsPriority(s: State, t: State, p: nat)
    requires PriorityInv(s) && p < |s.procs| && t.cur == s.cur
    requires p < |t.procs| && t.procs == s.procs[p := s.procs[p].(flags := t.procs[p].flags)]
    requires s.procs[p].flags <= t.procs[p].flags
    ensures PriorityInv(t)
  {}

  lemma RtsSetReady(s: State, p: nat, fs: set<Flag>)
    requires ReadyInv(s) && p < |s.procs|
    ensures ReadyInv(RtsSet(s, p, fs))
  {
    var before := s.procs[p].flags;
    var s1 := With(s, p, s.procs[p].(flags := before + fs));
    if before == {} && fs != {} {
      assert With(s1, p, s1.procs[p].(flags := {})) == s;
      DequeueKeeps(s1, p);
    } else if before == {} {
      assert before + fs == {};
      assert s1 == s;
    } else {
      SlotKeeps(s, p, s1.procs[p]);
    }
  }

  lemma EnqueueKeeps(s: State, p: nat)
    requires ReadyButMissing(s, p)
    ensures ReadyInv(Enqueue(s, p))
    ensures OnlyFlags(s, Enqueue(s, p), p)
    ensures Enqueue(s, p).procs[p].flags == {}
  {
    AppendKeeps(s, p);
    if Preempts(s, p) {
      assert s.cur != p;
      RtsSetKeeps(Append(s, p), s.cur, {PREEMPTED});
    }
  }

  lemma RtsUnsetKeeps(s: State, p: nat, fs: set<Flag>)
    requires ReadyInv(s) && p < |s.procs|
    ensures ReadyInv(RtsUnset(s, p, fs))
    ensures OnlyFlags(s, RtsUnset(s, p, fs), p)
    ensures RtsUnset(s, p, fs).procs[p].flags == s.procs[p].flags - fs
  {
    var before := s.procs[p].flags;
    var s1 := With(s, p, s.procs[p].(flags := before - fs));
    if before != {} && before - fs == {} {
      UnsetMissing(s, p, s1);
      EnqueueKeeps(s1, p);
    } else if before == {} {
      assert s1 == s by { assert before - fs == {}; }
    } else {
      SlotKeeps(s, p, s1.procs[p]);
    }
  }

  // Making somebody runnable preempts the current process when it must.
  lemma RtsUnsetPriority(s: State, p: nat, fs: set<Flag>)
    requires ReadyInv(s) && p < |s.procs| && PriorityInv(s) && PREEMPTED !in fs
    ensures PriorityInv(RtsUnset(s, p, fs))
  {}

  // Clearing the last flag of a process that is on no queue leaves just it missing.
  lemma UnsetMissing(s: State, p: nat, s1: State)
    requires ReadyInv(s) && p < |s.procs| && !Runnable(s.procs[p])
    requires s1 == With(s, p, s.procs[p].(flags := {}))
    ensures ReadyButMissing(s1, p)
  {}

  // ----- choosing who runs -----

  // The best non-empty queue from q on.
  ghost predicate FirstFull(ready: seq<seq<nat>>, q: nat, k: int) {
    q <= k < |ready| && ready[k] != [] && forall j :: q <= j < k ==> ready[j] == []
  }

  lemma {:induction false} PickFromIsFirst(ready: seq<seq<nat>>, q: nat)
    requires q <= |ready|
    ensures PickFrom(ready, q) == None <==> forall k :: q <= k < |ready| ==> ready[k] == []
    ensures PickFrom(ready, q).Some? ==> exists k :: FirstFull(ready, q, k) && ready[k][0] == PickFrom(ready, q).value
    decreases |ready| - q
  {
    if q < |ready| {
      if ready[q] != [] {
        assert FirstFull(ready, q, q);
      } else {
        PickFromIsFirst(ready, q + 1);
        if PickFrom(ready, q).Some? {
          var k :| FirstFull(ready, q + 1, k) && ready[k][0] == PickFrom(ready, q + 1).value;
          assert FirstFull(ready, q, k);
        }
      }
    }
  }

  // pick_proc returns the head of the best non-empty queue: no runnable process is better,
  // and it returns none exactly when none is runnable.
  lemma PickIsBest(s: State)
    requires ReadyInv(s)
    ensures PickFrom(s.ready, 0) == None <==> forall p :: 0 <= p < |s.procs| ==> !Runnable(s.procs[p])
    ensures PickFrom(s.ready, 0).Some? ==>
              var p := PickFrom(s.ready, 0).value;
              && p < |s.procs| && Runnable(s.procs[p])
              && s.ready[s.procs[p].priority][0] == p
              && forall r :: 0 <= r < |s.procs| && Runnable(s.procs[r]) ==> s.procs[p].priority <= s.procs[r].priority
  {
    PickFromIsFirst(s.ready, 0);
    match PickFrom(s.ready, 0)
    case None =>
    case Some(p) =>
      var k :| FirstFull(s.ready, 0, k) && s.ready[k][0] == p;
      assert Runnable(s.procs[s.ready[k][0]]);
      forall r | 0 <= r < |s.procs| && Runnable(s.procs[r]) ensures k <= s.procs[r].priority {
        assert r in s.ready[s.procs[r].priority];
      }
  }

  lemma RequeueKeeps(s: State)
    requires ReadyInv(s)
    ensures ReadyInv(Requeue(s)) && OnlyFlags(s, Requeue(s), s.cur)
    ensures Requeue(s).procs[s.cur].flags == s.procs[s.cur].flags - {PREEMPTED}
    ensures forall i :: 0 <= i < |s.procs| && i != s.cur ==> Requeue(s).procs[i] == s.procs[i]
  {
    var c := s.cur;
    if PREEMPTED in s.procs[c].flags {
      RtsUnsetKeeps(s, c, {PREEMPTED});
      var s1 := With(s, c, s.procs[c].(flags := s.procs[c].flags - {PREEMPTED}));
      if s.procs[c].flags - {PREEMPTED} == {} {
        UnsetMissing(s, c, s1);
        AppendKeeps(s1, c);
      }
    } else {
      assert s.procs[c].flags - {PREEMPTED} == s.procs[c].flags;
    }
  }

  // The picking path of switch_to_user keeps the queues right and establishes the priority
  // guarantee whatever was the case before.
  lemma SwitchKeeps(s: State, idle: nat)
    requires ReadyInv(s) && idle < |s.procs|
    ensures ReadyInv(SwitchTo(s, idle)) && PriorityInv(SwitchTo(s, idle))
    ensures var t := SwitchTo(s, idle);
            Runnable(t.procs[t.cur]) || (t.cur == idle && forall p :: 0 <= p < |t.procs| ==> !Runnable(t.procs[p]))
    ensures OnlyFlags(s, SwitchTo(s, idle).(cur := s.cur), s.cur)
  {
    RequeueKeeps(s);
    PickIsBest(Requeue(s));
  }

  // A preempted process that is otherwise runnable goes back to the front of its own queue if
  // it has time left, to the back if not; nobody else moves.
  lemma PreemptedReturns(s: State)
    requires ReadyInv(s) && s.procs[s.cur].flags == {PREEMPTED}
    ensures var q := s.procs[s.cur].priority;
            var queue := if s.procs[s.cur].timeLeft != 0 then [s.cur] + s.ready[q] else s.ready[q] + [s.cur];
            Requeue(s).ready == s.ready[q := queue]
    ensures s.procs[s.cur].timeLeft != 0
            && (forall p :: 0 <= p < |s.procs| && Runnable(s.procs[p]) ==>
                s.procs[s.cur].priority <= s.procs[p].priority) ==>
              forall idle :: SwitchTo(s, idle).cur == s.cur
  {
    assert s.procs[s.cur].flags - {PREEMPTED} == {};
    RequeueKeeps(s);
    PickIsBest(Requeue(s));
  }

  // sched_proc keeps the queues right exactly when the priority it accepts is a queue number:
  // its range test lets NR_SCHED_QUEUES through.
  lemma SchedProcKeeps(s: State, p: nat, priority: int, quantum: int)
    requires ReadyInv(s) && p < |s.procs|
    ensures var (code, t) := SchedProc(s, p, priority, quantum);
            && (code == OK <==> 0 <= priority <= NR_SCHED_QUEUES && quantum > 0)
            && (code != OK ==> code == EINVAL && t == s)
            && (ReadyInv(t) <==> code != OK || priority < NR_SCHED_QUEUES)
            && (code == OK ==> t.procs[p].priority == priority && t.procs[p].timeLeft == quantum
                               && t.procs[p].flags - {PREEMPTED} == s.procs[p].flags - {NO_QUANTUM} - {PREEMPTED})
  {
    if 0 <= priority <= NR_SCHED_QUEUES && quantum > 0 {
      RescheduleKeeps(s, p, priority, quantum);
    }
  }

  lemma RescheduleKeeps(s: State, p: nat, priority: nat, quantum: nat)
    requires ReadyInv(s) && p < |s.procs|
    ensures var t := Reschedule(s, p, priority, quantum);
            && |t.procs| == |s.procs| && t.procs[p].priority == priority && t.procs[p].timeLeft == quantum
            && t.procs[p].flags - {PREEMPTED} == s.procs[p].flags - {NO_QUANTUM} - {PREEMPTED}
            && (ReadyInv(t) <==> priority < NR_SCHED_QUEUES)
            && (priority < NR_SCHED_QUEUES ==>
                  OnlyFlags(With(s, p, s.procs[p].(priority := priority, quantum := quantum, timeLeft := quantum)),
                            t, p))
  {
    var s2 := Renumbered(s, p, priority, quantum);
    if priority < NR_SCHED_QUEUES {
      RtsUnsetKeeps(s2, p, {NO_QUANTUM});
    } else {
      assert Reschedule(s, p, priority, quantum).procs[p].priority == priority;
    }
  }

  // The slot sched_proc has just renumbered, taken off the queues first if it was on one.
  lemma Renumbered(s: State, p: nat, priority: nat, quantum: nat) returns (s2: State)
    requires ReadyInv(s) && p < |s.procs|
    ensures s2 == s.(procs := s2.procs, ready := s2.ready) && |s2.procs| == |s.procs| && |s2.ready| == |s.ready|
    ensures forall i :: 0 <= i < |s.procs| && i != p ==> s2.procs[i] == s.procs[i]
    ensures s2.procs[p] == s.procs[p].(priority := priority, quantum := quantum, timeLeft := quantum,
            flags := s2.procs[p].flags)
    ensures s2.procs[p].flags - {NO_QUANTUM} == s.procs[p].flags - {NO_QUANTUM} && !Runnable(s2.procs[p])
    ensures priority < NR_SCHED_QUEUES ==> ReadyInv(s2)
    ensures Reschedule(s, p, priority, quantum) ==
            if priority < NR_SCHED_QUEUES then RtsUnset(s2, p, {NO_QUANTUM})
            else With(s2, p, s2.procs[p].(flags := s2.procs[p].flags - {NO_QUANTUM}))
  {
    var s1 := if Runnable(s.procs[p]) then RtsSet(s, p, {NO_QUANTUM}) else s;
    RtsSetKeeps(s, p, {NO_QUANTUM});
    s2 := With(s1, p, s1.procs[p].(priority := priority, quantum := quantum, timeLeft := quantum));
    if priority < NR_SCHED_QUEUES {
      SlotKeeps(s1, p, s2.procs[p]);
    }
  }

  // Nobody else that is runnable has a better priority than this, or it does not matter.
  ghost predicate StillBest(s: State, priority: nat)
    requires s.cur < |s.procs|
  {
    || !s.procs[s.cur].preemptible || PREEMPTED in s.procs[s.cur].flags
    || forall r :: 0 <= r < |s.procs| && r != s.cur && Runnable(s.procs[r]) ==> priority <= s.procs[r].priority
  }

  // Re-prioritising anybody but the current process keeps the priority guarantee. sched_proc does
  // not compare the current process with the others, so for that one it is right afterwards,
  // whatever it was before, exactly when the new priority happens to be the best.
  lemma ReschedulePriority(s: State, p: nat, priority: nat, quantum: nat)
    requires ReadyInv(s) && p < |s.procs| && priority < NR_SCHED_QUEUES
    ensures p != s.cur && PriorityInv(s) ==> PriorityInv(Reschedule(s, p, priority, quantum))
    ensures p == s.cur ==> (PriorityInv(Reschedule(s, p, priority, quantum)) <==> StillBest(s, priority))
  {
    var s2 := Renumbered(s, p, priority, quantum);
    if p == s.cur {
      OwnPriority(s, s2, priority, quantum);
    } else if PriorityInv(s) {
      OthersRenumbered(s, s2, p);
      RtsUnsetPriority(s2, p, {NO_QUANTUM});
    }
  }

  lemma OthersRenumbered(s: State, s2: State, p: nat)
    requires PriorityInv(s) && p < |s.procs| == |s2.procs| && p != s.cur && s2.cur == s.cur && !Runnable(s2.procs[p])
    requires forall i :: 0 <= i < |s.procs| && i != p ==> s2.procs[i] == s.procs[i]
    ensures PriorityInv(s2)
  {}

  lemma OwnPriority(s: State, s2: State, priority: nat, quantum: nat)
    requires ReadyInv(s2) && |s2.procs| == |s.procs| && s2.cur == s.cur && s2.procs[s.cur].priority == priority
    requires s2.procs[s.cur].preemptible == s.procs[s.cur].preemptible
    requires s2.procs[s.cur].flags - {NO_QUANTUM} == s.procs[s.cur].flags - {NO_QUANTUM} && !Runnable(s2.procs[s.cur])
    requires forall i :: 0 <= i < |s.procs| && i != s.cur ==> s2.procs[i] == s.procs[i]
    ensures PriorityInv(RtsUnset(s2, s.cur, {NO_QUANTUM})) <==> StillBest(s, priority)
  {
    var c, t := s.cur, RtsUnset(s2, s.cur, {NO_QUANTUM});
    RtsUnsetKeeps(s2, c, {NO_QUANTUM});
    assert PREEMPTED in t.procs[c].flags <==> PREEMPTED in s2.procs[c].flags - {NO_QUANTUM};
    forall r | 0 <= r < |s.procs| && r != c
      ensures Runnable(t.procs[r]) == Runnable(s.procs[r]) && t.procs[r].priority == s.procs[r].priority
    {}
  }

  // ----- the order of the queues -----

  lemma RemoveMeaning(q: seq<nat>, p: nat)
    requires NoDup(q) && p in q
    ensures exists i :: 0 <= i < |q| && q[i] == p && Remove(q, p) == q[..i] + q[i + 1..]
  {
    var i :| 0 <= i < |q| && q[i] == p;
    RemoveAt(q, p, i);
  }

  // RTS_SET takes a process that was runnable off its queue, and leaves every order as it was.
  lemma RtsSetMeaning(s: State, p: nat, fs: set<Flag>)
    requires ReadyInv(s) && p < |s.procs|
    ensures var t, q := RtsSet(s, p, fs), s.procs[p].priority;
            && t == s.(procs := t.procs, ready := t.ready)
            && t.procs == s.procs[p := s.procs[p].(flags := s.procs[p].flags + fs)]
            && |t.ready| == |s.ready| && (forall r :: 0 <= r < |s.ready| && r != q ==> t.ready[r] == s.ready[r])
            && (if s.procs[p].flags == {} && fs != {}
                then exists i :: 0 <= i < |s.ready[q]| && s.ready[q][i] == p
                                 && t.ready[q] == s.ready[q][..i] + s.ready[q][i + 1..]
                else t.ready[q] == s.ready[q])
  {
    if s.procs[p].flags == {} && fs != {} {
      var f :| f in fs;
      assert f in s.procs[p].flags + fs;
      RemoveMeaning(s.ready[s.procs[p].priority], p);
    } else {
      assert fs == {} ==> s.procs[p].flags + fs == s.procs[p].flags;
    }
  }

  // Waking p preempts the current process.
  predicate Displaces(s: State, p: nat)
    requires p < |s.procs| && s.cur < |s.procs|
  {
    s.procs[s.cur].preemptible && s.procs[p].priority < s.procs[s.cur].priority
  }

  // RTS_UNSET puts a process that becomes runnable at the tail of its queue; the current process is
  // marked as preempted, and leaves its queue if it was on one, exactly when it is preemptible and
  // strictly worse. Every order stays as it was.
  lemma RtsUnsetMeaning(s: State, p: nat, fs: set<Flag>)
    requires ReadyInv(s) && p < |s.procs|
    ensures var t, q, c := RtsUnset(s, p, fs), s.procs[p].priority, s.cur;
            var s1 := s.procs[p := s.procs[p].(flags := s.procs[p].flags - fs)];
            && t == s.(procs := t.procs, ready := t.ready) && |t.ready| == |s.ready|
            && if s.procs[p].flags == {} || s.procs[p].flags - fs != {} then t.procs == s1 && t.ready == s.ready
               else if !Displaces(s, p) then t.procs == s1 && t.ready == s.ready[q := s.ready[q] + [p]]
               else
                 && t.procs == s1[c := s1[c].(flags := s1[c].flags + {PREEMPTED})]
                 && t.ready[q] == s.ready[q] + [p]
                 && (forall r :: 0 <= r < |s.ready| && r != q && r != s.procs[c].priority ==> t.ready[r] == s.ready[r])
                 && Departed(s.ready[s.procs[c].priority], t.ready[s.procs[c].priority], c, Runnable(s.procs[c]))
  {
    var q, c := s.procs[p].priority, s.cur;
    if s.procs[p].flags != {} && s.procs[p].flags - fs == {} && Displaces(s, p) {
      assert PREEMPTED in s.procs[c].flags + {PREEMPTED};
      if Runnable(s.procs[c]) { RemoveMeaning(s.ready[s.procs[c].priority], c); }
    }
  }

  // t is q, without c if that was there.
  ghost predicate Departed(q: seq<nat>, t: seq<nat>, c: nat, there: bool) {
    if there then exists i :: 0 <= i < |q| && q[i] == c && t == q[..i] + q[i + 1..] else t == q
  }

  // sched_proc sets the priority, the quantum and the time that is left, clears NO_QUANTUM, and puts a
  // process that is runnable then at the tail of its new queue.
  lemma RescheduleMeaning(s: State, p: nat, priority: nat, quantum: nat)
    requires ReadyInv(s) && p < |s.procs| && priority < NR_SCHED_QUEUES
    ensures var t := Reschedule(s, p, priority, quantum);
            && |t.procs| == |s.procs| && |t.ready| == NR_SCHED_QUEUES
            && t.procs[p] == s.procs[p].(priority := priority, quantum := quantum, timeLeft := quantum,
                                         flags := s.procs[p].flags - {NO_QUANTUM})
            && (s.procs[p].flags - {NO_QUANTUM} == {} ==>
                  t.ready[priority] != [] && t.ready[priority][|t.ready[priority]| - 1] == p)
  {
    var s2 := Renumbered(s, p, priority, quantum);
    RtsUnsetMeaning(s2, p, {NO_QUANTUM});
    assert s2.procs[p].flags - {NO_QUANTUM} == s.procs[p].flags - {NO_QUANTUM};
  }
}
