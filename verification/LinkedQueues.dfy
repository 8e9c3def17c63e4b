// How the linked tables show the queues of a state, and what each pointer update does to them.
module LinkedQueues {
  import opened Prelude
  import opened Chains
  import opened KernelState
  import opened ReadyQueues

  // p_nextready, rdy_head and rdy_tail show the ready queues of s.
  ghost predicate ReadyShown(link: seq<Link>, head: seq<Link>, tail: seq<Link>, s: State) {
    && Shape(s) && |link| == |s.procs| && |head| == |tail| == NR_SCHED_QUEUES
    && QueueChains(link, head, s.ready) && ReadyTails(tail, s.ready) && ReadyMembers(s.procs, s.ready)
  }

  ghost predicate ReadyTails(tail: seq<Link>, ready: seq<seq<nat>>) {
    |tail| == |ready| && forall q :: 0 <= q < |ready| ==> tail[q] == Last(ready[q])
  }

  ghost predicate ReadyMembers(procs: seq<Proc>, ready: seq<seq<nat>>) {
    forall q, i :: 0 <= q < |ready| && 0 <= i < |ready[q]| ==> ready[q][i] < |procs| && procs[ready[q][i]].priority == q
  }

  // p_q_link and p_caller_q show the caller queues of s.
  ghost predicate CallersShown(link: seq<Link>, head: seq<Link>, s: State) {
    && Shape(s) && |link| == |head| == |s.procs|
    && QueueChains(link, head, s.callers) && CallerMembers(s.procs, s.callers)
  }

  ghost predicate CallerMembers(procs: seq<Proc>, callers: seq<seq<nat>>) {
    forall d, i :: 0 <= d < |callers| && 0 <= i < |callers[d]| ==>
        callers[d][i] < |procs| && procs[callers[d][i]].sendTo == Slot(d)
  }

  lemma ReadyFrame(link: seq<Link>, head: seq<Link>, tail: seq<Link>, s: State, t: State)
    requires ReadyShown(link, head, tail, s) && Shape(t) && |t.procs| == |s.procs| && t.ready == s.ready
    requires forall p :: 0 <= p < |s.procs| ==>
             t.procs[p].priority == s.procs[p].priority || forall q :: 0 <= q < NR_SCHED_QUEUES ==> p !in s.ready[q]
    ensures ReadyShown(link, head, tail, t)
  {}

  lemma CallersFrame(link: seq<Link>, head: seq<Link>, s: State, t: State)
    requires CallersShown(link, head, s) && Shape(t) && |t.procs| == |s.procs| && t.callers == s.callers
    requires forall p :: 0 <= p < |s.procs| ==>
             t.procs[p].sendTo == s.procs[p].sendTo || forall d :: 0 <= d < |s.procs| ==> p !in s.callers[d]
    ensures CallersShown(link, head, t)
  {}

  function CutTail(tail: Link, q: seq<nat>, k: nat): Link
    requires k < |q|
  {
    if tail != Some(q[k]) then tail else if k == 0 then None else Some(q[k - 1])
  }

  // ----- membership -----

  // Changing one queue to members of it and, perhaps, one new slot.
  lemma ReadyMembersChange(procs: seq<Proc>, ready: seq<seq<nat>>, q: nat, queue: seq<nat>, p: nat)
    requires ReadyMembers(procs, ready) && q < |ready| && p < |procs|
    requires forall x :: x in queue ==> x in ready[q] || (x == p && procs[p].priority == q)
    ensures ReadyMembers(procs, ready[q := queue])
  {
    forall i | 0 <= i < |queue| ensures queue[i] < |procs| && procs[queue[i]].priority == q {
      assert queue[i] in queue;
    }
  }

  lemma CallerMembersChange(procs: seq<Proc>, callers: seq<seq<nat>>, d: nat, queue: seq<nat>, c: nat)
    requires CallerMembers(procs, callers) && d < |callers| && c < |procs|
    requires forall x :: x in queue ==> x in callers[d] || (x == c && procs[c].sendTo == Slot(d))
    ensures CallerMembers(procs, callers[d := queue])
  {
    forall i | 0 <= i < |queue| ensures queue[i] < |procs| && procs[queue[i]].sendTo == Slot(d) {
      assert queue[i] in queue;
    }
  }

  lemma ReadyApart(procs: seq<Proc>, ready: seq<seq<nat>>, q: nat)
    requires ReadyMembers(procs, ready) && q < |ready|
    ensures Apart(ready, q)
  {}

  lemma CallersApart(procs: seq<Proc>, callers: seq<seq<nat>>, d: nat)
    requires CallerMembers(procs, callers) && d < |callers|
    ensures Apart(callers, d)
  {}

  lemma SpliceIn(q: seq<nat>, k: nat)
    requires k < |q|
    ensures forall x :: x in Splice(q, k) ==> x in q
  {}

  // ----- ready queues -----

  // dequeue, when it finds p at position k of its queue.
  lemma ReadyCut(link: seq<Link>, head: seq<Link>, tail: seq<Link>, s: State, p: nat, k: nat)
    requires ReadyShown(link, head, tail, s) && p < |s.procs|
    requires k < |s.ready[s.procs[p].priority]| && s.ready[s.procs[p].priority][k] == p
    ensures var q := s.procs[p].priority;
            var queue := s.ready[q];
            ReadyShown(CutLink(link, queue, k), head[q := CutFrom(link, head[q], queue, k)],
                       tail[q := CutTail(tail[q], queue, k)], Dequeue(s, p))
  {
    var q := s.procs[p].priority;
    RemoveIsSplice(s.ready[q], p, k);
    ReadySplice(link, head, tail, s, q, k);
  }

  lemma ReadySplice(link: seq<Link>, head: seq<Link>, tail: seq<Link>, s: State, q: nat, k: nat)
    requires ReadyShown(link, head, tail, s) && q < NR_SCHED_QUEUES && k < |s.ready[q]|
    ensures var queue := s.ready[q];
            ReadyShown(CutLink(link, queue, k), head[q := CutFrom(link, head[q], queue, k)],
                       tail[q := CutTail(tail[q], queue, k)], s.(ready := s.ready[q := Splice(queue, k)]))
  {
    var p := s.ready[q][k];
    ReadyApart(s.procs, s.ready, q);
    SpliceChains(link, head, s.ready, q, k);
    SpliceIn(s.ready[q], k);
    ReadyMembersChange(s.procs, s.ready, q, Splice(s.ready[q], k), p);
    assert Chain(link, head[q], s.ready[q]) && tail[q] == Last(s.ready[q]);
    CutTails(link, head[q], tail, s.ready, q, k);
  }

  lemma CutTails(link: seq<Link>, from: Link, tail: seq<Link>, ready: seq<seq<nat>>, q: nat, k: nat)
    requires ReadyTails(tail, ready) && q < |ready| && k < |ready[q]| && Chain(link, from, ready[q])
    ensures ReadyTails(tail[q := CutTail(tail[q], ready[q], k)], ready[q := Splice(ready[q], k)])
  {}

  // enqueue.
  lemma ReadyAppend(link: seq<Link>, head: seq<Link>, tail: seq<Link>, s: State, p: nat)
    requires ReadyShown(link, head, tail, s) && p < |s.procs|
    requires forall q :: 0 <= q < NR_SCHED_QUEUES ==> p !in s.ready[q]
    ensures var q := s.procs[p].priority;
            if head[q] == None then ReadyShown(link[p := None], head[q := Some(p)], tail[q := Some(p)], Append(s, p))
            else tail[q].Some? && tail[q].value < |link|
                 && ReadyShown(link[tail[q].value := Some(p)][p := None], head, tail[q := Some(p)], Append(s, p))
  {
    var q := s.procs[p].priority;
    assert Chain(link, head[q], s.ready[q]) && tail[q] == Last(s.ready[q]);
    ReadyApart(s.procs, s.ready, q);
    AppendChains(link, head, s.ready, q, p);
    ReadyMembersChange(s.procs, s.ready, q, s.ready[q] + [p], p);
    AppendTails(tail, s.ready, q, p);
  }

  lemma AppendTails(tail: seq<Link>, ready: seq<seq<nat>>, q: nat, p: nat)
    requires ReadyTails(tail, ready) && q < |ready|
    ensures ReadyTails(tail[q := Some(p)], ready[q := ready[q] + [p]])
  {}

  // enqueue_head.
  lemma ReadyPush(link: seq<Link>, head: seq<Link>, tail: seq<Link>, s: State, p: nat)
    requires ReadyShown(link, head, tail, s) && p < |s.procs|
    requires forall q :: 0 <= q < NR_SCHED_QUEUES ==> p !in s.ready[q]
    ensures var q := s.procs[p].priority;
            var tail' := if head[q] == None then tail[q := Some(p)] else tail;
            ReadyShown(link[p := head[q]], head[q := Some(p)], tail', EnqueueHead(s, p))
  {
    var q := s.procs[p].priority;
    assert Chain(link, head[q], s.ready[q]);
    PushChains(link, head, s.ready, q, p);
    ReadyMembersChange(s.procs, s.ready, q, [p] + s.ready[q], p);
    PushTails(tail, s.ready, q, p);
  }

  lemma PushTails(tail: seq<Link>, ready: seq<seq<nat>>, q: nat, p: nat)
    requires ReadyTails(tail, ready) && q < |ready|
    ensures ReadyTails(if ready[q] == [] then tail[q := Some(p)] else tail, ready[q := [p] + ready[q]])
  {}

  // ----- caller queues -----

  // Appending c, whose sendTo is d already, to d's caller queue.
  lemma CallersAppend(link: seq<Link>, head: seq<Link>, s: State, c: nat, d: nat)
    requires CallersShown(link, head, s) && c < |s.procs| && d < |s.procs| && s.procs[c].sendTo == Slot(d)
    requires link[c] == None
    requires forall e :: 0 <= e < |s.procs| ==> c !in s.callers[e]
    ensures var q := s.callers[d];
            CallersShown(HungLink(link, q, c), HungHead(head, q, d, c), s.(callers := s.callers[d := q + [c]]))
  {
    CallersApart(s.procs, s.callers, d);
    HangChains(link, head, s.callers, d, c);
    CallerMembersChange(s.procs, s.callers, d, s.callers[d] + [c], c);
  }

  // Taking position k off d's caller queue; clearing the link of the slot taken off changes
  // no queue any more.
  lemma CallersCut(link: seq<Link>, head: seq<Link>, s: State, d: nat, k: nat)
    requires CallersShown(link, head, s) && d < |s.procs| && k < |s.callers[d]|
    ensures var q := s.callers[d];
            CallersShown(CutLink(link, q, k), head[d := CutFrom(link, head[d], q, k)],
                s.(callers := s.callers[d := Splice(q, k)]))
  {
    CallersApart(s.procs, s.callers, d);
    SpliceChains(link, head, s.callers, d, k);
    SpliceIn(s.callers[d], k);
    CallerMembersChange(s.procs, s.callers, d, Splice(s.callers[d], k), s.callers[d][k]);
  }

  lemma CallersClear(link: seq<Link>, head: seq<Link>, s: State, x: nat)
    requires CallersShown(link, head, s) && x < |link| && forall d :: 0 <= d < |s.procs| ==> x !in s.callers[d]
    ensures CallersShown(link[x := None], head, s)
  {}
}
