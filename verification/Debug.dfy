// runqueues_ok: the kernel's own check of its ready queues, on whatever the tables hold.
module Debug {
  import opened Prelude
  import opened Chains
  import opened KernelState

  // The linked queues are `ready`, and a used slot is on the queue of its priority iff it is runnable.
  ghost predicate QueuesRight(procs: seq<Proc>, link: seq<Link>, head: seq<Link>, tail: seq<Link>,
      ready: seq<seq<nat>>) {
    && |ready| == |head| == |tail| == NR_SCHED_QUEUES && |link| == |procs|
    && (forall q :: 0 <= q < |ready| ==> Chain(link, head[q], ready[q]) && tail[q] == Last(ready[q]))
    && (forall q, i :: 0 <= q < |ready| && 0 <= i < |ready[q]| ==>
          ready[q][i] < |procs| && Runnable(procs[ready[q][i]]) && procs[ready[q][i]].priority == q)
    && (forall p :: 0 <= p < |procs| && Runnable(procs[p]) ==>
          procs[p].priority < NR_SCHED_QUEUES && p in ready[procs[p].priority])
  }

  // After q complete queues, all right so far: the slots seen are the elements of `done`.
  ghost predicate SeenSoFar(procs: seq<Proc>, link: seq<Link>, head: seq<Link>, tail: seq<Link>, q: nat,
      done: seq<seq<nat>>, seen: seq<nat>) {
    && |done| == q <= |head| == |tail| == NR_SCHED_QUEUES && |link| == |procs|
    && NoDup(seen) && (forall p :: p in seen ==> p < |procs|)
    && (forall k :: 0 <= k < q ==> Chain(link, head[k], done[k]) && tail[k] == Last(done[k]))
    && (forall k, i :: 0 <= k < q && 0 <= i < |done[k]| ==>
          done[k][i] < |procs| && Runnable(procs[done[k][i]]) && procs[done[k][i]].priority == k && done[k][i] in seen)
    && (forall p :: p in seen && p < |procs| ==> procs[p].priority < q && p in done[procs[p].priority])
  }

  // Every right arrangement agrees with what was walked.
  ghost predicate Forced(procs: seq<Proc>, link: seq<Link>, head: seq<Link>, tail: seq<Link>, done: seq<seq<nat>>) {
    forall w :: QueuesRight(procs, link, head, tail, w) ==> |done| <= |w| && w[..|done|] == done
  }

  // A link chain determines the queue it shows.
  lemma ChainUnique(link: seq<Link>, from: Link, q: seq<nat>, r: seq<nat>)
    requires Chain(link, from, q) && Chain(link, from, r)
    ensures q == r
  {
    var i := 0;
    while i < |q|
      invariant i <= |q| && i <= |r| && q[..i] == r[..i] && At(q, i) == At(r, i)
    {
      assert link[q[i]] == At(q, i + 1) && link[r[i]] == At(r, i + 1);
      i := i + 1;
    }
  }

  lemma NoDupAppend(s: seq<nat>, t: seq<nat>, x: nat)
    requires NoDup(s + t) && x !in s + t
    ensures NoDup(s + (t + [x])) && s + (t + [x]) == (s + t) + [x]
  {}

  lemma NoDupSuffix(s: seq<nat>, t: seq<nat>)
    requires NoDup(s + t)
    ensures NoDup(t)
  {
    forall i, j | 0 <= i < j < |t| ensures t[i] != t[j] {
      assert (s + t)[|s| + i] == t[i] && (s + t)[|s| + j] == t[j];
    }
  }

  method RunqueuesOk(proc: array<Proc>, nextReady: array<Link>, rdyHead: array<Link>, rdyTail: array<Link>,
      found: array<bool>) returns (ok: bool)
    requires nextReady.Length == found.Length == proc.Length && rdyHead.Length == rdyTail.Length == NR_SCHED_QUEUES
    requires forall q :: 0 <= q < NR_SCHED_QUEUES && rdyTail[q].Some? ==> rdyTail[q].value < proc.Length
    modifies found
    ensures ok <==> exists ready :: QueuesRight(proc[..], nextReady[..], rdyHead[..], rdyTail[..], ready)
  {
    ResetFound(found);
    ghost var done, seen;
    ok, done, seen := QueuesOk(proc, nextReady, rdyHead, rdyTail, found);
    if ok {
      ghost var missing;
      ok, missing := AllFound(proc, found, seen);
      if ok {
        AllSeenRight(proc[..], nextReady[..], rdyHead[..], rdyTail[..], done, seen);
      } else {
        MissingRefutes(proc[..], nextReady[..], rdyHead[..], rdyTail[..], done, seen, missing);
      }
    }
  }

  method ResetFound(found: array<bool>)
    modifies found
    ensures forall i :: 0 <= i < found.Length ==> !found[i]
  {
    var p := 0;
    while p < found.Length
      invariant p <= found.Length && forall i :: 0 <= i < p ==> !found[i]
    {
      found[p] := false;
      p := p + 1;
    }
  }

  // The loop over the queues.
  method QueuesOk(proc: array<Proc>, nextReady: array<Link>, rdyHead: array<Link>, rdyTail: array<Link>,
      found: array<bool>)
    returns (ok: bool, ghost done: seq<seq<nat>>, ghost seen: seq<nat>)
    requires nextReady.Length == found.Length == proc.Length && rdyHead.Length == rdyTail.Length == NR_SCHED_QUEUES
    requires forall q :: 0 <= q < NR_SCHED_QUEUES && rdyTail[q].Some? ==> rdyTail[q].value < proc.Length
    requires forall i :: 0 <= i < proc.Length ==> !found[i]
    modifies found
    ensures ok ==> SeenSoFar(proc[..], nextReady[..], rdyHead[..], rdyTail[..], NR_SCHED_QUEUES, done, seen)
                   && Forced(proc[..], nextReady[..], rdyHead[..], rdyTail[..], done)
                   && Marked(found[..], seen)
    ensures !ok ==> !exists w :: QueuesRight(proc[..], nextReady[..], rdyHead[..], rdyTail[..], w)
  {
    var q, l := 0, 0;
    done, seen := [], [];
    while q < NR_SCHED_QUEUES
      invariant SeenSoFar(proc[..], nextReady[..], rdyHead[..], rdyTail[..], q, done, seen)
      invariant Forced(proc[..], nextReady[..], rdyHead[..], rdyTail[..], done)
      invariant l == |seen| && Marked(found[..], seen)
    {
      ghost var queue;
      ok, l, queue := QueueOk(proc, nextReady, rdyHead, rdyTail, found, q, l, seen);
      if !ok {
        return;
      }
      ForcedNext(proc[..], nextReady[..], rdyHead[..], rdyTail[..], done, seen, queue);
      done, seen := done + [queue], seen + queue;
      q := q + 1;
    }
    ok := true;
  }

  ghost predicate Marked(found: seq<bool>, seen: seq<nat>) {
    forall i :: 0 <= i < |found| ==> (found[i] <==> i in seen)
  }

  // The last loop: every ready process was found on a queue.
  method AllFound(proc: array<Proc>, found: array<bool>, ghost seen: seq<nat>) returns (ok: bool, ghost missing: nat)
    requires found.Length == proc.Length && Marked(found[..], seen)
    ensures ok ==> forall i :: 0 <= i < proc.Length && Runnable(proc[i]) ==> i in seen
    ensures !ok ==> missing < proc.Length && Runnable(proc[missing]) && missing !in seen
  {
    var p := 0;
    while p < proc.Length
      invariant p <= proc.Length && forall i :: 0 <= i < p && Runnable(proc[i]) ==> i in seen
    {
      if !IsEmpty(proc[p]) && Runnable(proc[p]) && !found[p] {
        return false, p;
      }
      p := p + 1;
    }
    return true, 0;
  }

  lemma AllSeenRight(procs: seq<Proc>, link: seq<Link>, head: seq<Link>, tail: seq<Link>, done: seq<seq<nat>>,
      seen: seq<nat>)
    requires SeenSoFar(procs, link, head, tail, NR_SCHED_QUEUES, done, seen)
    requires forall i :: 0 <= i < |procs| && Runnable(procs[i]) ==> i in seen
    ensures QueuesRight(procs, link, head, tail, done)
  {}

  lemma ForcedNext(procs: seq<Proc>, link: seq<Link>, head: seq<Link>, tail: seq<Link>, done: seq<seq<nat>>,
      seen: seq<nat>, queue: seq<nat>)
    requires SeenSoFar(procs, link, head, tail, |done|, done, seen) && Forced(procs, link, head, tail, done)
    requires |done| < NR_SCHED_QUEUES && Chain(link, head[|done|], queue) && tail[|done|] == Last(queue)
    requires forall x :: x in queue ==> x < |procs| && Runnable(procs[x]) && procs[x].priority == |done|
    ensures SeenSoFar(procs, link, head, tail, |done| + 1, done + [queue], seen + queue)
    ensures Forced(procs, link, head, tail, done + [queue])
  {
    SeenNext(procs, link, head, tail, done, seen, queue);
    forall w | QueuesRight(procs, link, head, tail, w) ensures |w| >= |done| + 1 && w[..|done| + 1] == done + [queue] {
      RightNext(procs, link, head, tail, done, queue, w);
    }
  }

  lemma RightNext(procs: seq<Proc>, link: seq<Link>, head: seq<Link>, tail: seq<Link>, done: seq<seq<nat>>,
      queue: seq<nat>, w: seq<seq<nat>>)
    requires QueuesRight(procs, link, head, tail, w) && |done| < NR_SCHED_QUEUES
    requires w[..|done|] == done && Chain(link, head[|done|], queue)
    ensures w[..|done| + 1] == done + [queue]
  {
    ChainUnique(link, head[|done|], w[|done|], queue);
    assert w[..|done| + 1] == w[..|done|] + [w[|done|]];
  }

  lemma SeenNext(procs: seq<Proc>, link: seq<Link>, head: seq<Link>, tail: seq<Link>, done: seq<seq<nat>>,
      seen: seq<nat>, queue: seq<nat>)
    requires SeenSoFar(procs, link, head, tail, |done|, done, seen)
    requires |done| < NR_SCHED_QUEUES && Chain(link, head[|done|], queue) && tail[|done|] == Last(queue)
    requires forall x :: x in queue ==> x < |procs| && Runnable(procs[x]) && procs[x].priority == |done|
    ensures SeenSoFar(procs, link, head, tail, |done| + 1, done + [queue], seen + queue)
  {
    var q, more, all := |done|, done + [queue], seen + queue;
    forall p | p in seen ensures p !in queue { assert procs[p].priority < q; }
    NoDupJoin(seen, queue);
    forall k, i | 0 <= k < q + 1 && 0 <= i < |more[k]|
      ensures more[k][i] < |procs| && Runnable(procs[more[k][i]]) && procs[more[k][i]].priority == k
              && more[k][i] in all
    {
      if k == q { assert queue[i] in queue; } else { assert done[k][i] in seen; }
    }
    forall p | p in all && p < |procs| ensures procs[p].priority < q + 1 && p in more[procs[p].priority] {
      if p in seen { assert p in done[procs[p].priority]; }
    }
  }

  lemma NoDupJoin(s: seq<nat>, t: seq<nat>)
    requires NoDup(s) && NoDup(t) && forall x :: x in s ==> x !in t
    ensures NoDup(s + t)
  {
    forall i, j | 0 <= i < j < |s + t| ensures (s + t)[i] != (s + t)[j] {
      if i < |s| <= j { assert s[i] in s && t[j - |s|] in t; }
    }
  }

  lemma MissingRefutes(procs: seq<Proc>, link: seq<Link>, head: seq<Link>, tail: seq<Link>, done: seq<seq<nat>>,
      seen: seq<nat>, p: nat)
    requires SeenSoFar(procs, link, head, tail, NR_SCHED_QUEUES, done, seen) && Forced(procs, link, head, tail, done)
    requires p < |procs| && Runnable(procs[p]) && p !in seen
    ensures !exists w :: QueuesRight(procs, link, head, tail, w)
  {}

  // Every right arrangement has `queue` as the beginning of queue q, and then xp.
  ghost predicate Leads(procs: seq<Proc>, link: seq<Link>, head: seq<Link>, tail: seq<Link>, q: nat,
      queue: seq<nat>, xp: Link)
    requires q < NR_SCHED_QUEUES
  {
    forall w :: QueuesRight(procs, link, head, tail, w) ==>
        |queue| <= |w[q]| && w[q][..|queue|] == queue && xp == At(w[q], |queue|)
  }

  // What was walked of queue q: a stretch of good slots that ends in front of xp.
  ghost predicate Walked(procs: seq<Proc>, link: seq<Link>, from: Link, q: nat, queue: seq<nat>, xp: Link) {
    && (forall i :: 0 <= i < |queue| ==> queue[i] < |link| == |procs|)
    && (forall i :: 0 <= i < |queue| ==> Runnable(procs[queue[i]]) && procs[queue[i]].priority == q)
    && (forall i {:trigger link[queue[i]]} :: 0 <= i < |queue| ==>
        link[queue[i]] == if i + 1 < |queue| then Some(queue[i + 1]) else xp)
    && from == if queue == [] then xp else Some(queue[0])
  }

  predicate GoodSlot(procs: seq<Proc>, q: nat, x: nat) {
    x < |procs| && Runnable(procs[x]) && procs[x].priority == q
  }

  lemma BadSlotRefutes(procs: seq<Proc>, link: seq<Link>, head: seq<Link>, tail: seq<Link>, q: nat,
      queue: seq<nat>, x: nat)
    requires q < NR_SCHED_QUEUES && Leads(procs, link, head, tail, q, queue, Some(x))
    requires !GoodSlot(procs, q, x) || x in queue || (x < |link| && link[x] == None && q < |tail| && tail[q] != Some(x))
    ensures !exists w :: QueuesRight(procs, link, head, tail, w)
  {}

  lemma LeadsNext(procs: seq<Proc>, link: seq<Link>, head: seq<Link>, tail: seq<Link>, q: nat, queue: seq<nat>, x: nat)
    requires q < NR_SCHED_QUEUES && Leads(procs, link, head, tail, q, queue, Some(x)) && x < |link|
    ensures Leads(procs, link, head, tail, q, queue + [x], link[x])
  {}

  lemma EndsRefute(procs: seq<Proc>, link: seq<Link>, head: seq<Link>, tail: seq<Link>, q: nat)
    requires q < NR_SCHED_QUEUES && |head| == |tail| == NR_SCHED_QUEUES
    requires (head[q] == None) != (tail[q] == None)
             || (tail[q].Some? && tail[q].value < |link| && link[tail[q].value] != None)
    ensures !exists w :: QueuesRight(procs, link, head, tail, w)
  {}

  lemma LeadsStart(procs: seq<Proc>, link: seq<Link>, head: seq<Link>, tail: seq<Link>, q: nat)
    requires q < NR_SCHED_QUEUES == |head|
    ensures Leads(procs, link, head, tail, q, [], head[q])
  {}

  // The walk over one queue.
  method QueueOk(proc: array<Proc>, nextReady: array<Link>, rdyHead: array<Link>, rdyTail: array<Link>,
      found: array<bool>,
                 q: nat, l0: nat, ghost seen: seq<nat>) returns (ok: bool, l: nat, ghost queue: seq<nat>)
    requires nextReady.Length == found.Length == proc.Length && rdyHead.Length == rdyTail.Length == NR_SCHED_QUEUES
    requires forall k :: 0 <= k < NR_SCHED_QUEUES && rdyTail[k].Some? ==> rdyTail[k].value < proc.Length
    requires q < NR_SCHED_QUEUES && l0 == |seen| && NoDup(seen) && Marked(found[..], seen)
    requires forall x :: x in seen ==> x < proc.Length && proc[x].priority < q
    modifies found
    ensures ok ==> l == |seen| + |queue| && Chain(nextReady[..], rdyHead[q], queue) && rdyTail[q] == Last(queue)
    ensures ok ==> (forall x :: x in queue ==> GoodSlot(proc[..], q, x)) && Marked(found[..], seen + queue)
    ensures !ok ==> !exists w :: QueuesRight(proc[..], nextReady[..], rdyHead[..], rdyTail[..], w)
  {
    ghost var procs, link, head, tail := proc[..], nextReady[..], rdyHead[..], rdyTail[..];
    ok, l, queue := false, l0, [];
    if (rdyHead[q] != None && rdyTail[q] == None) || (rdyHead[q] == None && rdyTail[q] != None)
       || (rdyTail[q] != None && nextReady[rdyTail[q].value] != None)
    {
      EndsRefute(procs, link, head, tail, q);
      return;
    }
    var xp := rdyHead[q];
    LeadsStart(procs, link, head, tail, q);
    assert seen + [] == seen;
    BoundedWalk(procs, seen, [], q);
    while xp != None
      invariant Walked(procs, link, head[q], q, queue, xp) && Leads(procs, link, head, tail, q, queue, xp)
      invariant xp == None ==> tail[q] == Last(queue)
      invariant l == |seen| + |queue| && NoDup(seen + queue) && Marked(found[..], seen + queue) && l <= |procs|
      decreases |procs| - l
    {
      var x := xp.value;
      if x >= proc.Length || SLOT_FREE in proc[x].flags || !Runnable(proc[x]) || proc[x].priority != q || found[x] {
        BadSlotRefutes(procs, link, head, tail, q, queue, x);
        return;
      }
      found[x] := true;
      if nextReady[x] == None && rdyTail[q] != Some(x) {
        BadSlotRefutes(procs, link, head, tail, q, queue, x);
        return;
      }
      LeadsNext(procs, link, head, tail, q, queue, x);
      NoDupAppend(seen, queue, x);
      BoundedWalk(procs, seen, queue + [x], q);
      queue := queue + [x];
      // The source bounds l here as well; as no slot is found twice the bound is never exceeded.
      l := l + 1;
      xp := nextReady[x];
    }
    NoDupSuffix(seen, queue);
    ok := true;
  }

  lemma BoundedWalk(procs: seq<Proc>, seen: seq<nat>, queue: seq<nat>, q: nat)
    requires NoDup(seen + queue)
    requires forall x :: x in seen ==> x < |procs|
    requires forall i :: 0 <= i < |queue| ==> GoodSlot(procs, q, queue[i])
    ensures |seen| + |queue| <= |procs|
  {
    PigeonHole(seen + queue, |procs|);
  }
}
