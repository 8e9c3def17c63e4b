// Specification of clear_endpoint: what happens to message passing when a process dies.
module ProcessExit {
  import opened Prelude
  import opened KernelState
  import opened ReadyQueues
  import opened WaitGraph
  import opened IpcInvariants
  import opened IpcMeaning

  // clear_ipc: take rc off the queue it waits on and forget what it was blocked on.
  function ClearIpc(s: State, rc: nat): State
    requires rc < |s.procs|
  {
    var p := s.procs[rc];
    var s1 :=
      if SENDING in p.flags && p.sendTo.Slot? && p.sendTo.n < |s.callers|
      then s.(callers := s.callers[p.sendTo.n := Remove(s.callers[p.sendTo.n], rc)])
      else s;
    With(s1, rc, p.(flags := p.flags - {SENDING} - {RECEIVING}))
  }

  // One round of clear_ipc_refs.
  function ClearRef(s: State, rc: nat, p: nat): (t: State)
    requires Shape(s) && p < |s.procs|
    ensures Shape(t) && |t.procs| == |s.procs|
  {
    var s1 := With(s, p, s.procs[p].(notify := s.procs[p].notify - {rc}));
    if BlockedOn(s.procs[p]) == Slot(rc) then RtsUnset(s1, p, {RECEIVING, SENDING}) else s1
  }

  function ClearRefs(s: State, rc: nat, p: nat): (t: State)
    requires Shape(s) && p <= |s.procs|
    ensures Shape(t) && |t.procs| == |s.procs|
    decreases |s.procs| - p
  {
    if p == |s.procs| then s
    else ClearRefs(if IsEmpty(s.procs[p]) then s else ClearRef(s, rc, p), rc, p + 1)
  }

  function ClearEndpoint(s: State, rc: nat): State
    requires Shape(s) && rc < |s.procs|
  {
    ClearRefs(ClearIpc(RtsSet(s, rc, {NO_ENDPOINT}), rc), rc, 0)
  }

  // What a process is blocked on once rc has been cleared.
  function Unblocked(e: Endpoint, rc: nat): Endpoint { if e == Slot(rc) then NONE else e }

  ghost predicate Cleared(s: State, t: State, rc: nat, i: nat)
    requires i < |s.procs| && |t.procs| == |s.procs|
  {
    && BlockedOn(t.procs[i]) == Unblocked(BlockedOn(s.procs[i]), rc)
    && (Sending(t, i) <==> Sending(s, i) && s.procs[i].sendTo != Slot(rc))
    && t.procs[i].sendTo == s.procs[i].sendTo
  }

  ghost predicate Untouched(s: State, t: State, i: nat)
    requires i < |s.procs| && |t.procs| == |s.procs|
  {
    && BlockedOn(t.procs[i]) == BlockedOn(s.procs[i]) && (Sending(t, i) <==> Sending(s, i))
    && t.procs[i].sendTo == s.procs[i].sendTo
  }

  ghost predicate Scheduled(s: State, t: State) {
    ReadyInv(t) && t.callers == s.callers && t.cur == s.cur && (PriorityInv(s) ==> PriorityInv(t))
  }

  lemma ClearRefScheduled(s: State, rc: nat, p: nat)
    requires ReadyInv(s) && p < |s.procs|
    ensures Scheduled(s, ClearRef(s, rc, p))
  {
    var v := s.procs[p].(notify := s.procs[p].notify - {rc});
    SlotKeeps(s, p, v);
    if PriorityInv(s) { SlotPriority(s, p, v); }
    if BlockedOn(s.procs[p]) == Slot(rc) {
      UnsetSame(s, p, v, p, {RECEIVING, SENDING});
    }
  }

  lemma ClearRefEffect(s: State, rc: nat, p: nat)
    requires ReadyInv(s) && p < |s.procs|
    ensures var t := ClearRef(s, rc, p);
            Cleared(s, t, rc, p) && forall i :: 0 <= i < |s.procs| && i != p ==> Untouched(s, t, i)
  {
    if BlockedOn(s.procs[p]) == Slot(rc) {
      var v := s.procs[p].(notify := s.procs[p].notify - {rc});
      SlotKeeps(s, p, v);
      RtsUnsetKeeps(With(s, p, v), p, {RECEIVING, SENDING});
    }
  }

  lemma {:induction false} ClearRefsEffect(s: State, rc: nat, p: nat)
    requires ReadyInv(s) && p <= |s.procs|
    ensures var t := ClearRefs(s, rc, p);
            && Scheduled(s, t)
            && (forall i :: p <= i < |s.procs| ==> Cleared(s, t, rc, i))
            && (forall i :: 0 <= i < p ==> Untouched(s, t, i))
    decreases |s.procs| - p
  {
    if p < |s.procs| {
      var s1 := if IsEmpty(s.procs[p]) then s else ClearRef(s, rc, p);
      ClearRefScheduled(s, rc, p);
      ClearRefEffect(s, rc, p);
      ClearRefsEffect(s1, rc, p + 1);
      EmptyIsCleared(s, rc, p);
      RoundThen(s, s1, ClearRefs(s1, rc, p + 1), rc, p);
    }
  }

  lemma EmptyIsCleared(s: State, rc: nat, p: nat)
    requires p < |s.procs|
    ensures IsEmpty(s.procs[p]) ==> Cleared(s, s, rc, p)
  {}

  lemma RoundThen(s: State, s1: State, t: State, rc: nat, p: nat)
    requires |s.procs| == |s1.procs| == |t.procs| && p < |s.procs| && Cleared(s, s1, rc, p)
    requires forall i :: 0 <= i < |s.procs| && i != p ==> Untouched(s, s1, i)
    requires forall i :: p + 1 <= i < |s.procs| ==> Cleared(s1, t, rc, i)
    requires forall i :: 0 <= i < p + 1 ==> Untouched(s1, t, i)
    ensures forall i :: p <= i < |s.procs| ==> Cleared(s, t, rc, i)
    ensures forall i :: 0 <= i < p ==> Untouched(s, t, i)
  {
    forall i | 0 <= i < p ensures Untouched(s, t, i) {
      assert Untouched(s, s1, i) && Untouched(s1, t, i);
    }
    forall i | p <= i < |s.procs| ensures Cleared(s, t, rc, i) {
      if i == p {
        assert Untouched(s1, t, i);
      } else {
        assert Untouched(s, s1, i) && Cleared(s1, t, rc, i);
      }
    }
  }

  // clear_endpoint leaves nobody blocked on the dead process and rc blocked on nobody; it
  // keeps the blocked-on graph acyclic and the ready queues right. The caller queues stay
  // right exactly when nobody was queued on the dead process: those who were are unblocked
  // but left on its queue.
  lemma ClearEndpointEffect(s: State, rc: nat)
    requires KernelInv(s) && rc < |s.procs| && !IsEmpty(s.procs[rc])
    ensures var t := ClearEndpoint(s, rc);
            && (forall p :: 0 <= p < |t.procs| ==> BlockedOn(t.procs[p]) != Slot(rc))
            && BlockedOn(t.procs[rc]) == NONE
            && NoCycle(t.procs) && ReadyInv(t)
            && (PriorityInv(s) ==> PriorityInv(t))
            && (QueueInv(t) <==> s.callers[rc] == [])
  {
    assert Acyclic(s.procs) && QueueInv(s) && ReadyInv(s);
    ExitUnblocks(s, rc);
    ExitQueues(s, rc);
  }

  lemma ExitUnblocks(s: State, rc: nat)
    requires ReadyInv(s) && QueueInv(s) && Acyclic(s.procs) && rc < |s.procs|
    ensures var t := ClearEndpoint(s, rc);
            && (forall p :: 0 <= p < |t.procs| ==> BlockedOn(t.procs[p]) != Slot(rc))
            && BlockedOn(t.procs[rc]) == NONE && NoCycle(t.procs)
            && ReadyInv(t) && (PriorityInv(s) ==> PriorityInv(t))
  {
    var s2 := ExitPrefix(s, rc);
    ClearRefsEffect(s2, rc, 0);
    NobodyWaits(s, rc, s2, ClearEndpoint(s, rc));
  }

  lemma NobodyWaits(s: State, rc: nat, s2: State, t: State)
    requires Acyclic(s.procs) && rc < |s.procs| == |s2.procs| == |t.procs|
    requires forall i :: 0 <= i < |s.procs| ==> Cleared(s2, t, rc, i)
    requires forall p :: 0 <= p < |s.procs| ==>
             BlockedOn(s2.procs[p]) == if p == rc then NONE else BlockedOn(s.procs[p])
    ensures (forall p :: 0 <= p < |t.procs| ==> BlockedOn(t.procs[p]) != Slot(rc)) && BlockedOn(t.procs[rc]) == NONE
            && NoCycle(t.procs)
  {
    UnblockedAll(s, rc, s2, t);
    StillAcyclic(s, rc, t);
  }

  lemma StillAcyclic(s: State, rc: nat, t: State)
    requires Acyclic(s.procs) && |t.procs| == |s.procs|
    requires forall p :: 0 <= p < |s.procs| ==>
             BlockedOn(t.procs[p]) == if p == rc then NONE else Unblocked(BlockedOn(s.procs[p]), rc)
    ensures NoCycle(t.procs)
  {
    AcyclicFrame(s.procs, t.procs);
    AcyclicHasNoCycle(t.procs);
  }

  lemma UnblockedAll(s: State, rc: nat, s2: State, t: State)
    requires |s.procs| == |s2.procs| == |t.procs| && forall i :: 0 <= i < |s.procs| ==> Cleared(s2, t, rc, i)
    requires forall p :: 0 <= p < |s.procs| ==>
             BlockedOn(s2.procs[p]) == if p == rc then NONE else BlockedOn(s.procs[p])
    ensures forall p :: 0 <= p < |s.procs| ==>
            BlockedOn(t.procs[p]) == if p == rc then NONE else Unblocked(BlockedOn(s.procs[p]), rc)
  {
    forall p | 0 <= p < |s.procs|
      ensures BlockedOn(t.procs[p]) == if p == rc then NONE else Unblocked(BlockedOn(s.procs[p]), rc)
    {
      assert Cleared(s2, t, rc, p);
    }
  }

  lemma ExitQueues(s: State, rc: nat)
    requires ReadyInv(s) && QueueInv(s) && Acyclic(s.procs) && rc < |s.procs|
    ensures QueueInv(ClearEndpoint(s, rc)) <==> s.callers[rc] == []
  {
    var t := ClearEndpoint(s, rc);
    var s2 := ExitPrefix(s, rc);
    ClearRefsEffect(s2, rc, 0);
    AcyclicHasNoCycle(s.procs);
    assert Follow(s.procs, rc, 1) != Some(rc);
    assert Follow(s.procs, rc, 1) == if BlockedOn(s.procs[rc]).Slot?
        then Follow(s.procs, BlockedOn(s.procs[rc]).n, 0) else None;
    forall p | 0 <= p < |s.procs|
      ensures (Sending(t, p) <==> Sending(s2, p) && s2.procs[p].sendTo != Slot(rc))
              && t.procs[p].sendTo == s2.procs[p].sendTo
    {
      assert Cleared(s2, t, rc, p);
    }
    ClearedQueues(s, rc, s2, t);
  }

  // The state before clear_ipc_refs.
  lemma ExitPrefix(s: State, rc: nat) returns (s2: State)
    requires ReadyInv(s) && QueueInv(s) && rc < |s.procs|
    ensures s2 == ClearIpc(RtsSet(s, rc, {NO_ENDPOINT}), rc)
    ensures ReadyInv(s2) && (PriorityInv(s) ==> PriorityInv(s2)) && |s2.procs| == |s.procs| && s2.cur == s.cur
    ensures s2.callers == if Sending(s, rc)
            then s.callers[s.procs[rc].sendTo.n := Remove(s.callers[s.procs[rc].sendTo.n], rc)] else s.callers
    ensures forall p :: 0 <= p < |s.procs| ==>
            (Sending(s2, p) <==> Sending(s, p) && p != rc) && s2.procs[p].sendTo == s.procs[p].sendTo
    ensures forall p :: 0 <= p < |s.procs| ==> BlockedOn(s2.procs[p]) == if p == rc then NONE else BlockedOn(s.procs[p])
  {
    var s1 := RtsSet(s, rc, {NO_ENDPOINT});
    SetSame(s, rc, s.procs[rc], {NO_ENDPOINT});
    assert With(s, rc, s.procs[rc]) == s;
    ClearIpcKeeps(s1, rc);
    s2 := ClearIpc(s1, rc);
    ClearIpcBlocks(s, rc, s1);
  }

  lemma ClearIpcBlocks(s: State, rc: nat, s1: State)
    requires QueueInv(s) && rc < |s.procs| && s1.callers == s.callers
    requires s1.procs == s.procs[rc := s.procs[rc].(flags := s.procs[rc].flags + {NO_ENDPOINT})]
    ensures var s2 := ClearIpc(s1, rc);
            && |s2.procs| == |s.procs|
            && s2.callers == (if Sending(s, rc)
                then s.callers[s.procs[rc].sendTo.n := Remove(s.callers[s.procs[rc].sendTo.n], rc)] else s.callers)
            && (forall p :: 0 <= p < |s.procs| ==>
                (Sending(s2, p) <==> Sending(s, p) && p != rc) && s2.procs[p].sendTo == s.procs[p].sendTo)
            && (forall p :: 0 <= p < |s.procs| ==>
                BlockedOn(s2.procs[p]) == if p == rc then NONE else BlockedOn(s.procs[p]))
  {}

  lemma ClearIpcKeeps(s: State, rc: nat)
    requires ReadyInv(s) && rc < |s.procs| && NO_ENDPOINT in s.procs[rc].flags
    ensures ReadyInv(ClearIpc(s, rc)) && (PriorityInv(s) ==> PriorityInv(ClearIpc(s, rc)))
    ensures BlockedOn(ClearIpc(s, rc).procs[rc]) == NONE
  {
    var v := s.procs[rc].(flags := s.procs[rc].flags - {SENDING} - {RECEIVING});
    assert NO_ENDPOINT in v.flags;
    SlotKeeps(s, rc, v);
    var t := ClearIpc(s, rc);
    forall x | 0 <= x < |t.procs| && Runnable(t.procs[x]) ensures x != rc && t.procs[x] == s.procs[x] {}
  }

  // The caller queues without rc, which is on at most the queue it was blocked on.
  ghost predicate QueuesWithout(callers: seq<seq<nat>>, callers': seq<seq<nat>>, rc: nat) {
    && |callers'| == |callers|
    && (forall d :: 0 <= d < |callers| ==> NoDup(callers'[d]))
    && (forall d, x :: 0 <= d < |callers| ==> (x in callers'[d] <==> x in callers[d] && x != rc))
  }

  lemma CallersWithout(s: State, rc: nat, callers': seq<seq<nat>>)
    requires QueueInv(s) && rc < |s.procs|
    requires callers' == if Sending(s, rc)
             then s.callers[s.procs[rc].sendTo.n := Remove(s.callers[s.procs[rc].sendTo.n], rc)] else s.callers
    ensures QueuesWithout(s.callers, callers', rc)
  {
    forall d | 0 <= d < |s.callers|
        ensures NoDup(callers'[d]) && forall x :: x in callers'[d] <==> x in s.callers[d] && x != rc {
      RemoveNoDup(s.callers[d], rc);
      if rc in s.callers[d] { QueuedSends(s, d, rc); }
    }
  }

  lemma QueuedSends(s: State, d: nat, p: nat)
    requires QueueInv(s) && d < |s.callers| && p in s.callers[d]
    ensures p < |s.procs| && Sending(s, p) && s.procs[p].sendTo == Slot(d)
  {}

  lemma ClearedQueues(s: State, rc: nat, s2: State, t: State)
    requires QueueInv(s) && rc < |s.procs| && (Sending(s, rc) ==> s.procs[rc].sendTo != Slot(rc))
    requires |s2.procs| == |s.procs| == |t.procs| && t.callers == s2.callers
    requires s2.callers == if Sending(s, rc)
             then s.callers[s.procs[rc].sendTo.n := Remove(s.callers[s.procs[rc].sendTo.n], rc)] else s.callers
    requires forall p :: 0 <= p < |s.procs| ==>
             (Sending(s2, p) <==> Sending(s, p) && p != rc) && s2.procs[p].sendTo == s.procs[p].sendTo
    requires forall p :: 0 <= p < |s.procs| ==>
             (Sending(t, p) <==> Sending(s2, p) && s2.procs[p].sendTo != Slot(rc))
                 && t.procs[p].sendTo == s2.procs[p].sendTo
    ensures QueueInv(t) <==> s.callers[rc] == []
  {
    CallersWithout(s, rc, t.callers);
    if s.callers[rc] != [] {
      var p := s.callers[rc][0];
      QueuedSends(s, rc, p);
      assert p in t.callers[rc] && !Sending(t, p);
      if QueueInv(t) { QueuedSends(t, rc, p); }
    } else {
      StayQueued(s, rc, t);
    }
  }

  lemma StayQueued(s: State, rc: nat, t: State)
    requires QueueInv(s) && rc < |s.procs| == |t.procs| && s.callers[rc] == []
    requires QueuesWithout(s.callers, t.callers, rc)
    requires forall p :: 0 <= p < |s.procs| ==>
             (Sending(t, p) <==> Sending(s, p) && p != rc && s.procs[p].sendTo != Slot(rc))
                 && t.procs[p].sendTo == s.procs[p].sendTo
    ensures QueueInv(t)
  {
    forall d, i | 0 <= d < |t.callers| && 0 <= i < |t.callers[d]|
      ensures t.callers[d][i] < |t.procs| && Sending(t, t.callers[d][i]) && t.procs[t.callers[d][i]].sendTo == Slot(d)
    {
      assert t.callers[d][i] in t.callers[d];
      QueuedSends(s, d, t.callers[d][i]);
    }
    forall p | 0 <= p < |t.procs| && Sending(t, p)
      ensures t.procs[p].sendTo.Slot? && t.procs[p].sendTo.n < |t.procs| && p in t.callers[t.procs[p].sendTo.n]
    {
      assert Sending(s, p);
    }
  }

  // ----- the whole table -----

  // A slot once nothing of rc is pending there and it is no longer blocked on rc; free ones stay.
  function Freed(v: Proc, rc: nat): Proc {
    if v.flags == {SLOT_FREE} then v
    else
      var blocked := if SENDING in v.flags then v.sendTo == Slot(rc) else RECEIVING in v.flags && v.getFrom == Slot(rc);
      v.(notify := v.notify - {rc}, flags := if blocked then v.flags - {SENDING, RECEIVING} else v.flags)
  }

  // clear_endpoint as a whole, slot by slot: the dead process has no endpoint and is blocked on
  // nobody, its notifications are pending nowhere, and whoever was blocked on it goes on. Nothing
  // else in the table changes.
  lemma ExitMeaning(s: State, rc: nat)
    requires KernelInv(s) && rc < |s.procs| && !IsEmpty(s.procs[rc])
    ensures var t := ClearEndpoint(s, rc);
            && |t.procs| == |s.procs|
            && (forall p :: 0 <= p < |s.procs| && p != rc ==> Bare(t.procs[p]) == Bare(Freed(s.procs[p], rc)))
            && Bare(t.procs[rc]) == Bare(s.procs[rc].(notify := s.procs[rc].notify - {rc},
                                         flags := s.procs[rc].flags + {NO_ENDPOINT} - {SENDING, RECEIVING}))
  {
    assert ReadyInv(s) && QueueInv(s) && FreeInv(s);
    var s2 := ExitPrefix(s, rc);
    PrefixSlots(s, rc);
    FreedAll(s2, rc, 0);
    FreedSlots(s, rc, s2, ClearEndpoint(s, rc));
  }

  lemma FreedSlots(s: State, rc: nat, s2: State, t: State)
    requires rc < |s.procs| && FreedFrom(s2, t, rc, 0)
    requires s2.procs == s.procs[rc :=
             s.procs[rc].(flags := s.procs[rc].flags + {NO_ENDPOINT} - {SENDING} - {RECEIVING})]
    ensures |t.procs| == |s.procs|
    ensures forall p :: 0 <= p < |s.procs| && p != rc ==> Bare(t.procs[p]) == Bare(Freed(s.procs[p], rc))
    ensures Bare(t.procs[rc]) == Bare(s.procs[rc].(notify := s.procs[rc].notify - {rc},
                                      flags := s.procs[rc].flags + {NO_ENDPOINT} - {SENDING, RECEIVING}))
  {
    FreedSelf(s.procs[rc], rc);
    assert FreedAt(s2, t, rc, rc);
    forall p | 0 <= p < |s.procs| && p != rc ensures Bare(t.procs[p]) == Bare(Freed(s.procs[p], rc)) {
      assert FreedAt(s2, t, rc, p);
    }
  }

  lemma FreedSelf(v: Proc, rc: nat)
    ensures var w := v.(flags := v.flags + {NO_ENDPOINT} - {SENDING} - {RECEIVING});
            Freed(w, rc) == v.(notify := v.notify - {rc}, flags := v.flags + {NO_ENDPOINT} - {SENDING, RECEIVING})
  {
    var w := v.(flags := v.flags + {NO_ENDPOINT} - {SENDING} - {RECEIVING});
    assert NO_ENDPOINT in w.flags;
    assert w.flags == v.flags + {NO_ENDPOINT} - {SENDING, RECEIVING};
  }

  lemma PrefixSlots(s: State, rc: nat)
    requires ReadyInv(s) && FreeInv(s) && rc < |s.procs| && !IsEmpty(s.procs[rc])
    ensures var t := ClearIpc(RtsSet(s, rc, {NO_ENDPOINT}), rc);
            t.procs == s.procs[rc :=
              s.procs[rc].(flags := s.procs[rc].flags + {NO_ENDPOINT} - {SENDING} - {RECEIVING})] && FreeInv(t)
  {
    SetSame(s, rc, s.procs[rc], {NO_ENDPOINT});
    assert With(s, rc, s.procs[rc]) == s;
    var s1 := RtsSet(s, rc, {NO_ENDPOINT});
    MoreFlagsFree(s, s1, rc);
    ClearIpcSlots(s1, rc);
  }

  lemma MoreFlagsFree(s: State, s1: State, rc: nat)
    requires FreeInv(s) && rc < |s.procs| && !IsEmpty(s.procs[rc]) && s1.cur == s.cur
    requires s1.procs == s.procs[rc := s.procs[rc].(flags := s.procs[rc].flags + {NO_ENDPOINT})]
    ensures FreeInv(s1) && SLOT_FREE !in s1.procs[rc].flags
  {}

  lemma ClearIpcSlots(s: State, rc: nat)
    requires FreeInv(s) && rc < |s.procs| && SLOT_FREE !in s.procs[rc].flags
    ensures ClearIpc(s, rc).procs == s.procs[rc := s.procs[rc].(flags := s.procs[rc].flags - {SENDING} - {RECEIVING})]
    ensures FreeInv(ClearIpc(s, rc))
  {}

  ghost predicate FreedAt(s: State, t: State, rc: nat, i: nat)
    requires i < |s.procs| == |t.procs|
  {
    Bare(t.procs[i]) == Bare(Freed(s.procs[i], rc))
  }

  ghost predicate SameAt(s: State, t: State, i: nat)
    requires i < |s.procs| == |t.procs|
  {
    Bare(t.procs[i]) == Bare(s.procs[i])
  }

  ghost predicate FreedFrom(s: State, t: State, rc: nat, p: nat) {
    && |t.procs| == |s.procs|
    && (forall i :: p <= i < |s.procs| ==> FreedAt(s, t, rc, i))
    && (forall i :: 0 <= i < p && i < |s.procs| ==> SameAt(s, t, i))
  }

  lemma {:induction false} FreedAll(s: State, rc: nat, p: nat)
    requires ReadyInv(s) && FreeInv(s) && p <= |s.procs|
    ensures FreedFrom(s, ClearRefs(s, rc, p), rc, p)
    decreases |s.procs| - p
  {
    if p < |s.procs| {
      var s1 := if IsEmpty(s.procs[p]) then s else ClearRef(s, rc, p);
      FreedOne(s, rc, p);
      FreedAll(s1, rc, p + 1);
      FreedThen(s, s1, ClearRefs(s1, rc, p + 1), rc, p);
    } else {
      FreedNone(s, rc);
    }
  }

  lemma FreedNone(s: State, rc: nat)
    ensures FreedFrom(s, s, rc, |s.procs|)
  {}

  lemma FreedThen(s: State, s1: State, t: State, rc: nat, p: nat)
    requires |s.procs| == |s1.procs| == |t.procs| && p < |s.procs| && FreeInv(s) && FreeInv(s1)
    requires OnlyAt(s, s1, p, p) && FreedAt(s, s1, rc, p) && FreedFrom(s1, t, rc, p + 1)
    ensures FreedFrom(s, t, rc, p)
  {
    assert SameAt(s1, t, p);
    forall i | p < i < |s.procs| ensures FreedAt(s, t, rc, i) {
      SameFreed(s.procs[i], s1.procs[i], rc);
      assert FreedAt(s1, t, rc, i);
    }
    forall i | 0 <= i < p ensures SameAt(s, t, i) { assert SameAt(s1, t, i); }
  }

  lemma FreedOne(s: State, rc: nat, p: nat)
    requires ReadyInv(s) && FreeInv(s) && p < |s.procs|
    ensures var t := if IsEmpty(s.procs[p]) then s else ClearRef(s, rc, p);
            ReadyInv(t) && FreeInv(t) && OnlyAt(s, t, p, p) && FreedAt(s, t, rc, p)
  {
    if !IsEmpty(s.procs[p]) {
      if BlockedOn(s.procs[p]) == Slot(rc) {
        FreedBlocked(s, rc, p);
      } else {
        FreedNotify(s, rc, p);
      }
    }
  }

  lemma FreedNotify(s: State, rc: nat, p: nat)
    requires ReadyInv(s) && FreeInv(s) && p < |s.procs|
    requires !IsEmpty(s.procs[p]) && BlockedOn(s.procs[p]) != Slot(rc)
    ensures var t := ClearRef(s, rc, p);
            ReadyInv(t) && FreeInv(t) && OnlyAt(s, t, p, p) && t.procs[p] == Freed(s.procs[p], rc)
  {
    var v := s.procs[p].(notify := s.procs[p].notify - {rc});
    assert v == Freed(s.procs[p], rc);
    SlotKeeps(s, p, v);
    SlotFree(s, p, v);
  }

  lemma FreedBlocked(s: State, rc: nat, p: nat)
    requires ReadyInv(s) && FreeInv(s) && p < |s.procs|
    requires !IsEmpty(s.procs[p]) && BlockedOn(s.procs[p]) == Slot(rc)
    ensures var t := ClearRef(s, rc, p);
            ReadyInv(t) && FreeInv(t) && OnlyAt(s, t, p, p) && Bare(t.procs[p]) == Bare(Freed(s.procs[p], rc))
  {
    var v := s.procs[p].(notify := s.procs[p].notify - {rc});
    var t := ClearRef(s, rc, p);
    UnsetSame(s, p, v, p, {RECEIVING, SENDING});
    assert t == RtsUnset(With(s, p, v), p, {RECEIVING, SENDING});
    OnlyFlagsBare(With(s, p, v), t, p, {RECEIVING, SENDING});
    assert {RECEIVING, SENDING} == {SENDING, RECEIVING};
    WithOnly(s, p, v, t);
  }

  lemma WithOnly(s: State, p: nat, v: Proc, t: State)
    requires p < |s.procs| && OnlyAt(With(s, p, v), t, p, p)
    ensures OnlyAt(s, t, p, p)
  {}

  lemma SameFreed(v: Proc, w: Proc, rc: nat)
    requires Bare(v) == Bare(w) && (SLOT_FREE in v.flags ==> IsEmpty(v)) && (SLOT_FREE in w.flags ==> IsEmpty(w))
    ensures Bare(Freed(v, rc)) == Bare(Freed(w, rc))
  {
    var f, g := v.flags - {PREEMPTED}, w.flags - {PREEMPTED};
    assert f == Bare(v).flags == g;
    forall x | x != PREEMPTED ensures x in v.flags <==> x in w.flags {
      assert x in v.flags <==> x in f;
      assert x in w.flags <==> x in g;
    }
    assert v == w.(flags := v.flags) by { assert Bare(v).(flags := v.flags) == Bare(w).(flags := v.flags); }
    assert IsEmpty(v) <==> IsEmpty(w);
    if !IsEmpty(v) {
      assert Freed(v, rc).flags - {PREEMPTED} == Freed(w, rc).flags - {PREEMPTED};
    }
  }
}
