// The kernel's process table and ready queues, updated in place as kernel/proc.c does.
// The fields of struct proc are columns indexed by slot; a null pointer is None.
module ProcTable {
  import opened Prelude
  import opened Chains
  import opened LinkedQueues
  import opened KernelState
  import opened ReadyQueues
  import opened WaitGraph
  import opened IpcSpec
  import opened IpcInvariants
  import opened IpcRuns
  import opened KernelRuns
  import opened ProcessExit
  import Debug

  class Kernel {
    const proc: array<Proc>
    const nextReady: array<Link>   // p_nextready
    const callerQ: array<Link>     // p_caller_q
    const qLink: array<Link>       // p_q_link
    const rdyHead: array<Link>
    const rdyTail: array<Link>
    var procPtr: nat
    ghost var st: State            // the table and its queues as values

    ghost predicate Separate() {
      && nextReady != callerQ && nextReady != qLink && nextReady != rdyHead && nextReady != rdyTail
      && callerQ != qLink && callerQ != rdyHead && callerQ != rdyTail
      && qLink != rdyHead && qLink != rdyTail && rdyHead != rdyTail
      && nextReady.Length == callerQ.Length == qLink.Length == proc.Length
      && rdyHead.Length == rdyTail.Length == NR_SCHED_QUEUES
    }

    // The table shows st.
    ghost predicate Linked()
      reads this, proc, nextReady, callerQ, qLink, rdyHead, rdyTail
    {
      && Separate() && proc[..] == st.procs && procPtr == st.cur
      && ReadyShown(nextReady[..], rdyHead[..], rdyTail[..], st)
      && CallersShown(qLink[..], callerQ[..], st)
    }

    // The table shows st, and only blocked senders are linked to others.
    ghost predicate Valid()
      reads this, proc, nextReady, callerQ, qLink, rdyHead, rdyTail
    {
      Linked() && forall p :: 0 <= p < |st.procs| && !Sending(st, p) ==> qLink[p] == None
    }

    // The table at boot: nobody is runnable or sending yet, and every queue is empty.
    constructor (slots: seq<Proc>, current: nat)
      requires current < |slots|
      requires forall p :: 0 <= p < |slots| ==>
               slots[p].priority < NR_SCHED_QUEUES && !Runnable(slots[p]) && SENDING !in slots[p].flags
      ensures Valid() && ReadyInv(st) && st.procs == slots && st.cur == current && st.sends == [] && st.receipts == []
      ensures forall d :: 0 <= d < |slots| ==> st.callers[d] == []
    {
      proc := new Proc[|slots|](i requires 0 <= i < |slots| => slots[i]);
      nextReady := new Link[|slots|](i => None);
      callerQ := new Link[|slots|](i => None);
      qLink := new Link[|slots|](i => None);
      rdyHead := new Link[NR_SCHED_QUEUES](i => None);
      rdyTail := new Link[NR_SCHED_QUEUES](i => None);
      procPtr := current;
      st := State(slots, seq(NR_SCHED_QUEUES, i => []), seq(|slots|, i => []), current, seq(|slots|, i => 0), [], []);
    }

    // ----- scheduling queues -----

    method Dequeue(rp: nat)
      requires Linked() && rp < proc.Length && !Runnable(proc[rp])
      modifies this`st, nextReady, rdyHead, rdyTail
      ensures Linked() && st == ReadyQueues.Dequeue(old(st), rp)
    {
      var q := proc[rp].priority;
      ghost var queue := st.ready[q];
      ghost var i;
      var prev, x;
      prev, x, i := FindReady(q, rp);
      if x != None {
        ghost var link, head, tail := nextReady[..], rdyHead[..], rdyTail[..];
        ReadyCut(link, head, tail, st, rp, i);
        if prev == None { rdyHead[q] := nextReady[rp]; } else { nextReady[prev.value] := nextReady[rp]; }
        if rdyTail[q] == Some(rp) { rdyTail[q] := prev; }
        assert nextReady[..] == CutLink(link, queue, i);
        assert rdyHead[..] == head[q := CutFrom(link, head[q], queue, i)];
        assert rdyTail[..] == tail[q := CutTail(tail[q], queue, i)];
      } else {
        assert st.ready[q := Remove(queue, rp)] == st.ready;
      }
      st := ReadyQueues.Dequeue(st, rp);
    }

    // Where rp is on queue q: x, behind prev (None for rdyHead[q] itself).
    method FindReady(q: nat, rp: nat) returns (prev: Link, x: Link, ghost i: nat)
      requires Linked() && q < NR_SCHED_QUEUES && rp < proc.Length
      ensures var queue := st.ready[q];
              && i <= |queue| && x == At(queue, i) && prev == (if i == 0 then None else Some(queue[i - 1]))
              && (x == None ==> rp !in queue) && (x.Some? ==> x.value == rp)
    {
      ghost var queue := st.ready[q];
      prev, x, i := None, rdyHead[q], 0;
      while x != None && x.value != rp
        invariant i <= |queue| && x == At(queue, i) && prev == (if i == 0 then None else Some(queue[i - 1]))
        invariant rp !in queue[..i]
        decreases |queue| - i
      {
        prev := x;
        x := nextReady[x.value];
        i := i + 1;
      }
      if x == None { assert queue[..i] == queue; }
    }

    // Assigning fields of one slot; its place in a queue must not depend on what changes.
    method Put(i: nat, v: Proc)
      requires Linked() && i < proc.Length && v.priority < NR_SCHED_QUEUES
      requires v.priority == proc[i].priority || forall q :: 0 <= q < NR_SCHED_QUEUES ==> i !in st.ready[q]
      requires v.sendTo == proc[i].sendTo || forall d :: 0 <= d < |st.procs| ==> i !in st.callers[d]
      modifies this`st, proc
      ensures Linked() && st == With(old(st), i, v)
    {
      proc[i] := v;
      ghost var s := st;
      st := With(st, i, v);
      ReadyFrame(nextReady[..], rdyHead[..], rdyTail[..], s, st);
      CallersFrame(qLink[..], callerQ[..], s, st);
    }

    method RtsSet(rp: nat, fs: set<Flag>)
      requires Linked() && rp < proc.Length
      modifies this`st, proc, nextReady, rdyHead, rdyTail
      ensures Linked() && st == ReadyQueues.RtsSet(old(st), rp, fs)
    {
      var rts := proc[rp].flags;
      Put(rp, proc[rp].(flags := rts + fs));
      if rts == {} && !Runnable(proc[rp]) {
        Dequeue(rp);
      }
    }

    method Enqueue(rp: nat)
      requires Linked() && rp < proc.Length && Runnable(proc[rp])
      requires forall q :: 0 <= q < NR_SCHED_QUEUES ==> rp !in st.ready[q]
      modifies this`st, proc, nextReady, rdyHead, rdyTail
      ensures Linked() && st == ReadyQueues.Enqueue(old(st), rp)
    {
      var q := proc[rp].priority;
      ghost var link, head, tail := nextReady[..], rdyHead[..], rdyTail[..];
      LinkedQueues.ReadyAppend(link, head, tail, st, rp);
      if rdyHead[q] == None {
        rdyHead[q], rdyTail[q] := Some(rp), Some(rp);
        nextReady[rp] := None;
        assert nextReady[..] == link[rp := None] && rdyHead[..] == head[q := Some(rp)];
      } else {
        nextReady[rdyTail[q].value] := Some(rp);
        rdyTail[q] := Some(rp);
        nextReady[rp] := None;
        assert nextReady[..] == link[tail[q].value := Some(rp)][rp := None] && rdyHead[..] == head;
      }
      assert rdyTail[..] == tail[q := Some(rp)];
      st := Append(st, rp);
      if proc[procPtr].priority > proc[rp].priority && proc[procPtr].preemptible {
        RtsSet(procPtr, {PREEMPTED});
      }
    }

    method EnqueueHead(rp: nat)
      requires Linked() && rp < proc.Length && Runnable(proc[rp]) && proc[rp].timeLeft != 0
      requires forall q :: 0 <= q < NR_SCHED_QUEUES ==> rp !in st.ready[q]
      modifies this`st, nextReady, rdyHead, rdyTail
      ensures Linked() && st == ReadyQueues.EnqueueHead(old(st), rp)
    {
      var q := proc[rp].priority;
      ghost var link, head, tail := nextReady[..], rdyHead[..], rdyTail[..];
      ReadyPush(link, head, tail, st, rp);
      if rdyHead[q] == None {
        rdyHead[q], rdyTail[q] := Some(rp), Some(rp);
        nextReady[rp] := None;
      } else {
        nextReady[rp] := rdyHead[q];
      }
      rdyHead[q] := Some(rp);
      assert nextReady[..] == link[rp := head[q]] && rdyHead[..] == head[q := Some(rp)];
      assert rdyTail[..] == if head[q] == None then tail[q := Some(rp)] else tail;
      st := ReadyQueues.EnqueueHead(st, rp);
    }

    method RtsUnset(rp: nat, fs: set<Flag>)
      requires Linked() && ReadyInv(st) && rp < proc.Length
      modifies this`st, proc, nextReady, rdyHead, rdyTail
      ensures Linked() && st == ReadyQueues.RtsUnset(old(st), rp, fs)
    {
      var rts := proc[rp].flags;
      NotReady(st, rp);
      Put(rp, proc[rp].(flags := rts - fs));
      if rts != {} && Runnable(proc[rp]) {
        Enqueue(rp);
      }
    }

    method PickProc() returns (r: Link)
      requires Linked()
      ensures r == PickFrom(st.ready, 0)
    {
      var q := 0;
      while q < NR_SCHED_QUEUES
        invariant q <= NR_SCHED_QUEUES && PickFrom(st.ready, 0) == PickFrom(st.ready, q)
      {
        if rdyHead[q] != None {
          return rdyHead[q];
        }
        q := q + 1;
      }
      return None;
    }

    // switch_to_user, not_runnable_pick_new: give a preempted process its place back.
    method RequeueCurrent()
      requires Linked() && ReadyInv(st)
      modifies this`st, proc, nextReady, rdyHead, rdyTail
      ensures Linked() && st == Requeue(old(st))
    {
      if PREEMPTED in proc[procPtr].flags {
        NotReady(st, procPtr);
        Put(procPtr, proc[procPtr].(flags := proc[procPtr].flags - {PREEMPTED}));
        if Runnable(proc[procPtr]) {
          if proc[procPtr].timeLeft != 0 { EnqueueHead(procPtr); } else { Enqueue(procPtr); }
        }
      }
    }

    // switch_to_user, up to the choice of a process.
    method SwitchToUser(idle: nat)
      requires Linked() && ReadyInv(st) && idle < proc.Length
      modifies this, proc, nextReady, rdyHead, rdyTail
      ensures Linked() && st == SwitchTo(old(st), idle)
    {
      RequeueKeeps(st);
      RequeueCurrent();
      var r := PickProc();
      PickIsBest(st);
      ghost var s := st;
      procPtr := if r == None then idle else r.value;
      st := st.(cur := procPtr);
      ReadyFrame(nextReady[..], rdyHead[..], rdyTail[..], s, st);
      CallersFrame(qLink[..], callerQ[..], s, st);
    }

    // The source also accepts priority NR_SCHED_QUEUES, for which there is no queue.
    method SchedProc(rp: nat, priority: int, quantum: int) returns (code: Code)
      requires Linked() && ReadyInv(st) && rp < proc.Length && priority != NR_SCHED_QUEUES
      modifies this`st, proc, nextReady, rdyHead, rdyTail
      ensures Linked() && (code, st) == ReadyQueues.SchedProc(old(st), rp, priority, quantum)
    {
      if priority < 0 || priority > NR_SCHED_QUEUES {
        return EINVAL;
      }
      if quantum <= 0 {
        return EINVAL;
      }
      if Runnable(proc[rp]) {
        RtsSetKeeps(st, rp, {NO_QUANTUM});
        RtsSet(rp, {NO_QUANTUM});
      }
      NotReady(st, rp);
      SlotKeeps(st, rp, proc[rp].(priority := priority, quantum := quantum, timeLeft := quantum));
      Put(rp, proc[rp].(priority := priority, quantum := quantum, timeLeft := quantum));
      RtsUnset(rp, {NO_QUANTUM});
      return OK;
    }

    // The kernel's own sanity check never complains.
    method RunqueuesOk(found: array<bool>) returns (ok: bool)
      requires Linked() && ReadyInv(st) && found.Length == proc.Length
      modifies found
      ensures ok
    {
      ghost var procs, link, head, tail := proc[..], nextReady[..], rdyHead[..], rdyTail[..];
      assert Debug.QueuesRight(procs, link, head, tail, st.ready);
      ok := Debug.RunqueuesOk(proc, nextReady, rdyHead, rdyTail, found);
      assert proc[..] == procs && nextReady[..] == link && rdyHead[..] == head && rdyTail[..] == tail;
    }

    // ----- deadlock detection -----

    // The chain walk. Group size two is excused when one of the pair sends and the other
    // receives, `call` being what cp is about to do.
    method Deadlock(call: Call, cp: nat, e: Endpoint) returns (group: nat)
      requires Linked() && BlockInv(st) && Acyclic(st.procs) && cp < proc.Length
      requires call == SEND || call == RECEIVE
      requires e == ANY || (e.Slot? && e.n < proc.Length && SLOT_FREE !in proc[e.n].flags)
      ensures group != 0 ==> e.Slot? && Follow(st.procs, e.n, group - 1) == Some(cp)
      ensures group == 0 <==> !e.Slot? || !Reaches(st.procs, e.n, cp) || Excused(st.procs[e.n], call, cp)
    {
      group := 1;
      if e == ANY { return 0; }
      var next := e;
      ghost var rank :| IsRank(st.procs, rank);
      while next != ANY
        invariant next == ANY || (next.Slot? && next.n < proc.Length && SLOT_FREE !in proc[next.n].flags)
        invariant next.Slot? ==> group > 0 && Follow(st.procs, e.n, group - 1) == Some(next.n)
        invariant next.Slot? ==> forall j: nat :: 0 < j < group ==> Follow(st.procs, e.n, j) != Some(cp)
        invariant next == ANY ==> !Reaches(st.procs, e.n, cp)
        decreases if next.Slot? then rank[next.n] + 1 else 0
      {
        var xp := next.n;
        ghost var k := group - 1;
        FollowStep(st.procs, e.n, k);
        group := group + 1;
        next := BlockedOn(proc[xp]);
        assert next == BlockedOn(st.procs[xp]);
        if !next.Slot? { ChainEnds(st.procs, e.n, k, cp); }
        if next == NONE {
          return 0;
        }
        if next == Slot(cp) {
          assert Follow(st.procs, e.n, k + 1) == Some(cp);
          if group == 2 && Excused(proc[xp], call, cp) {
            return 0;
          }
          if Excused(st.procs[e.n], call, cp) { FollowStep(st.procs, e.n, 0); }
          return group;
        }
      }
      return 0;
    }

    // ----- mini_send -----

    // Walk to the end of dst's caller queue and hang c there.
    method AppendCaller(dst: nat, c: nat)
      requires Linked() && dst < proc.Length && c < proc.Length && proc[c].sendTo == Slot(dst) && qLink[c] == None
      requires forall d :: 0 <= d < |st.procs| ==> c !in st.callers[d]
      modifies this`st, callerQ, qLink
      ensures Linked() && st == old(st).(callers := old(st).callers[dst := old(st).callers[dst] + [c]])
      ensures forall p :: 0 <= p < qLink.Length && p !in old(st).callers[dst] ==> qLink[p] == old(qLink[p])
    {
      ghost var s := st;
      var prev := LastCaller(dst);
      CallersAppend(qLink[..], callerQ[..], s, c, dst);
      Hang(prev, dst, c, s.callers[dst]);
      st := s.(callers := s.callers[dst := s.callers[dst] + [c]]);
      ReadyFrame(nextReady[..], rdyHead[..], rdyTail[..], s, st);
    }

    method Hang(prev: Link, dst: nat, c: nat, ghost q: seq<nat>)
      requires Separate() && dst < proc.Length && prev == Last(q) && forall i :: 0 <= i < |q| ==> q[i] < proc.Length
      modifies callerQ, qLink
      ensures qLink[..] == HungLink(old(qLink[..]), q, c) && callerQ[..] == HungHead(old(callerQ[..]), q, dst, c)
      ensures forall p :: 0 <= p < qLink.Length && p !in q ==> qLink[p] == old(qLink[p])
    {
      if prev == None { callerQ[dst] := Some(c); } else { qLink[prev.value] := Some(c); }
      assert q != [] ==> q[|q| - 1] in q;
    }

    // The cell at the end of dst's caller queue: qLink[prev], or callerQ[dst] for None.
    method LastCaller(dst: nat) returns (prev: Link)
      requires Linked() && dst < proc.Length
      ensures prev == Last(st.callers[dst]) && (prev.Some? ==> prev.value < proc.Length)
    {
      ghost var q := st.callers[dst];
      prev := None;
      var x := callerQ[dst];
      ghost var i := 0;
      while x != None
        invariant i <= |q| && x == At(q, i) && prev == (if i == 0 then None else Some(q[i - 1]))
        decreases |q| - i
      {
        prev := x;
        x := qLink[x.value];
        i := i + 1;
      }
    }

    method MiniSend(caller: nat, dst: nat, m: Body, nonBlocking: bool, copyOk: bool) returns (code: Code)
      requires Valid() && CanSend(st, caller, dst)
      modifies this`st, proc, nextReady, rdyHead, rdyTail, callerQ, qLink
      ensures Valid() && (code, st) == IpcSpec.MiniSend(old(st), caller, dst, m, nonBlocking, copyOk)
    {
      ghost var s, link := st, qLink[..];
      SendersStay(s, caller, dst, m, nonBlocking, copyOk);
      NotQueued(s, caller);
      code := SendSteps(caller, dst, m, nonBlocking, copyOk);
      StaysUnlinked(s, st, link, qLink[..], dst);
    }

    // The branches of mini_send; they rely on parts of Valid only.
    method SendSteps(caller: nat, dst: nat, m: Body, nonBlocking: bool, copyOk: bool) returns (code: Code)
      requires Linked() && ReadyInv(st) && BlockInv(st) && Acyclic(st.procs)
      requires caller < proc.Length && dst < proc.Length && SLOT_FREE !in proc[dst].flags && qLink[caller] == None
      requires forall d :: 0 <= d < |st.procs| ==> caller !in st.callers[d]
      modifies this`st, proc, nextReady, rdyHead, rdyTail, callerQ, qLink
      ensures Linked() && (code, st) == IpcSpec.MiniSend(old(st), caller, dst, m, nonBlocking, copyOk)
      ensures forall p :: 0 <= p < qLink.Length && p !in old(st).callers[dst] ==> qLink[p] == old(qLink[p])
    {
      if NO_ENDPOINT in proc[dst].flags {
        return EDEADSRCDST;
      }
      if WillReceive(proc[dst], caller) {
        assert proc[dst].delivermsg == None by { assert Receiving(st, dst); }
        if !copyOk {
          return EFAULT;
        }
        FillAndWake(caller, dst, m);
        return OK;
      }
      if nonBlocking {
        return ENOTREADY;
      }
      SendNeverExcused(st, caller, dst);
      var group := Deadlock(SEND, caller, Slot(dst));
      if group != 0 {
        return ELOCKED;
      }
      if !copyOk {
        return EFAULT;
      }
      BlockAndQueue(caller, dst, m);
      return OK;
    }

    // The rendezvous branch of mini_send.
    method FillAndWake(caller: nat, dst: nat, m: Body)
      requires Linked() && ReadyInv(st) && caller < proc.Length && dst < proc.Length
      modifies this`st, proc, nextReady, rdyHead, rdyTail
      ensures Linked() && st == HandOver(old(st), caller, dst, m)
    {
      ghost var s := st;
      SlotKeeps(s, dst, proc[dst].(delivermsg := Some(Letter(caller, m)), replyPend := false));
      Put(dst, proc[dst].(delivermsg := Some(Letter(caller, m)), replyPend := false));
      RtsUnset(dst, {RECEIVING});
      ghost var t := st;
      st := HandOver(s, caller, dst, m);
      HistoryShown(t, st);
    }

    // The blocking branch of mini_send.
    method BlockAndQueue(caller: nat, dst: nat, m: Body)
      requires Linked() && caller < proc.Length && dst < proc.Length && qLink[caller] == None
      requires forall d :: 0 <= d < |st.procs| ==> caller !in st.callers[d]
      modifies this`st, proc, nextReady, rdyHead, rdyTail, callerQ, qLink
      ensures Linked() && st == Park(old(st), caller, dst, m)
      ensures forall p :: 0 <= p < qLink.Length && p !in old(st).callers[dst] ==> qLink[p] == old(qLink[p])
    {
      ghost var s := st;
      BlockSending(caller, dst, m);
      AppendCaller(dst, caller);
      ghost var t := st;
      st := Park(s, caller, dst, m);
      HistoryShown(t, st);
    }

    method BlockSending(caller: nat, dst: nat, m: Body)
      requires Linked() && caller < proc.Length
      requires forall d :: 0 <= d < |st.procs| ==> caller !in st.callers[d]
      modifies this`st, proc, nextReady, rdyHead, rdyTail
      ensures Linked()
      ensures var s2 := ReadyQueues.RtsSet(With(old(st), caller, old(st).procs[caller].(sendmsg := m)), caller,
              {SENDING});
              st == With(s2, caller, s2.procs[caller].(sendTo := Slot(dst)))
    {
      Put(caller, proc[caller].(sendmsg := m));
      RtsSet(caller, {SENDING});
      Put(caller, proc[caller].(sendTo := Slot(dst)));
    }

    // ----- mini_receive -----

    // The scan over the notification bitmap.
    method ScanNotifications(caller: nat, src: Endpoint) returns (r: Link)
      requires Linked() && caller < proc.Length
      ensures r == NotifyScan(st.procs[caller].notify, src, 0, Chunks(st))
    {
      r := ScanChunks(proc[caller].notify, src, proc.Length / BITCHUNK_BITS + 1);
    }

    static method ScanChunks(pending: set<nat>, src: Endpoint, chunks: nat) returns (r: Link)
      ensures r == NotifyScan(pending, src, 0, chunks)
    {
      var chunk := 0;
      while chunk < chunks
        invariant chunk <= chunks && NotifyScan(pending, src, 0, chunks) == NotifyScan(pending, src, chunk, chunks)
      {
        var i := LowestBit(pending, chunk * BITCHUNK_BITS, (chunk + 1) * BITCHUNK_BITS);
        if i.Some? && Acceptable(src, i.value) {
          return i;
        }
        chunk := chunk + 1;
      }
      return None;
    }

    static method LowestBit(pending: set<nat>, start: nat, end: nat) returns (r: Link)
      requires start <= end
      ensures r == LowestFrom(pending, start, end)
    {
      var i := start;
      while i < end && i !in pending
        invariant start <= i <= end && LowestFrom(pending, start, end) == LowestFrom(pending, i, end)
      {
        i := i + 1;
      }
      r := if i < end then Some(i) else None;
    }

    method TakeNote(caller: nat, i: nat)
      requires Linked() && caller < proc.Length
      modifies this`st, proc
      ensures Linked() && st == TakeNotification(old(st), caller, i)
    {
      Put(caller, proc[caller].(delivermsg := Some(Notice(i)), notify := proc[caller].notify - {i}));
    }

    // Walk the caller queue to the first acceptable sender x; prev is the slot before it.
    method FindSender(caller: nat, src: Endpoint) returns (prev: Link, x: Link)
      requires Linked() && caller < proc.Length
      ensures var q := st.callers[caller];
              var k := FirstAcceptable(q, src);
              x == At(q, k) && prev == if k == 0 then None else Some(q[k - 1])
    {
      ghost var q := st.callers[caller];
      prev := None;
      x := callerQ[caller];
      ghost var i := 0;
      while x != None && !Acceptable(src, x.value)
        invariant i <= |q| && x == At(q, i) && prev == (if i == 0 then None else Some(q[i - 1]))
        invariant i + FirstAcceptable(q[i..], src) == FirstAcceptable(q, src)
        decreases |q| - i
      {
        assert q[i..][1..] == q[i + 1..];
        prev := x;
        x := qLink[x.value];
        i := i + 1;
      }
      assert x == None ==> q[i..] == [];
    }

    // Copy the sender's message, wake the sender, and take it off the queue.
    method TakeMessage(caller: nat, prev: Link, sender: nat, ghost k: nat)
      requires Linked() && ReadyInv(st) && caller < proc.Length && sender != caller
      requires k < |st.callers[caller]| && sender == st.callers[caller][k]
      requires prev == if k == 0 then None else Some(st.callers[caller][k - 1])
      modifies this`st, proc, nextReady, rdyHead, rdyTail, callerQ, qLink
      ensures Linked() && st == TakeFrom(old(st), caller, k) && qLink[sender] == None
      ensures forall p :: 0 <= p < qLink.Length && p !in old(st).callers[caller] ==> qLink[p] == old(qLink[p])
    {
      ghost var s := st;
      CopyAndWake(caller, sender);
      TakeFromUnfolded(s, caller, k, st);
      CutAndClear(caller, prev, sender, k, TakeFrom(s, caller, k).receipts);
    }

    method CutAndClear(caller: nat, prev: Link, sender: nat, ghost k: nat, ghost receipts: seq<Receipt>)
      requires Linked() && caller < proc.Length
      requires k < |st.callers[caller]| && sender == st.callers[caller][k]
      requires prev == if k == 0 then None else Some(st.callers[caller][k - 1])
      modifies this`st, proc, callerQ, qLink
      ensures Linked() && qLink[sender] == None
      ensures st == With(old(st).(callers := old(st).callers[caller := Splice(old(st).callers[caller], k)]),
                         caller, old(st).procs[caller].(replyPend := false)).(receipts := receipts)
      ensures forall p :: 0 <= p < qLink.Length && p !in old(st).callers[caller] ==> qLink[p] == old(qLink[p])
    {
      CutQueue(caller, prev, sender, k);
      Put(caller, proc[caller].(replyPend := false));
      ghost var t := st;
      st := t.(receipts := receipts);
      HistoryShown(t, st);
    }

    method CopyAndWake(caller: nat, sender: nat)
      requires Linked() && ReadyInv(st) && caller < proc.Length && sender < proc.Length
      modifies this`st, proc, nextReady, rdyHead, rdyTail
      ensures Linked()
      ensures st == ReadyQueues.RtsUnset(
                With(old(st), caller,
                    old(st).procs[caller].(delivermsg := Some(Letter(sender, old(st).procs[sender].sendmsg)))),
                sender, {SENDING})
    {
      var v := proc[caller].(delivermsg := Some(Letter(sender, proc[sender].sendmsg)));
      SlotKeeps(st, caller, v);
      Put(caller, v);
      RtsUnset(sender, {SENDING});
    }

    // Splice the k-th caller out and clear its link.
    method CutQueue(caller: nat, prev: Link, sender: nat, ghost k: nat)
      requires Linked() && caller < proc.Length
      requires k < |st.callers[caller]| && sender == st.callers[caller][k]
      requires prev == if k == 0 then None else Some(st.callers[caller][k - 1])
      modifies this`st, callerQ, qLink
      ensures Linked() && st == old(st).(callers := old(st).callers[caller := Splice(old(st).callers[caller], k)])
      ensures qLink[sender] == None
      ensures forall p :: 0 <= p < qLink.Length && p !in old(st).callers[caller] ==> qLink[p] == old(qLink[p])
    {
      ghost var s := st;
      ghost var q, link, head := s.callers[caller], qLink[..], callerQ[..];
      CallersCut(link, head, s, caller, k);
      if prev == None { callerQ[caller] := qLink[sender]; } else { qLink[prev.value] := qLink[sender]; }
      assert qLink[..] == CutLink(link, q, k) && callerQ[..] == head[caller := CutFrom(link, head[caller], q, k)];
      st := s.(callers := s.callers[caller := Splice(q, k)]);
      ghost var link1 := qLink[..];
      CutEverywhere(link, head, s, caller, k);
      CallersClear(link1, callerQ[..], st, sender);
      qLink[sender] := None;
      assert qLink[..] == link1[sender := None];
      ReadyFrame(nextReady[..], rdyHead[..], rdyTail[..], s, st);
      assert q[k] in q && (k > 0 ==> q[k - 1] in q);
    }

    method MiniReceive(caller: nat, src: Endpoint, nonBlocking: bool) returns (code: Code)
      requires Valid() && CanReceive(st, caller, src)
      modifies this`st, proc, nextReady, rdyHead, rdyTail, callerQ, qLink
      ensures Valid() && (code, st) == IpcSpec.MiniReceive(old(st), caller, src, nonBlocking)
    {
      ghost var s, link := st, qLink[..];
      code := ReceiveSteps(caller, src, nonBlocking);
      ReceiveUnlinked(s, caller, src, nonBlocking, link, qLink[..]);
    }

    // The branches of mini_receive.
    method ReceiveSteps(caller: nat, src: Endpoint, nonBlocking: bool) returns (code: Code)
      requires Linked() && CanReceive(st, caller, src)
      modifies this`st, proc, nextReady, rdyHead, rdyTail, callerQ, qLink
      ensures Linked() && (code, st) == IpcSpec.MiniReceive(old(st), caller, src, nonBlocking)
      ensures LinksAfter(old(st), caller, src, old(qLink[..]), qLink[..])
    {
      if src.Slot? && NO_ENDPOINT in proc[src.n].flags {
        return EDEADSRCDST;
      }
      if SENDING !in proc[caller].flags {
        var taken := TakeWaiting(caller, src);
        if taken {
          return OK;
        }
      }
      code := BlockOrRefuse(caller, src, nonBlocking);
    }

    // A pending notification, or else a queued message, if there is one.
    method TakeWaiting(caller: nat, src: Endpoint) returns (taken: bool)
      requires Linked() && ReadyInv(st) && QueueInv(st) && caller < proc.Length && !Sending(st, caller)
      requires src.Slot? ==> src.n < proc.Length && NO_ENDPOINT !in proc[src.n].flags
      modifies this`st, proc, nextReady, rdyHead, rdyTail, callerQ, qLink
      ensures Linked() && LinksAfter(old(st), caller, src, old(qLink[..]), qLink[..])
      ensures taken <==> Note(old(st), caller, src).Some? || TakesQueued(old(st), caller, src)
      ensures Note(old(st), caller, src).Some? ==>
              st == TakeNotification(old(st), caller, Note(old(st), caller, src).value)
      ensures Note(old(st), caller, src) == None ==>
                st == if taken then TakeFrom(old(st), caller, FirstAcceptable(old(st).callers[caller], src))
                    else old(st)
    {
      ghost var s, link := st, qLink[..];
      taken := TakePending(caller, src);
      if taken {
        LinksUnchanged(s, caller, src, link);
      } else {
        taken := TakeNext(caller, src);
      }
    }

    // A queued message, when there is no notification.
    method TakeNext(caller: nat, src: Endpoint) returns (taken: bool)
      requires Linked() && ReadyInv(st) && QueueInv(st) && caller < proc.Length && !Sending(st, caller)
      requires src.Slot? ==> src.n < proc.Length && NO_ENDPOINT !in proc[src.n].flags
      requires Note(st, caller, src) == None
      modifies this`st, proc, nextReady, rdyHead, rdyTail, callerQ, qLink
      ensures Linked() && LinksAfter(old(st), caller, src, old(qLink[..]), qLink[..])
      ensures taken <==> TakesQueued(old(st), caller, src)
      ensures st == if taken then TakeFrom(old(st), caller, FirstAcceptable(old(st).callers[caller], src)) else old(st)
    {
      ghost var s, link := st, qLink[..];
      taken := TakeQueued(caller, src);
      LinksOfQueued(s, caller, src, link, qLink[..]);
    }

    method TakePending(caller: nat, src: Endpoint) returns (taken: bool)
      requires Linked() && caller < proc.Length && !Sending(st, caller)
      modifies this`st, proc
      ensures Linked() && (taken <==> Note(old(st), caller, src).Some?)
      ensures st == if taken then TakeNotification(old(st), caller, Note(old(st), caller, src).value) else old(st)
    {
      if !proc[caller].replyPend {
        var i := ScanNotifications(caller, src);
        if i != None {
          TakeNote(caller, i.value);
          return true;
        }
      }
      return false;
    }

    method TakeQueued(caller: nat, src: Endpoint) returns (taken: bool)
      requires Linked() && ReadyInv(st) && QueueInv(st) && caller < proc.Length && !Sending(st, caller)
      modifies this`st, proc, nextReady, rdyHead, rdyTail, callerQ, qLink
      ensures Linked()
      ensures var q := old(st).callers[caller];
              var k := FirstAcceptable(q, src);
              && (taken <==> k < |q|)
              && (!taken ==> st == old(st) && qLink[..] == old(qLink[..]))
              && (taken ==> q[k] < proc.Length && st == TakeFrom(old(st), caller, k) && qLink[q[k]] == None
                            && forall p :: 0 <= p < qLink.Length && p !in q ==> qLink[p] == old(qLink[p]))
    {
      var prev, x := FindSender(caller, src);
      if x == None {
        return false;
      }
      SenderIsOther(st, caller, FirstAcceptable(st.callers[caller], src));
      TakeMessage(caller, prev, x.value, FirstAcceptable(st.callers[caller], src));
      return true;
    }

    // The end of mini_receive, when there was nothing to take.
    method BlockOrRefuse(caller: nat, src: Endpoint, nonBlocking: bool) returns (code: Code)
      requires Linked() && CanReceive(st, caller, src)
      requires !Sending(st, caller) ==> FirstAcceptable(st.callers[caller], src) == |st.callers[caller]|
      modifies this`st, proc, nextReady, rdyHead, rdyTail
      ensures Linked()
      ensures (code, st) == IpcSpec.BlockOrRefuse(old(st), caller, src, nonBlocking)
    {
      if nonBlocking {
        return ENOTREADY;
      }
      if src.Slot? { ReceiveNeverExcused(st, caller, src.n); }
      var group := Deadlock(RECEIVE, caller, src);
      if group != 0 {
        return ELOCKED;
      }
      Put(caller, proc[caller].(getFrom := src));
      RtsSet(caller, {RECEIVING});
      return OK;
    }

    // ----- mini_notify -----

    method MiniNotify(from: nat, e: Endpoint) returns (code: Code)
      requires Valid() && ReadyInv(st) && from < proc.Length
      modifies this`st, proc, nextReady, rdyHead, rdyTail
      ensures Valid() && (code, st) == IpcSpec.MiniNotify(old(st), from, e)
    {
      if !(e.Slot? && e.n < proc.Length && !IsEmpty(proc[e.n])) {
        return EDEADSRCDST;
      }
      var dst := e.n;
      NotifySenders(st, from, dst);
      if WillReceive(proc[dst], from) && !proc[dst].replyPend {
        var v := proc[dst].(delivermsg := Some(Notice(from)));
        SlotKeeps(st, dst, v);
        Put(dst, v);
        RtsUnset(dst, {RECEIVING});
        return OK;
      }
      Put(dst, proc[dst].(notify := proc[dst].notify + {from}));
      return OK;
    }

    // ----- do_sync_ipc -----

    method CheckCall(call: Call, e: Endpoint) returns (code: Code)
      requires Linked()
      ensures code == Checked(st, call, e)
    {
      if e == ANY {
        if call != RECEIVE {
          return EINVAL;
        }
      } else {
        if !(e.Slot? && e.n < proc.Length && !IsEmpty(proc[e.n])) {
          return EDEADSRCDST;
        }
        if call != RECEIVE && e.n !in proc[procPtr].sendMask {
          return ECALLDENIED;
        }
      }
      if call !in proc[procPtr].trapMask {
        return ETRAPDENIED;
      }
      if call != SENDREC && call != RECEIVE && e.n < NR_TASKS {
        return ETRAPDENIED;
      }
      return OK;
    }

    method DoSyncIpc(call: Call, e: Endpoint, m: Body, copyOk: bool) returns (code: Code)
      requires Valid() && MayTrap(st)
      modifies this`st, proc, nextReady, rdyHead, rdyTail, callerQ, qLink
      ensures Valid() && (code, st) == IpcSpec.DoSyncIpc(old(st), call, e, m, copyOk)
    {
      code := CheckCall(call, e);
      if code != OK {
        return;
      }
      match call {
        case SEND => code := TrapSend(e.n, m, false, copyOk);
        case SENDNB => code := TrapSend(e.n, m, true, copyOk);
        case NOTIFY => code := MiniNotify(procPtr, e);
        case RECEIVE => code := TrapReceive(e);
        case SENDREC => code := Sendrec(e, m, copyOk);
      }
    }

    method TrapSend(dst: nat, m: Body, nonBlocking: bool, copyOk: bool) returns (code: Code)
      requires Valid() && MayTrap(st) && dst < proc.Length && !IsEmpty(proc[dst])
      modifies this`st, proc, nextReady, rdyHead, rdyTail, callerQ, qLink
      ensures Valid() && (code, st) == IpcSpec.MiniSend(old(st), old(st).cur, dst, m, nonBlocking, copyOk)
    {
      TrapCanSend(st, dst);
      code := MiniSend(procPtr, dst, m, nonBlocking, copyOk);
    }

    method TrapReceive(e: Endpoint) returns (code: Code)
      requires Valid() && MayTrap(st) && Checked(st, RECEIVE, e) == OK
      modifies this`st, proc, nextReady, rdyHead, rdyTail, callerQ, qLink
      ensures Valid() && (code, st) == TrapReceived(old(st), e)
    {
      TrapCanReceive(st, e);
      SetReplyPend(false);
      code := MiniReceive(procPtr, e, false);
    }

    // The fall-through of SENDREC: reply pending, then send, then receive if that went well.
    method Sendrec(e: Endpoint, m: Body, copyOk: bool) returns (code: Code)
      requires Valid() && MayTrap(st) && Checked(st, SENDREC, e) == OK
      modifies this`st, proc, nextReady, rdyHead, rdyTail, callerQ, qLink
      ensures Valid()
      ensures var (r, t) := IpcSpec.MiniSend(ReplyPending(old(st)), old(st).cur, e.n, m, false, copyOk);
              if r != OK then (code, st) == (r, t)
              else CanReceive(t, old(st).cur, e) && (code, st) == IpcSpec.MiniReceive(t, old(st).cur, e, false)
    {
      code := SendHalf(e, m, copyOk);
      if code == OK {
        code := MiniReceive(procPtr, e, false);
      }
    }

    method SendHalf(e: Endpoint, m: Body, copyOk: bool) returns (code: Code)
      requires Valid() && MayTrap(st) && Checked(st, SENDREC, e) == OK
      modifies this`st, proc, nextReady, rdyHead, rdyTail, callerQ, qLink
      ensures Valid() && procPtr == old(procPtr)
              && (code, st) == IpcSpec.MiniSend(ReplyPending(old(st)), old(st).cur, e.n, m, false, copyOk)
      ensures code == OK ==> CanReceive(st, old(st).cur, e)
    {
      SendrecCan(st, e, m, copyOk);
      SetReplyPend(true);
      code := MiniSend(procPtr, e.n, m, false, copyOk);
    }

    // MF_REPLY_PEND of the current process.
    method SetReplyPend(pending: bool)
      requires Valid()
      modifies this`st, proc
      ensures Valid() && procPtr == old(procPtr)
      ensures st == With(old(st), old(st).cur, old(st).procs[old(st).cur].(replyPend := pending))
    {
      Put(procPtr, proc[procPtr].(replyPend := pending));
    }

    // ----- proc_no_time, for the current process -----

    method ProcNoTime() returns (code: Code)
      requires Valid() && KernelInv(st) && Runnable(proc[procPtr])
      modifies this`st, proc, nextReady, rdyHead, rdyTail, callerQ, qLink
      ensures Valid() && (code, st) == NoTime(old(st))
    {
      if !KernelScheduled(proc[procPtr], procPtr) && proc[procPtr].preemptible {
        code := NotifyScheduler();
      } else {
        Replenish();
        code := OK;
      }
    }

    // A process that the kernel schedules itself gets a new quantum.
    method Replenish()
      requires Valid()
      modifies this`st, proc
      ensures Valid() && st ==
              With(old(st), old(st).cur, old(st).procs[old(st).cur].(timeLeft := old(st).procs[old(st).cur].quantum))
    {
      Put(procPtr, proc[procPtr].(timeLeft := proc[procPtr].quantum));
    }

    // notify_scheduler: take the process off the run queues, then send in its name.
    method NotifyScheduler() returns (code: Code)
      requires Valid() && KernelInv(st) && Runnable(proc[procPtr]) && !KernelScheduled(proc[procPtr], procPtr)
      modifies this`st, proc, nextReady, rdyHead, rdyTail, callerQ, qLink
      ensures Valid() && old(st).procs[old(st).cur].scheduler.value < |old(st).procs|
      ensures (code, st) == IpcSpec.MiniSend(ReadyQueues.RtsSet(old(st), old(st).cur, {NO_QUANTUM}), old(st).cur,
                                             old(st).procs[old(st).cur].scheduler.value, NoQuantum, false, true)
    {
      QuantumCanSend(st);
      RtsSet(procPtr, {NO_QUANTUM});
      code := MiniSend(procPtr, proc[procPtr].scheduler.value, NoQuantum, false, true);
    }

    // ----- clear_endpoint -----

    // clear_ipc. The link of the slot taken off is left as it is.
    method ClearIpc(rc: nat)
      requires Linked() && rc < proc.Length
      requires SENDING in proc[rc].flags ==> proc[rc].sendTo.Slot? && proc[rc].sendTo.n < proc.Length
      modifies this`st, proc, callerQ, qLink
      ensures Linked() && st == ProcessExit.ClearIpc(old(st), rc)
    {
      if SENDING in proc[rc].flags {
        UnqueueSender(proc[rc].sendTo.n, rc);
      }
      Put(rc, proc[rc].(flags := proc[rc].flags - {SENDING} - {RECEIVING}));
    }

    method UnqueueSender(target: nat, rc: nat)
      requires Linked() && target < proc.Length
      modifies this`st, callerQ, qLink
      ensures Linked() && st == old(st).(callers := old(st).callers[target := Remove(old(st).callers[target], rc)])
    {
      ghost var s := st;
      ghost var q, link, head := s.callers[target], qLink[..], callerQ[..];
      var prev: Link := None;
      var x := callerQ[target];
      ghost var i := 0;
      while x != None && x.value != rc
        invariant i <= |q| && x == At(q, i) && prev == (if i == 0 then None else Some(q[i - 1])) && rc !in q[..i]
        decreases |q| - i
      {
        prev := x;
        x := qLink[x.value];
        i := i + 1;
      }
      if x != None {
        CallersCut(link, head, s, target, i);
        RemoveIsSplice(q, rc, i);
        if prev == None { callerQ[target] := qLink[rc]; } else { qLink[prev.value] := qLink[rc]; }
        assert qLink[..] == CutLink(link, q, i) && callerQ[..] == head[target := CutFrom(link, head[target], q, i)];
      } else {
        assert q[..i] == q;
        assert s.callers[target := Remove(q, rc)] == s.callers;
      }
      st := s.(callers := s.callers[target := Remove(q, rc)]);
      ReadyFrame(nextReady[..], rdyHead[..], rdyTail[..], s, st);
    }

    method ClearIpcRefs(rc: nat)
      requires Linked() && ReadyInv(st) && rc < proc.Length
      modifies this`st, proc, nextReady, rdyHead, rdyTail
      ensures Linked() && st == ClearRefs(old(st), rc, 0)
    {
      ghost var t := ClearRefs(st, rc, 0);
      var rp := 0;
      while rp < proc.Length
        invariant Linked() && ReadyInv(st) && LeadsTo(st, rc, rp, t)
      {
        ClearNextRef(rp, rc, t);
        rp := rp + 1;
      }
    }

    method ClearNextRef(rp: nat, rc: nat, ghost t: State)
      requires Linked() && ReadyInv(st) && rp < proc.Length && LeadsTo(st, rc, rp, t)
      modifies this`st, proc, nextReady, rdyHead, rdyTail
      ensures Linked() && ReadyInv(st) && LeadsTo(st, rc, rp + 1, t)
    {
      if !IsEmpty(proc[rp]) {
        ClearOneRef(rp, rc);
      }
    }

    method ClearOneRef(rp: nat, rc: nat)
      requires Linked() && ReadyInv(st) && rp < proc.Length
      modifies this`st, proc, nextReady, rdyHead, rdyTail
      ensures Linked() && ReadyInv(st) && st == ClearRef(old(st), rc, rp)
    {
      ClearRefScheduled(st, rc, rp);
      SlotKeeps(st, rp, proc[rp].(notify := proc[rp].notify - {rc}));
      var blocked := BlockedOn(proc[rp]) == Slot(rc);
      Put(rp, proc[rp].(notify := proc[rp].notify - {rc}));
      if blocked {
        RtsUnset(rp, {RECEIVING, SENDING});
      }
    }

    // Linked, but not Valid, afterwards: whoever was queued on rc is unblocked yet still linked.
    method ClearEndpoint(rc: nat)
      requires Linked() && ReadyInv(st) && rc < proc.Length
      requires SENDING in proc[rc].flags ==> proc[rc].sendTo.Slot? && proc[rc].sendTo.n < proc.Length
      modifies this`st, proc, nextReady, rdyHead, rdyTail, callerQ, qLink
      ensures Linked() && st == ProcessExit.ClearEndpoint(old(st), rc)
    {
      ExitReady(st, rc);
      RtsSet(rc, {NO_ENDPOINT});
      ClearIpc(rc);
      ClearIpcRefs(rc);
    }

    // Only the history changed: the tables show the new state as well.
    lemma HistoryShown(s: State, t: State)
      requires t == s.(sends := t.sends, receipts := t.receipts, tickets := t.tickets) && |t.tickets| == |s.tickets|
      ensures ReadyShown(nextReady[..], rdyHead[..], rdyTail[..], s) ==>
              ReadyShown(nextReady[..], rdyHead[..], rdyTail[..], t)
      ensures CallersShown(qLink[..], callerQ[..], s) ==> CallersShown(qLink[..], callerQ[..], t)
    {}
  }

  // The pair exception of deadlock(): exactly one of xp and the caller would be sending.
  predicate Excused(xp: Proc, call: Call, cp: nat) {
    BlockedOn(xp) == Slot(cp) && ((SENDING in xp.flags) != (call == SEND))
  }

  // Cutting position k out of d's queue leaves its slot on no queue at all.
  lemma CutEverywhere(link: seq<Link>, head: seq<Link>, s: State, d: nat, k: nat)
    requires CallersShown(link, head, s) && d < |s.procs| && k < |s.callers[d]|
    ensures s.callers[d][k] !in Splice(s.callers[d], k)
    ensures forall e :: 0 <= e < |s.procs| && e != d ==> s.callers[d][k] !in s.callers[e]
  {}

  // The parts of the invariants that mini_receive relies on.
  ghost predicate CanReceive(s: State, c: nat, src: Endpoint) {
    && ReadyInv(s) && QueueInv(s) && BlockInv(s) && Acyclic(s.procs)
    && c < |s.procs| && src != NONE && (src.Slot? ==> src.n < |s.procs| && SLOT_FREE !in s.procs[src.n].flags)
    && (Sending(s, c) ==> src == s.procs[c].sendTo)
  }

  lemma MayReceiveCan(s: State, c: nat, src: Endpoint)
    requires KernelInv(s) && MayReceive(s, c, src)
    ensures CanReceive(s, c, src)
  {}

  lemma TakeFromUnfolded(s: State, c: nat, k: nat, s2: State)
    requires Shape(s) && c < |s.procs| && k < |s.callers[c]| && s.callers[c][k] < |s.procs|
    requires var sender := s.callers[c][k];
             s2 == ReadyQueues.RtsUnset(With(s, c,
                 s.procs[c].(delivermsg := Some(Letter(sender, s.procs[sender].sendmsg)))), sender, {SENDING})
    ensures TakeFrom(s, c, k) ==
            With(s2.(callers := s2.callers[c := Splice(s2.callers[c], k)]), c,
                s2.procs[c].(replyPend := false)).(receipts := TakeFrom(s, c, k).receipts)
  {}

  // Does a queued message get taken, no notification being there?
  predicate TakesQueued(s: State, c: nat, src: Endpoint)
    requires Shape(s) && c < |s.procs| && (src.Slot? ==> src.n < |s.procs|)
  {
    && (src.Slot? ==> NO_ENDPOINT !in s.procs[src.n].flags)
    && SENDING !in s.procs[c].flags
    && Note(s, c, src) == None
    && FirstAcceptable(s.callers[c], src) < |s.callers[c]|
  }

  lemma SenderIsOther(s: State, c: nat, k: nat)
    requires QueueInv(s) && c < |s.procs| && k < |s.callers[c]| && !Sending(s, c)
    ensures s.callers[c][k] != c
  {}

  // How mini_receive changes the caller-queue links: only if it takes a message from a queue,
  // and then only within that queue.
  ghost predicate LinksAfter(s: State, c: nat, src: Endpoint, link: seq<Link>, link': seq<Link>) {
    && Shape(s) && c < |s.procs| && (src.Slot? ==> src.n < |s.procs|) && |link| == |link'| == |s.procs|
    && if !TakesQueued(s, c, src) then link' == link
       else
         var q := s.callers[c];
         var x := q[FirstAcceptable(q, src)];
         && x < |s.procs| && link'[x] == None
         && forall p :: 0 <= p < |s.procs| && p !in q ==> link'[p] == link[p]
  }

  lemma LinksUnchanged(s: State, c: nat, src: Endpoint, link: seq<Link>)
    requires Shape(s) && c < |s.procs| == |link| && (src.Slot? ==> src.n < |s.procs|) && Note(s, c, src).Some?
    ensures LinksAfter(s, c, src, link, link) && !TakesQueued(s, c, src)
  {}

  lemma LinksOfQueued(s: State, c: nat, src: Endpoint, link: seq<Link>, link': seq<Link>)
    requires Shape(s) && c < |s.procs| == |link| == |link'|
    requires (src.Slot? ==> src.n < |s.procs| && NO_ENDPOINT !in s.procs[src.n].flags)
    requires Note(s, c, src) == None && !Sending(s, c)
    requires var q := s.callers[c];
             var k := FirstAcceptable(q, src);
             if k < |q| then q[k] < |s.procs| && link'[q[k]] == None && forall p :: 0 <= p < |s.procs| && p !in q ==>
                 link'[p] == link[p]
             else link' == link
    ensures LinksAfter(s, c, src, link, link')
            && (TakesQueued(s, c, src) <==> FirstAcceptable(s.callers[c], src) < |s.callers[c]|)
  {}

  // Taking a queued message stops one sender sending, no other.
  lemma TakeFacts(s: State, c: nat, src: Endpoint)
    requires CanReceive(s, c, src) && TakesQueued(s, c, src)
    ensures var k := FirstAcceptable(s.callers[c], src);
            && s.callers[c][k] < |s.procs| && s.callers[c][k] != c
            && forall p :: 0 <= p < |s.procs| ==>
                (Sending(TakeFrom(s, c, k), p) <==> Sending(s, p) && p != s.callers[c][k])
  {
    var k := FirstAcceptable(s.callers[c], src);
    SenderIsOther(s, c, k);
    TakeFromSame(s, c, k);
  }

  // Every other outcome of mini_receive leaves alone who is sending.
  lemma ReceiveSenders(s: State, c: nat, src: Endpoint, nonBlocking: bool)
    requires CanReceive(s, c, src) && !TakesQueued(s, c, src)
    ensures forall p :: 0 <= p < |s.procs| ==>
            (Sending(IpcSpec.MiniReceive(s, c, src, nonBlocking).1, p) <==> Sending(s, p))
  {
    BlockedSenders(s, c, src);
  }

  lemma BlockedSenders(s: State, c: nat, src: Endpoint)
    requires ReadyInv(s) && c < |s.procs|
    ensures forall p :: 0 <= p < |s.procs| ==> (Sending(BlockReceiving(s, c, src), p) <==> Sending(s, p))
  {}

  lemma ReceiveUnlinked(s: State, c: nat, src: Endpoint, nonBlocking: bool, link: seq<Link>, link': seq<Link>)
    requires CanReceive(s, c, src) && LinksAfter(s, c, src, link, link')
    requires forall p :: 0 <= p < |s.procs| && !Sending(s, p) ==> link[p] == None
    ensures var t := IpcSpec.MiniReceive(s, c, src, nonBlocking).1;
            forall p :: 0 <= p < |t.procs| && !Sending(t, p) ==> link'[p] == None
  {
    if TakesQueued(s, c, src) {
      TakeFacts(s, c, src);
      NotQueued(s, c);
      var k := FirstAcceptable(s.callers[c], src);
      assert IpcSpec.MiniReceive(s, c, src, nonBlocking).1 == TakeFrom(s, c, k);
    } else {
      ReceiveSenders(s, c, src, nonBlocking);
    }
  }

  // The parts of the invariants that mini_send relies on.
  ghost predicate CanSend(s: State, c: nat, d: nat) {
    && ReadyInv(s) && QueueInv(s) && BlockInv(s) && Acyclic(s.procs)
    && c < |s.procs| && d < |s.procs| && !Sending(s, c) && Live(s.procs[c]) && SLOT_FREE !in s.procs[d].flags
  }

  lemma MaySendCan(s: State, c: nat, d: nat)
    requires MaySend(s, c, d)
    ensures CanSend(s, c, d)
  {}

  lemma SendersStay(s: State, c: nat, d: nat, m: Body, nonBlocking: bool, copyOk: bool)
    requires CanSend(s, c, d)
    ensures var t := IpcSpec.MiniSend(s, c, d, m, nonBlocking, copyOk).1;
            forall p :: 0 <= p < |s.procs| && Sending(s, p) ==> Sending(t, p)
  {
    HandOverSenders(s, c, d, m);
    ParkSenders(s, c, d, m);
  }

  lemma HandOverSenders(s: State, c: nat, d: nat, m: Body)
    requires ReadyInv(s) && c < |s.procs| && d < |s.procs|
    ensures forall p :: 0 <= p < |s.procs| && Sending(s, p) ==> Sending(HandOver(s, c, d, m), p)
  {}

  lemma ParkSenders(s: State, c: nat, d: nat, m: Body)
    requires ReadyInv(s) && c < |s.procs| && d < |s.procs| && SLOT_FREE !in s.procs[c].flags
    ensures forall p :: 0 <= p < |s.procs| && Sending(s, p) ==> Sending(Park(s, c, d, m), p)
  {}

  // Links were written only inside one caller queue, and its members are sending.
  lemma StaysUnlinked(s: State, t: State, link: seq<Link>, link': seq<Link>, d: nat)
    requires QueueInv(s) && d < |s.procs| && |link| == |link'| == |t.procs| == |s.procs|
    requires forall p :: 0 <= p < |s.procs| && !Sending(s, p) ==> link[p] == None
    requires forall p :: 0 <= p < |s.procs| && p !in s.callers[d] ==> link'[p] == link[p]
    requires forall p :: 0 <= p < |s.procs| && Sending(s, p) ==> Sending(t, p)
    ensures forall p :: 0 <= p < |t.procs| && !Sending(t, p) ==> link'[p] == None
  {}

  lemma NotQueued(s: State, c: nat)
    requires QueueInv(s) && c < |s.procs|
    ensures !Sending(s, c) ==> forall d :: 0 <= d < |s.procs| ==> c !in s.callers[d]
    ensures forall d, p :: 0 <= d < |s.procs| && p in s.callers[d] ==> p < |s.procs| && Sending(s, p)
  {}

  // At the two places that call deadlock(), the exception never applies: mini_send would have
  // delivered, mini_receive would have taken the message.
  lemma SendNeverExcused(s: State, c: nat, d: nat)
    requires d < |s.procs| && !WillReceive(s.procs[d], c)
    ensures !Excused(s.procs[d], SEND, c)
  {}

  lemma ReceiveNeverExcused(s: State, c: nat, d: nat)
    requires QueueInv(s) && Acyclic(s.procs) && c < |s.procs| && d < |s.procs|
    requires if Sending(s, c) then s.procs[c].sendTo == Slot(d)
             else FirstAcceptable(s.callers[c], Slot(d)) == |s.callers[c]|
    ensures !Excused(s.procs[d], RECEIVE, c)
  {}

  // A chain that ended without meeting c never meets it.
  lemma ChainEnds(procs: seq<Proc>, x: nat, k: nat, c: nat)
    requires Follow(procs, x, k + 1) == None
    requires forall j: nat :: 0 < j <= k ==> Follow(procs, x, j) != Some(c)
    ensures !Reaches(procs, x, c)
  {
    forall j: nat | j > k ensures Follow(procs, x, j) == None {
      var i := k + 1;
      while i < j
        invariant k < i <= j && Follow(procs, x, i) == None
      {
        FollowStep(procs, x, i);
        i := i + 1;
      }
    }
  }

  lemma NotReady(s: State, p: nat)
    requires ReadyInv(s) && p < |s.procs|
    ensures !Runnable(s.procs[p]) ==> forall q :: 0 <= q < NR_SCHED_QUEUES ==> p !in s.ready[q]
  {}

  lemma NotifySenders(s: State, from: nat, d: nat)
    requires ReadyInv(s) && d < |s.procs| && !IsEmpty(s.procs[d])
    ensures forall p :: 0 <= p < |s.procs| ==> (Sending(IpcSpec.MiniNotify(s, from, Slot(d)).1, p) <==> Sending(s, p))
  {
    if WillReceive(s.procs[d], from) && !s.procs[d].replyPend {
      var v := s.procs[d].(delivermsg := Some(Notice(from)));
      SlotKeeps(s, d, v);
      WokenSenders(s, d, v);
    }
  }

  lemma WokenSenders(s: State, d: nat, v: Proc)
    requires ReadyInv(s) && d < |s.procs| && v.flags == s.procs[d].flags && ReadyInv(With(s, d, v))
    ensures var t := ReadyQueues.RtsUnset(With(s, d, v), d, {RECEIVING});
            forall p :: 0 <= p < |s.procs| ==> (Sending(t, p) <==> Sending(s, p))
  {}

  lemma TrapCanSend(s: State, d: nat)
    requires MayTrap(s) && d < |s.procs| && !IsEmpty(s.procs[d])
    ensures CanSend(s, s.cur, d)
  {}

  lemma TrapCanReceive(s: State, e: Endpoint)
    requires MayTrap(s) && Checked(s, RECEIVE, e) == OK
    ensures CanReceive(With(s, s.cur, s.procs[s.cur].(replyPend := false)), s.cur, e)
  {
    SetSlot(s, s.cur, s.procs[s.cur].(replyPend := false));
  }

  ghost function TrapReceived(s: State, e: Endpoint): (Code, State)
    requires Shape(s) && CallersInTable(s) && (e == ANY || (e.Slot? && e.n < |s.procs|))
  {
    IpcSpec.MiniReceive(With(s, s.cur, s.procs[s.cur].(replyPend := false)), s.cur, e, false)
  }

  lemma SendrecCan(s: State, e: Endpoint, m: Body, copyOk: bool)
    requires MayTrap(s) && Checked(s, SENDREC, e) == OK
    ensures CanSend(ReplyPending(s), s.cur, e.n)
    ensures var (r, t) := IpcSpec.MiniSend(ReplyPending(s), s.cur, e.n, m, false, copyOk);
            r == OK ==> CanReceive(t, s.cur, e)
  {
    SendrecMaySend(s, e.n);
    MaySendCan(ReplyPending(s), s.cur, e.n);
    SendrecKeeps(s, e.n, m, copyOk);
    var (r, t) := IpcSpec.MiniSend(ReplyPending(s), s.cur, e.n, m, false, copyOk);
    if r == OK { MayReceiveCan(t, s.cur, e); }
  }

  lemma QuantumCanSend(s: State)
    requires KernelInv(s) && Runnable(s.procs[s.cur])
    ensures !KernelScheduled(s.procs[s.cur], s.cur) ==>
              && CanSend(ReadyQueues.RtsSet(s, s.cur, {NO_QUANTUM}), s.cur, s.procs[s.cur].scheduler.value)
              && forall p :: 0 <= p < |s.procs| ==>
                  (Sending(ReadyQueues.RtsSet(s, s.cur, {NO_QUANTUM}), p) <==> Sending(s, p))
  {
    if !KernelScheduled(s.procs[s.cur], s.cur) {
      SetForeign(s, s.cur, NO_QUANTUM);
      QuantumMaySend(s, ReadyQueues.RtsSet(s, s.cur, {NO_QUANTUM}));
      MaySendCan(ReadyQueues.RtsSet(s, s.cur, {NO_QUANTUM}), s.cur, s.procs[s.cur].scheduler.value);
    }
  }

  lemma ExitReady(s: State, rc: nat)
    requires ReadyInv(s) && rc < |s.procs|
    ensures var s1 := ReadyQueues.RtsSet(s, rc, {NO_ENDPOINT});
            && s1.procs[rc] == s.procs[rc].(flags := s.procs[rc].flags + {NO_ENDPOINT})
            && ReadyInv(ProcessExit.ClearIpc(s1, rc))
  {
    RtsSetKeeps(s, rc, {NO_ENDPOINT});
    ClearIpcKeeps(ReadyQueues.RtsSet(s, rc, {NO_ENDPOINT}), rc);
  }

  ghost predicate LeadsTo(s: State, rc: nat, p: nat, t: State) {
    Shape(s) && p <= |s.procs| && ClearRefs(s, rc, p) == t
  }
}
