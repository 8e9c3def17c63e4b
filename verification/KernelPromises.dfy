// What a process can rely on over steps and runs of the kernel: who can reach it, what a SENDREC
// waits for, who may send to whom.
module KernelPromises {
  import opened Prelude
  import opened KernelState
  import opened ReadyQueues
  import opened WaitGraph
  import opened IpcSpec
  import opened IpcInvariants
  import opened IpcRuns
  import opened IpcMeaning
  import opened KernelRuns

  // ----- a process that is blocked receiving -----

  // It stays as it is, but for notifications that are kept for it ...
  ghost predicate StillBlocked(s: State, t: State, p: nat) {
    && p < |s.procs| == |t.procs|
    && RECEIVING in t.procs[p].flags && t.procs[p].getFrom == s.procs[p].getFrom
    && t.procs[p].replyPend == s.procs[p].replyPend && t.procs[p].delivermsg == s.procs[p].delivermsg
    && s.procs[p].notify <= t.procs[p].notify
  }

  // ... or gets something from a source that it waits for; a notification only if it does not wait
  // for a reply.
  ghost predicate Answered(s: State, t: State, p: nat) {
    && p < |s.procs| == |t.procs|
    && RECEIVING !in t.procs[p].flags && t.procs[p].delivermsg.Some?
    && Expects(s.procs[p], t.procs[p].delivermsg.value.source)
    && (t.procs[p].delivermsg.value.Notice? ==> !s.procs[p].replyPend)
    && !t.procs[p].replyPend && t.procs[p].notify == s.procs[p].notify
  }

  ghost predicate Waited(s: State, t: State, p: nat) { StillBlocked(s, t, p) || Answered(s, t, p) }

  lemma WaitedBare(s: State, t: State, p: nat)
    requires p < |s.procs| == |t.procs| && RECEIVING in s.procs[p].flags
    requires || Bare(t.procs[p]) == Bare(s.procs[p])
             || Bare(t.procs[p]) == Bare(s.procs[p].(flags := s.procs[p].flags - {SENDING}))
    ensures Waited(s, t, p)
  {
    assert RECEIVING in Bare(t.procs[p]).flags;
  }

  lemma SendWaited(s: State, c: nat, d: nat, m: Body, nonBlocking: bool, copyOk: bool, p: nat)
    requires MaySend(s, c, d) && p < |s.procs| && RECEIVING in s.procs[p].flags
    ensures Waited(s, MiniSend(s, c, d, m, nonBlocking, copyOk).1, p)
  {
    var (code, t) := MiniSend(s, c, d, m, nonBlocking, copyOk);
    SendMeaning(s, c, d, m, nonBlocking, copyOk);
    if p == d && code == OK && Expects(s.procs[d], c) {
      assert RECEIVING !in Bare(t.procs[d]).flags;
    } else {
      WaitedBare(s, t, p);
    }
  }

  lemma NotifyWaited(s: State, from: nat, e: Endpoint, p: nat)
    requires ReadyInv(s) && p < |s.procs| && RECEIVING in s.procs[p].flags
    ensures Waited(s, MiniNotify(s, from, e).1, p)
  {
    var (code, t) := MiniNotify(s, from, e);
    NotifyMeaning(s, from, e);
    if e == Slot(p) && code == OK {
      assert RECEIVING in Bare(t.procs[p]).flags <==> !(Expects(s.procs[p], from) && !s.procs[p].replyPend);
    } else {
      WaitedBare(s, t, p);
    }
  }

  lemma ReceiveWaited(s: State, c: nat, src: Endpoint, nonBlocking: bool, p: nat)
    requires KernelInv(s) && MayReceive(s, c, src) && p < |s.procs| && RECEIVING in s.procs[p].flags
    ensures Waited(s, MiniReceive(s, c, src, nonBlocking).1, p)
  {
    ReceiveMeaning(s, c, src, nonBlocking);
    WaitedBare(s, MiniReceive(s, c, src, nonBlocking).1, p);
  }

  lemma SendrecWaited(s: State, d: nat, m: Body, copyOk: bool, p: nat)
    requires MayTrap(s) && Checked(s, SENDREC, Slot(d)) == OK && p < |s.procs| && RECEIVING in s.procs[p].flags
    ensures Waited(s, DoSyncIpc(s, SENDREC, Slot(d), m, copyOk).1, p)
  {
    var (code, t) := DoSyncIpc(s, SENDREC, Slot(d), m, copyOk);
    SendrecMeaning(s, d, m, copyOk);
    if p == d && code == OK && Expects(s.procs[d], s.cur) {
      assert RECEIVING !in Bare(t.procs[d]).flags;
    } else {
      WaitedBare(s, t, p);
    }
  }

  lemma TrapWaited(s: State, call: Call, e: Endpoint, m: Body, copyOk: bool, p: nat)
    requires MayTrap(s) && !SelfReceive(s, call, e) && p < |s.procs| && RECEIVING in s.procs[p].flags
    ensures Waited(s, DoSyncIpc(s, call, e, m, copyOk).1, p)
  {
    if Checked(s, call, e) == OK {
      match call
      case SEND => SendWaited(s, s.cur, e.n, m, false, copyOk, p);
      case SENDNB => SendWaited(s, s.cur, e.n, m, true, copyOk, p);
      case NOTIFY => NotifyWaited(s, s.cur, e, p);
      case RECEIVE =>
        var s0 := With(s, s.cur, s.procs[s.cur].(replyPend := false));
        ReceiveTrapStart(s, e, s0);
        ReceiveWaited(s0, s.cur, e, false, p);
        assert s0.procs[p] == s.procs[p];
      case SENDREC => SendrecWaited(s, e.n, m, copyOk, p);
    } else {
      WaitedBare(s, s, p);
    }
  }

  // The steps that only concern scheduling.
  predicate Schedules(step: Step) { step.Switch? || step.Schedule? || step.Stop? || step.Resume? || step.Spend? }

  lemma SchedulesSame(s: State, step: Step)
    requires KernelInv(s) && Enabled(s, step) && Schedules(step)
    ensures IpcSame(s, Next(s, step))
  {
    match step
    case Switch(idle) => SwitchSame(s, idle);
    case Schedule(p, priority, quantum) =>
      if 0 <= priority < NR_SCHED_QUEUES && quantum > 0 { RescheduleSame(s, p, priority, quantum); }
    case Stop(p, f) =>
      SetForeignReady(s, p, f);
      SetForeignSame(s, p, f, RtsSet(s, p, {f}));
    case Resume(p, f) =>
      UnsetOnly(s, p, {f});
      UnsetForeignSame(s, p, f, RtsUnset(s, p, {f}));
    case Spend(left) =>
  }

  // The process off the queues, before the out-of-quantum message.
  lemma QuantumStart(s: State) returns (s1: State)
    requires KernelInv(s) && Runnable(s.procs[s.cur])
    requires !KernelScheduled(s.procs[s.cur], s.cur) && s.procs[s.cur].preemptible
    ensures s1.procs == s.procs[s.cur := s.procs[s.cur].(flags := s.procs[s.cur].flags + {NO_QUANTUM})]
    ensures s.procs[s.cur].scheduler.value < |s.procs| && MaySend(s1, s.cur, s.procs[s.cur].scheduler.value)
    ensures NoTime(s) == MiniSend(s1, s.cur, s.procs[s.cur].scheduler.value, NoQuantum, false, true)
  {
    s1 := RtsSet(s, s.cur, {NO_QUANTUM});
    SetForeign(s, s.cur, NO_QUANTUM);
    QuantumMaySend(s, s1);
  }

  lemma ExpireWaited(s: State, p: nat)
    requires KernelInv(s) && Enabled(s, Expire) && p < |s.procs| && RECEIVING in s.procs[p].flags
    ensures Waited(s, NoTime(s).1, p)
  {
    var c, q := s.cur, s.procs[s.cur];
    if !KernelScheduled(q, c) && q.preemptible {
      var s1 := QuantumStart(s);
      SendWaited(s1, c, q.scheduler.value, NoQuantum, false, true, p);
      assert s1.procs[p] == s.procs[p];
    } else {
      WaitedBare(s, NoTime(s).1, p);
    }
  }

  // In every step a process that is blocked receiving either stays so, or gets a message or a
  // notification from a source that it accepts.
  lemma StepWaited(s: State, step: Step, p: nat)
    requires KernelInv(s) && Enabled(s, step) && p < |s.procs| && RECEIVING in s.procs[p].flags
    ensures Waited(s, Next(s, step), p)
  {
    match step
    case Trap(call, e, m, copyOk) => TrapWaited(s, call, e, m, copyOk, p);
    case Notify(from, to) => NotifyWaited(s, from, to, p);
    case Expire => ExpireWaited(s, p);
    case Consume =>
    case _ => SchedulesSame(s, step);
  }

  // ----- a process that is not -----

  lemma BareSlot(s: State, t: State, p: nat)
    requires p < |s.procs| == |t.procs| && Bare(t.procs[p]) == Bare(s.procs[p])
    ensures t.procs[p].delivermsg == s.procs[p].delivermsg
  {}

  lemma SendFree(s: State, c: nat, d: nat, m: Body, nonBlocking: bool, copyOk: bool, p: nat)
    requires MaySend(s, c, d) && p < |s.procs| && RECEIVING !in s.procs[p].flags
    ensures var t := MiniSend(s, c, d, m, nonBlocking, copyOk).1;
            |t.procs| == |s.procs| && t.procs[p].delivermsg == s.procs[p].delivermsg
  {
    var (code, t) := MiniSend(s, c, d, m, nonBlocking, copyOk);
    SendMeaning(s, c, d, m, nonBlocking, copyOk);
    if code == OK && Expects(s.procs[d], c) { BareSlot(s, t, p); }
  }

  lemma NotifyFree(s: State, from: nat, e: Endpoint, p: nat)
    requires ReadyInv(s) && p < |s.procs| && RECEIVING !in s.procs[p].flags
    ensures var t := MiniNotify(s, from, e).1;
            |t.procs| == |s.procs| && t.procs[p].delivermsg == s.procs[p].delivermsg
  {
    var (code, t) := MiniNotify(s, from, e);
    NotifyMeaning(s, from, e);
    if code == OK && e != Slot(p) {
      BareSlot(s, t, p);
    } else if code == OK {
      BareSlot(With(s, p, s.procs[p].(notify := s.procs[p].notify + {from})), t, p);
    }
  }

  // What a receive puts into the caller's slot comes from a source that it named.
  lemma ReceiveFree(s: State, c: nat, src: Endpoint, nonBlocking: bool, p: nat)
    requires KernelInv(s) && MayReceive(s, c, src) && p < |s.procs|
    ensures var t := MiniReceive(s, c, src, nonBlocking).1;
            && |t.procs| == |s.procs|
            && (p != c || t.procs[p].delivermsg == None ==> t.procs[p].delivermsg == s.procs[p].delivermsg)
            && (t.procs[c].delivermsg.Some? ==> src == ANY || src == Slot(t.procs[c].delivermsg.value.source))
  {
    var (code, t) := MiniReceive(s, c, src, nonBlocking);
    ReceiveMeaning(s, c, src, nonBlocking);
    if code == OK { ReceivesFree(s, t, c, src, p); }
  }

  lemma ReceivesFree(s: State, t: State, c: nat, src: Endpoint, p: nat)
    requires c < |s.procs| == |s.callers| && p < |s.procs| && s.procs[c].delivermsg == None && Receives(s, t, c, src)
    ensures |t.procs| == |s.procs|
    ensures p != c || t.procs[p].delivermsg == None ==> t.procs[p].delivermsg == s.procs[p].delivermsg
    ensures t.procs[c].delivermsg.Some? ==> src == ANY || src == Slot(t.procs[c].delivermsg.value.source)
  {
    if HasMail(s, c, src) && !HasNote(s, c, src) {
      var x: nat :| LongestWaiting(s, c, src, x) && TookMail(s, t, c, x);
      TakenSlots(s, t, c, x, p);
    }
  }

  lemma TakenSlots(s: State, t: State, c: nat, x: nat, p: nat)
    requires c < |s.procs| && x < |s.procs| && c < |s.callers| && p < |s.procs| && TookMail(s, t, c, x)
    ensures p != c ==> t.procs[p].delivermsg == s.procs[p].delivermsg
    ensures t.procs[c].delivermsg == Some(Letter(x, s.procs[x].sendmsg))
  {
    assert Bare(t.procs[c]).delivermsg == Some(Letter(x, s.procs[x].sendmsg));
    if p == x {
      BareSlot(With(s, x, s.procs[x].(flags := s.procs[x].flags - {SENDING})), t, x);
    } else if p != c {
      BareSlot(s, t, p);
    }
  }

  lemma SendrecFree(s: State, d: nat, m: Body, copyOk: bool, p: nat)
    requires MayTrap(s) && Checked(s, SENDREC, Slot(d)) == OK && p < |s.procs| && RECEIVING !in s.procs[p].flags
    ensures var t := DoSyncIpc(s, SENDREC, Slot(d), m, copyOk).1;
            |t.procs| == |s.procs| && t.procs[p].delivermsg == s.procs[p].delivermsg
  {
    var (code, t) := DoSyncIpc(s, SENDREC, Slot(d), m, copyOk);
    SendrecMeaning(s, d, m, copyOk);
    if code == OK && p != s.cur { BareSlot(s, t, p); }
  }

  // What the current process asked for, if it is a receive.
  predicate Asks(step: Step, src: nat) {
    step.Trap? && step.call == RECEIVE && (step.e == ANY || step.e == Slot(src))
  }

  lemma TrapFree(s: State, step: Step, p: nat)
    requires KernelInv(s) && Enabled(s, step) && step.Trap? && p < |s.procs| && RECEIVING !in s.procs[p].flags
    ensures var t := Next(s, step);
            && |t.procs| == |s.procs|
            && (t.procs[p].delivermsg == s.procs[p].delivermsg
                || (p == s.cur && t.procs[p].delivermsg.Some? && Asks(step, t.procs[p].delivermsg.value.source)))
  {
    var Trap(call, e, m, copyOk) := step;
    if Checked(s, call, e) == OK {
      match call
      case SEND => SendFree(s, s.cur, e.n, m, false, copyOk, p);
      case SENDNB => SendFree(s, s.cur, e.n, m, true, copyOk, p);
      case NOTIFY => NotifyFree(s, s.cur, e, p);
      case RECEIVE =>
        var s0 := With(s, s.cur, s.procs[s.cur].(replyPend := false));
        ReceiveTrapStart(s, e, s0);
        ReceiveFree(s0, s.cur, e, false, p);
      case SENDREC => SendrecFree(s, e.n, m, copyOk, p);
    }
  }

  lemma ExpireFree(s: State, p: nat)
    requires KernelInv(s) && Enabled(s, Expire) && p < |s.procs| && RECEIVING !in s.procs[p].flags
    ensures |NoTime(s).1.procs| == |s.procs| && NoTime(s).1.procs[p].delivermsg == s.procs[p].delivermsg
  {
    var c, q := s.cur, s.procs[s.cur];
    if !KernelScheduled(q, c) && q.preemptible {
      var s1 := QuantumStart(s);
      SendFree(s1, c, q.scheduler.value, NoQuantum, false, true, p);
    }
  }

  lemma StepFree(s: State, step: Step, p: nat)
    requires KernelInv(s) && Enabled(s, step) && p < |s.procs| && RECEIVING !in s.procs[p].flags
    ensures var t := Next(s, step);
            && |t.procs| == |s.procs|
            && (t.procs[p].delivermsg == s.procs[p].delivermsg || t.procs[p].delivermsg == None
                || (p == s.cur && Asks(step, t.procs[p].delivermsg.value.source)))
  {
    match step
    case Trap(_, _, _, _) => TrapFree(s, step, p);
    case Notify(from, to) => NotifyFree(s, from, to, p);
    case Expire => ExpireFree(s, p);
    case Consume =>
    case _ => SchedulesSame(s, step);
  }

  // ----- who can reach whom -----

  // p gets something from src in this step because it was waiting for it, or asks for it now.
  ghost predicate Addressed(s: State, step: Step, p: nat, src: nat) {
    p < |s.procs| && if RECEIVING in s.procs[p].flags then Expects(s.procs[p], src) else p == s.cur && Asks(step, src)
  }

  // Whatever a step puts into a delivery slot, message or notification, comes from a source that the
  // process named, or from anybody if it named nobody; and so do the receipts.
  lemma StepAddressed(s: State, step: Step)
    requires KernelInv(s) && Enabled(s, step)
    ensures var t := Next(s, step);
            && |t.procs| == |s.procs| && |s.receipts| <= |t.receipts|
            && (forall p :: 0 <= p < |s.procs| && t.procs[p].delivermsg.Some?
                            && t.procs[p].delivermsg != s.procs[p].delivermsg ==>
                  Addressed(s, step, p, t.procs[p].delivermsg.value.source))
            && (forall i :: |s.receipts| <= i < |t.receipts| ==>
                  Addressed(s, step, t.receipts[i].dst, t.receipts[i].letter.source))
  {
    var t := Next(s, step);
    StepKeeps(s, step);
    StepDelivers(s, step, s.cur);
    forall p | 0 <= p < |s.procs| && t.procs[p].delivermsg.Some? && t.procs[p].delivermsg != s.procs[p].delivermsg
      ensures Addressed(s, step, p, t.procs[p].delivermsg.value.source)
    {
      SlotAddressed(s, step, p);
    }
    forall i | |s.receipts| <= i < |t.receipts|
        ensures Addressed(s, step, t.receipts[i].dst, t.receipts[i].letter.source) {
      if !step.Consume? { NewReceipt(s, step, i); }
    }
  }

  lemma SlotAddressed(s: State, step: Step, p: nat)
    requires KernelInv(s) && Enabled(s, step) && p < |s.procs| == |Next(s, step).procs|
    requires Next(s, step).procs[p].delivermsg.Some? && Next(s, step).procs[p].delivermsg != s.procs[p].delivermsg
    ensures Addressed(s, step, p, Next(s, step).procs[p].delivermsg.value.source)
  {
    if RECEIVING in s.procs[p].flags { StepWaited(s, step, p); } else { StepFree(s, step, p); }
  }

  lemma NewReceipt(s: State, step: Step, i: nat)
    requires KernelInv(s) && Enabled(s, step) && !step.Consume?
    requires KernelInv(Next(s, step)) && |s.receipts| <= i < |Next(s, step).receipts|
    ensures Addressed(s, step, Next(s, step).receipts[i].dst, Next(s, step).receipts[i].letter.source)
  {
    StepKeeps(s, step);
    ReceiptShown(s, Next(s, step), i);
    SlotAddressed(s, step, Next(s, step).receipts[i].dst);
  }

  // A new receipt is of what is now in the slot, which was empty.
  lemma ReceiptShown(s: State, t: State, i: nat)
    requires Recorded(s, t) && |s.receipts| <= i < |t.receipts| && t.receipts[i].dst < |s.procs|
    ensures var r := t.receipts[i];
            t.procs[r.dst].delivermsg == Some(r.letter) && s.procs[r.dst].delivermsg == None
  {
    var r, added := t.receipts[i], t.receipts[|s.receipts|..];
    ForHas(added, i - |s.receipts|);
    assert Mail(t, r.dst) == Mail(s, r.dst) + For(added, r.dst);
    OneLetter(Mail(s, r.dst), For(added, r.dst), Mail(t, r.dst), r.letter);
  }

  lemma OneLetter(a: seq<Letter>, b: seq<Letter>, c: seq<Letter>, x: Letter)
    requires c == a + b && x in b && |c| <= 1
    ensures a == [] && c == [x]
  {}

  lemma {:induction false} ForHas(receipts: seq<Receipt>, i: nat)
    requires i < |receipts|
    ensures receipts[i].letter in For(receipts, receipts[i].dst)
  {
    if i > 0 { ForHas(receipts[1..], i - 1); }
  }

  // ----- what a SENDREC waits for -----

  // However the run goes on, p stays blocked with its notifications kept for it, until it gets a
  // message, and that is from d.
  ghost predicate ReplyFirst(s: State, steps: seq<Step>, t: State, gentle: bool, p: nat, d: nat)
    requires Executes(s, steps, t, gentle)
    decreases |steps|
  {
    steps == []
    || var u := Next(s, steps[0]);
       if p < |s.procs| == |u.procs| && Awaits(u, p, d) && s.procs[p].notify <= u.procs[p].notify
       then ReplyFirst(u, steps[1..], t, gentle, p, d)
       else p < |u.procs| && u.procs[p].delivermsg.Some? && u.procs[p].delivermsg.value.Letter?
            && u.procs[p].delivermsg.value.source == d
  }

  lemma AwaitsStep(s: State, step: Step, p: nat, d: nat)
    requires KernelInv(s) && Enabled(s, step) && Awaits(s, p, d)
    ensures var t := Next(s, step);
            && |t.procs| == |s.procs|
            && if Awaits(t, p, d) then s.procs[p].notify <= t.procs[p].notify
               else t.procs[p].delivermsg.Some? && t.procs[p].delivermsg.value.Letter?
                    && t.procs[p].delivermsg.value.source == d
  {
    StepWaited(s, step, p);
  }

  lemma {:induction false} AwaitsRun(s: State, steps: seq<Step>, t: State, gentle: bool, p: nat, d: nat)
    requires KernelInv(s) && Executes(s, steps, t, gentle) && Awaits(s, p, d)
    ensures ReplyFirst(s, steps, t, gentle, p, d)
    decreases |steps|
  {
    if steps != [] {
      var u := Next(s, steps[0]);
      StepKeeps(s, steps[0]);
      AwaitsStep(s, steps[0], p, d);
      if Awaits(u, p, d) { AwaitsRun(u, steps[1..], t, gentle, p, d); }
    }
  }

  // A SENDREC that was accepted is answered by its partner, in every run: no notification and no
  // message of anybody else comes first. That is what MF_REPLY_PEND is for.
  lemma SendrecAnswered(s: State, d: nat, m: Body, copyOk: bool, steps: seq<Step>, t: State, gentle: bool)
    requires MayTrap(s) && Executes(s, [Trap(SENDREC, Slot(d), m, copyOk)] + steps, t, gentle)
    requires DoSyncIpc(s, SENDREC, Slot(d), m, copyOk).0 == OK
    ensures var u := DoSyncIpc(s, SENDREC, Slot(d), m, copyOk).1;
            && Awaits(u, s.cur, d) && u.procs[s.cur].notify == s.procs[s.cur].notify
            && Executes(u, steps, t, gentle) && ReplyFirst(u, steps, t, gentle, s.cur, d)
  {
    var step := Trap(SENDREC, Slot(d), m, copyOk);
    assert ([step] + steps)[0] == step && ([step] + steps)[1..] == steps;
    assert Checked(s, SENDREC, Slot(d)) == OK;
    SendrecMeaning(s, d, m, copyOk);
    SendrecKeepsNotes(s, d, m, DoSyncIpc(s, SENDREC, Slot(d), m, copyOk).1);
    StepKeeps(s, step);
    AwaitsRun(DoSyncIpc(s, SENDREC, Slot(d), m, copyOk).1, steps, t, gentle, s.cur, d);
  }

  lemma SendrecKeepsNotes(s: State, d: nat, m: Body, t: State)
    requires s.cur < |s.procs| && d < |s.procs| && d < |s.callers| && Sendreced(s, t, d, m)
    ensures t.procs[s.cur].notify == s.procs[s.cur].notify
  {
    if Expects(s.procs[d], s.cur) {
      assert Bare(t.procs[s.cur]).notify == s.procs[s.cur].notify;
    }
  }

  // ----- who may send to whom -----

  // What was assigned to the processes when the system was set up.
  ghost predicate Fixed(p: Proc, q: Proc) {
    q.sendMask == p.sendMask && q.trapMask == p.trapMask && q.scheduler == p.scheduler && q.preemptible == p.preemptible
  }

  ghost predicate AllFixed(s: State, t: State) {
    |t.procs| == |s.procs| && forall p :: 0 <= p < |s.procs| ==> Fixed(s.procs[p], t.procs[p])
  }

  lemma BareFixed(s: State, t: State, a: nat, b: nat, v: Proc, w: Proc)
    requires a < |s.procs| && b < |s.procs| && OnlyAt(s, t, a, b)
    requires Bare(t.procs[a]) == Bare(v) && Fixed(s.procs[a], v) && Bare(t.procs[b]) == Bare(w) && Fixed(s.procs[b], w)
    ensures AllFixed(s, t)
  {
    assert Fixed(Bare(v), v) && Fixed(Bare(w), w);
    forall p | 0 <= p < |s.procs| ensures Fixed(s.procs[p], t.procs[p]) {
      if p != a && p != b { assert Bare(t.procs[p]) == Bare(s.procs[p]); }
    }
  }

  lemma FixedTrans(s: State, t: State, u: State)
    requires AllFixed(s, t) && AllFixed(t, u)
    ensures AllFixed(s, u)
  {}

  lemma SendFixed(s: State, c: nat, d: nat, m: Body, nonBlocking: bool, copyOk: bool)
    requires MaySend(s, c, d)
    ensures AllFixed(s, MiniSend(s, c, d, m, nonBlocking, copyOk).1)
  {
    var (code, t) := MiniSend(s, c, d, m, nonBlocking, copyOk);
    SendMeaning(s, c, d, m, nonBlocking, copyOk);
    if code == OK && Expects(s.procs[d], c) {
      var v := s.procs[d].(delivermsg := Some(Letter(c, m)), replyPend := false,
                           flags := s.procs[d].flags - {RECEIVING});
      BareFixed(s, t, d, d, v, v);
    }
  }

  lemma NotifyFixed(s: State, from: nat, e: Endpoint)
    requires ReadyInv(s)
    ensures AllFixed(s, MiniNotify(s, from, e).1)
  {
    var (code, t) := MiniNotify(s, from, e);
    NotifyMeaning(s, from, e);
    if code == OK {
      var p := s.procs[e.n];
      var v := if Expects(p, from) && !p.replyPend
               then p.(delivermsg := Some(Notice(from)), flags := p.flags - {RECEIVING})
               else p.(notify := p.notify + {from});
      BareFixed(s, t, e.n, e.n, v, v);
    }
  }

  lemma ReceiveFixed(s: State, c: nat, src: Endpoint, nonBlocking: bool)
    requires KernelInv(s) && MayReceive(s, c, src)
    ensures AllFixed(s, MiniReceive(s, c, src, nonBlocking).1)
  {
    var (code, t) := MiniReceive(s, c, src, nonBlocking);
    ReceiveMeaning(s, c, src, nonBlocking);
    if code == OK { ReceivesFixed(s, t, c, src); }
  }

  lemma ReceivesFixed(s: State, t: State, c: nat, src: Endpoint)
    requires c < |s.procs| == |s.callers| && Receives(s, t, c, src)
    ensures AllFixed(s, t)
  {
    if HasMail(s, c, src) && !HasNote(s, c, src) {
      var x: nat :| LongestWaiting(s, c, src, x) && TookMail(s, t, c, x);
      BareFixed(s, t, c, x, s.procs[c].(delivermsg := Some(Letter(x, s.procs[x].sendmsg)), replyPend := false),
                s.procs[x].(flags := s.procs[x].flags - {SENDING}));
    }
  }

  lemma SendrecFixed(s: State, d: nat, m: Body, copyOk: bool)
    requires MayTrap(s) && Checked(s, SENDREC, Slot(d)) == OK
    ensures AllFixed(s, DoSyncIpc(s, SENDREC, Slot(d), m, copyOk).1)
  {
    var (code, t) := DoSyncIpc(s, SENDREC, Slot(d), m, copyOk);
    SendrecMeaning(s, d, m, copyOk);
    if code == OK && Expects(s.procs[d], s.cur) {
      BareFixed(s, t, s.cur, d,
                s.procs[s.cur].(replyPend := true, getFrom := Slot(d), flags := s.procs[s.cur].flags + {RECEIVING}),
                s.procs[d].(delivermsg := Some(Letter(s.cur, m)), replyPend := false,
                            flags := s.procs[d].flags - {RECEIVING}));
    } else if code == OK {
      BareFixed(s, t, s.cur, s.cur, t.procs[s.cur], t.procs[s.cur]);
    }
  }

  lemma TrapFixed(s: State, call: Call, e: Endpoint, m: Body, copyOk: bool)
    requires MayTrap(s) && !SelfReceive(s, call, e)
    ensures AllFixed(s, DoSyncIpc(s, call, e, m, copyOk).1)
  {
    if Checked(s, call, e) == OK {
      match call
      case SEND => SendFixed(s, s.cur, e.n, m, false, copyOk);
      case SENDNB => SendFixed(s, s.cur, e.n, m, true, copyOk);
      case NOTIFY => NotifyFixed(s, s.cur, e);
      case RECEIVE =>
        var s0 := With(s, s.cur, s.procs[s.cur].(replyPend := false));
        ReceiveTrapStart(s, e, s0);
        ReceiveFixed(s0, s.cur, e, false);
        FixedTrans(s, s0, MiniReceive(s0, s.cur, e, false).1);
      case SENDREC => SendrecFixed(s, e.n, m, copyOk);
    }
  }

  lemma ExpireFixed(s: State)
    requires KernelInv(s) && Enabled(s, Expire)
    ensures AllFixed(s, NoTime(s).1)
  {
    var q := s.procs[s.cur];
    if !KernelScheduled(q, s.cur) && q.preemptible {
      var s1 := QuantumStart(s);
      SendFixed(s1, s.cur, q.scheduler.value, NoQuantum, false, true);
      OneFixed(s, s1);
      FixedTrans(s, s1, NoTime(s).1);
    } else {
      OneFixed(s, NoTime(s).1);
    }
  }

  lemma OneFixed(s: State, t: State)
    requires s.cur < |s.procs| == |t.procs| && t.procs == s.procs[s.cur := t.procs[s.cur]]
    requires Fixed(s.procs[s.cur], t.procs[s.cur])
    ensures AllFixed(s, t)
  {}

  lemma StepFixed(s: State, step: Step)
    requires KernelInv(s) && Enabled(s, step)
    ensures AllFixed(s, Next(s, step))
  {
    match step
    case Trap(call, e, m, copyOk) => TrapFixed(s, call, e, m, copyOk);
    case Notify(from, to) => NotifyFixed(s, from, to);
    case Expire => ExpireFixed(s);
    case Consume =>
    case _ => SchedulesSame(s, step);
  }

  // src may send to dst with this call.
  ghost predicate MaySendTo(s: State, call: Call, src: nat, dst: nat) {
    && src < |s.procs| && dst in s.procs[src].sendMask && call in s.procs[src].trapMask
    && (call == SENDREC || dst >= NR_TASKS)
  }

  // A trap gets a message or a notification accepted only where the caller's masks allow it.
  lemma TrapPermitted(s: State, call: Call, e: Endpoint, m: Body, copyOk: bool)
    requires Shape(s) && CallersInTable(s) && call != RECEIVE && DoSyncIpc(s, call, e, m, copyOk).0 == OK
    ensures e.Slot? && MaySendTo(s, call, s.cur, e.n)
  {
    CheckMeaning(s, call, e);
  }

  // Each send was allowed by the masks of its sender, or told its scheduler about a quantum.
  ghost predicate Permitted(s: State, env: Envelope) {
    || (exists call :: call != RECEIVE && call != NOTIFY && MaySendTo(s, call, env.src, env.dst))
    || (env.src < |s.procs| && s.procs[env.src].scheduler == Some(env.dst) && env.dst != env.src
        && s.procs[env.src].preemptible && env.body == NoQuantum)
  }

  lemma PermittedFixed(s: State, t: State, env: Envelope)
    requires AllFixed(s, t)
    ensures Permitted(t, env) <==> Permitted(s, env)
  {
    forall call ensures MaySendTo(t, call, env.src, env.dst) <==> MaySendTo(s, call, env.src, env.dst) {}
  }

  lemma AcceptedPermitted(s: State, step: Step)
    requires KernelInv(s) && Enabled(s, step)
    ensures forall i :: 0 <= i < |Accepted(s, step)| ==> Permitted(s, Accepted(s, step)[i])
  {
    match step
    case Trap(call, e, m, copyOk) =>
      if Sends(s, call, e, m, copyOk) {
        TrapPermitted(s, call, e, m, copyOk);
        assert MaySendTo(s, call, s.cur, e.n);
      }
    case _ =>
  }

  // Over every run from boot, nothing is sent that the masks do not allow.
  lemma {:induction false} SendsPermitted(s: State, steps: seq<Step>, t: State, gentle: bool)
    requires KernelInv(s) && Executes(s, steps, t, gentle)
    requires forall i :: 0 <= i < |s.sends| ==> Permitted(s, s.sends[i])
    ensures AllFixed(s, t) && forall i :: 0 <= i < |t.sends| ==> Permitted(t, t.sends[i])
    decreases |steps|
  {
    if steps != [] {
      var u := Next(s, steps[0]);
      StepKeeps(s, steps[0]);
      StepFixed(s, steps[0]);
      SendsStep(s, steps[0]);
      SendsPermitted(u, steps[1..], t, gentle);
      FixedTrans(s, u, t);
    }
  }

  lemma SendsStep(s: State, step: Step)
    requires KernelInv(s) && Enabled(s, step) && AllFixed(s, Next(s, step))
    requires forall i :: 0 <= i < |s.sends| ==> Permitted(s, s.sends[i])
    ensures var u := Next(s, step); forall i :: 0 <= i < |u.sends| ==> Permitted(u, u.sends[i])
  {
    var u := Next(s, step);
    StepSends(s, step);
    AcceptedPermitted(s, step);
    AppendedPermitted(s, u, Accepted(s, step));
  }

  lemma AppendedPermitted(s: State, u: State, added: seq<Envelope>)
    requires AllFixed(s, u) && u.sends == s.sends + added
    requires forall i :: 0 <= i < |s.sends| ==> Permitted(s, s.sends[i])
    requires forall i :: 0 <= i < |added| ==> Permitted(s, added[i])
    ensures forall i :: 0 <= i < |u.sends| ==> Permitted(u, u.sends[i])
  {
    forall i | 0 <= i < |u.sends| ensures Permitted(u, u.sends[i]) {
      assert u.sends[i] == if i < |s.sends| then s.sends[i] else added[i - |s.sends|];
      PermittedFixed(s, u, u.sends[i]);
    }
  }

  // ----- notifications -----

  // A notification from x is pending with p, or in its slot.
  ghost predicate HasNotice(s: State, p: nat, x: nat) {
    p < |s.procs| && (x in s.procs[p].notify || s.procs[p].delivermsg == Some(Notice(x)))
  }

  // One comes only from the kernel, or from a process that may notify p.
  ghost predicate Rings(s: State, step: Step, x: nat, p: nat) {
    step == Notify(x, Slot(p))
    || (step.Trap? && step.call == NOTIFY && step.e == Slot(p) && x == s.cur && MaySendTo(s, NOTIFY, x, p))
  }

  lemma NotifyRings(s: State, from: nat, e: Endpoint, p: nat, x: nat)
    requires ReadyInv(s) && HasNotice(MiniNotify(s, from, e).1, p, x)
    ensures HasNotice(s, p, x) || (x == from && e == Slot(p))
  {
    var (code, t) := MiniNotify(s, from, e);
    NotifyMeaning(s, from, e);
    if code == OK && e.n != p { assert Bare(t.procs[p]) == Bare(s.procs[p]); }
    if code == OK && e.n == p { assert Bare(t.procs[p]).notify <= s.procs[p].notify + {from}; }
  }

  lemma SendRings(s: State, c: nat, d: nat, m: Body, nonBlocking: bool, copyOk: bool, p: nat, x: nat)
    requires MaySend(s, c, d) && HasNotice(MiniSend(s, c, d, m, nonBlocking, copyOk).1, p, x)
    ensures HasNotice(s, p, x)
  {
    var (code, t) := MiniSend(s, c, d, m, nonBlocking, copyOk);
    SendMeaning(s, c, d, m, nonBlocking, copyOk);
    if code == OK && Expects(s.procs[d], c) {
      if p != d {
        assert Bare(t.procs[p]) == Bare(s.procs[p]);
      } else {
        assert Bare(t.procs[d]).notify == s.procs[d].notify && Bare(t.procs[d]).delivermsg == Some(Letter(c, m));
      }
    }
  }

  lemma ReceiveRings(s: State, c: nat, src: Endpoint, nonBlocking: bool, p: nat, x: nat)
    requires KernelInv(s) && MayReceive(s, c, src) && HasNotice(MiniReceive(s, c, src, nonBlocking).1, p, x)
    ensures HasNotice(s, p, x)
  {
    var (code, t) := MiniReceive(s, c, src, nonBlocking);
    ReceiveMeaning(s, c, src, nonBlocking);
    if code == OK { ReceivesRings(s, t, c, src, p, x); }
  }

  lemma ReceivesRings(s: State, t: State, c: nat, src: Endpoint, p: nat, x: nat)
    requires c < |s.procs| == |s.callers| && Receives(s, t, c, src) && HasNotice(t, p, x)
    ensures HasNotice(s, p, x)
  {
    if HasMail(s, c, src) && !HasNote(s, c, src) {
      var y: nat :| LongestWaiting(s, c, src, y) && TookMail(s, t, c, y);
      assert Bare(t.procs[c]).notify == s.procs[c].notify && Bare(t.procs[y]).notify == s.procs[y].notify;
      TakenSlots(s, t, c, y, p);
      if p != c && p != y { assert Bare(t.procs[p]) == Bare(s.procs[p]); }
    }
  }

  lemma SendrecRings(s: State, d: nat, m: Body, copyOk: bool, p: nat, x: nat)
    requires MayTrap(s) && Checked(s, SENDREC, Slot(d)) == OK
    requires HasNotice(DoSyncIpc(s, SENDREC, Slot(d), m, copyOk).1, p, x)
    ensures HasNotice(s, p, x)
  {
    var (code, t) := DoSyncIpc(s, SENDREC, Slot(d), m, copyOk);
    SendrecMeaning(s, d, m, copyOk);
    if code == OK && Expects(s.procs[d], s.cur) {
      assert Bare(t.procs[s.cur]).notify == s.procs[s.cur].notify && Bare(t.procs[d]).notify == s.procs[d].notify;
      assert Bare(t.procs[d]).delivermsg == Some(Letter(s.cur, m));
      if p != s.cur && p != d { assert Bare(t.procs[p]) == Bare(s.procs[p]); }
    } else if code == OK && p != s.cur {
      assert Bare(t.procs[p]) == Bare(s.procs[p]);
    }
  }

  lemma TrapRings(s: State, step: Step, p: nat, x: nat)
    requires KernelInv(s) && Enabled(s, step) && step.Trap? && HasNotice(Next(s, step), p, x)
    ensures HasNotice(s, p, x) || Rings(s, step, x, p)
  {
    var Trap(call, e, m, copyOk) := step;
    if Checked(s, call, e) == OK {
      match call
      case SEND => SendRings(s, s.cur, e.n, m, false, copyOk, p, x);
      case SENDNB => SendRings(s, s.cur, e.n, m, true, copyOk, p, x);
      case NOTIFY =>
        NotifyRings(s, s.cur, e, p, x);
        CheckMeaning(s, NOTIFY, e);
      case RECEIVE =>
        var s0 := With(s, s.cur, s.procs[s.cur].(replyPend := false));
        ReceiveTrapStart(s, e, s0);
        ReceiveRings(s0, s.cur, e, false, p, x);
      case SENDREC => SendrecRings(s, e.n, m, copyOk, p, x);
    }
  }

  lemma ExpireRings(s: State, p: nat, x: nat)
    requires KernelInv(s) && Enabled(s, Expire) && HasNotice(NoTime(s).1, p, x)
    ensures HasNotice(s, p, x)
  {
    var q := s.procs[s.cur];
    if !KernelScheduled(q, s.cur) && q.preemptible {
      var s1 := QuantumStart(s);
      SendRings(s1, s.cur, q.scheduler.value, NoQuantum, false, true, p, x);
    }
  }

  // In every step: a notification that p has was there before, or is sent in it.
  lemma StepRings(s: State, step: Step, p: nat, x: nat)
    requires KernelInv(s) && Enabled(s, step) && HasNotice(Next(s, step), p, x)
    ensures HasNotice(s, p, x) || Rings(s, step, x, p)
  {
    match step
    case Trap(_, _, _, _) => TrapRings(s, step, p, x);
    case Notify(from, to) => NotifyRings(s, from, to, p, x);
    case Expire => ExpireRings(s, p, x);
    case Consume =>
    case _ => SchedulesSame(s, step);
  }

  // Over every run: a notification that p has at the end was there at the start, or the kernel sent
  // it, or its sender's masks allow it to notify p.
  lemma {:induction false} NoticesPermitted(s: State, steps: seq<Step>, t: State, gentle: bool, p: nat, x: nat)
    requires KernelInv(s) && Executes(s, steps, t, gentle) && HasNotice(t, p, x)
    ensures HasNotice(s, p, x) || Notify(x, Slot(p)) in steps || MaySendTo(s, NOTIFY, x, p)
    decreases |steps|
  {
    if steps != [] {
      var u := Next(s, steps[0]);
      StepKeeps(s, steps[0]);
      StepFixed(s, steps[0]);
      NoticesPermitted(u, steps[1..], t, gentle, p, x);
      if HasNotice(u, p, x) { StepRings(s, steps[0], p, x); }
    }
  }
}
