// Whole runs of the kernel: what every interleaving of its entry points keeps.
module KernelRuns {
  import opened Prelude
  import opened KernelState
  import opened ReadyQueues
  import opened WaitGraph
  import opened IpcSpec
  import opened IpcInvariants
  import opened IpcRuns

  // ----- deadlock detection -----

  // At both places that call deadlock(), refusing exactly when the chain from the partner
  // leads back to the caller is refusing exactly when blocking would close a cycle.
  lemma RefusedIffCycle(s: State, c: nat, d: nat)
    requires KernelInv(s) && c < |s.procs| && d < |s.procs| && c != d && BlockedOn(s.procs[c]) == NONE
    ensures Reaches(s.procs, d, c) <==> !NoCycle(FlatPark(s, c, d, Text(0)).procs)
    ensures RECEIVING !in s.procs[c].flags ==>
            (Reaches(s.procs, d, c) <==> !NoCycle(FlatBlockReceiving(s, c, Slot(d)).procs))
  {
    CycleClosedIff(s.procs, FlatPark(s, c, d, Text(0)).procs, c, d);
    if RECEIVING !in s.procs[c].flags {
      CycleClosedIff(s.procs, FlatBlockReceiving(s, c, Slot(d)).procs, c, d);
    }
  }

  // The blocked-on graph stays acyclic through every IPC call except a receive from oneself,
  // which no check stops: that one always blocks the caller on itself.
  lemma AcyclicUnlessSelfReceive(s: State, call: Call, e: Endpoint, m: Body, copyOk: bool)
    requires MayTrap(s)
    ensures NoCycle(DoSyncIpc(s, call, e, m, copyOk).1.procs)
       <==> !(SelfReceive(s, call, e) && RECEIVE in s.procs[s.cur].trapMask)
  {
    if !SelfReceive(s, call, e) {
      DoSyncIpcKeeps(s, call, e, m, copyOk);
      AcyclicHasNoCycle(DoSyncIpc(s, call, e, m, copyOk).1.procs);
    } else if RECEIVE in s.procs[s.cur].trapMask {
      SelfReceiveBlocks(s, m, copyOk);
    } else {
      AcyclicHasNoCycle(s.procs);
    }
  }

  lemma NothingFromSelf(s: State, c: nat)
    requires KernelInv(s) && c < |s.procs| && !Sending(s, c)
    ensures NotifyScan(s.procs[c].notify, Slot(c), 0, Chunks(s)) == None
    ensures FirstAcceptable(s.callers[c], Slot(c)) == |s.callers[c]|
  {
    ScanSource(s.procs[c].notify, c, 0, Chunks(s));
    assert c !in s.callers[c];
  }

  lemma SelfReceiveBlocks(s: State, m: Body, copyOk: bool)
    requires MayTrap(s) && RECEIVE in s.procs[s.cur].trapMask
    ensures var (code, t) := DoSyncIpc(s, RECEIVE, Slot(s.cur), m, copyOk);
            code == OK && BlockedOn(t.procs[s.cur]) == Slot(s.cur) && !NoCycle(t.procs)
  {
    var c := s.cur;
    var s0 := With(s, c, s.procs[c].(replyPend := false));
    SetSlot(s, c, s0.procs[c]);
    assert Checked(s, RECEIVE, Slot(c)) == OK;
    SelfWaits(s0, c);
  }

  lemma SelfWaits(s: State, c: nat)
    requires KernelInv(s) && c < |s.procs| && Runnable(s.procs[c])
    ensures var (code, t) := MiniReceive(s, c, Slot(c), false);
            code == OK && BlockedOn(t.procs[c]) == Slot(c) && !NoCycle(t.procs)
  {
    NothingFromSelf(s, c);
    SelfBlocked(s, c);
    assert MiniReceive(s, c, Slot(c), false) == (OK, BlockReceiving(s, c, Slot(c)));
  }

  lemma SelfBlocked(s: State, c: nat)
    requires ReadyInv(s) && FreeInv(s) && c < |s.procs| && Runnable(s.procs[c])
    ensures !Reaches(s.procs, c, c)
    ensures var t := BlockReceiving(s, c, Slot(c)); BlockedOn(t.procs[c]) == Slot(c) && !NoCycle(t.procs)
  {
    BlockReceivingSame(s, c, Slot(c));
    var t := BlockReceiving(s, c, Slot(c));
    assert Follow(t.procs, c, 1) == Follow(t.procs, c, 0);
  }

  // ----- operations that message passing does not see -----

  lemma SchedulingOnly(s: State, t: State)
    requires KernelInv(s) && IpcSame(s, t) && ReadyInv(t) && FreeInv(t)
    ensures KernelInv(t) && Recorded(s, t)
  {
    IpcFrame(s, t);
    RecordedSame(s, t);
  }

  lemma SetForeign(s: State, p: nat, f: Flag)
    requires KernelInv(s) && p < |s.procs| && SLOT_FREE !in s.procs[p].flags
    requires f == NO_QUANTUM || Foreign(f)
    ensures var t := RtsSet(s, p, {f});
            && KernelInv(t) && Recorded(s, t) && (PriorityInv(s) ==> PriorityInv(t))
            && t.procs == s.procs[p := s.procs[p].(flags := s.procs[p].flags + {f})]
            && t == s.(procs := t.procs, ready := t.ready)
  {
    SetForeignReady(s, p, f);
    var t := RtsSet(s, p, {f});
    SetForeignSame(s, p, f, t);
    SchedulingOnly(s, t);
  }

  lemma SetForeignReady(s: State, p: nat, f: Flag)
    requires ReadyInv(s) && p < |s.procs|
    ensures var t := RtsSet(s, p, {f});
            && ReadyInv(t) && (PriorityInv(s) ==> PriorityInv(t))
            && t.procs == s.procs[p := s.procs[p].(flags := s.procs[p].flags + {f})]
            && t == s.(procs := t.procs, ready := t.ready)
  {
    assert With(s, p, s.procs[p]) == s;
    SetSame(s, p, s.procs[p], {f});
  }

  lemma SetForeignSame(s: State, p: nat, f: Flag, t: State)
    requires FreeInv(s) && p < |s.procs| && SLOT_FREE !in s.procs[p].flags && (f == NO_QUANTUM || Foreign(f))
    requires t.procs == s.procs[p := s.procs[p].(flags := s.procs[p].flags + {f})]
    requires t == s.(procs := t.procs, ready := t.ready)
    ensures IpcSame(s, t) && FreeInv(t)
  {}

  lemma UnsetForeign(s: State, p: nat, f: Flag)
    requires KernelInv(s) && p < |s.procs| && Foreign(f)
    ensures var t := RtsUnset(s, p, {f});
            KernelInv(t) && Recorded(s, t) && (PriorityInv(s) ==> PriorityInv(t))
  {
    UnsetOnly(s, p, {f});
    UnsetForeignSame(s, p, f, RtsUnset(s, p, {f}));
    SchedulingOnly(s, RtsUnset(s, p, {f}));
  }

  lemma UnsetForeignSame(s: State, p: nat, f: Flag, t: State)
    requires p < |s.procs| && Foreign(f) && IpcSame(With(s, p, s.procs[p].(flags := s.procs[p].flags - {f})), t)
    ensures IpcSame(s, t)
  {}

  lemma SetTime(s: State, left: nat)
    requires KernelInv(s)
    ensures var t := With(s, s.cur, s.procs[s.cur].(timeLeft := left));
            Good(s, t)
  {
    var v := s.procs[s.cur].(timeLeft := left);
    SlotKeeps(s, s.cur, v);
    if PriorityInv(s) { SlotPriority(s, s.cur, v); }
    SchedulingOnly(s, With(s, s.cur, v));
  }

  lemma SwitchSame(s: State, idle: nat)
    requires ReadyInv(s) && FreeInv(s) && idle < |s.procs| && SLOT_FREE !in s.procs[idle].flags
    ensures IpcSame(s, SwitchTo(s, idle)) && FreeInv(SwitchTo(s, idle))
  {
    RequeueKeeps(s);
    PickIsBest(Requeue(s));
  }

  lemma RescheduleSame(s: State, p: nat, priority: nat, quantum: nat)
    requires ReadyInv(s) && p < |s.procs| && priority < NR_SCHED_QUEUES
    ensures IpcSame(s, Reschedule(s, p, priority, quantum))
  {
    var s2 := Renumbered(s, p, priority, quantum);
    RtsUnsetKeeps(s2, p, {NO_QUANTUM});
    RenumberedSame(s, p, priority, quantum, s2, Reschedule(s, p, priority, quantum));
  }

  lemma RenumberedSame(s: State, p: nat, priority: nat, quantum: nat, s2: State, t: State)
    requires p < |s.procs| == |s2.procs| && s2 == s.(procs := s2.procs, ready := s2.ready)
    requires forall i :: 0 <= i < |s.procs| && i != p ==> s2.procs[i] == s.procs[i]
    requires s2.procs[p] ==
             s.procs[p].(priority := priority, quantum := quantum, timeLeft := quantum, flags := s2.procs[p].flags)
    requires s2.procs[p].flags - {NO_QUANTUM} == s.procs[p].flags - {NO_QUANTUM}
    requires OnlyFlags(s2, t, p) && t.procs[p].flags == s2.procs[p].flags - {NO_QUANTUM}
    ensures IpcSame(s, t)
  {
    assert forall f :: f != NO_QUANTUM ==> (f in s.procs[p].flags <==> f in s.procs[p].flags - {NO_QUANTUM});
  }

  lemma RescheduleFree(s: State, p: nat, priority: nat, quantum: nat)
    requires ReadyInv(s) && FreeInv(s) && p < |s.procs| && priority < NR_SCHED_QUEUES
    ensures FreeInv(Reschedule(s, p, priority, quantum))
  {
    var s2 := Renumbered(s, p, priority, quantum);
    RtsUnsetKeeps(s2, p, {NO_QUANTUM});
    var t := Reschedule(s, p, priority, quantum);
    assert t.procs[p].flags == s.procs[p].flags - {NO_QUANTUM};
    RescheduleSame(s, p, priority, quantum);
    forall i | 0 <= i < |t.procs| && SLOT_FREE in t.procs[i].flags ensures IsEmpty(t.procs[i]) {
      assert IsEmpty(s.procs[i]);
      assert i != s.cur;
    }
  }

  // ----- the out-of-quantum message -----

  // The scheduler of the current process is blocked, perhaps through others, on that very process.
  ghost predicate QuantumRefused(s: State)
    requires Shape(s)
  {
    var p := s.procs[s.cur];
    && p.preemptible && p.scheduler != None && p.scheduler != Some(s.cur) && p.scheduler.value < |s.procs|
    && (var q := s.procs[p.scheduler.value];
        !(RECEIVING in q.flags && SENDING !in q.flags && (q.getFrom == ANY || q.getFrom == Slot(s.cur))))
    && Reaches(s.procs, p.scheduler.value, s.cur)
  }

  // The out-of-quantum message is refused in that case and in no other. The source then panics.
  lemma NoTimeRefusedIff(s: State)
    requires KernelInv(s) && Runnable(s.procs[s.cur])
    ensures NoTime(s).0 != OK <==> QuantumRefused(s)
    ensures NoTime(s).0 != OK ==> NoTime(s).0 == ELOCKED
  {
    var c, p := s.cur, s.procs[s.cur];
    if !KernelScheduled(p, c) && p.preemptible {
      var s1 := RtsSet(s, c, {NO_QUANTUM});
      SetForeign(s, c, NO_QUANTUM);
      QuantumSendRefusedIff(s, s1, p.scheduler.value);
    }
  }

  lemma QuantumSendRefusedIff(s: State, s1: State, d: nat)
    requires Shape(s) && Shape(s1) && d < |s.procs| && d != s.cur && NO_ENDPOINT !in s.procs[d].flags
    requires s1.procs == s.procs[s.cur := s.procs[s.cur].(flags := s.procs[s.cur].flags + {NO_QUANTUM})]
    ensures var code := MiniSend(s1, s.cur, d, NoQuantum, false, true).0;
            && (code != OK <==>
                  && !(RECEIVING in s.procs[d].flags && SENDING !in s.procs[d].flags
                       && (s.procs[d].getFrom == ANY || s.procs[d].getFrom == Slot(s.cur)))
                  && Reaches(s.procs, d, s.cur))
            && (code != OK ==> code == ELOCKED)
  {
    ReachesSame(s.procs, s1.procs, d, s.cur);
  }

  lemma NoTimeKeeps(s: State)
    requires KernelInv(s) && Runnable(s.procs[s.cur]) && !QuantumRefused(s)
    ensures NoTime(s).0 == OK && Good(s, NoTime(s).1)
  {
    NoTimeRefusedIff(s);
    var c := s.cur;
    var p := s.procs[c];
    if !KernelScheduled(p, c) && p.preemptible {
      var s1 := RtsSet(s, c, {NO_QUANTUM});
      SetForeign(s, c, NO_QUANTUM);
      QuantumMaySend(s, s1);
      MiniSendKeeps(s1, c, p.scheduler.value, NoQuantum, false, true);
      GoodTrans(s, s1, NoTime(s).1);
    } else {
      SetTime(s, p.quantum);
    }
  }

  lemma QuantumMaySend(s: State, s1: State)
    requires KernelInv(s) && Runnable(s.procs[s.cur]) && !KernelScheduled(s.procs[s.cur], s.cur)
    requires KernelInv(s1)
    requires s1.procs == s.procs[s.cur := s.procs[s.cur].(flags := s.procs[s.cur].flags + {NO_QUANTUM})]
    ensures s.procs[s.cur].scheduler.value < |s.procs| && MaySend(s1, s.cur, s.procs[s.cur].scheduler.value)
  {}

  // An expired quantum either is reported to the scheduler, in the name of the process, which stops
  // being runnable, or is renewed.
  lemma QuantumReported(s: State)
    requires KernelInv(s) && Runnable(s.procs[s.cur]) && !QuantumRefused(s)
    ensures var p, t := s.procs[s.cur], NoTime(s).1;
            if p.scheduler != None && p.scheduler != Some(s.cur) && p.preemptible
            then !Runnable(t.procs[s.cur]) && t.sends == s.sends + [Envelope(s.cur, p.scheduler.value, NoQuantum)]
            else t.procs[s.cur] == p.(timeLeft := p.quantum) && t.sends == s.sends
  {
    NoTimeRefusedIff(s);
    var c, p := s.cur, s.procs[s.cur];
    if !KernelScheduled(p, c) && p.preemptible {
      var s1 := RtsSet(s, c, {NO_QUANTUM});
      SetForeign(s, c, NO_QUANTUM);
      QuantumMaySend(s, s1);
      SentForQuantum(s1, c, p.scheduler.value);
    }
  }

  lemma SentForQuantum(s: State, c: nat, d: nat)
    requires MaySend(s, c, d) && NO_QUANTUM in s.procs[c].flags && MiniSend(s, c, d, NoQuantum, false, true).0 == OK
    ensures var t := MiniSend(s, c, d, NoQuantum, false, true).1;
            NO_QUANTUM in t.procs[c].flags && t.sends == s.sends + [Envelope(c, d, NoQuantum)]
  {
    SendSends(s, c, d, NoQuantum, false, true);
    HandOverMarked(s, c, d);
    ParkMarked(s, c, d);
    assert MiniSend(s, c, d, NoQuantum, false, true).1
        == if WillReceive(s.procs[d], c) then HandOver(s, c, d, NoQuantum) else Park(s, c, d, NoQuantum);
  }

  lemma HandOverMarked(s: State, c: nat, d: nat)
    requires ReadyInv(s) && c < |s.procs| && d < |s.procs| && c != d && NO_QUANTUM in s.procs[c].flags
    ensures NO_QUANTUM in HandOver(s, c, d, NoQuantum).procs[c].flags
  {
    UnsetSame(s, d, s.procs[d].(delivermsg := Some(Letter(c, NoQuantum)), replyPend := false), d, {RECEIVING});
  }

  lemma ParkMarked(s: State, c: nat, d: nat)
    requires ReadyInv(s) && c < |s.procs| && d < |s.procs| && NO_QUANTUM in s.procs[c].flags
    ensures NO_QUANTUM in Park(s, c, d, NoQuantum).procs[c].flags
  {
    SetSame(s, c, s.procs[c].(sendmsg := NoQuantum), {SENDING});
  }

  // ----- steps -----

  // The flags that other parts of the kernel set and clear with RTS_SET and RTS_UNSET.
  predicate Foreign(f: Flag) {
    f !in {SLOT_FREE, SENDING, RECEIVING, NO_ENDPOINT, PREEMPTED, NO_QUANTUM}
  }

  datatype Step =
    | Trap(call: Call, e: Endpoint, m: Body, copyOk: bool)   // do_sync_ipc by the current process
    | Notify(from: nat, to: Endpoint)                        // mini_notify by the kernel
    | Expire                                                 // proc_no_time
    | Consume                                                // delivermsg
    | Switch(idle: nat)                                      // switch_to_user picks
    | Schedule(p: nat, priority: int, quantum: int)          // sched_proc
    | Stop(p: nat, f: Flag)
    | Resume(p: nat, f: Flag)
    | Spend(left: nat)                                       // the clock

  ghost predicate Enabled(s: State, step: Step) {
    && Shape(s)
    && var p := s.procs[s.cur];
       match step
       case Trap(call, e, m, copyOk) => Runnable(p) && p.delivermsg == None && !SelfReceive(s, call, e)
       case Notify(from, to) => from < |s.procs| && to != Slot(from)
       // a refused out-of-quantum message panics, so the run does not go on from there
       case Expire =>
         Runnable(p) && p.timeLeft == 0 && (p.scheduler.Some? ==> p.scheduler.value < |s.procs|) && !QuantumRefused(s)
       case Consume => Runnable(p)
       case Switch(idle) => !Runnable(p) && idle < |s.procs| && SLOT_FREE !in s.procs[idle].flags
       case Schedule(q, priority, quantum) => q < |s.procs| && priority != NR_SCHED_QUEUES
       case Stop(q, f) => q < |s.procs| && SLOT_FREE !in s.procs[q].flags && Foreign(f)
       case Resume(q, f) => q < |s.procs| && Foreign(f)
       case Spend(left) => true
  }

  ghost function Next(s: State, step: Step): State
    requires Enabled(s, step) && CallersInTable(s)
  {
    match step
    case Trap(call, e, m, copyOk) => DoSyncIpc(s, call, e, m, copyOk).1
    case Notify(from, to) => MiniNotify(s, from, to).1
    case Expire => NoTime(s).1
    case Consume => With(s, s.cur, s.procs[s.cur].(delivermsg := None))
    case Switch(idle) => SwitchTo(s, idle)
    case Schedule(p, priority, quantum) => SchedProc(s, p, priority, quantum).1
    case Stop(p, f) => RtsSet(s, p, {f})
    case Resume(p, f) => RtsUnset(s, p, {f})
    case Spend(left) => With(s, s.cur, s.procs[s.cur].(timeLeft := left))
  }

  // The steps that keep the priority guarantee: all but a sched_proc that is accepted and gives the
  // current process a priority that is not the best.
  ghost predicate Gentle(s: State, step: Step)
    requires s.cur < |s.procs|
  {
    step.Schedule? && step.p == s.cur && 0 <= step.priority < NR_SCHED_QUEUES && step.quantum > 0 ==>
      StillBest(s, step.priority)
  }

  lemma StepKeeps(s: State, step: Step)
    requires KernelInv(s) && Enabled(s, step)
    ensures KernelInv(Next(s, step))
    ensures PriorityInv(s) ==> (PriorityInv(Next(s, step)) <==> Gentle(s, step))
    ensures !step.Consume? ==> Recorded(s, Next(s, step))
    ensures s.sends <= Next(s, step).sends && s.receipts <= Next(s, step).receipts
  {
    match step
    case Trap(call, e, m, copyOk) => DoSyncIpcKeeps(s, call, e, m, copyOk);
    case Notify(from, to) => MiniNotifyKeeps(s, from, to);
    case Expire => NoTimeKeeps(s);
    case Consume => SetSlot(s, s.cur, s.procs[s.cur].(delivermsg := None));
    case Switch(idle) =>
      SwitchKeeps(s, idle);
      SwitchSame(s, idle);
      SchedulingOnly(s, SwitchTo(s, idle));
    case Schedule(p, priority, quantum) => ScheduleStep(s, p, priority, quantum);
    case Stop(p, f) => SetForeign(s, p, f);
    case Resume(p, f) => UnsetForeign(s, p, f);
    case Spend(left) => SetTime(s, left);
  }

  // ----- what a step sends and what it takes out -----

  // The calls that send, when they return OK. A SENDREC whose send was accepted always does.
  ghost predicate Sends(s: State, call: Call, e: Endpoint, m: Body, copyOk: bool)
    requires Shape(s) && CallersInTable(s)
  {
    (call == SEND || call == SENDNB || call == SENDREC) && DoSyncIpc(s, call, e, m, copyOk).0 == OK
  }

  // The sends that a step gets accepted.
  ghost function Accepted(s: State, step: Step): seq<Envelope>
    requires Enabled(s, step) && CallersInTable(s)
  {
    var p := s.procs[s.cur];
    match step
    case Trap(call, e, m, copyOk) => if Sends(s, call, e, m, copyOk) then [Envelope(s.cur, e.n, m)] else []
    case Expire =>
      if p.scheduler != None && p.scheduler != Some(s.cur) && p.preemptible
      then [Envelope(s.cur, p.scheduler.value, NoQuantum)] else []
    case _ => []
  }

  // The letter that a step copies out of p's delivery slot, into p's memory.
  function Taken(s: State, step: Step, p: nat): seq<Letter>
    requires p < |s.procs|
  {
    if step.Consume? && p == s.cur then Mail(s, p) else []
  }

  // The history of accepted sends grows by what the calls of a step were told is sent, no less and
  // no more.
  lemma StepSends(s: State, step: Step)
    requires KernelInv(s) && Enabled(s, step)
    ensures Next(s, step).sends == s.sends + Accepted(s, step)
  {
    match step
    case Trap(call, e, m, copyOk) => TrapSends(s, call, e, m, copyOk);
    case Expire => QuantumReported(s);
    case _ => QuietSends(s, step);
  }

  lemma QuietSends(s: State, step: Step)
    requires Shape(s) && CallersInTable(s) && Enabled(s, step) && !step.Trap? && !step.Expire?
    ensures Next(s, step).sends == s.sends
  {
    match step
    case Notify(from, to) => NotifySends(s, from, to);
    case Schedule(p, priority, quantum) => ScheduleSends(s, p, priority, quantum);
    case Switch(idle) => SwitchSends(s, idle);
    case _ =>
  }

  lemma NotifySends(s: State, from: nat, to: Endpoint)
    requires Shape(s)
    ensures MiniNotify(s, from, to).1.sends == s.sends
  {}

  lemma ScheduleSends(s: State, p: nat, priority: int, quantum: int)
    requires Shape(s) && p < |s.procs|
    ensures SchedProc(s, p, priority, quantum).1.sends == s.sends
  {}

  lemma SwitchSends(s: State, idle: nat)
    requires Shape(s)
    ensures SwitchTo(s, idle).sends == s.sends
  {}

  lemma TrapSends(s: State, call: Call, e: Endpoint, m: Body, copyOk: bool)
    requires MayTrap(s) && !SelfReceive(s, call, e)
    ensures DoSyncIpc(s, call, e, m, copyOk).1.sends
         == s.sends + if Sends(s, call, e, m, copyOk) then [Envelope(s.cur, e.n, m)] else []
  {
    var c := s.cur;
    if Checked(s, call, e) == OK {
      match call
      case SEND => SendSends(s, c, e.n, m, false, copyOk);
      case SENDNB => SendSends(s, c, e.n, m, true, copyOk);
      case NOTIFY =>
      case RECEIVE => ReceiveSends(With(s, c, s.procs[c].(replyPend := false)), c, e, false);
      case SENDREC => SendrecSends(s, e.n, m, copyOk);
    }
  }

  lemma SendSends(s: State, c: nat, d: nat, m: Body, nonBlocking: bool, copyOk: bool)
    requires MaySend(s, c, d)
    ensures var (code, t) := MiniSend(s, c, d, m, nonBlocking, copyOk);
            t.sends == s.sends + if code == OK then [Envelope(c, d, m)] else []
  {
    MiniSendKeeps(s, c, d, m, nonBlocking, copyOk);
  }

  lemma ReceiveSends(s: State, c: nat, src: Endpoint, nonBlocking: bool)
    requires Shape(s) && CallersInTable(s) && c < |s.procs| && src != NONE && (src.Slot? ==> src.n < |s.procs|)
    ensures MiniReceive(s, c, src, nonBlocking).1.sends == s.sends
  {}

  lemma SendrecSends(s: State, d: nat, m: Body, copyOk: bool)
    requires MayTrap(s) && Checked(s, SENDREC, Slot(d)) == OK
    ensures DoSyncIpc(s, SENDREC, Slot(d), m, copyOk).1.sends
         == s.sends + if Sends(s, SENDREC, Slot(d), m, copyOk) then [Envelope(s.cur, d, m)] else []
  {
    SendrecMaySend(s, d);
    SendSends(ReplyPending(s), s.cur, d, m, false, copyOk);
    SendrecKeeps(s, d, m, copyOk);
    var (r, t) := MiniSend(ReplyPending(s), s.cur, d, m, false, copyOk);
    assert DoSyncIpc(s, SENDREC, Slot(d), m, copyOk)
        == if r != OK then (r, t) else MiniReceive(t, s.cur, Slot(d), false);
    if r == OK { ReceiveSends(t, s.cur, Slot(d), false); }
  }

  // What a step delivers, it records; what it records, it delivers.
  lemma StepDelivers(s: State, step: Step, p: nat)
    requires KernelInv(s) && Enabled(s, step) && p < |s.procs|
    ensures var t := Next(s, step);
            && |t.procs| == |s.procs| && s.receipts <= t.receipts
            && Taken(s, step, p) + Mail(t, p) == Mail(s, p) + For(t.receipts[|s.receipts|..], p)
  {
    if step.Consume? {
      ConsumeDelivers(s, p);
    } else {
      StepKeeps(s, step);
      RecordedDelivers(s, Next(s, step), p);
    }
  }

  lemma ConsumeDelivers(s: State, p: nat)
    requires s.cur < |s.procs| && p < |s.procs|
    ensures var t := With(s, s.cur, s.procs[s.cur].(delivermsg := None));
            && t.receipts == s.receipts && For(t.receipts[|s.receipts|..], p) == []
            && Taken(s, Consume, p) + Mail(t, p) == Mail(s, p)
  {}

  lemma RecordedDelivers(s: State, t: State, p: nat)
    requires Recorded(s, t) && p < |s.procs|
    ensures |t.procs| == |s.procs| && s.receipts <= t.receipts
    ensures [] + Mail(t, p) == Mail(s, p) + For(t.receipts[|s.receipts|..], p)
  {}

  lemma ScheduleStep(s: State, p: nat, priority: int, quantum: int)
    requires KernelInv(s) && p < |s.procs| && priority != NR_SCHED_QUEUES
    ensures var t := SchedProc(s, p, priority, quantum).1;
            && KernelInv(t) && Recorded(s, t)
            && (PriorityInv(s) ==> (PriorityInv(t) <==> Gentle(s, Schedule(p, priority, quantum))))
  {
    if 0 <= priority < NR_SCHED_QUEUES && quantum > 0 {
      RescheduleKeeps(s, p, priority, quantum);
      ReschedulePriority(s, p, priority, quantum);
      RescheduleSame(s, p, priority, quantum);
      RescheduleFree(s, p, priority, quantum);
      SchedulingOnly(s, Reschedule(s, p, priority, quantum));
    }
  }

  // ----- runs -----

  // Nobody is blocked and nothing was sent yet.
  ghost predicate Booted(s: State) {
    && ReadyInv(s) && PriorityInv(s) && PrivInv(s) && FreeInv(s)
    && (forall p :: 0 <= p < |s.procs| ==>
          !Sending(s, p) && !Receiving(s, p) && s.procs[p].delivermsg == None && s.callers[p] == [])
    && s.sends == [] && s.receipts == []
  }

  lemma BootedKeeps(s: State)
    requires Booted(s)
    ensures KernelInv(s)
  {
    var rank := seq(|s.procs|, (p: nat) => 0);
    assert IsRank(s.procs, rank);
  }

  // The steps lead from s to t; in a `gentle` run every step is gentle.
  ghost predicate Executes(s: State, steps: seq<Step>, t: State, gentle: bool)
    decreases |steps|
  {
    if steps == [] then s == t
    else
      && CallersInTable(s) && Enabled(s, steps[0])
      && (gentle ==> Gentle(s, steps[0]))
      && Executes(Next(s, steps[0]), steps[1..], t, gentle)
  }

  lemma {:induction false} RunKeeps(s: State, steps: seq<Step>, t: State, gentle: bool)
    requires KernelInv(s) && Executes(s, steps, t, gentle)
    ensures KernelInv(t) && s.sends <= t.sends && s.receipts <= t.receipts
    ensures gentle && PriorityInv(s) ==> PriorityInv(t)
    decreases |steps|
  {
    if steps != [] {
      StepKeeps(s, steps[0]);
      RunKeeps(Next(s, steps[0]), steps[1..], t, gentle);
    }
  }

  // The letters that p takes over the steps from s to t, in order.
  ghost function Consumed(s: State, steps: seq<Step>, t: State, gentle: bool, p: nat): seq<Letter>
    requires Executes(s, steps, t, gentle)
    decreases |steps|
  {
    if steps == [] || p >= |s.procs| then []
    else Taken(s, steps[0], p) + Consumed(Next(s, steps[0]), steps[1..], t, gentle, p)
  }

  // The sends that are accepted over the steps from s to t, in order.
  ghost function AllAccepted(s: State, steps: seq<Step>, t: State, gentle: bool): seq<Envelope>
    requires Executes(s, steps, t, gentle)
    decreases |steps|
  {
    if steps == [] then []
    else Accepted(s, steps[0]) + AllAccepted(Next(s, steps[0]), steps[1..], t, gentle)
  }

  lemma {:induction false} RunSends(s: State, steps: seq<Step>, t: State, gentle: bool)
    requires KernelInv(s) && Executes(s, steps, t, gentle)
    ensures t.sends == s.sends + AllAccepted(s, steps, t, gentle)
    decreases |steps|
  {
    if steps != [] {
      var u := Next(s, steps[0]);
      StepSends(s, steps[0]);
      StepKeeps(s, steps[0]);
      RunSends(u, steps[1..], t, gentle);
      Associate(s.sends, Accepted(s, steps[0]), AllAccepted(u, steps[1..], t, gentle));
    }
  }

  lemma {:induction false} RunDelivers(s: State, steps: seq<Step>, t: State, gentle: bool, p: nat)
    requires KernelInv(s) && Executes(s, steps, t, gentle) && p < |s.procs|
    ensures |t.procs| == |s.procs| && s.receipts <= t.receipts
    ensures Consumed(s, steps, t, gentle, p) + Mail(t, p) == Mail(s, p) + For(t.receipts[|s.receipts|..], p)
    decreases |steps|
  {
    if steps != [] {
      var u := Next(s, steps[0]);
      StepDelivers(s, steps[0], p);
      StepKeeps(s, steps[0]);
      RunDelivers(u, steps[1..], t, gentle, p);
      DeliversTrans(s, u, t, Taken(s, steps[0], p), Consumed(u, steps[1..], t, gentle, p), p);
    }
  }

  // What is in p's slot at the end, after x and then y were taken out of it.
  lemma DeliversTrans(s: State, u: State, t: State, x: seq<Letter>, y: seq<Letter>, p: nat)
    requires s.receipts <= u.receipts <= t.receipts && p < |s.procs| == |u.procs| == |t.procs|
    requires x + Mail(u, p) == Mail(s, p) + For(u.receipts[|s.receipts|..], p)
    requires y + Mail(t, p) == Mail(u, p) + For(t.receipts[|u.receipts|..], p)
    ensures (x + y) + Mail(t, p) == Mail(s, p) + For(t.receipts[|s.receipts|..], p)
  {
    var a, b := For(u.receipts[|s.receipts|..], p), For(t.receipts[|u.receipts|..], p);
    Spliced(s.receipts, u.receipts, t.receipts, p);
    calc {
      (x + y) + Mail(t, p);
      { Associate(x, y, Mail(t, p)); }
      x + (Mail(u, p) + b);
      { Associate(x, Mail(u, p), b); }
      (Mail(s, p) + a) + b;
      { Associate(Mail(s, p), a, b); }
      Mail(s, p) + (a + b);
    }
  }

  lemma Spliced(a: seq<Receipt>, b: seq<Receipt>, c: seq<Receipt>, p: nat)
    requires a <= b <= c
    ensures For(c[|a|..], p) == For(b[|a|..], p) + For(c[|b|..], p)
  {
    assert c[|a|..] == b[|a|..] + c[|b|..];
    ForAppend(b[|a|..], c[|b|..], p);
  }

  // From boot, the history is the whole story.
  lemma RunFromBoot(s: State, steps: seq<Step>, t: State, gentle: bool)
    requires Booted(s) && KernelInv(s) && Executes(s, steps, t, gentle)
    ensures |t.procs| == |s.procs| && t.sends == AllAccepted(s, steps, t, gentle)
    ensures forall p :: 0 <= p < |t.procs| ==> Consumed(s, steps, t, gentle, p) + Mail(t, p) == For(t.receipts, p)
  {
    RunSends(s, steps, t, gentle);
    RunDelivers(s, steps, t, gentle, s.cur);
    forall p | 0 <= p < |s.procs| ensures Consumed(s, steps, t, gentle, p) + Mail(t, p) == For(t.receipts, p) {
      RunDelivers(s, steps, t, gentle, p);
      EmptyBefore(s, t, Consumed(s, steps, t, gentle, p), p);
    }
  }

  lemma EmptyBefore(s: State, t: State, x: seq<Letter>, p: nat)
    requires p < |s.procs| == |t.procs| && s.procs[p].delivermsg == None && s.receipts == []
    requires x + Mail(t, p) == Mail(s, p) + For(t.receipts[|s.receipts|..], p)
    ensures x + Mail(t, p) == For(t.receipts, p)
  {
    assert t.receipts[|s.receipts|..] == t.receipts;
  }

  // Safety of message passing, over every run from boot.
  lemma MessageSafety(s: State, steps: seq<Step>, t: State, gentle: bool)
    requires Booted(s) && Executes(s, steps, t, gentle)
    // nobody waits for itself, directly or through others
    ensures forall path :: |path| > 1 && WaitPath(t.procs, path) ==> path[0] != path[|path| - 1]
    // caller queues hold exactly the blocked senders
    ensures forall p, d :: 0 <= p < |t.procs| && 0 <= d < |t.callers| ==>
              (p in t.callers[d] <==> Sending(t, p) && t.procs[p].sendTo == Slot(d))
    ensures forall d :: 0 <= d < |t.callers| ==> NoDup(t.callers[d])
    // every accepted send is delivered or still pending, not both, and delivered at most once,
    // to its addressee, from its sender, unaltered
    ensures forall id: nat :: id < |t.sends| ==> (Received(t.receipts, id) <==> !exists p :: Pending(t, p, id))
    ensures forall i, j :: 0 <= i < j < |t.receipts| ==> t.receipts[i].id != t.receipts[j].id
    ensures forall i :: 0 <= i < |t.receipts| ==>
              t.receipts[i].id < |t.sends| && t.receipts[i].letter.Letter?
              && t.sends[t.receipts[i].id] ==
                  Envelope(t.receipts[i].letter.source, t.receipts[i].dst, t.receipts[i].letter.body)
    // the sends are those that were accepted, and what each process has taken and still has in
    // its delivery slot is what was delivered to it, in order
    ensures |t.procs| == |s.procs| && t.sends == AllAccepted(s, steps, t, gentle)
    ensures forall p :: 0 <= p < |t.procs| ==> Consumed(s, steps, t, gentle, p) + Mail(t, p) == For(t.receipts, p)
    // no receiver waits while something acceptable waits for it
    ensures RendezvousInv(t)
  {
    BootedKeeps(s);
    RunKeeps(s, steps, t, gentle);
    RunFromBoot(s, steps, t, gentle);
    AcyclicHasNoCycle(t.procs);
    NoCycleMeaning(t.procs);
    forall id: nat, p | id < |t.sends| && Received(t.receipts, id) ensures !Pending(t, p, id) {}
    forall p, d | 0 <= p < |t.procs| && 0 <= d < |t.callers| && p in t.callers[d]
      ensures Sending(t, p) && t.procs[p].sendTo == Slot(d)
    {
      var i :| 0 <= i < |t.callers[d]| && t.callers[d][i] == p;
    }
  }

  // ----- a run into the panic of notify_scheduler -----

  // Six slots: an idle task, three free slots, a process, and its scheduler, which runs first.
  function Quiet(flags: set<Flag>, priority: nat, scheduler: Option<nat>, partners: set<nat>): Proc {
    Proc(flags, priority, 10, 10, scheduler, NONE, NONE, Text(0), None, false, true, {SEND}, partners, {})
  }

  function SmallTable(): State {
    var free := Quiet({SLOT_FREE}, 15, None, {});
    State([Quiet({PROC_STOP}, 15, None, {}), free, free, free, Quiet({}, 7, Some(5), {}), Quiet({}, 7, None, {4})],
          seq(NR_SCHED_QUEUES, (q: nat) => if q == 7 then [5, 4] else []),
          [[], [], [], [], [], []], 5, [0, 0, 0, 0, 0, 0], [], [])
  }

  // The scheduler sends to the process, which runs and does not receive until its time is up.
  function SmallRun(): seq<Step> { [Trap(SEND, Slot(4), Text(0), true), Switch(0), Spend(0)] }

  lemma SmallBooted()
    ensures Booted(SmallTable())
  {
    var s := SmallTable();
    SmallReady(s);
    SmallStatic(s);
  }

  lemma SmallStatic(s: State)
    requires s == SmallTable()
    ensures PrivInv(s) && FreeInv(s)
    ensures forall p :: 0 <= p < 6 ==> !Sending(s, p) && !Receiving(s, p) && s.procs[p].delivermsg == None
  {}

  lemma SmallReady(s: State)
    requires s == SmallTable()
    ensures ReadyInv(s) && PriorityInv(s)
  {
    assert s.ready[7] == [5, 4];
    assert forall p :: 0 <= p < 6 && Runnable(s.procs[p]) ==> p == 4 || p == 5;
  }

  // After the send: the scheduler is blocked on the process.
  lemma SmallSent()
    ensures var s := SmallTable();
            && Enabled(s, SmallRun()[0]) && CallersInTable(s)
            && Next(s, SmallRun()[0]) == Park(s, 5, 4, Text(0))
  {
    var s := SmallTable();
    assert Follow(s.procs, 4, 1) == None;
    forall k: nat | k > 0 ensures Follow(s.procs, 4, k) == None {}
    assert MiniSend(s, 5, 4, Text(0), false, true) == (OK, Park(s, 5, 4, Text(0)));
  }

  ghost predicate SmallBlocked(t: State) {
    && t.procs == SmallTable().procs[5 := Quiet({SENDING}, 7, None, {4}).(sendTo := Slot(4))]
    && |t.ready| == NR_SCHED_QUEUES && t.ready[7] == [4] && (forall q :: 0 <= q < 7 ==> t.ready[q] == [])
    && t.cur == 5 && |t.callers| == |t.tickets| == 6 && CallersInTable(t)
  }

  lemma SmallParked()
    ensures SmallBlocked(Park(SmallTable(), 5, 4, Text(0)))
  {
    var s := SmallTable();
    var v := s.procs[5].(sendmsg := Text(0));
    assert Remove([5, 4], 5) == [4];
    assert {} + {SENDING} == {SENDING};
    var s2 := RtsSet(With(s, 5, v), 5, {SENDING});
    assert s2.procs[5] == v.(flags := {SENDING});
    assert s2.ready == s.ready[7 := [4]];
  }

  lemma SmallSwitched(t: State)
    requires SmallBlocked(t)
    ensures Enabled(t, Switch(0)) && SwitchTo(t, 0) == t.(cur := 4)
  {
    PickFromIsFirst(t.ready, 0);
  }

  lemma SmallSpent(t: State)
    requires SmallBlocked(t)
    ensures var u := t.(cur := 4);
            && CallersInTable(u) && Enabled(u, Spend(0))
            && Next(u, Spend(0)) == With(u, 4, u.procs[4].(timeLeft := 0))
            && QuantumRefused(Next(u, Spend(0)))
  {
    var u := With(t.(cur := 4), 4, t.procs[4].(timeLeft := 0));
    assert Follow(u.procs, 5, 1) == Some(4);
  }

  lemma RunPanics()
    ensures Booted(SmallTable())
    ensures exists t :: Panics(t) && Executes(SmallTable(), SmallRun(), t, true)
  {
    SmallBooted();
    BootedKeeps(SmallTable());
    var t := SmallRuns();
    RunKeeps(SmallTable(), SmallRun(), t, true);
    NoTimeRefusedIff(t);
  }

  // The quantum of the current process has expired, and its scheduler cannot be told.
  ghost predicate Panics(t: State) {
    && KernelInv(t) && Runnable(t.procs[t.cur]) && t.procs[t.cur].timeLeft == 0
    && QuantumRefused(t) && NoTime(t).0 == ELOCKED
  }

  lemma SmallRuns() returns (t: State)
    ensures Shape(t) && Runnable(t.procs[t.cur]) && t.procs[t.cur].timeLeft == 0 && QuantumRefused(t)
    ensures Executes(SmallTable(), SmallRun(), t, true)
  {
    var s, steps := SmallTable(), SmallRun();
    SmallSent();
    SmallParked();
    var s1 := Park(s, 5, 4, Text(0));
    SmallSwitched(s1);
    SmallSpent(s1);
    var s2 := s1.(cur := 4);
    t := With(s2, 4, s2.procs[4].(timeLeft := 0));
    ThreeSteps(s, steps[0], s1, steps[1], s2, steps[2], t);
  }

  lemma ThreeSteps(s: State, a: Step, s1: State, b: Step, s2: State, c: Step, s3: State)
    requires CallersInTable(s) && Enabled(s, a) && Gentle(s, a) && s1 == Next(s, a)
    requires CallersInTable(s1) && Enabled(s1, b) && Gentle(s1, b) && s2 == Next(s1, b)
    requires CallersInTable(s2) && Enabled(s2, c) && Gentle(s2, c) && s3 == Next(s2, c)
    ensures Executes(s, [a, b, c], s3, true)
  {
    assert [a, b, c][1..] == [b, c] && [b, c][1..] == [c] && [c][1..] == [];
    assert Executes(s3, [], s3, true);
    assert Executes(s2, [c], s3, true);
    assert Executes(s1, [b, c], s3, true);
  }

  // ----- a run that loses the priority guarantee -----

  // The process that runs is given a priority one worse than that of the other runnable one.
  lemma RunLosesPriority()
    ensures Booted(SmallTable())
    ensures exists t :: LosesPriority(t) && Executes(SmallTable(), [Schedule(5, 8, 10)], t, false)
  {
    SmallBooted();
    BootedKeeps(SmallTable());
    SmallNotGentle(SmallTable());
    StepKeeps(SmallTable(), Schedule(5, 8, 10));
    OneStep(SmallTable(), Schedule(5, 8, 10));
    assert LosesPriority(Next(SmallTable(), Schedule(5, 8, 10)));
  }

  ghost predicate LosesPriority(t: State) { KernelInv(t) && !PriorityInv(t) }

  lemma SmallNotGentle(s: State)
    requires s == SmallTable()
    ensures CallersInTable(s) && Enabled(s, Schedule(5, 8, 10)) && !Gentle(s, Schedule(5, 8, 10))
  {
    assert Runnable(s.procs[4]) && s.procs[4].priority == 7;
  }

  lemma OneStep(s: State, a: Step)
    requires CallersInTable(s) && Enabled(s, a)
    ensures Executes(s, [a], Next(s, a), false)
  {
    assert [a][1..] == [];
    assert Executes(Next(s, a), [], Next(s, a), false);
  }

  // Safety of scheduling, over every run from boot.
  lemma SchedulingSafety(s: State, steps: seq<Step>, t: State, gentle: bool)
    requires Booted(s) && Executes(s, steps, t, gentle)
    ensures Shape(t)
    ensures forall p, q :: 0 <= p < |t.procs| && 0 <= q < NR_SCHED_QUEUES ==>
              (p in t.ready[q] <==> Runnable(t.procs[p]) && t.procs[p].priority == q)
    ensures forall q :: 0 <= q < NR_SCHED_QUEUES ==> NoDup(t.ready[q])
    ensures gentle && t.procs[t.cur].preemptible ==>
              forall p :: 0 <= p < |t.procs| && Runnable(t.procs[p])
                          && t.procs[p].priority < t.procs[t.cur].priority ==>
                PREEMPTED in t.procs[t.cur].flags
  {
    BootedKeeps(s);
    RunKeeps(s, steps, t, gentle);
    forall p, q | 0 <= p < |t.procs| && 0 <= q < NR_SCHED_QUEUES && p in t.ready[q]
      ensures Runnable(t.procs[p]) && t.procs[p].priority == q
    {
      var i :| 0 <= i < |t.ready[q]| && t.ready[q][i] == p;
    }
  }
}
