// The kernel as a state machine: every step keeps the invariants of message passing and
// scheduling, hence every run does.
module IpcRuns {
  import opened Prelude
  import opened KernelState
  import opened ReadyQueues
  import opened WaitGraph
  import opened IpcSpec
  import opened IpcInvariants

  // ----- the notification scan -----

  // For ANY the scan finds the lowest pending notification, whenever one is pending.
  lemma {:induction false} ScanAny(pending: set<nat>, chunk: nat, chunks: nat)
    requires chunk <= chunks && forall i :: i in pending ==> i < chunks * BITCHUNK_BITS
    ensures var r := NotifyScan(pending, ANY, chunk, chunks);
            && (r == None <==> forall i :: i in pending ==> i < chunk * BITCHUNK_BITS)
            && (r.Some? ==>
                  && r.value in pending
                  && forall i :: i in pending && i >= chunk * BITCHUNK_BITS ==> r.value <= i)
    decreases chunks - chunk
  {
    if chunk < chunks { ScanAny(pending, chunk + 1, chunks); }
  }

  // For one source x it finds x exactly when x is the lowest pending bit of its chunk: a
  // notification from x hides behind any pending one with a lower number in the same chunk.
  lemma {:induction false} ScanSource(pending: set<nat>, x: nat, chunk: nat, chunks: nat)
    requires chunk <= chunks
    ensures var r := NotifyScan(pending, Slot(x), chunk, chunks);
            && (r == None || r == Some(x))
            && (r == Some(x) <==>
                  && chunk * BITCHUNK_BITS <= x < chunks * BITCHUNK_BITS && x in pending
                  && forall y :: x / BITCHUNK_BITS * BITCHUNK_BITS <= y < x ==> y !in pending)
    decreases chunks - chunk
  {
    if chunk < chunks { ScanSource(pending, x, chunk + 1, chunks); }
  }

  // ----- who is served first -----

  // A receive that takes a queued message takes the one that was accepted first among all
  // processes blocked sending to c whose message is acceptable.
  lemma LongestWaitingServed(s: State, c: nat, src: Endpoint)
    requires IpcInv(s) && c < |s.procs|
    ensures var k := FirstAcceptable(s.callers[c], src);
            if k < |s.callers[c]| then
              forall p :: 0 <= p < |s.procs| && Sending(s, p) && s.procs[p].sendTo == Slot(c) && Acceptable(src, p) ==>
                s.tickets[s.callers[c][k]] <= s.tickets[p]
            else
              forall p :: 0 <= p < |s.procs| && Sending(s, p) && s.procs[p].sendTo == Slot(c) ==> !Acceptable(src, p)
  {}

  // ----- the kernel calls -----

  ghost predicate MaySend(s: State, c: nat, d: nat) {
    && KernelInv(s) && c < |s.procs| && d < |s.procs| && c != d
    && !Sending(s, c) && !Receiving(s, c) && Live(s.procs[c]) && !IsEmpty(s.procs[d])
  }

  // What a kernel call leaves true: the invariants, the history, who is running.
  ghost predicate Good(s: State, t: State) {
    KernelInv(t) && t.cur == s.cur && (PriorityInv(s) ==> PriorityInv(t)) && Recorded(s, t)
  }

  lemma MiniSendKeeps(s: State, c: nat, d: nat, m: Body, nonBlocking: bool, copyOk: bool)
    requires MaySend(s, c, d)
    ensures var (code, t) := MiniSend(s, c, d, m, nonBlocking, copyOk);
            && Good(s, t)
            && (code != OK ==> t == s)
            && (code == OK && WillReceive(s.procs[d], c) ==> IpcSame(FlatHandOver(s, c, d, m), t))
            && (code == OK && !WillReceive(s.procs[d], c) ==> IpcSame(FlatPark(s, c, d, m), t))
  {
    GoodSelf(s);
    if NO_ENDPOINT !in s.procs[d].flags {
      if WillReceive(s.procs[d], c) {
        HandOverGood(s, c, d, m);
      } else if !Reaches(s.procs, d, c) {
        ParkGood(s, c, d, m);
      }
    }
  }

  lemma GoodSelf(s: State)
    requires KernelInv(s)
    ensures Good(s, s)
  {
    RecordedSame(s, s);
  }

  lemma HandOverGood(s: State, c: nat, d: nat, m: Body)
    requires KernelInv(s) && c < |s.procs| && d < |s.procs| && WillReceive(s.procs[d], c)
    ensures Good(s, HandOver(s, c, d, m)) && IpcSame(FlatHandOver(s, c, d, m), HandOver(s, c, d, m))
  {
    HandOverKeeps(s, c, d, m);
    assert Receiving(s, d);
    HandOverRecorded(s, c, d, m);
  }

  lemma ParkGood(s: State, c: nat, d: nat, m: Body)
    requires MaySend(s, c, d) && NO_ENDPOINT !in s.procs[d].flags
    requires !WillReceive(s.procs[d], c) && !Reaches(s.procs, d, c)
    ensures Good(s, Park(s, c, d, m)) && IpcSame(FlatPark(s, c, d, m), Park(s, c, d, m))
  {
    assert MayPark(s, c, d);
    ParkKeeps(s, c, d, m);
    ParkRecorded(s, c, d, m);
  }

  lemma HandOverRecorded(s: State, c: nat, d: nat, m: Body)
    requires Shape(s) && d < |s.procs| && s.procs[d].delivermsg == None
    requires IpcSame(FlatHandOver(s, c, d, m), HandOver(s, c, d, m))
    ensures Recorded(s, HandOver(s, c, d, m))
  {
    RecordedOne(s, HandOver(s, c, d, m), Receipt(|s.sends|, d, Letter(c, m)));
  }

  lemma ParkRecorded(s: State, c: nat, d: nat, m: Body)
    requires Shape(s) && c < |s.procs| && d < |s.procs|
    requires IpcSame(FlatPark(s, c, d, m), Park(s, c, d, m))
    ensures Recorded(s, Park(s, c, d, m))
  {
    RecordedSame(s, Park(s, c, d, m));
  }

  lemma TakeFromRecorded(s: State, c: nat, k: nat)
    requires Shape(s) && c < |s.procs| && k < |s.callers[c]|
    requires s.callers[c][k] < |s.procs| && s.procs[c].delivermsg == None
    requires IpcSame(FlatTakeFrom(s, c, k), TakeFrom(s, c, k))
    ensures Recorded(s, TakeFrom(s, c, k))
  {
    var sender := s.callers[c][k];
    RecordedOne(s, TakeFrom(s, c, k), Receipt(s.tickets[sender], c, Letter(sender, s.procs[sender].sendmsg)));
  }

  lemma MiniReceiveKeeps(s: State, c: nat, src: Endpoint, nonBlocking: bool)
    requires KernelInv(s) && MayReceive(s, c, src)
    ensures var (code, t) := MiniReceive(s, c, src, nonBlocking);
            Good(s, t) && (code != OK ==> t == s)
  {
    var r := MiniReceive(s, c, src, nonBlocking);
    if src.Slot? && NO_ENDPOINT in s.procs[src.n].flags {
      GoodSelf(s);
      assert r == (EDEADSRCDST, s);
    } else if Note(s, c, src).Some? {
      TakeNotificationKeeps(s, c, Note(s, c, src).value);
      assert r == (OK, TakeNotification(s, c, Note(s, c, src).value));
    } else if Waiter(s, c, src) < |s.callers[c]| {
      ReceiveMayTake(s, c, src);
      TakeFromGood(s, c, Waiter(s, c, src));
      assert r == (OK, TakeFrom(s, c, Waiter(s, c, src)));
    } else {
      BlockOrRefuseKeeps(s, c, src, nonBlocking);
      assert r == BlockOrRefuse(s, c, src, nonBlocking);
    }
  }

  lemma ReceiveMayTake(s: State, c: nat, src: Endpoint)
    requires MayReceive(s, c, src) && Waiter(s, c, src) < |s.callers[c]|
    ensures MayTake(s, c, Waiter(s, c, src)) && s.procs[c].delivermsg == None
  {}

  lemma TakeFromGood(s: State, c: nat, k: nat)
    requires KernelInv(s) && MayTake(s, c, k) && s.procs[c].delivermsg == None
    ensures Good(s, TakeFrom(s, c, k))
  {
    TakeFromKeeps(s, c, k);
    TakeFromRecorded(s, c, k);
  }

  lemma BlockOrRefuseKeeps(s: State, c: nat, src: Endpoint, nonBlocking: bool)
    requires KernelInv(s) && MayReceive(s, c, src) && (src.Slot? ==> NO_ENDPOINT !in s.procs[src.n].flags)
    requires Note(s, c, src) == None && Waiter(s, c, src) == |s.callers[c]|
    ensures var (code, t) := BlockOrRefuse(s, c, src, nonBlocking);
            Good(s, t) && (code != OK ==> t == s)
  {
    GoodSelf(s);
    if !nonBlocking && !(src.Slot? && Reaches(s.procs, src.n, c)) {
      ReceiveMayBlock(s, c, src);
      BlockReceivingKeeps(s, c, src);
      BlockRecorded(s, c, src);
    }
  }

  lemma BlockRecorded(s: State, c: nat, src: Endpoint)
    requires Shape(s) && c < |s.procs|
    requires IpcSame(FlatBlockReceiving(s, c, src), BlockReceiving(s, c, src))
    ensures Recorded(s, BlockReceiving(s, c, src))
  {
    RecordedSame(s, BlockReceiving(s, c, src));
  }

  // When mini_receive gets as far as blocking, nothing acceptable was there to take.
  lemma ReceiveMayBlock(s: State, c: nat, src: Endpoint)
    requires KernelInv(s) && MayReceive(s, c, src)
    requires src.Slot? ==> NO_ENDPOINT !in s.procs[src.n].flags && !Reaches(s.procs, src.n, c)
    requires Note(s, c, src) == None && Waiter(s, c, src) == |s.callers[c]|
    ensures MayBlock(s, c, src)
  {
    if src == ANY && !Sending(s, c) && !s.procs[c].replyPend {
      ScanAny(s.procs[c].notify, 0, Chunks(s));
    }
  }

  lemma TakeNotificationKeeps(s: State, c: nat, i: nat)
    requires KernelInv(s) && c < |s.procs| && !Receiving(s, c) && s.procs[c].delivermsg == None
    ensures Good(s, TakeNotification(s, c, i))
  {
    SetSlot(s, c, s.procs[c].(delivermsg := Some(Notice(i)), notify := s.procs[c].notify - {i}));
    NotificationRecorded(s, c, i);
  }

  lemma NotificationRecorded(s: State, c: nat, i: nat)
    requires c < |s.procs| && s.procs[c].delivermsg == None
    ensures Recorded(s, TakeNotification(s, c, i))
  {
    PostedNone(s, TakeNotification(s, c, i));
  }

  // Rewriting the quiet fields of a process that is not receiving.
  lemma SetSlot(s: State, c: nat, v: Proc)
    requires KernelInv(s) && c < |s.procs| && !Receiving(s, c)
    requires v == s.procs[c].(notify := v.notify, replyPend := v.replyPend, delivermsg := v.delivermsg)
    requires forall i :: i in v.notify ==> i < |s.procs| && i != c
    ensures KernelInv(With(s, c, v)) && (PriorityInv(s) ==> PriorityInv(With(s, c, v)))
  {
    QuietKeeps(s, c, v);
    SlotKeeps(s, c, v);
    if PriorityInv(s) { SlotPriority(s, c, v); }
  }

  lemma MiniNotifyKeeps(s: State, from: nat, e: Endpoint)
    requires KernelInv(s) && from < |s.procs| && e != Slot(from)
    ensures Good(s, MiniNotify(s, from, e).1)
  {
    if IsOkEndpoint(s, e) {
      var d := e.n;
      if WillReceive(s.procs[d], from) && !s.procs[d].replyPend {
        NotifyDelivered(s, from, d);
        FlatNotifyKeeps(s, from, d);
        IpcFrame(FlatNotify(s, from, d), MiniNotify(s, from, e).1);
      } else {
        NotifyRemembered(s, from, d);
      }
    } else {
      GoodSelf(s);
    }
  }

  lemma NotifyRemembered(s: State, from: nat, d: nat)
    requires KernelInv(s) && from < |s.procs| && d < |s.procs| && d != from
    requires !(WillReceive(s.procs[d], from) && !s.procs[d].replyPend)
    ensures Good(s, With(s, d, s.procs[d].(notify := s.procs[d].notify + {from})))
  {
    var v := s.procs[d].(notify := s.procs[d].notify + {from});
    QuietKeeps(s, d, v);
    SlotKeeps(s, d, v);
    if PriorityInv(s) { SlotPriority(s, d, v); }
    if FreeInv(s) { SlotFree(s, d, v); }
    RecordedSame(s, With(s, d, v));
  }

  lemma NotifyDelivered(s: State, from: nat, d: nat)
    requires ReadyInv(s) && FreeInv(s) && d < |s.procs| && WillReceive(s.procs[d], from) && !s.procs[d].replyPend
    ensures var t := MiniNotify(s, from, Slot(d)).1;
            && Kept(s, FlatNotify(s, from, d), t)
            && (s.procs[d].delivermsg == None ==> Recorded(s, t))
  {
    var v := s.procs[d].(delivermsg := Some(Notice(from)));
    UnsetKept(s, d, v, {RECEIVING});
    assert With(With(s, d, v), d, v.(flags := s.procs[d].flags - {RECEIVING})) == FlatNotify(s, from, d);
    NotifyRecorded(s, from, d, RtsUnset(With(s, d, v), d, {RECEIVING}));
  }

  lemma NotifyRecorded(s: State, from: nat, d: nat, t: State)
    requires d < |s.procs| && IpcSame(FlatNotify(s, from, d), t)
    ensures s.procs[d].delivermsg == None ==> Recorded(s, t)
  {
    if s.procs[d].delivermsg == None { RecordedFrame(s, FlatNotify(s, from, d), t); }
  }

  // A notification is not lost: its target has it delivered, or pending; nobody else is concerned.
  lemma NotifyArrives(s: State, from: nat, d: nat)
    requires ReadyInv(s) && d < |s.procs| && !IsEmpty(s.procs[d])
    ensures var (code, t) := MiniNotify(s, from, Slot(d));
            && code == OK
            && (if WillReceive(s.procs[d], from) && !s.procs[d].replyPend
                then t.procs[d].delivermsg == Some(Notice(from)) && BlockedOn(t.procs[d]) == NONE
                     && t.procs[d].notify == s.procs[d].notify
                else t.procs[d].notify == s.procs[d].notify + {from} && t.procs[d].delivermsg == s.procs[d].delivermsg)
            && forall p :: 0 <= p < |s.procs| && p != d ==>
                 t.procs[p].notify == s.procs[p].notify && t.procs[p].delivermsg == s.procs[p].delivermsg
  {
    if WillReceive(s.procs[d], from) && !s.procs[d].replyPend {
      var v := s.procs[d].(delivermsg := Some(Notice(from)));
      SlotKeeps(s, d, v);
      UnsetOnly(With(s, d, v), d, {RECEIVING});
    }
  }

  // Nor does it multiply: a receive either leaves all pending notifications alone, or takes one
  // acceptable one of the caller's and delivers it, from the process it came from.
  lemma NotificationTaken(s: State, c: nat, src: Endpoint, nonBlocking: bool)
    requires ReadyInv(s) && QueueInv(s) && c < |s.procs| && Live(s.procs[c])
    requires src != NONE && (src.Slot? ==> src.n < |s.procs|) && forall n :: n in s.procs[c].notify ==> n < |s.procs|
    ensures NotesAfter(s, MiniReceive(s, c, src, nonBlocking).1, c, src)
  {
    var note, k := Note(s, c, src), Waiter(s, c, src);
    if src.Slot? && NO_ENDPOINT in s.procs[src.n].flags {
    } else if note.Some? {
      ScannedNote(s, c, src, note.value);
    } else if k < |s.callers[c]| {
      assert Sending(s, s.callers[c][k]);
      TakeLeavesNotes(s, c, k, src);
    } else {
      BlockLeavesNotes(s, c, src, nonBlocking);
    }
  }

  ghost predicate NotesAfter(s: State, t: State, c: nat, src: Endpoint)
    requires c < |s.procs|
  {
    && |t.procs| == |s.procs|
    && (forall p :: 0 <= p < |s.procs| && p != c ==> t.procs[p].notify == s.procs[p].notify)
    && (t.procs[c].notify == s.procs[c].notify || TookNote(s.procs[c], t.procs[c], src))
  }

  lemma ScannedNote(s: State, c: nat, src: Endpoint, i: nat)
    requires c < |s.procs| && src != NONE && NotifyScan(s.procs[c].notify, src, 0, Chunks(s)) == Some(i)
    requires forall n :: n in s.procs[c].notify ==> n < |s.procs|
    ensures NotesAfter(s, TakeNotification(s, c, i), c, src)
  {
    if src == ANY {
      ScanAny(s.procs[c].notify, 0, Chunks(s));
    } else {
      ScanSource(s.procs[c].notify, src.n, 0, Chunks(s));
    }
    assert i in s.procs[c].notify && Acceptable(src, i);
  }

  lemma NotesLeft(s: State, u: State, t: State, c: nat, src: Endpoint)
    requires c < |s.procs| && IpcSame(u, t) && |u.procs| == |s.procs|
    requires forall p :: 0 <= p < |s.procs| ==> u.procs[p].notify == s.procs[p].notify
    ensures NotesAfter(s, t, c, src)
  {}

  lemma TakeLeavesNotes(s: State, c: nat, k: nat, src: Endpoint)
    requires ReadyInv(s) && c < |s.procs| && k < |s.callers[c]| && s.callers[c][k] < |s.procs| && s.callers[c][k] != c
    ensures NotesAfter(s, TakeFrom(s, c, k), c, src)
  {
    TakeFromSame(s, c, k);
    FlatTakeNotes(s, c, k);
    NotesLeft(s, FlatTakeFrom(s, c, k), TakeFrom(s, c, k), c, src);
  }

  lemma FlatTakeNotes(s: State, c: nat, k: nat)
    requires Shape(s) && c < |s.procs| && k < |s.callers[c]| && s.callers[c][k] < |s.procs|
    ensures forall p :: 0 <= p < |s.procs| ==> FlatTakeFrom(s, c, k).procs[p].notify == s.procs[p].notify
  {}

  lemma BlockLeavesNotes(s: State, c: nat, src: Endpoint, nonBlocking: bool)
    requires ReadyInv(s) && c < |s.procs| && Live(s.procs[c]) && (src.Slot? ==> src.n < |s.procs|)
    ensures NotesAfter(s, BlockOrRefuse(s, c, src, nonBlocking).1, c, src)
  {
    BlockReceivingSame(s, c, src);
    NotesLeft(s, FlatBlockReceiving(s, c, src), BlockReceiving(s, c, src), c, src);
  }

  ghost predicate TookNote(was: Proc, p: Proc, src: Endpoint) {
    exists i :: i in was.notify && Acceptable(src, i) && p.notify == was.notify - {i} && p.delivermsg == Some(Notice(i))
  }

  // ----- do_sync_ipc -----

  // The current process may trap: it runs, and its last message has been delivered to it.
  ghost predicate MayTrap(s: State) {
    KernelInv(s) && Runnable(s.procs[s.cur]) && s.procs[s.cur].delivermsg == None
  }

  // Nothing checks that a receive names another process.
  predicate SelfReceive(s: State, call: Call, e: Endpoint)
    requires s.cur < |s.procs|
  {
    call == RECEIVE && e == Slot(s.cur)
  }

  lemma DoSyncIpcKeeps(s: State, call: Call, e: Endpoint, m: Body, copyOk: bool)
    requires MayTrap(s) && !SelfReceive(s, call, e)
    ensures Good(s, DoSyncIpc(s, call, e, m, copyOk).1)
  {
    var c := s.cur;
    if Checked(s, call, e) == OK {
      match call
      case SEND => MiniSendKeeps(s, c, e.n, m, false, copyOk);
      case SENDNB => MiniSendKeeps(s, c, e.n, m, true, copyOk);
      case NOTIFY => MiniNotifyKeeps(s, c, e);
      case RECEIVE => ReceiveTrapKeeps(s, e);
      case SENDREC => SendrecKeeps(s, e.n, m, copyOk);
    } else {
      GoodSelf(s);
    }
  }

  lemma ReceiveTrapKeeps(s: State, e: Endpoint)
    requires MayTrap(s) && (e == ANY || (IsOkEndpoint(s, e) && e.n != s.cur))
    ensures Good(s, MiniReceive(With(s, s.cur, s.procs[s.cur].(replyPend := false)), s.cur, e, false).1)
  {
    var v := s.procs[s.cur].(replyPend := false);
    var s0 := With(s, s.cur, v);
    SetSlot(s, s.cur, v);
    ReceiveTrapMay(s, e, s0);
    MiniReceiveKeeps(s0, s.cur, e, false);
    GoodTrans(s, s0, MiniReceive(s0, s.cur, e, false).1);
  }

  lemma ReceiveTrapMay(s: State, e: Endpoint, s0: State)
    requires MayTrap(s) && (e == ANY || (IsOkEndpoint(s, e) && e.n != s.cur))
    requires KernelInv(s0) && s0 == With(s, s.cur, s.procs[s.cur].(replyPend := false))
    requires (PriorityInv(s) ==> PriorityInv(s0))
    ensures MayReceive(s0, s.cur, e) && Good(s, s0)
  {}

  lemma GoodTrans(s: State, t: State, u: State)
    requires Good(s, t) && Good(t, u)
    ensures Good(s, u)
  {
    RecordedTrans(s, t, u);
  }

  function ReplyPending(s: State): State
    requires s.cur < |s.procs|
  {
    With(s, s.cur, s.procs[s.cur].(replyPend := true))
  }

  // SENDREC: once its send was accepted, its receive cannot fail.
  lemma SendrecKeeps(s: State, d: nat, m: Body, copyOk: bool)
    requires MayTrap(s) && d < |s.procs| && d != s.cur && !IsEmpty(s.procs[d])
    ensures var (r, t) := MiniSend(ReplyPending(s), s.cur, d, m, false, copyOk);
            && Good(s, t)
            && (r == OK ==> MayReceive(t, s.cur, Slot(d)) && MiniReceive(t, s.cur, Slot(d), false).0 == OK
                            && Good(s, MiniReceive(t, s.cur, Slot(d), false).1))
  {
    SendrecMaySend(s, d);
    MiniSendKeeps(ReplyPending(s), s.cur, d, m, false, copyOk);
    var (r, t) := MiniSend(ReplyPending(s), s.cur, d, m, false, copyOk);
    GoodTrans(s, ReplyPending(s), t);
    if r == OK {
      SentThenReceives(ReplyPending(s), d, m, t);
      ReceivesAfter(s, d, t);
    }
  }

  lemma ReceivesAfter(s: State, d: nat, t: State)
    requires s.cur < |s.procs| && Good(s, t) && MayReceive(t, s.cur, Slot(d))
    requires NO_ENDPOINT !in t.procs[d].flags && !Reaches(t.procs, d, s.cur)
    ensures MiniReceive(t, s.cur, Slot(d), false).0 == OK && Good(s, MiniReceive(t, s.cur, Slot(d), false).1)
  {
    MiniReceiveKeeps(t, s.cur, Slot(d), false);
    GoodTrans(s, t, MiniReceive(t, s.cur, Slot(d), false).1);
  }

  lemma SendrecMaySend(s: State, d: nat)
    requires MayTrap(s) && d < |s.procs| && d != s.cur && !IsEmpty(s.procs[d])
    ensures MaySend(ReplyPending(s), s.cur, d) && Good(s, ReplyPending(s))
  {
    SetSlot(s, s.cur, s.procs[s.cur].(replyPend := true));
  }

  lemma SentThenReceives(s0: State, d: nat, m: Body, t: State)
    requires MaySend(s0, s0.cur, d) && KernelInv(t) && NO_ENDPOINT !in s0.procs[d].flags
    requires s0.procs[s0.cur].delivermsg == None
    requires if WillReceive(s0.procs[d], s0.cur) then IpcSame(FlatHandOver(s0, s0.cur, d, m), t)
             else IpcSame(FlatPark(s0, s0.cur, d, m), t)
    ensures MayReceive(t, s0.cur, Slot(d)) && NO_ENDPOINT !in t.procs[d].flags && !Reaches(t.procs, d, s0.cur)
  {
    var c := s0.cur;
    if WillReceive(s0.procs[d], c) {
      assert BlockedOn(t.procs[d]) == NONE;
    } else if k: nat :| k > 0 && Follow(t.procs, d, k) == Some(c) {
      assert BlockedOn(t.procs[c]) == Slot(d);
      assert Follow(t.procs, c, k + 1) == Some(c);
      AcyclicHasNoCycle(t.procs);
      assert false;
    }
  }
}
