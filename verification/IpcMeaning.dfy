// What the message-passing calls do, in the fields of the process table.
module IpcMeaning {
  import opened Prelude
  import opened KernelState
  import opened ReadyQueues
  import opened WaitGraph
  import opened IpcSpec
  import opened IpcInvariants
  import opened IpcRuns

  // A slot but for PREEMPTED, which waking somebody else may set.
  function Bare(p: Proc): Proc { p.(flags := p.flags - {PREEMPTED}) }

  // Nobody but a and b has changed.
  ghost predicate OnlyAt(s: State, t: State, a: nat, b: nat) {
    && |t.procs| == |s.procs|
    && forall p :: 0 <= p < |s.procs| && p != a && p != b ==> Bare(t.procs[p]) == Bare(s.procs[p])
  }

  lemma OnlyFlagsBare(s: State, t: State, q: nat, fs: set<Flag>)
    requires q < |s.procs| && OnlyFlags(s, t, q) && t.procs[q].flags == s.procs[q].flags - fs
    ensures OnlyAt(s, t, q, q) && Bare(t.procs[q]) == Bare(s.procs[q].(flags := s.procs[q].flags - fs))
  {
    forall p | 0 <= p < |s.procs| && p != q ensures Bare(t.procs[p]) == Bare(s.procs[p]) {
      assert t.procs[p].flags - {PREEMPTED} == s.procs[p].flags - {PREEMPTED};
    }
  }

  // p is blocked receiving, has nothing left to send, and takes messages from src.
  predicate Expects(p: Proc, src: nat) {
    RECEIVING in p.flags && SENDING !in p.flags && (p.getFrom == ANY || p.getFrom == Slot(src))
  }

  // ----- mini_send -----

  // d has the message, is no longer blocked receiving and no longer waits for a reply.
  ghost predicate Handed(s: State, t: State, c: nat, d: nat, m: Body)
    requires d < |s.procs|
  {
    && OnlyAt(s, t, d, d) && t.callers == s.callers
    && Bare(t.procs[d]) == Bare(s.procs[d].(delivermsg := Some(Letter(c, m)), replyPend := false,
                                            flags := s.procs[d].flags - {RECEIVING}))
  }

  // c holds its message, is blocked sending to d, and is the last on d's queue.
  ghost predicate Queued(s: State, t: State, c: nat, d: nat, m: Body)
    requires c < |s.procs| && d < |s.callers|
  {
    && t.procs == s.procs[c := s.procs[c].(sendmsg := m, sendTo := Slot(d), flags := s.procs[c].flags + {SENDING})]
    && t.callers == s.callers[d := s.callers[d] + [c]]
  }

  lemma HandOverMeaning(s: State, c: nat, d: nat, m: Body)
    requires ReadyInv(s) && d < |s.procs|
    ensures Handed(s, HandOver(s, c, d, m), c, d, m)
  {
    var v := s.procs[d].(delivermsg := Some(Letter(c, m)), replyPend := false);
    UnsetSame(s, d, v, d, {RECEIVING});
    OnlyFlagsBare(With(s, d, v), RtsUnset(With(s, d, v), d, {RECEIVING}), d, {RECEIVING});
  }

  lemma ParkMeaning(s: State, c: nat, d: nat, m: Body)
    requires ReadyInv(s) && c < |s.procs| && d < |s.procs|
    ensures Queued(s, Park(s, c, d, m), c, d, m)
  {
    SetSame(s, c, s.procs[c].(sendmsg := m), {SENDING});
  }

  // Each outcome of mini_send, from what d is doing: who is handed the message, who has to queue,
  // and which refusal wins.
  lemma SendMeaning(s: State, c: nat, d: nat, m: Body, nonBlocking: bool, copyOk: bool)
    requires MaySend(s, c, d)
    ensures var (code, t) := MiniSend(s, c, d, m, nonBlocking, copyOk);
            var p := s.procs[d];
            var gone := NO_ENDPOINT in p.flags;
            var waits := Expects(p, c);
            var locks := Reaches(s.procs, d, c);
            && (code == EDEADSRCDST <==> gone)
            && (code == ENOTREADY <==> !gone && !waits && nonBlocking)
            && (code == ELOCKED <==> !gone && !waits && !nonBlocking && locks)
            && (code == EFAULT <==> !gone && (waits || (!nonBlocking && !locks)) && !copyOk)
            && (code == OK <==> !gone && (waits || (!nonBlocking && !locks)) && copyOk)
            && (code != OK ==> t == s)
            && (code == OK && waits ==> Handed(s, t, c, d, m))
            && (code == OK && !waits ==> Queued(s, t, c, d, m))
  {
    HandOverMeaning(s, c, d, m);
    ParkMeaning(s, c, d, m);
  }

  // ----- mini_receive -----

  // c has the notification from i, which is no longer pending.
  ghost predicate Noticed(s: State, t: State, c: nat, i: nat)
    requires c < |s.procs|
  {
    && t.procs == s.procs[c := s.procs[c].(delivermsg := Some(Notice(i)), notify := s.procs[c].notify - {i})]
    && t.callers == s.callers
  }

  // c has the message of x, which is no longer blocked sending nor on c's queue.
  ghost predicate TookMail(s: State, t: State, c: nat, x: nat)
    requires c < |s.procs| && x < |s.procs| && c < |s.callers|
  {
    && OnlyAt(s, t, c, x) && x != c && |t.callers| == |s.callers|
    && Bare(t.procs[c]) == Bare(s.procs[c].(delivermsg := Some(Letter(x, s.procs[x].sendmsg)), replyPend := false))
    && Bare(t.procs[x]) == Bare(s.procs[x].(flags := s.procs[x].flags - {SENDING}))
    && (forall d :: 0 <= d < |s.callers| && d != c ==> t.callers[d] == s.callers[d])
    && exists k :: 0 <= k < |s.callers[c]| && s.callers[c][k] == x && t.callers[c] == Splice(s.callers[c], k)
  }

  // c is blocked receiving from src; nothing else has happened.
  ghost predicate Blocked(s: State, t: State, c: nat, src: Endpoint)
    requires c < |s.procs|
  {
    && t.procs == s.procs[c := s.procs[c].(getFrom := src, flags := s.procs[c].flags + {RECEIVING})]
    && t.callers == s.callers
  }

  lemma TakeFromMeaning(s: State, c: nat, k: nat)
    requires ReadyInv(s) && c < |s.procs| && k < |s.callers[c]| && s.callers[c][k] < |s.procs| && s.callers[c][k] != c
    ensures TookMail(s, TakeFrom(s, c, k), c, s.callers[c][k])
  {
    var x := s.callers[c][k];
    var v := s.procs[c].(delivermsg := Some(Letter(x, s.procs[x].sendmsg)));
    var s1 := With(s, c, v);
    var s2 := RtsUnset(s1, x, {SENDING});
    UnsetSame(s, c, v, x, {SENDING});
    OnlyFlagsBare(s1, s2, x, {SENDING});
    TakenRest(s, c, x, s1, s2, TakeFrom(s, c, k));
    assert TakeFrom(s, c, k).callers[c] == Splice(s.callers[c], k);
  }

  lemma TakenRest(s: State, c: nat, x: nat, s1: State, s2: State, t: State)
    requires c < |s.procs| && x < |s.procs| && x != c
    requires s1 == With(s, c, s.procs[c].(delivermsg := Some(Letter(x, s.procs[x].sendmsg))))
    requires OnlyAt(s1, s2, x, x) && Bare(s2.procs[x]) == Bare(s1.procs[x].(flags := s1.procs[x].flags - {SENDING}))
    requires t.procs == s2.procs[c := s2.procs[c].(replyPend := false)]
    ensures OnlyAt(s, t, c, x)
    ensures Bare(t.procs[c]) == Bare(s.procs[c].(delivermsg := Some(Letter(x, s.procs[x].sendmsg)), replyPend := false))
    ensures Bare(t.procs[x]) == Bare(s.procs[x].(flags := s.procs[x].flags - {SENDING}))
  {
    assert Bare(s2.procs[c]) == Bare(s1.procs[c]);
    forall p | 0 <= p < |s.procs| && p != c && p != x ensures Bare(t.procs[p]) == Bare(s.procs[p]) {
      assert Bare(s2.procs[p]) == Bare(s1.procs[p]);
    }
  }

  lemma BlockMeaning(s: State, c: nat, src: Endpoint)
    requires ReadyInv(s) && c < |s.procs|
    ensures Blocked(s, BlockReceiving(s, c, src), c, src)
  {
    SetSame(s, c, s.procs[c].(getFrom := src), {RECEIVING});
  }

  // The notification that a receive from src would see: the lowest pending one, and for one source
  // that one if nothing pending is lower in its chunk.
  ghost predicate Visible(pending: set<nat>, src: Endpoint, i: nat) {
    && i in pending
    && (src == ANY ==> forall j :: j in pending ==> i <= j)
    && (src != ANY ==> src == Slot(i) && forall j :: j in pending && j < i ==> j / BITCHUNK_BITS != i / BITCHUNK_BITS)
  }

  lemma NoteVisible(s: State, c: nat, src: Endpoint)
    requires c < |s.procs| && src != NONE && forall i :: i in s.procs[c].notify ==> i < |s.procs|
    ensures SENDING in s.procs[c].flags || s.procs[c].replyPend ==> Note(s, c, src) == None
    ensures SENDING !in s.procs[c].flags && !s.procs[c].replyPend ==>
              if Note(s, c, src).Some? then Visible(s.procs[c].notify, src, Note(s, c, src).value)
              else forall i :: !Visible(s.procs[c].notify, src, i)
  {
    if SENDING !in s.procs[c].flags && !s.procs[c].replyPend {
      if src == ANY {
        ScanAny(s.procs[c].notify, 0, Chunks(s));
        if Note(s, c, src) == None {
          forall i ensures i !in s.procs[c].notify { assert i in s.procs[c].notify ==> i < 0; }
        }
      } else {
        OneVisible(s, c, src.n);
      }
    }
  }

  lemma OneVisible(s: State, c: nat, x: nat)
    requires c < |s.procs| && forall i :: i in s.procs[c].notify ==> i < |s.procs|
    ensures var r := NotifyScan(s.procs[c].notify, Slot(x), 0, Chunks(s));
            && (r == None || r == Some(x))
            && (r == Some(x) <==> Visible(s.procs[c].notify, Slot(x), x))
  {
    var pending := s.procs[c].notify;
    ScanSource(pending, x, 0, Chunks(s));
    forall j: nat | j < x ensures x / BITCHUNK_BITS * BITCHUNK_BITS <= j <==> j / BITCHUNK_BITS == x / BITCHUNK_BITS {
      SameChunk(j, x);
    }
  }

  lemma SameChunk(j: nat, x: nat)
    requires j < x
    ensures x / BITCHUNK_BITS * BITCHUNK_BITS <= j <==> j / BITCHUNK_BITS == x / BITCHUNK_BITS
  {}

  // x is the acceptable process that has been blocked sending to c for longest.
  ghost predicate LongestWaiting(s: State, c: nat, src: Endpoint, x: nat) {
    && |s.tickets| == |s.procs| && x < |s.procs|
    && SENDING in s.procs[x].flags && s.procs[x].sendTo == Slot(c) && (src == ANY || src == Slot(x))
    && forall y :: 0 <= y < |s.procs| && SENDING in s.procs[y].flags && s.procs[y].sendTo == Slot(c)
                   && (src == ANY || src == Slot(y)) ==>
         s.tickets[x] <= s.tickets[y]
  }

  lemma WaiterLongest(s: State, c: nat, src: Endpoint)
    requires IpcInv(s) && c < |s.procs| && SENDING !in s.procs[c].flags
    ensures var k := Waiter(s, c, src);
            if k < |s.callers[c]| then LongestWaiting(s, c, src, s.callers[c][k])
            else forall x :: !LongestWaiting(s, c, src, x)
  {
    LongestWaitingServed(s, c, src);
    var k := FirstAcceptable(s.callers[c], src);
    if k < |s.callers[c]| { assert Sending(s, s.callers[c][k]); }
  }

  // There is a notification for c to take, if it is neither sending nor waiting for a reply ...
  ghost predicate HasNote(s: State, c: nat, src: Endpoint)
    requires c < |s.procs|
  {
    var p := s.procs[c];
    SENDING !in p.flags && !p.replyPend && exists i :: Visible(p.notify, src, i)
  }

  // ... or a message.
  ghost predicate HasMail(s: State, c: nat, src: Endpoint)
    requires c < |s.procs|
  {
    SENDING !in s.procs[c].flags && exists x :: LongestWaiting(s, c, src, x)
  }

  // A visible notification goes first; then the longest-waiting sender; c blocks if there is neither.
  ghost predicate Receives(s: State, t: State, c: nat, src: Endpoint)
    requires c < |s.procs| == |s.callers|
  {
    if HasNote(s, c, src) then exists i :: Visible(s.procs[c].notify, src, i) && Noticed(s, t, c, i)
    else if HasMail(s, c, src) then exists x :: LongestWaiting(s, c, src, x) && TookMail(s, t, c, x)
    else Blocked(s, t, c, src)
  }

  // Each outcome of mini_receive.
  lemma ReceiveMeaning(s: State, c: nat, src: Endpoint, nonBlocking: bool)
    requires KernelInv(s) && MayReceive(s, c, src)
    ensures var (code, t) := MiniReceive(s, c, src, nonBlocking);
            var gone := src.Slot? && NO_ENDPOINT in s.procs[src.n].flags;
            var there := HasNote(s, c, src) || HasMail(s, c, src);
            var locks := src.Slot? && Reaches(s.procs, src.n, c);
            && (code == EDEADSRCDST <==> gone)
            && (code == ENOTREADY <==> !gone && !there && nonBlocking)
            && (code == ELOCKED <==> !gone && !there && !nonBlocking && locks)
            && (code == OK <==> !gone && (there || (!nonBlocking && !locks)))
            && (if code == OK then Receives(s, t, c, src) else t == s)
  {
    NoteVisible(s, c, src);
    var r := MiniReceive(s, c, src, nonBlocking);
    if src.Slot? && NO_ENDPOINT in s.procs[src.n].flags {
      assert r == (EDEADSRCDST, s);
    } else if Note(s, c, src).Some? {
      assert Noticed(s, TakeNotification(s, c, Note(s, c, src).value), c, Note(s, c, src).value);
      assert r == (OK, TakeNotification(s, c, Note(s, c, src).value));
    } else if Waiter(s, c, src) < |s.callers[c]| {
      TakesMail(s, c, src);
      assert r == (OK, TakeFrom(s, c, Waiter(s, c, src)));
    } else {
      BlockMeaning(s, c, src);
      if SENDING !in s.procs[c].flags { WaiterLongest(s, c, src); }
      assert r == BlockOrRefuse(s, c, src, nonBlocking);
    }
  }

  lemma TakesMail(s: State, c: nat, src: Endpoint)
    requires KernelInv(s) && MayReceive(s, c, src) && Waiter(s, c, src) < |s.callers[c]| && !HasNote(s, c, src)
    ensures s.callers[c][Waiter(s, c, src)] < |s.procs|
    ensures HasMail(s, c, src) && Receives(s, TakeFrom(s, c, Waiter(s, c, src)), c, src)
  {
    WaiterLongest(s, c, src);
    OtherSends(s, c, Waiter(s, c, src));
    TakeFromMeaning(s, c, Waiter(s, c, src));
  }

  lemma OtherSends(s: State, c: nat, k: nat)
    requires QueueInv(s) && c < |s.procs| && k < |s.callers[c]| && !Sending(s, c)
    ensures s.callers[c][k] < |s.procs| && s.callers[c][k] != c
  {
    assert Sending(s, s.callers[c][k]);
  }

  // ----- mini_notify -----

  // A notification is delivered to a process that waits for it and for no reply, and else kept.
  lemma NotifyMeaning(s: State, from: nat, e: Endpoint)
    requires ReadyInv(s)
    ensures var (code, t) := MiniNotify(s, from, e);
            var live := e.Slot? && e.n < |s.procs| && s.procs[e.n].flags != {SLOT_FREE};
            && (code == if live then OK else EDEADSRCDST)
            && (!live ==> t == s)
            && (live ==>
                  var p := s.procs[e.n];
                  && OnlyAt(s, t, e.n, e.n) && t.callers == s.callers
                  && Bare(t.procs[e.n]) ==
                     Bare(if Expects(p, from) && !p.replyPend
                          then p.(delivermsg := Some(Notice(from)), flags := p.flags - {RECEIVING})
                          else p.(notify := p.notify + {from})))
  {
    if IsOkEndpoint(s, e) {
      var v := s.procs[e.n].(delivermsg := Some(Notice(from)));
      UnsetSame(s, e.n, v, e.n, {RECEIVING});
      OnlyFlagsBare(With(s, e.n, v), RtsUnset(With(s, e.n, v), e.n, {RECEIVING}), e.n, {RECEIVING});
    }
  }

  // ----- the checks of do_sync_ipc -----

  // Which refusal wins, and when there is none: the partner must be named, and live; it must be in
  // the caller's send mask; the call must be in its trap mask; and tasks take SENDREC only.
  lemma CheckMeaning(s: State, call: Call, e: Endpoint)
    requires Shape(s)
    ensures var code, p := Checked(s, call, e), s.procs[s.cur];
            var live := e.Slot? && e.n < |s.procs| && s.procs[e.n].flags != {SLOT_FREE};
            var named := e == ANY ==> call == RECEIVE;
            var known := e == ANY || live;
            var allowed := live && call != RECEIVE ==> e.n in p.sendMask;
            var task := live && (call == SEND || call == SENDNB || call == NOTIFY) && e.n < NR_TASKS;
            && (code == EINVAL <==> !named)
            && (code == EDEADSRCDST <==> named && !known)
            && (code == ECALLDENIED <==> named && known && !allowed)
            && (code == ETRAPDENIED <==> named && known && allowed && (call !in p.trapMask || task))
            && (code == OK <==> named && known && allowed && call in p.trapMask && !task)
  {}

  // A refused call changes nothing; the others do what mini_send, mini_receive and mini_notify do.
  lemma RefusedChangesNothing(s: State, call: Call, e: Endpoint, m: Body, copyOk: bool)
    requires Shape(s) && CallersInTable(s) && Checked(s, call, e) != OK
    ensures DoSyncIpc(s, call, e, m, copyOk) == (Checked(s, call, e), s)
  {}

  // ----- RECEIVE -----

  lemma ReceiveTrapStart(s: State, e: Endpoint, s0: State)
    requires MayTrap(s) && (e == ANY || (IsOkEndpoint(s, e) && e.n != s.cur))
    requires s0 == With(s, s.cur, s.procs[s.cur].(replyPend := false))
    ensures KernelInv(s0) && MayReceive(s0, s.cur, e)
  {
    SetSlot(s, s.cur, s.procs[s.cur].(replyPend := false));
    ReceiveTrapMay(s, e, s0);
  }

  // RECEIVE ends the wait for a reply that an earlier SENDREC may have left behind: then every
  // notification counts again.
  lemma ReceiveTrapMeaning(s: State, e: Endpoint, m: Body, copyOk: bool)
    requires MayTrap(s) && Checked(s, RECEIVE, e) == OK && e != Slot(s.cur)
    ensures var c, p := s.cur, s.procs[s.cur];
            var s0 := s.(procs := s.procs[c := p.(replyPend := false)]);
            var (code, t) := DoSyncIpc(s, RECEIVE, e, m, copyOk);
            var gone := e.Slot? && NO_ENDPOINT in s.procs[e.n].flags;
            var noted, there := exists i :: Visible(p.notify, e, i), HasMail(s0, c, e);
            var locks := e.Slot? && Reaches(s.procs, e.n, c);
            && (code == EDEADSRCDST <==> gone)
            && (code == ELOCKED <==> !gone && !noted && !there && locks)
            && (code == OK <==> !gone && (noted || there || !locks))
            && (if code == OK then Receives(s0, t, c, e) else t == s0)
            && (code == OK && noted ==> exists i :: Visible(p.notify, e, i) && Noticed(s0, t, c, i))
  {
    var c := s.cur;
    var s0 := With(s, c, s.procs[c].(replyPend := false));
    ReceiveTrapStart(s, e, s0);
    if e.Slot? { ReachesSame(s.procs, s0.procs, e.n, c); }
    ReceiveMeaning(s0, c, e, false);
    var (code, t) := MiniReceive(s0, c, e, false);
    assert DoSyncIpc(s, RECEIVE, e, m, copyOk) == (code, t);
    NoteThere(s0, c, e, s.procs[c].notify);
  }

  lemma NoteThere(s: State, c: nat, src: Endpoint, pending: set<nat>)
    requires c < |s.procs| && SENDING !in s.procs[c].flags && !s.procs[c].replyPend && s.procs[c].notify == pending
    ensures HasNote(s, c, src) <==> exists i :: Visible(pending, src, i)
  {}

  // ----- SENDNB and SENDREC -----

  // SENDNB never blocks its caller.
  lemma SendnbNeverBlocks(s: State, e: Endpoint, m: Body, copyOk: bool)
    requires MayTrap(s)
    ensures var (code, t) := DoSyncIpc(s, SENDNB, e, m, copyOk);
            && SENDING !in t.procs[s.cur].flags && RECEIVING !in t.procs[s.cur].flags
            && (code != OK ==> t == s)
  {
    if Checked(s, SENDNB, e) == OK {
      var (code, t) := MiniSend(s, s.cur, e.n, m, true, copyOk);
      SendMeaning(s, s.cur, e.n, m, true, copyOk);
      if code == OK { CallerRuns(s, t, s.cur, e.n, m); }
    }
  }

  lemma CallerRuns(s: State, t: State, c: nat, d: nat, m: Body)
    requires c < |s.procs| && d < |s.procs| && Runnable(s.procs[c]) && RECEIVING in s.procs[d].flags
    requires Handed(s, t, c, d, m)
    ensures SENDING !in t.procs[c].flags && RECEIVING !in t.procs[c].flags
  {
    assert Bare(t.procs[c]) == Bare(s.procs[c]);
    var fs := t.procs[c].flags - {PREEMPTED};
    assert fs == Bare(t.procs[c]).flags == {};
    assert SENDING !in fs && RECEIVING !in fs;
  }

  // It is refused with ENOTREADY exactly when it passes the checks and its partner is there but not
  // waiting for it.
  lemma SendnbNotReady(s: State, e: Endpoint, m: Body, copyOk: bool)
    requires MayTrap(s)
    ensures DoSyncIpc(s, SENDNB, e, m, copyOk).0 == ENOTREADY <==>
              && e.Slot? && e.n < |s.procs| && s.procs[e.n].flags != {SLOT_FREE} && e.n >= NR_TASKS
              && e.n in s.procs[s.cur].sendMask && SENDNB in s.procs[s.cur].trapMask
              && NO_ENDPOINT !in s.procs[e.n].flags && !Expects(s.procs[e.n], s.cur)
  {
    CheckMeaning(s, SENDNB, e);
    if Checked(s, SENDNB, e) == OK { SendMeaning(s, s.cur, e.n, m, true, copyOk); }
  }

  // The caller of SENDREC after its send was accepted: blocked receiving from the partner, shielded
  // from notifications, with nothing in its delivery slot. While it is blocked sending, too, it is
  // on the partner's queue.
  ghost predicate Awaits(s: State, p: nat, d: nat) {
    && p < |s.procs|
    && RECEIVING in s.procs[p].flags && s.procs[p].getFrom == Slot(d)
    && s.procs[p].replyPend && s.procs[p].delivermsg == None
  }

  // What an accepted SENDREC leaves: the partner has the message, or the caller is on its queue.
  ghost predicate Sendreced(s: State, t: State, d: nat, m: Body)
    requires s.cur < |s.procs| && d < |s.procs| && d < |s.callers|
  {
    var c, p := s.cur, s.procs[d];
    && |t.procs| == |s.procs| && Awaits(t, c, d)
    && if Expects(p, c) then
         && OnlyAt(s, t, c, d) && t.callers == s.callers
         && Bare(t.procs[c]) == Bare(s.procs[c].(replyPend := true, getFrom := Slot(d),
                                                 flags := s.procs[c].flags + {RECEIVING}))
         && Bare(t.procs[d]) == Bare(p.(delivermsg := Some(Letter(c, m)), replyPend := false,
                                        flags := p.flags - {RECEIVING}))
       else
         && OnlyAt(s, t, c, c) && t.callers == s.callers[d := s.callers[d] + [c]]
         && t.procs[c] == s.procs[c].(replyPend := true, getFrom := Slot(d), sendmsg := m, sendTo := Slot(d),
                                      flags := s.procs[c].flags + {SENDING} + {RECEIVING})
  }

  // SENDREC, in all outcomes: no notification, and no message but a later one from the partner, can
  // be its reply.
  lemma SendrecMeaning(s: State, d: nat, m: Body, copyOk: bool)
    requires MayTrap(s) && Checked(s, SENDREC, Slot(d)) == OK
    ensures var (code, t) := DoSyncIpc(s, SENDREC, Slot(d), m, copyOk);
            var gone, waits := NO_ENDPOINT in s.procs[d].flags, Expects(s.procs[d], s.cur);
            var locks := Reaches(s.procs, d, s.cur);
            && (code == EDEADSRCDST <==> gone)
            && (code == ELOCKED <==> !gone && !waits && locks)
            && (code == EFAULT <==> !gone && (waits || !locks) && !copyOk)
            && (code == OK <==> !gone && (waits || !locks) && copyOk)
            && (code != OK ==> t == With(s, s.cur, s.procs[s.cur].(replyPend := true)))
            && (code == OK ==> Sendreced(s, t, d, m))
  {
    var c, s0 := s.cur, ReplyPending(s);
    SendrecMaySend(s, d);
    ReachesSame(s.procs, s0.procs, d, c);
    SendMeaning(s0, c, d, m, false, copyOk);
    var (r, t) := MiniSend(s0, c, d, m, false, copyOk);
    assert DoSyncIpc(s, SENDREC, Slot(d), m, copyOk) == if r != OK then (r, t) else MiniReceive(t, c, Slot(d), false);
    if r == OK { ReceiveHalf(s, d, m, copyOk, t); }
  }

  lemma ReceiveHalf(s: State, d: nat, m: Body, copyOk: bool, t: State)
    requires MayTrap(s) && Checked(s, SENDREC, Slot(d)) == OK
    requires MiniSend(ReplyPending(s), s.cur, d, m, false, copyOk) == (OK, t) && HalfSent(s, d, m, t)
    ensures MiniReceive(t, s.cur, Slot(d), false).0 == OK
    ensures Sendreced(s, MiniReceive(t, s.cur, Slot(d), false).1, d, m)
  {
    SendrecKeeps(s, d, m, copyOk);
    NothingToTake(s, d, m, t);
    ReceiveMeaning(t, s.cur, Slot(d), false);
    SendrecBlocks(s, d, m, t, MiniReceive(t, s.cur, Slot(d), false).1);
  }

  // What the send half of an accepted SENDREC leaves.
  ghost predicate HalfSent(s: State, d: nat, m: Body, t: State) {
    && s.cur < |s.procs| && d < |s.callers| == |s.procs| && d != s.cur
    && RECEIVING !in s.procs[s.cur].flags && SENDING !in s.procs[s.cur].flags && s.procs[s.cur].delivermsg == None
    && if Expects(s.procs[d], s.cur) then Handed(ReplyPending(s), t, s.cur, d, m)
       else Queued(ReplyPending(s), t, s.cur, d, m)
  }

  lemma NothingToTake(s: State, d: nat, m: Body, t: State)
    requires HalfSent(s, d, m, t)
    ensures |t.procs| == |s.procs| && t.procs[s.cur].replyPend
    ensures SENDING !in t.procs[s.cur].flags ==> forall x :: !LongestWaiting(t, s.cur, Slot(d), x)
  {
    if SENDING !in t.procs[s.cur].flags {
      assert Bare(t.procs[s.cur]) == Bare(ReplyPending(s).procs[s.cur]);
      assert SENDING !in Bare(t.procs[d]).flags;
    }
  }

  lemma SendrecBlocks(s: State, d: nat, m: Body, t: State, u: State)
    requires HalfSent(s, d, m, t) && |t.procs| == |s.procs| && Blocked(t, u, s.cur, Slot(d))
    ensures Sendreced(s, u, d, m)
  {
    var c, p := s.cur, s.procs[d];
    if Expects(p, c) {
      assert Bare(t.procs[c]) == Bare(ReplyPending(s).procs[c]);
      assert (t.procs[c].flags + {RECEIVING}) - {PREEMPTED} == (t.procs[c].flags - {PREEMPTED}) + {RECEIVING};
      forall q | 0 <= q < |s.procs| && q != c && q != d ensures Bare(u.procs[q]) == Bare(s.procs[q]) {
        assert Bare(t.procs[q]) == Bare(ReplyPending(s).procs[q]);
      }
    }
  }
}
