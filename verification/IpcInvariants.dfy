// What every message-passing operation keeps.
module IpcInvariants {
  import opened Prelude
  import opened KernelState
  import opened ReadyQueues
  import opened WaitGraph
  import opened IpcSpec

  predicate Live(p: Proc) { SLOT_FREE !in p.flags && NO_ENDPOINT !in p.flags }
  predicate Sending(s: State, p: nat) requires p < |s.procs| { SENDING in s.procs[p].flags }
  predicate Receiving(s: State, p: nat) requires p < |s.procs| { RECEIVING in s.procs[p].flags }

  // A process is on d's caller queue, once, iff it is blocked sending to d.
  ghost predicate QueueInv(s: State) {
    && |s.callers| == |s.procs|
    && (forall d, i :: 0 <= d < |s.callers| && 0 <= i < |s.callers[d]| ==>
          s.callers[d][i] < |s.procs| && Sending(s, s.callers[d][i]) && s.procs[s.callers[d][i]].sendTo == Slot(d))
    && (forall d :: 0 <= d < |s.callers| ==> NoDup(s.callers[d]))
    && (forall p :: 0 <= p < |s.procs| && Sending(s, p) ==>
          s.procs[p].sendTo.Slot? && s.procs[p].sendTo.n < |s.procs| && p in s.callers[s.procs[p].sendTo.n])
  }

  // Who may be blocked, and on whom. A process that is both sending and receiving is in
  // the middle of a SENDREC, whose two halves have the same partner.
  ghost predicate BlockInv(s: State) {
    && (forall p :: 0 <= p < |s.procs| && (Sending(s, p) || Receiving(s, p)) ==> Live(s.procs[p]))
    && (forall p :: 0 <= p < |s.procs| && Receiving(s, p) ==>
          s.procs[p].getFrom != NONE && s.procs[p].delivermsg == None
          && (Sending(s, p) ==> s.procs[p].getFrom == s.procs[p].sendTo))
    && (forall p :: 0 <= p < |s.procs| && BlockedOn(s.procs[p]).Slot? ==>
          BlockedOn(s.procs[p]).n < |s.procs| && Live(s.procs[BlockedOn(s.procs[p]).n]))
  }

  // Static assignments: nobody may send to itself, schedulers are processes, and
  // notifications come from other processes.
  ghost predicate PrivInv(s: State) {
    forall p :: 0 <= p < |s.procs| ==>
      && p !in s.procs[p].sendMask
      && (forall i :: i in s.procs[p].notify ==> i < |s.procs| && i != p)
      && (s.procs[p].scheduler.Some? ==>
          s.procs[p].scheduler.value < |s.procs| && Live(s.procs[s.procs[p].scheduler.value]))
  }

  // No missed rendezvous.
  ghost predicate RendezvousInv(s: State) {
    && |s.callers| == |s.procs|
    && (forall p, i :: 0 <= p < |s.procs| && Receiving(s, p) && !Sending(s, p) && 0 <= i < |s.callers[p]| ==>
          !Acceptable(s.procs[p].getFrom, s.callers[p][i]))
    && (forall p :: 0 <= p < |s.procs| && Receiving(s, p) && !Sending(s, p)
                    && s.procs[p].getFrom == ANY && !s.procs[p].replyPend ==>
          s.procs[p].notify == {})
  }

  // ----- history -----

  ghost predicate Received(receipts: seq<Receipt>, id: nat) {
    exists i :: 0 <= i < |receipts| && receipts[i].id == id
  }

  ghost predicate Pending(s: State, p: nat, id: nat) {
    p < |s.procs| && p < |s.tickets| && Sending(s, p) && s.tickets[p] == id
  }

  // A blocked sender holds the message it was accepted with, not yet delivered.
  ghost predicate PendingInv(s: State) {
    && |s.tickets| == |s.procs|
    && forall p :: 0 <= p < |s.procs| && Sending(s, p) ==>
         && s.tickets[p] < |s.sends| && s.procs[p].sendTo.Slot?
         && s.sends[s.tickets[p]] == Envelope(p, s.procs[p].sendTo.n, s.procs[p].sendmsg)
         && !Received(s.receipts, s.tickets[p])
  }

  // Deliveries are of accepted sends, unaltered and to their addressee, at most once each.
  ghost predicate ReceiptInv(s: State) {
    && (forall i :: 0 <= i < |s.receipts| ==>
          && s.receipts[i].id < |s.sends| && s.receipts[i].letter.Letter? && s.receipts[i].dst < |s.procs|
          && s.sends[s.receipts[i].id] ==
              Envelope(s.receipts[i].letter.source, s.receipts[i].dst, s.receipts[i].letter.body))
    && (forall i, j :: 0 <= i < j < |s.receipts| ==> s.receipts[i].id != s.receipts[j].id)
  }

  // No accepted send is lost.
  ghost predicate CoverInv(s: State) {
    forall id: nat :: id < |s.sends| ==> Received(s.receipts, id) || exists p :: Pending(s, p, id)
  }

  // Caller queues are in order of acceptance.
  ghost predicate OrderInv(s: State) {
    && |s.callers| == |s.procs| == |s.tickets|
    && forall d, i, j :: 0 <= d < |s.callers| && 0 <= i < j < |s.callers[d]|
                         && s.callers[d][i] < |s.procs| && s.callers[d][j] < |s.procs| ==>
         s.tickets[s.callers[d][i]] < s.tickets[s.callers[d][j]]
  }

  ghost predicate HistoryInv(s: State) {
    PendingInv(s) && ReceiptInv(s) && CoverInv(s) && OrderInv(s)
  }

  lemma ReceivedGrows(receipts: seq<Receipt>, r: Receipt, id: nat)
    ensures Received(receipts + [r], id) <==> Received(receipts, id) || r.id == id
  {
    assert (receipts + [r])[|receipts|] == r;
    if Received(receipts, id) {
      var i :| 0 <= i < |receipts| && receipts[i].id == id;
      assert (receipts + [r])[i].id == id;
    }
  }

  ghost predicate IpcInv(s: State) {
    && Shape(s) && QueueInv(s) && BlockInv(s) && PrivInv(s) && RendezvousInv(s) && HistoryInv(s)
    && Acyclic(s.procs)
  }

  // ----- operations that message passing does not see -----

  // Same but for scheduling: queues, the current process, time, and the flags other than the four below.
  ghost predicate IpcSame(s: State, t: State) {
    && |t.procs| == |s.procs|
    && t == s.(procs := t.procs, ready := t.ready, cur := t.cur)
    && forall p :: 0 <= p < |s.procs| ==>
         && t.procs[p] == s.procs[p].(flags := t.procs[p].flags, priority := t.procs[p].priority,
                                      timeLeft := t.procs[p].timeLeft, quantum := t.procs[p].quantum)
         && (SENDING in t.procs[p].flags <==> SENDING in s.procs[p].flags)
         && (RECEIVING in t.procs[p].flags <==> RECEIVING in s.procs[p].flags)
         && (SLOT_FREE in t.procs[p].flags <==> SLOT_FREE in s.procs[p].flags)
         && (NO_ENDPOINT in t.procs[p].flags <==> NO_ENDPOINT in s.procs[p].flags)
  }

  lemma IpcFrame(s: State, t: State)
    requires IpcInv(s) && IpcSame(s, t) && Shape(t)
    ensures IpcInv(t)
  {
    QueueFrame(s, t);
    BlockFrame(s, t);
    RendezvousFrame(s, t);
    HistoryFrame(s, t);
    AcyclicFrame(s.procs, t.procs);
  }

  lemma QueueFrame(s: State, t: State)
    requires QueueInv(s) && IpcSame(s, t)
    ensures QueueInv(t)
  {}

  lemma BlockFrame(s: State, t: State)
    requires BlockInv(s) && PrivInv(s) && IpcSame(s, t)
    ensures BlockInv(t) && PrivInv(t)
  {}

  lemma RendezvousFrame(s: State, t: State)
    requires RendezvousInv(s) && IpcSame(s, t)
    ensures RendezvousInv(t)
  {}

  lemma HistoryFrame(s: State, t: State)
    requires HistoryInv(s) && IpcSame(s, t)
    ensures HistoryInv(t)
  {
    forall id: nat | id < |t.sends| && !Received(t.receipts, id) ensures exists p :: Pending(t, p, id) {
      var p :| Pending(s, p, id);
      assert Pending(t, p, id);
    }
  }

  lemma AcyclicFrame(procs: seq<Proc>, procs': seq<Proc>)
    requires Acyclic(procs) && |procs'| == |procs|
    requires forall p :: 0 <= p < |procs| && BlockedOn(procs'[p]).Slot? ==> BlockedOn(procs'[p]) == BlockedOn(procs[p])
    ensures Acyclic(procs')
  {
    var rank :| IsRank(procs, rank);
    assert IsRank(procs', rank);
  }

  // ----- the six ways in which message passing changes the table, scheduling aside -----

  function FlatHandOver(s: State, c: nat, d: nat, m: Body): State
    requires d < |s.procs|
  {
    With(s, d, s.procs[d].(delivermsg := Some(Letter(c, m)), replyPend := false,
        flags := s.procs[d].flags - {RECEIVING})).(
      sends := s.sends + [Envelope(c, d, m)],
      receipts := s.receipts + [Receipt(|s.sends|, d, Letter(c, m))])
  }

  function FlatPark(s: State, c: nat, d: nat, m: Body): State
    requires c < |s.procs| && d < |s.callers| && c < |s.tickets|
  {
    With(s, c, s.procs[c].(sendmsg := m, sendTo := Slot(d), flags := s.procs[c].flags + {SENDING})).(
      callers := s.callers[d := s.callers[d] + [c]],
      tickets := s.tickets[c := |s.sends|],
      sends := s.sends + [Envelope(c, d, m)])
  }

  function FlatTakeFrom(s: State, c: nat, k: nat): State
    requires c < |s.procs| && c < |s.callers| && k < |s.callers[c]|
    requires s.callers[c][k] < |s.procs| && s.callers[c][k] < |s.tickets|
  {
    var sender := s.callers[c][k];
    var letter := Letter(sender, s.procs[sender].sendmsg);
    var s1 := With(s, sender, s.procs[sender].(flags := s.procs[sender].flags - {SENDING}));
    With(s1, c, s1.procs[c].(delivermsg := Some(letter), replyPend := false)).(
      callers := s.callers[c := Splice(s.callers[c], k)],
      receipts := s.receipts + [Receipt(s.tickets[sender], c, letter)])
  }

  function FlatBlockReceiving(s: State, c: nat, src: Endpoint): State
    requires c < |s.procs|
  {
    With(s, c, s.procs[c].(getFrom := src, flags := s.procs[c].flags + {RECEIVING}))
  }

  function FlatNotify(s: State, from: nat, d: nat): State
    requires d < |s.procs|
  {
    With(s, d, s.procs[d].(delivermsg := Some(Notice(from)), flags := s.procs[d].flags - {RECEIVING}))
  }

  // Handing over: the receiver stops being blocked.

  lemma HandOverQueues(s: State, c: nat, d: nat, m: Body)
    requires IpcInv(s) && c < |s.procs| && d < |s.procs| && WillReceive(s.procs[d], c)
    ensures QueueInv(FlatHandOver(s, c, d, m)) && RendezvousInv(FlatHandOver(s, c, d, m))
  {}

  lemma HandOverBlocks(s: State, c: nat, d: nat, m: Body)
    requires IpcInv(s) && c < |s.procs| && d < |s.procs| && WillReceive(s.procs[d], c)
    ensures BlockInv(FlatHandOver(s, c, d, m)) && PrivInv(FlatHandOver(s, c, d, m))
  {}

  lemma HandOverHistory(s: State, c: nat, d: nat, m: Body)
    requires IpcInv(s) && c < |s.procs| && d < |s.procs| && WillReceive(s.procs[d], c)
    ensures HistoryInv(FlatHandOver(s, c, d, m))
  {
    var t := FlatHandOver(s, c, d, m);
    var r := Receipt(|s.sends|, d, Letter(c, m));
    forall id: nat ensures Received(t.receipts, id) <==> Received(s.receipts, id) || id == |s.sends| {
      ReceivedGrows(s.receipts, r, id);
    }
    forall id: nat | id < |t.sends| && !Received(t.receipts, id) ensures exists p :: Pending(t, p, id) {
      var p :| Pending(s, p, id);
      assert Pending(t, p, id);
    }
  }

  lemma FlatHandOverKeeps(s: State, c: nat, d: nat, m: Body)
    requires IpcInv(s) && c < |s.procs| && d < |s.procs| && WillReceive(s.procs[d], c)
    ensures IpcInv(FlatHandOver(s, c, d, m))
  {
    HandOverQueues(s, c, d, m);
    HandOverBlocks(s, c, d, m);
    HandOverHistory(s, c, d, m);
    AcyclicFrame(s.procs, FlatHandOver(s, c, d, m).procs);
  }

  // Parking: a process that is not blocked joins a queue, when that closes no cycle.

  ghost predicate MayPark(s: State, c: nat, d: nat) {
    && IpcInv(s) && c < |s.procs| && d < |s.procs| && c != d
    && !Sending(s, c) && !Receiving(s, c) && Live(s.procs[c]) && Live(s.procs[d])
    && !WillReceive(s.procs[d], c)
  }

  lemma ParkQueues(s: State, c: nat, d: nat, m: Body)
    requires QueueInv(s) && |s.tickets| == |s.procs| && c < |s.procs| && d < |s.procs| && !Sending(s, c)
    ensures QueueInv(FlatPark(s, c, d, m))
  {}

  lemma ParkRendezvous(s: State, c: nat, d: nat, m: Body)
    requires MayPark(s, c, d)
    ensures RendezvousInv(FlatPark(s, c, d, m))
  {}

  lemma ParkBlocks(s: State, c: nat, d: nat, m: Body)
    requires MayPark(s, c, d)
    ensures BlockInv(FlatPark(s, c, d, m)) && PrivInv(FlatPark(s, c, d, m))
  {}

  lemma ParkHistory(s: State, c: nat, d: nat, m: Body)
    requires MayPark(s, c, d)
    ensures PendingInv(FlatPark(s, c, d, m)) && ReceiptInv(FlatPark(s, c, d, m)) && CoverInv(FlatPark(s, c, d, m))
  {
    var t := FlatPark(s, c, d, m);
    assert !Received(s.receipts, |s.sends|);
    forall id: nat | id < |t.sends| && !Received(t.receipts, id) ensures exists p :: Pending(t, p, id) {
      if id == |s.sends| {
        assert Pending(t, c, id);
      } else {
        var p :| Pending(s, p, id);
        assert Pending(t, p, id);
      }
    }
  }

  lemma ParkOrder(s: State, c: nat, d: nat, m: Body)
    requires QueueInv(s) && PendingInv(s) && OrderInv(s) && c < |s.procs| && d < |s.procs| && !Sending(s, c)
    ensures OrderInv(FlatPark(s, c, d, m))
  {
    var t := FlatPark(s, c, d, m);
    forall e, i, j | 0 <= e < |t.callers| && 0 <= i < j < |t.callers[e]|
        ensures t.tickets[t.callers[e][i]] < t.tickets[t.callers[e][j]] {
      assert Sending(s, s.callers[e][i]) && s.callers[e][i] == t.callers[e][i] != c;
      if j < |s.callers[e]| { assert Sending(s, s.callers[e][j]) && s.callers[e][j] == t.callers[e][j]; }
    }
  }

  lemma FlatParkKeeps(s: State, c: nat, d: nat, m: Body)
    requires MayPark(s, c, d) && !Reaches(s.procs, d, c)
    ensures IpcInv(FlatPark(s, c, d, m))
  {
    ParkQueues(s, c, d, m);
    ParkRendezvous(s, c, d, m);
    ParkBlocks(s, c, d, m);
    ParkHistory(s, c, d, m);
    ParkOrder(s, c, d, m);
    AddEdge(s.procs, FlatPark(s, c, d, m).procs, c, d);
  }

  // Taking a queued message: the sender stops sending, and may go on to receive the reply.

  ghost predicate MayTake(s: State, c: nat, k: nat) {
    && IpcInv(s) && c < |s.procs| && k < |s.callers[c]|
    && !Sending(s, c) && !Receiving(s, c)
  }

  lemma TakeFromQueues(s: State, c: nat, k: nat)
    requires QueueInv(s) && |s.tickets| == |s.procs| && c < |s.procs| && k < |s.callers[c]| && !Sending(s, c)
    ensures QueueInv(FlatTakeFrom(s, c, k))
  {
    SpliceNoDup(s.callers[c], k);
    var t := FlatTakeFrom(s, c, k);
    var sender := s.callers[c][k];
    assert Sending(s, sender) && s.procs[sender].sendTo == Slot(c);
    forall d, i | 0 <= d < |t.callers| && 0 <= i < |t.callers[d]|
      ensures t.callers[d][i] < |t.procs| && Sending(t, t.callers[d][i]) && t.procs[t.callers[d][i]].sendTo == Slot(d)
    {
      var j := if d == c && i >= k then i + 1 else i;
      assert t.callers[d][i] == s.callers[d][j];
      assert Sending(s, s.callers[d][j]);
      assert t.callers[d][i] != sender;
    }
    forall p | 0 <= p < |t.procs| && Sending(t, p)
      ensures t.procs[p].sendTo.Slot? && t.procs[p].sendTo.n < |t.procs| && p in t.callers[t.procs[p].sendTo.n]
    {
      assert Sending(s, p) && p != sender;
    }
  }

  lemma TakeFromOrder(s: State, c: nat, k: nat)
    requires QueueInv(s) && OrderInv(s) && c < |s.procs| && k < |s.callers[c]|
    ensures OrderInv(FlatTakeFrom(s, c, k))
  {
    var t := FlatTakeFrom(s, c, k);
    forall d, i, j | 0 <= d < |t.callers| && 0 <= i < j < |t.callers[d]|
        ensures t.tickets[t.callers[d][i]] < t.tickets[t.callers[d][j]] {
      var i', j' := if d == c && i >= k then i + 1 else i, if d == c && j >= k then j + 1 else j;
      assert t.callers[d][i] == s.callers[d][i'] && t.callers[d][j] == s.callers[d][j'];
    }
  }

  lemma TakeFromRendezvous(s: State, c: nat, k: nat)
    requires MayTake(s, c, k)
    ensures RendezvousInv(FlatTakeFrom(s, c, k))
  {}

  lemma TakeFromBlocks(s: State, c: nat, k: nat)
    requires MayTake(s, c, k)
    ensures BlockInv(FlatTakeFrom(s, c, k)) && PrivInv(FlatTakeFrom(s, c, k))
  {
    var t := FlatTakeFrom(s, c, k);
    forall p | 0 <= p < |s.procs|
      ensures BlockedOn(t.procs[p]).Slot? ==> BlockedOn(t.procs[p]) == BlockedOn(s.procs[p])
      ensures Live(t.procs[p]) <==> Live(s.procs[p])
    {}
  }

  lemma TakeFromHistory(s: State, c: nat, k: nat)
    requires MayTake(s, c, k)
    ensures PendingInv(FlatTakeFrom(s, c, k)) && ReceiptInv(FlatTakeFrom(s, c, k)) && CoverInv(FlatTakeFrom(s, c, k))
  {
    var t := FlatTakeFrom(s, c, k);
    var sender := s.callers[c][k];
    var r := Receipt(s.tickets[sender], c, Letter(sender, s.procs[sender].sendmsg));
    assert Sending(s, sender) && s.procs[sender].sendTo == Slot(c);
    assert sender != c;
    forall id: nat ensures Received(t.receipts, id) <==> Received(s.receipts, id) || id == s.tickets[sender] {
      ReceivedGrows(s.receipts, r, id);
    }
    forall id: nat | id < |t.sends| && !Received(t.receipts, id) ensures exists p :: Pending(t, p, id) {
      var p :| Pending(s, p, id);
      assert Pending(t, p, id);
    }
  }

  lemma FlatTakeFromKeeps(s: State, c: nat, k: nat)
    requires MayTake(s, c, k)
    ensures IpcInv(FlatTakeFrom(s, c, k))
  {
    TakeFromQueues(s, c, k);
    TakeFromRendezvous(s, c, k);
    TakeFromBlocks(s, c, k);
    TakeFromHistory(s, c, k);
    TakeFromOrder(s, c, k);
    AcyclicFrame(s.procs, FlatTakeFrom(s, c, k).procs);
  }

  // Blocking to receive: nothing acceptable is waiting, or a SENDREC is still sending.

  ghost predicate MayReceive(s: State, c: nat, src: Endpoint) {
    && IpcInv(s) && c < |s.procs| && !Receiving(s, c) && Live(s.procs[c]) && s.procs[c].delivermsg == None
    && src != NONE && (src.Slot? ==> src.n < |s.procs| && src.n != c && SLOT_FREE !in s.procs[src.n].flags)
    && (Sending(s, c) ==> src == s.procs[c].sendTo)
  }

  ghost predicate MayBlock(s: State, c: nat, src: Endpoint) {
    && MayReceive(s, c, src)
    && (src.Slot? ==> Live(s.procs[src.n]) && !Reaches(s.procs, src.n, c))
    && (!Sending(s, c) ==>
          && (forall i :: 0 <= i < |s.callers[c]| ==> !Acceptable(src, s.callers[c][i]))
          && (src == ANY && !s.procs[c].replyPend ==> s.procs[c].notify == {}))
  }

  lemma BlockQueues(s: State, c: nat, src: Endpoint)
    requires MayBlock(s, c, src)
    ensures QueueInv(FlatBlockReceiving(s, c, src)) && RendezvousInv(FlatBlockReceiving(s, c, src))
  {}

  lemma BlockBlocks(s: State, c: nat, src: Endpoint)
    requires MayBlock(s, c, src)
    ensures BlockInv(FlatBlockReceiving(s, c, src)) && PrivInv(FlatBlockReceiving(s, c, src))
  {}

  lemma QuietHistory(s: State, p: nat, v: Proc)
    requires HistoryInv(s) && p < |s.procs|
    requires (SENDING in v.flags <==> Sending(s, p)) && v.sendTo == s.procs[p].sendTo && v.sendmsg == s.procs[p].sendmsg
    ensures HistoryInv(With(s, p, v))
  {
    var t := With(s, p, v);
    forall id: nat | id < |t.sends| && !Received(t.receipts, id) ensures exists q :: Pending(t, q, id) {
      var q :| Pending(s, q, id);
      assert Pending(t, q, id);
    }
  }

  lemma FlatBlockKeeps(s: State, c: nat, src: Endpoint)
    requires MayBlock(s, c, src)
    ensures IpcInv(FlatBlockReceiving(s, c, src))
  {
    var t := FlatBlockReceiving(s, c, src);
    BlockQueues(s, c, src);
    BlockBlocks(s, c, src);
    QuietHistory(s, c, t.procs[c]);
    BlockAcyclic(s, c, src);
  }

  lemma BlockAcyclic(s: State, c: nat, src: Endpoint)
    requires MayBlock(s, c, src)
    ensures Acyclic(FlatBlockReceiving(s, c, src).procs)
  {
    var t := FlatBlockReceiving(s, c, src);
    if Sending(s, c) || src == ANY {
      AcyclicFrame(s.procs, t.procs);
    } else {
      AddEdge(s.procs, t.procs, c, src.n);
    }
  }

  // Notifications: delivered at once, or remembered.

  lemma FlatNotifyKeeps(s: State, from: nat, d: nat)
    requires IpcInv(s) && from < |s.procs| && d < |s.procs| && WillReceive(s.procs[d], from)
    ensures IpcInv(FlatNotify(s, from, d))
  {
    var t := FlatNotify(s, from, d);
    NotifyQueues(s, from, d);
    NotifyBlocks(s, from, d);
    QuietHistory(s, d, t.procs[d]);
    AcyclicFrame(s.procs, t.procs);
  }

  lemma NotifyQueues(s: State, from: nat, d: nat)
    requires QueueInv(s) && RendezvousInv(s) && d < |s.procs|
    ensures QueueInv(FlatNotify(s, from, d)) && RendezvousInv(FlatNotify(s, from, d))
  {}

  lemma NotifyBlocks(s: State, from: nat, d: nat)
    requires IpcInv(s) && from < |s.procs| && d < |s.procs| && WillReceive(s.procs[d], from)
    ensures BlockInv(FlatNotify(s, from, d)) && PrivInv(FlatNotify(s, from, d))
  {}

  // Changes to fields that only a blocked receiver's invariants look at.
  lemma QuietKeeps(s: State, p: nat, v: Proc)
    requires IpcInv(s) && p < |s.procs|
    requires v == s.procs[p].(notify := v.notify, replyPend := v.replyPend, delivermsg := v.delivermsg)
    requires forall i :: i in v.notify ==> i < |s.procs| && i != p
    requires Receiving(s, p) ==>
      v.delivermsg == None && v.replyPend == s.procs[p].replyPend
      && (!Sending(s, p) && v.getFrom == ANY && !v.replyPend ==> v.notify == {})
    ensures IpcInv(With(s, p, v))
  {
    QuietQueues(s, p, v);
    QuietBlocks(s, p, v);
    QuietHistory(s, p, v);
    AcyclicFrame(s.procs, With(s, p, v).procs);
  }

  lemma QuietQueues(s: State, p: nat, v: Proc)
    requires QueueInv(s) && RendezvousInv(s) && p < |s.procs|
    requires v == s.procs[p].(notify := v.notify, replyPend := v.replyPend, delivermsg := v.delivermsg)
    requires Receiving(s, p) && !Sending(s, p) && v.getFrom == ANY && !v.replyPend ==> v.notify == {}
    ensures QueueInv(With(s, p, v)) && RendezvousInv(With(s, p, v))
  {}

  lemma QuietBlocks(s: State, p: nat, v: Proc)
    requires BlockInv(s) && PrivInv(s) && p < |s.procs|
    requires v == s.procs[p].(notify := v.notify, replyPend := v.replyPend, delivermsg := v.delivermsg)
    requires forall i :: i in v.notify ==> i < |s.procs| && i != p
    requires Receiving(s, p) ==> v.delivermsg == None
    ensures BlockInv(With(s, p, v)) && PrivInv(With(s, p, v))
  {}

  // ----- the operations themselves: as above, with the ready queues kept in step -----

  // A free slot has no flag but the free one; the current process has a slot.
  ghost predicate FreeInv(s: State) {
    && s.cur < |s.procs| && SLOT_FREE !in s.procs[s.cur].flags
    && forall p :: 0 <= p < |s.procs| && SLOT_FREE in s.procs[p].flags ==> IsEmpty(s.procs[p])
  }

  ghost predicate KernelInv(s: State) { IpcInv(s) && ReadyInv(s) && FreeInv(s) }

  // The message in p's delivery slot, if there is one; notifications do not count.
  function Mail(s: State, p: nat): seq<Letter>
    requires p < |s.procs|
  {
    match s.procs[p].delivermsg
    case Some(Letter(src, m)) => [Letter(src, m)]
    case _ => []
  }

  // The letters that the receipts say were delivered to p, in order.
  function For(receipts: seq<Receipt>, p: nat): seq<Letter> {
    if receipts == [] then []
    else (if receipts[0].dst == p then [receipts[0].letter] else []) + For(receipts[1..], p)
  }

  lemma {:induction false} ForAppend(a: seq<Receipt>, b: seq<Receipt>, p: nat)
    ensures For(a + b, p) == For(a, p) + For(b, p)
  {
    if a == [] {
      assert a + b == b;
    } else {
      var x := if a[0].dst == p then [a[0].letter] else [];
      assert (a + b)[0] == a[0] && (a + b)[1..] == a[1..] + b;
      assert For(a + b, p) == x + For(a[1..] + b, p);
      ForAppend(a[1..], b, p);
      Associate(x, For(a[1..], p), For(b, p));
    }
  }

  // Each delivery slot has gained exactly the letters that the new receipts say it has.
  ghost predicate Posted(s: State, t: State) {
    && |t.procs| == |s.procs| && s.receipts <= t.receipts
    && forall p :: 0 <= p < |s.procs| ==> Mail(t, p) == Mail(s, p) + For(t.receipts[|s.receipts|..], p)
  }

  lemma PostedNone(s: State, t: State)
    requires |t.procs| == |s.procs| && t.receipts == s.receipts
    requires forall p :: 0 <= p < |s.procs| ==> Mail(t, p) == Mail(s, p)
    ensures Posted(s, t)
  {}

  lemma PostedOne(s: State, t: State, r: Receipt)
    requires |t.procs| == |s.procs| && t.receipts == s.receipts + [r] && r.dst < |s.procs|
    requires Mail(s, r.dst) == [] && Mail(t, r.dst) == [r.letter]
    requires forall p :: 0 <= p < |s.procs| && p != r.dst ==> Mail(t, p) == Mail(s, p)
    ensures Posted(s, t)
  {
    assert t.receipts[|s.receipts|..] == [r];
    forall p | 0 <= p < |s.procs| ensures Mail(t, p) == Mail(s, p) + For([r], p) {
      assert [r][1..] == [];
    }
  }

  lemma PostedTrans(s: State, t: State, u: State)
    requires Posted(s, t) && Posted(t, u)
    ensures Posted(s, u)
  {
    var a, b := t.receipts[|s.receipts|..], u.receipts[|t.receipts|..];
    assert u.receipts[|s.receipts|..] == a + b;
    forall p | 0 <= p < |s.procs| ensures Mail(u, p) == Mail(s, p) + For(a + b, p) {
      ForAppend(a, b, p);
      assert Mail(t, p) == Mail(s, p) + For(a, p) && Mail(u, p) == Mail(t, p) + For(b, p);
    }
  }

  // History only grows, a delivery slot is filled only when it is empty, and what goes into it
  // is what the history says.
  ghost predicate Recorded(s: State, t: State) {
    && s.sends <= t.sends && Posted(s, t)
    && forall p :: 0 <= p < |s.procs| && s.procs[p].delivermsg.Some? ==> t.procs[p].delivermsg == s.procs[p].delivermsg
  }

  lemma RecordedSame(s: State, t: State)
    requires |t.procs| == |s.procs| && t.receipts == s.receipts && s.sends <= t.sends
    requires forall p :: 0 <= p < |s.procs| ==> t.procs[p].delivermsg == s.procs[p].delivermsg
    ensures Recorded(s, t)
  {
    PostedNone(s, t);
  }

  lemma RecordedOne(s: State, t: State, r: Receipt)
    requires |t.procs| == |s.procs| && t.receipts == s.receipts + [r] && s.sends <= t.sends && r.dst < |s.procs|
    requires s.procs[r.dst].delivermsg == None && r.letter.Letter? && t.procs[r.dst].delivermsg == Some(r.letter)
    requires forall p :: 0 <= p < |s.procs| && p != r.dst ==> t.procs[p].delivermsg == s.procs[p].delivermsg
    ensures Recorded(s, t)
  {
    PostedOne(s, t, r);
  }

  lemma RecordedTrans(s: State, t: State, u: State)
    requires Recorded(s, t) && Recorded(t, u)
    ensures Recorded(s, u)
  {
    PostedTrans(s, t, u);
  }

  // What an operation keeps for the scheduler, given its effect u on message passing.
  ghost predicate Kept(s: State, u: State, t: State) {
    && ReadyInv(t) && IpcSame(u, t) && t.cur == s.cur
    && (FreeInv(s) ==> FreeInv(t)) && (PriorityInv(s) ==> PriorityInv(t))
  }

  // If nothing but flags changed, and those of q to fl, message passing sees the change of q only.
  lemma OnlyFlagsSame(s: State, t: State, q: nat, fl: set<Flag>)
    requires q < |s.procs| && OnlyFlags(s, t, q) && t.procs[q].flags == fl
    ensures IpcSame(With(s, q, s.procs[q].(flags := fl)), t)
  {}

  lemma OnlyFlagsFree(s: State, t: State, q: nat, fs: set<Flag>)
    requires FreeInv(s) && q < |s.procs| && OnlyFlags(s, t, q)
    requires SLOT_FREE !in fs && t.procs[q].flags == s.procs[q].flags - fs
    ensures FreeInv(t)
  {}

  lemma SlotFree(s: State, p: nat, v: Proc)
    requires FreeInv(s) && p < |s.procs| && v.flags == s.procs[p].flags
    ensures FreeInv(With(s, p, v))
  {}

  // t results from s by rewriting slot p to v, then clearing or setting flags fs of slot q.
  lemma UnsetSame(s: State, p: nat, v: Proc, q: nat, fs: set<Flag>)
    requires ReadyInv(s) && p < |s.procs| && q < |s.procs| && PREEMPTED !in fs && SLOT_FREE !in fs
    requires v.flags == s.procs[p].flags && v.priority == s.procs[p].priority && v.preemptible == s.procs[p].preemptible
    ensures var s1 := With(s, p, v);
            var t := RtsUnset(s1, q, fs);
            && ReadyInv(t) && IpcSame(With(s1, q, s1.procs[q].(flags := s.procs[q].flags - fs)), t)
            && t.procs[q].flags == s.procs[q].flags - fs
            && OnlyFlags(s1, t, q)
            && (PriorityInv(s) ==> PriorityInv(t)) && (FreeInv(s) ==> FreeInv(t))
  {
    SlotKeeps(s, p, v);
    if PriorityInv(s) { SlotPriority(s, p, v); }
    if FreeInv(s) { SlotFree(s, p, v); }
    UnsetOnly(With(s, p, v), q, fs);
  }

  lemma UnsetOnly(s: State, q: nat, fs: set<Flag>)
    requires ReadyInv(s) && q < |s.procs| && PREEMPTED !in fs && SLOT_FREE !in fs
    ensures var t := RtsUnset(s, q, fs);
            && ReadyInv(t) && IpcSame(With(s, q, s.procs[q].(flags := s.procs[q].flags - fs)), t)
            && t.procs[q].flags == s.procs[q].flags - fs
            && OnlyFlags(s, t, q)
            && (PriorityInv(s) ==> PriorityInv(t)) && (FreeInv(s) ==> FreeInv(t))
  {
    var t := RtsUnset(s, q, fs);
    RtsUnsetKeeps(s, q, fs);
    if PriorityInv(s) { RtsUnsetPriority(s, q, fs); }
    OnlyFlagsSame(s, t, q, s.procs[q].flags - fs);
    if FreeInv(s) { OnlyFlagsFree(s, t, q, fs); }
  }

  lemma SetSame(s: State, p: nat, v: Proc, fs: set<Flag>)
    requires ReadyInv(s) && p < |s.procs|
    requires v.flags == s.procs[p].flags && v.priority == s.procs[p].priority && v.preemptible == s.procs[p].preemptible
    ensures var s1 := With(s, p, v);
            var t := RtsSet(s1, p, fs);
            && ReadyInv(t) && t.procs == s.procs[p := v.(flags := v.flags + fs)]
            && t == s1.(procs := t.procs, ready := t.ready)
            && (PriorityInv(s) ==> PriorityInv(t))
  {
    SlotKeeps(s, p, v);
    if PriorityInv(s) {
      SlotPriority(s, p, v);
    }
    RtsSetKeeps(With(s, p, v), p, fs);
  }

  lemma HandOverKeeps(s: State, c: nat, d: nat, m: Body)
    requires KernelInv(s) && c < |s.procs| && d < |s.procs| && WillReceive(s.procs[d], c)
    ensures KernelInv(HandOver(s, c, d, m)) && Kept(s, FlatHandOver(s, c, d, m), HandOver(s, c, d, m))
  {
    HandOverSame(s, c, d, m);
    FlatHandOverKeeps(s, c, d, m);
    IpcFrame(FlatHandOver(s, c, d, m), HandOver(s, c, d, m));
  }

  // The history and the caller queues do not matter to the scheduler.
  lemma HistoryOnly(u: State, t: State)
    requires ReadyInv(u) && |t.callers| == |t.tickets| == |t.procs|
    requires t == u.(callers := t.callers, tickets := t.tickets, sends := t.sends, receipts := t.receipts)
    ensures ReadyInv(t) && (PriorityInv(u) ==> PriorityInv(t)) && (FreeInv(u) ==> FreeInv(t))
  {}

  lemma HistorySame(a: State, b: State, a': State, b': State)
    requires IpcSame(a, b)
    requires a' == a.(callers := a'.callers, tickets := a'.tickets, sends := a'.sends, receipts := a'.receipts)
    requires b' == b.(callers := a'.callers, tickets := a'.tickets, sends := a'.sends, receipts := a'.receipts)
    ensures IpcSame(a', b')
  {}

  lemma HandOverSame(s: State, c: nat, d: nat, m: Body)
    requires ReadyInv(s) && c < |s.procs| && d < |s.procs|
    ensures Kept(s, FlatHandOver(s, c, d, m), HandOver(s, c, d, m))
  {
    var v := s.procs[d].(delivermsg := Some(Letter(c, m)), replyPend := false);
    var s1 := With(s, d, v);
    var f := With(s1, d, v.(flags := s.procs[d].flags - {RECEIVING}));
    UnsetKept(s, d, v, {RECEIVING});
    assert f.procs == FlatHandOver(s, c, d, m).procs;
    KeptHistory(s, f, RtsUnset(s1, d, {RECEIVING}), FlatHandOver(s, c, d, m), HandOver(s, c, d, m));
  }

  lemma UnsetKept(s: State, d: nat, v: Proc, fs: set<Flag>)
    requires ReadyInv(s) && d < |s.procs| && PREEMPTED !in fs && SLOT_FREE !in fs
    requires v.flags == s.procs[d].flags && v.priority == s.procs[d].priority && v.preemptible == s.procs[d].preemptible
    ensures var s1 := With(s, d, v);
            Kept(s, With(s1, d, v.(flags := s.procs[d].flags - fs)), RtsUnset(s1, d, fs))
  {
    UnsetSame(s, d, v, d, fs);
  }

  lemma KeptHistory(s: State, f: State, u: State, f': State, t: State)
    requires Kept(s, f, u) && |t.callers| == |t.tickets| == |t.procs|
    requires f' == f.(callers := f'.callers, tickets := f'.tickets, sends := f'.sends, receipts := f'.receipts)
    requires t == u.(callers := f'.callers, tickets := f'.tickets, sends := f'.sends, receipts := f'.receipts)
    ensures Kept(s, f', t)
  {
    HistoryOnly(u, t);
    HistorySame(f, u, f', t);
  }

  lemma ParkSame(s: State, c: nat, d: nat, m: Body)
    requires ReadyInv(s) && c < |s.procs| && d < |s.procs| && SLOT_FREE !in s.procs[c].flags
    ensures Kept(s, FlatPark(s, c, d, m), Park(s, c, d, m))
  {
    var v := s.procs[c].(sendmsg := m);
    SetSame(s, c, v, {SENDING});
    var s2 := RtsSet(With(s, c, v), c, {SENDING});
    ParkRest(s, c, d, m, s2);
    var w := s2.procs[c].(sendTo := Slot(d));
    SlotKeeps(s2, c, w);
    if PriorityInv(s) { SlotPriority(s2, c, w); }
    HistoryOnly(With(s2, c, w), Park(s, c, d, m));
  }

  lemma ParkRest(s: State, c: nat, d: nat, m: Body, s2: State)
    requires Shape(s) && c < |s.procs| && d < |s.procs| && SLOT_FREE !in s.procs[c].flags
    requires s2 == RtsSet(With(s, c, s.procs[c].(sendmsg := m)), c, {SENDING})
    requires s2.procs == s.procs[c := s.procs[c].(sendmsg := m, flags := s.procs[c].flags + {SENDING})]
    requires s2 == With(s, c, s.procs[c].(sendmsg := m)).(procs := s2.procs, ready := s2.ready)
    ensures IpcSame(FlatPark(s, c, d, m), Park(s, c, d, m)) && Park(s, c, d, m).cur == s.cur
    ensures FreeInv(s) ==> FreeInv(Park(s, c, d, m))
  {}

  lemma ParkKeeps(s: State, c: nat, d: nat, m: Body)
    requires KernelInv(s) && MayPark(s, c, d) && !Reaches(s.procs, d, c)
    ensures KernelInv(Park(s, c, d, m)) && Kept(s, FlatPark(s, c, d, m), Park(s, c, d, m))
  {
    ParkSame(s, c, d, m);
    FlatParkKeeps(s, c, d, m);
    IpcFrame(FlatPark(s, c, d, m), Park(s, c, d, m));
  }

  lemma TakeFromSame(s: State, c: nat, k: nat)
    requires ReadyInv(s) && c < |s.procs| && k < |s.callers[c]| && s.callers[c][k] < |s.procs| && s.callers[c][k] != c
    ensures Kept(s, FlatTakeFrom(s, c, k), TakeFrom(s, c, k))
  {
    var sender := s.callers[c][k];
    var letter := Letter(sender, s.procs[sender].sendmsg);
    var v := s.procs[c].(delivermsg := Some(letter));
    UnsetSame(s, c, v, sender, {SENDING});
    var s2 := RtsUnset(With(s, c, v), sender, {SENDING});
    var w := s2.procs[c].(replyPend := false);
    SlotKeeps(s2, c, w);
    if PriorityInv(s) { SlotPriority(s2, c, w); }
    if FreeInv(s) { SlotFree(s2, c, w); }
    HistoryOnly(With(s2, c, w), TakeFrom(s, c, k));
    var s1 := With(s, c, v);
    TakeFromLast(s, c, k, With(s1, sender, s1.procs[sender].(flags := s.procs[sender].flags - {SENDING})), s2);
  }

  // The last two assignments of TakeFrom concern the receiver's slot and its queue only.
  lemma TakeFromLast(s: State, c: nat, k: nat, f: State, s2: State)
    requires Shape(s) && c < |s.procs| && k < |s.callers[c]| && s.callers[c][k] < |s.procs| && s.callers[c][k] != c
    requires var sender := s.callers[c][k];
             var s1 := With(s, c, s.procs[c].(delivermsg := Some(Letter(sender, s.procs[sender].sendmsg))));
             && s2 == RtsUnset(s1, sender, {SENDING})
             && f == With(s1, sender, s1.procs[sender].(flags := s.procs[sender].flags - {SENDING}))
    requires IpcSame(f, s2)
    ensures IpcSame(FlatTakeFrom(s, c, k), TakeFrom(s, c, k))
  {
    var f', t' := With(f, c, f.procs[c].(replyPend := false)), With(s2, c, s2.procs[c].(replyPend := false));
    SameSlot(f, s2, c);
    assert f'.procs == FlatTakeFrom(s, c, k).procs;
    HistorySame(f', t', FlatTakeFrom(s, c, k), TakeFrom(s, c, k));
  }

  lemma SameSlot(a: State, b: State, c: nat)
    requires IpcSame(a, b) && c < |a.procs|
    ensures IpcSame(With(a, c, a.procs[c].(replyPend := false)), With(b, c, b.procs[c].(replyPend := false)))
  {}

  lemma TakeFromKeeps(s: State, c: nat, k: nat)
    requires KernelInv(s) && MayTake(s, c, k)
    ensures KernelInv(TakeFrom(s, c, k)) && Kept(s, FlatTakeFrom(s, c, k), TakeFrom(s, c, k))
  {
    TakeFromSame(s, c, k);
    FlatTakeFromKeeps(s, c, k);
    IpcFrame(FlatTakeFrom(s, c, k), TakeFrom(s, c, k));
  }

  lemma BlockReceivingKeeps(s: State, c: nat, src: Endpoint)
    requires KernelInv(s) && MayBlock(s, c, src)
    ensures KernelInv(BlockReceiving(s, c, src)) && Kept(s, FlatBlockReceiving(s, c, src), BlockReceiving(s, c, src))
  {
    BlockReceivingSame(s, c, src);
    FlatBlockKeeps(s, c, src);
    IpcFrame(FlatBlockReceiving(s, c, src), BlockReceiving(s, c, src));
  }

  lemma BlockReceivingSame(s: State, c: nat, src: Endpoint)
    requires ReadyInv(s) && c < |s.procs| && SLOT_FREE !in s.procs[c].flags
    ensures Kept(s, FlatBlockReceiving(s, c, src), BlockReceiving(s, c, src))
    ensures BlockReceiving(s, c, src).procs == FlatBlockReceiving(s, c, src).procs
  {
    var f, t := FlatBlockReceiving(s, c, src), BlockReceiving(s, c, src);
    SetSame(s, c, s.procs[c].(getFrom := src), {RECEIVING});
    assert t.procs == f.procs;
    SameProcs(f, t);
    if FreeInv(s) { StaysFree(s, t, c); }
  }

  lemma SameProcs(f: State, t: State)
    requires t.procs == f.procs && t == f.(procs := t.procs, ready := t.ready)
    ensures IpcSame(f, t)
  {}

  lemma StaysFree(s: State, t: State, c: nat)
    requires FreeInv(s) && c < |s.procs| && SLOT_FREE !in s.procs[c].flags && t.cur == s.cur
    requires |t.procs| == |s.procs| && t.procs == s.procs[c := t.procs[c]]
    requires t.procs[c].flags == s.procs[c].flags + {RECEIVING}
    ensures FreeInv(t)
  {}

  lemma RecordedFrame(s: State, u: State, t: State)
    requires Recorded(s, u) && IpcSame(u, t)
    ensures Recorded(s, t)
  {
    RecordedSame(u, t);
    RecordedTrans(s, u, t);
  }
}
