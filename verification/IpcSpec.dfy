// Specification of synchronous message passing: mini_send, mini_receive, mini_notify,
// do_sync_ipc, and the out-of-quantum message.
module IpcSpec {
  import opened Prelude
  import opened KernelState
  import opened ReadyQueues
  import opened WaitGraph

  predicate Acceptable(src: Endpoint, sender: nat) { src == ANY || src == Slot(sender) }

  // The position of the longest-waiting acceptable sender, |q| if there is none.
  function FirstAcceptable(q: seq<nat>, src: Endpoint): (k: nat)
    ensures k <= |q|
    ensures forall i :: 0 <= i < k ==> !Acceptable(src, q[i])
    ensures k < |q| ==> Acceptable(src, q[k])
  {
    if q == [] || Acceptable(src, q[0]) then 0 else 1 + FirstAcceptable(q[1..], src)
  }

  // The lowest pending bit of one bitmap chunk, from bit i on.
  function LowestFrom(pending: set<nat>, i: nat, end: nat): (r: Option<nat>)
    requires i <= end
    ensures r == None <==> forall x :: i <= x < end ==> x !in pending
    ensures r.Some? ==> i <= r.value < end && r.value in pending && forall x :: i <= x < r.value ==> x !in pending
    decreases end - i
  {
    if i == end then None else if i in pending then Some(i) else LowestFrom(pending, i + 1, end)
  }

  // The scan of mini_receive: chunk by chunk, only the lowest bit of each is considered.
  function NotifyScan(pending: set<nat>, src: Endpoint, chunk: nat, chunks: nat): Option<nat>
    requires chunk <= chunks
    decreases chunks - chunk
  {
    if chunk == chunks then None
    else
      match LowestFrom(pending, chunk * BITCHUNK_BITS, (chunk + 1) * BITCHUNK_BITS)
      case Some(i) => if Acceptable(src, i) then Some(i) else NotifyScan(pending, src, chunk + 1, chunks)
      case None => NotifyScan(pending, src, chunk + 1, chunks)
  }

  function Chunks(s: State): nat { |s.procs| / BITCHUNK_BITS + 1 }

  // ----- mini_send -----

  ghost predicate CallersInTable(s: State) {
    forall d, i :: 0 <= d < |s.callers| && 0 <= i < |s.callers[d]| ==> s.callers[d][i] < |s.procs|
  }

  // d is waiting for this message: fill its delivery slot and unblock it.
  function HandOver(s: State, c: nat, d: nat, m: Body): State
    requires Shape(s) && d < |s.procs|
  {
    var s1 := With(s, d, s.procs[d].(delivermsg := Some(Letter(c, m)), replyPend := false));
    RtsUnset(s1, d, {RECEIVING}).(
      sends := s.sends + [Envelope(c, d, m)],
      receipts := s.receipts + [Receipt(|s.sends|, d, Letter(c, m))])
  }

  // d is not waiting: block c and append it to d's caller queue.
  function Park(s: State, c: nat, d: nat, m: Body): State
    requires Shape(s) && c < |s.procs| && d < |s.procs|
  {
    var s2 := RtsSet(With(s, c, s.procs[c].(sendmsg := m)), c, {SENDING});
    With(s2, c, s2.procs[c].(sendTo := Slot(d))).(
      callers := s.callers[d := s.callers[d] + [c]],
      tickets := s.tickets[c := |s.sends|],
      sends := s.sends + [Envelope(c, d, m)])
  }

  ghost function MiniSend(s: State, c: nat, d: nat, m: Body, nonBlocking: bool, copyOk: bool): (r: (Code, State))
    requires Shape(s) && c < |s.procs| && d < |s.procs|
    ensures Shape(r.1) && |r.1.procs| == |s.procs| && (CallersInTable(s) ==> CallersInTable(r.1))
  {
    if NO_ENDPOINT in s.procs[d].flags then (EDEADSRCDST, s)
    else if WillReceive(s.procs[d], c) then
      if copyOk then (OK, HandOver(s, c, d, m)) else (EFAULT, s)
    else if nonBlocking then (ENOTREADY, s)
    else if Reaches(s.procs, d, c) then (ELOCKED, s)
    else if copyOk then (OK, Park(s, c, d, m))
    else (EFAULT, s)
  }

  // ----- mini_receive -----

  function TakeNotification(s: State, c: nat, i: nat): State
    requires c < |s.procs|
  {
    With(s, c, s.procs[c].(delivermsg := Some(Notice(i)), notify := s.procs[c].notify - {i}))
  }

  // Copy the k-th caller's message, unblock it and take it off the queue.
  function TakeFrom(s: State, c: nat, k: nat): State
    requires Shape(s) && c < |s.procs| && k < |s.callers[c]| && s.callers[c][k] < |s.procs|
  {
    var sender := s.callers[c][k];
    var letter := Letter(sender, s.procs[sender].sendmsg);
    var s1 := With(s, c, s.procs[c].(delivermsg := Some(letter)));
    var s2 := RtsUnset(s1, sender, {SENDING});
    With(s2, c, s2.procs[c].(replyPend := false)).(
      callers := s.callers[c := Splice(s.callers[c], k)],
      receipts := s.receipts + [Receipt(s.tickets[sender], c, letter)])
  }

  function BlockReceiving(s: State, c: nat, src: Endpoint): State
    requires Shape(s) && c < |s.procs|
  {
    RtsSet(With(s, c, s.procs[c].(getFrom := src)), c, {RECEIVING})
  }

  // The end of mini_receive, when there is nothing to take.
  ghost function BlockOrRefuse(s: State, c: nat, src: Endpoint, nonBlocking: bool): (Code, State)
    requires Shape(s) && c < |s.procs| && (src.Slot? ==> src.n < |s.procs|)
  {
    if nonBlocking then (ENOTREADY, s)
    else if src.Slot? && Reaches(s.procs, src.n, c) then (ELOCKED, s)
    else (OK, BlockReceiving(s, c, src))
  }

  // The notification that c can take now, and the position of the sender it can take from.
  function Note(s: State, c: nat, src: Endpoint): Option<nat>
    requires c < |s.procs|
  {
    if SENDING in s.procs[c].flags || s.procs[c].replyPend then None
    else NotifyScan(s.procs[c].notify, src, 0, Chunks(s))
  }

  function Waiter(s: State, c: nat, src: Endpoint): (k: nat)
    requires c < |s.procs| && c < |s.callers|
    ensures k <= |s.callers[c]|
  {
    if SENDING in s.procs[c].flags then |s.callers[c]| else FirstAcceptable(s.callers[c], src)
  }

  ghost function MiniReceive(s: State, c: nat, src: Endpoint, nonBlocking: bool): (Code, State)
    requires Shape(s) && c < |s.procs| && src != NONE && (src.Slot? ==> src.n < |s.procs|)
    requires forall i :: 0 <= i < |s.callers[c]| ==> s.callers[c][i] < |s.procs|
  {
    if src.Slot? && NO_ENDPOINT in s.procs[src.n].flags then (EDEADSRCDST, s)
    else if Note(s, c, src).Some? then (OK, TakeNotification(s, c, Note(s, c, src).value))
    else if Waiter(s, c, src) < |s.callers[c]| then (OK, TakeFrom(s, c, Waiter(s, c, src)))
    else BlockOrRefuse(s, c, src, nonBlocking)
  }

  // ----- mini_notify -----

  predicate IsOkEndpoint(s: State, e: Endpoint) { e.Slot? && e.n < |s.procs| && !IsEmpty(s.procs[e.n]) }

  function MiniNotify(s: State, from: nat, e: Endpoint): (Code, State)
    requires Shape(s)
  {
    if !IsOkEndpoint(s, e) then (EDEADSRCDST, s)
    else
      var p := s.procs[e.n];
      if WillReceive(p, from) && !p.replyPend then
        (OK, RtsUnset(With(s, e.n, p.(delivermsg := Some(Notice(from)))), e.n, {RECEIVING}))
      else (OK, With(s, e.n, p.(notify := p.notify + {from})))
  }

  // ----- do_sync_ipc, by the current process -----

  // The checks that precede the switch; OK means that the call is carried out.
  function Checked(s: State, call: Call, e: Endpoint): Code
    requires Shape(s)
  {
    if e == ANY && call != RECEIVE then EINVAL
    else if e != ANY && !IsOkEndpoint(s, e) then EDEADSRCDST
    else if e != ANY && call != RECEIVE && e.n !in s.procs[s.cur].sendMask then ECALLDENIED
    else if call !in s.procs[s.cur].trapMask then ETRAPDENIED
    else if call != SENDREC && call != RECEIVE && e.n < NR_TASKS then ETRAPDENIED
    else OK
  }

  ghost function DoSyncIpc(s: State, call: Call, e: Endpoint, m: Body, copyOk: bool): (Code, State)
    requires Shape(s) && CallersInTable(s)
  {
    var c := s.cur;
    if Checked(s, call, e) != OK then (Checked(s, call, e), s)
    else
      match call
      case SEND => MiniSend(s, c, e.n, m, false, copyOk)
      case SENDNB => MiniSend(s, c, e.n, m, true, copyOk)
      case NOTIFY => MiniNotify(s, c, e)
      case RECEIVE => MiniReceive(With(s, c, s.procs[c].(replyPend := false)), c, e, false)
      case SENDREC =>
        var (r, t) := MiniSend(With(s, c, s.procs[c].(replyPend := true)), c, e.n, m, false, copyOk);
        if r != OK then (r, t) else MiniReceive(t, c, e, false)
  }

  // ----- proc_no_time, for the current process -----

  ghost function NoTime(s: State): (Code, State)
    requires Shape(s) && (s.procs[s.cur].scheduler.Some? ==> s.procs[s.cur].scheduler.value < |s.procs|)
  {
    var p := s.procs[s.cur];
    if !KernelScheduled(p, s.cur) && p.preemptible then
      MiniSend(RtsSet(s, s.cur, {NO_QUANTUM}), s.cur, p.scheduler.value, NoQuantum, false, true)
    else (OK, With(s, s.cur, p.(timeLeft := p.quantum)))
  }
}
