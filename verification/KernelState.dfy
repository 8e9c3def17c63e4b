// The process table and its queues as values: what kernel/proc.h declares.
module KernelState {
  import opened Prelude

  // Runtime flags (p_rts_flags); a process is runnable iff it has none.
  datatype Flag =
    | SLOT_FREE | PROC_STOP | SENDING | RECEIVING | SIGNALED | SIG_PENDING | P_STOP
    | NO_PRIV | NO_ENDPOINT | VMINHIBIT | PAGEFAULT | VMREQUEST | VMREQTARGET
    | PREEMPTED | NO_QUANTUM

  // An endpoint: a live slot, the wildcard, or nobody.
  datatype Endpoint = ANY | NONE | Slot(n: nat)

  datatype Call = SEND | RECEIVE | SENDREC | NOTIFY | SENDNB

  datatype Code = OK | EDEADSRCDST | EFAULT | ENOTREADY | ELOCKED | EINVAL | ECALLDENIED | ETRAPDENIED

  datatype Body = Text(t: int) | NoQuantum

  // What the receiver sees: a message with its m_source, or a notification.
  datatype Letter = Letter(source: nat, body: Body) | Notice(source: nat)

  datatype Proc = Proc(
    flags: set<Flag>,
    priority: nat,
    timeLeft: nat,
    quantum: nat,
    scheduler: Option<nat>,         // p_scheduler: whom to tell about an expired quantum
    getFrom: Endpoint,              // p_getfrom_e
    sendTo: Endpoint,               // p_sendto_e
    sendmsg: Body,                  // p_sendmsg
    delivermsg: Option<Letter>,     // p_delivermsg, Some while MF_DELIVERMSG is set
    replyPend: bool,                // MF_REPLY_PEND
    preemptible: bool,              // s_flags & PREEMPTIBLE
    trapMask: set<Call>,            // s_trap_mask
    sendMask: set<nat>,             // s_ipc_to
    notify: set<nat>)               // s_notify_pending

  // An accepted send, and the delivery of one; `id` numbers the accepted sends of a run.
  datatype Envelope = Envelope(src: nat, dst: nat, body: Body)
  datatype Receipt = Receipt(id: nat, dst: nat, letter: Letter)

  // ready[q] and callers[d] are the queues that p_nextready and p_q_link chain up.
  // tickets, sends and receipts only record history: no operation looks at them.
  datatype State = State(
    procs: seq<Proc>,
    ready: seq<seq<nat>>,
    callers: seq<seq<nat>>,
    cur: nat,
    tickets: seq<nat>,
    sends: seq<Envelope>,
    receipts: seq<Receipt>)

  const NR_SCHED_QUEUES: nat := 16
  const NR_TASKS: nat := 4
  const BITCHUNK_BITS: nat := 32

  predicate Runnable(p: Proc) { p.flags == {} }

  // isemptyp: the free flag and nothing else.
  predicate IsEmpty(p: Proc) { p.flags == {SLOT_FREE} }

  // On whom is p blocked? Sending comes first: getFrom may be stale while it is set.
  function BlockedOn(p: Proc): Endpoint {
    if SENDING in p.flags then p.sendTo
    else if RECEIVING in p.flags then p.getFrom
    else NONE
  }

  predicate WillReceive(target: Proc, src: nat) {
    RECEIVING in target.flags && SENDING !in target.flags &&
    (target.getFrom == ANY || target.getFrom == Slot(src))
  }

  predicate KernelScheduled(p: Proc, self: nat) {
    p.scheduler == None || p.scheduler == Some(self)
  }

  function With(s: State, p: nat, v: Proc): State
    requires p < |s.procs|
  {
    s.(procs := s.procs[p := v])
  }

  ghost predicate Shape(s: State) {
    && s.cur < |s.procs|
    && |s.ready| == NR_SCHED_QUEUES
    && |s.callers| == |s.tickets| == |s.procs|
    && forall p :: 0 <= p < |s.procs| ==> s.procs[p].priority < NR_SCHED_QUEUES
  }
}
