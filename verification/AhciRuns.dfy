// What every run of an AHCI port keeps.
module AhciRuns {
  import opened AhciPort

  predicate Waiting(s: PortState) { s == SpinUp || s == WaitSig || s == WaitId }

  // The columns of the state table (lines 67-75), which hold except that a port whose
  // signature was refused has no interrupt enabled at all.
  predicate MaskInv(p: Port) {
    match p.state
    case NoPort => true
    case SpinUp | NoDev | WaitSig => p.ie == PhyRdyOnly
    case WaitId | GoodDev => p.ie == AllInts
    case BadDev => p.ie != AllInts
  }

  // Holds whenever a handler starts or ends, also while a command is being waited for.
  predicate HandlerInv(p: Port) {
    && p.state != NoPort && MaskInv(p)
    && (p.busy ==> p.armed)
    && (Waiting(p.state) ==> p.busy)
    && (p.busy && (p.state == WaitId || p.state == GoodDev) ==> !p.failure)
    && (p.hasMedium ==> p.sectorSize > 0)
    && (p.state == WaitId ==> !p.hasMedium)
    && (p.openCount > 0 && !p.barrier ==> p.state == GoodDev)
  }

  // Holds whenever the main loop waits for a message.
  predicate PortInv(p: Port) {
    HandlerInv(p) && (p.busy ==> Waiting(p.state))
  }

  // Between a disconnection and a later transfer a first open cleared the barrier,
  // and barriers are cleared only while nobody has the port open.
  ghost predicate Separated(log: seq<Mark>) {
    && (forall k :: 0 <= k < |log| && log[k].Cleared? ==> log[k].openCount == 0)
    && (forall i, j :: 0 <= i < j < |log| && log[i].Disconnected? && log[j].Issued? ==> ClearedWithin(log, i, j))
  }

  ghost predicate ClearedWithin(log: seq<Mark>, i: int, j: int) {
    exists k :: i < k < j && 0 <= k < |log| && log[k] == Cleared(0)
  }

  // Besides, the assertions of port_transfer have held so far, or the driver is gone.
  ghost predicate LogInv(p: Port) {
    && Separated(p.log)
    && (forall i :: 0 <= i < |p.log| && p.log[i].Issued? ==> p.log[i].asserted || p.halted)
    && (!p.barrier ==> forall i :: 0 <= i < |p.log| && p.log[i].Disconnected? ==> ClearedWithin(p.log, i, |p.log|))
  }

  // ----- handlers -----

  // A port nobody could be using: its barrier is up, or it is not open.
  predicate Shut(p: Port) { p.barrier || p.openCount == 0 }

  // A handler never clears the barrier, logs nothing but disconnections, and logs one only if it
  // sets the barrier.
  ghost predicate OnlyDisconnects(was: Port, p: Port) {
    && was.log <= p.log && was.openCount == p.openCount && was.halted == p.halted
    && (was.barrier ==> p.barrier)
    && (forall i :: |was.log| <= i < |p.log| ==> p.log[i].Disconnected? && p.barrier)
  }

  lemma OnlyTrans(a: Port, b: Port, c: Port)
    requires OnlyDisconnects(a, b) && OnlyDisconnects(b, c)
    ensures OnlyDisconnects(a, c)
  {}

  lemma RestartKeeps(p: Port, hung: bool)
    requires p.hasMedium ==> p.sectorSize > 0
    ensures var q := Restart(p, hung);
            OnlyDisconnects(p, q) && (hung ==> HandlerInv(q) && !q.busy && q.barrier && q.state == NoDev)
  {}

  lemma ReadSignatureKeeps(p: Port, sig: Signature)
    requires Shut(p) && (p.hasMedium ==> p.sectorSize > 0)
    ensures PortInv(ReadSignature(p, sig)) && OnlyDisconnects(p, ReadSignature(p, sig))
  {}

  lemma AgainKeeps(p: Port)
    requires Shut(p) && p.state == WaitSig && p.busy && p.ie == PhyRdyOnly
    requires (p.hasMedium ==> p.sectorSize > 0) && p.left > 0
    ensures var q := p.(left := p.left - 1, armed := true); PortInv(q) && OnlyDisconnects(p, q)
  {}

  lemma RejectKeeps(p: Port)
    requires Shut(p) && (p.hasMedium ==> p.sectorSize > 0)
    ensures PortInv(Reject(p)) && OnlyDisconnects(p, Reject(p))
  {}

  lemma SigCheckKeeps(p: Port, r: Reads)
    requires Shut(p) && p.state == WaitSig && p.busy && p.ie == PhyRdyOnly && (p.hasMedium ==> p.sectorSize > 0)
    ensures PortInv(SigCheck(p, r)) && OnlyDisconnects(p, SigCheck(p, r))
  {
    if r.tfd == Ready {
      ReadSignatureKeeps(p, r.sig);
    } else if p.left > 0 {
      AgainKeeps(p);
    } else if r.tfd == Initial {
      RejectKeeps(p);
    } else {
      var q := Restart(p, r.hung);
      RestartKeeps(p, r.hung);
      ReadSignatureKeeps(q, r.sig);
      OnlyTrans(p, q, ReadSignature(q, r.sig));
    }
  }

  lemma ConnectKeeps(p: Port, r: Reads, checks: nat)
    requires Shut(p) && (p.hasMedium ==> p.sectorSize > 0)
    ensures PortInv(Connect(p, r, checks)) && OnlyDisconnects(p, Connect(p, r, checks))
  {
    var q := Connecting(p, checks);
    ConnectingKeeps(p, checks);
    SigCheckKeeps(q, r);
    OnlyTrans(p, q, SigCheck(q, r));
  }

  lemma ConnectingKeeps(p: Port, checks: nat)
    ensures OnlyDisconnects(p, Connecting(p, checks)) && (Shut(p) ==> Shut(Connecting(p, checks)))
  {}

  // After a command has ended, in whatever way.
  lemma EndedKeeps(p: Port, id: Identity)
    requires p.state != NoPort && !p.busy && MaskInv(p) && p.state != SpinUp
    requires p.state != WaitSig && (p.hasMedium ==> p.sectorSize > 0)
    requires (p.state == WaitId ==> !p.hasMedium) && (p.openCount > 0 && !p.barrier ==> p.state == GoodDev)
    ensures PortInv(Ended(p, id)) && OnlyDisconnects(p, Ended(p, id)) && !Ended(p, id).busy
  {}

  lemma IntrKeeps(p: Port, s: Status, r: Reads, checks: nat)
    requires HandlerInv(p) && Enabled(p, Interrupt(s, r))
    ensures HandlerInv(Intr(p, s, r, checks)) && OnlyDisconnects(p, Intr(p, s, r, checks))
    ensures PortInv(p) ==> PortInv(Intr(p, s, r, checks))
  {
    if s.phyRdy && p.ie != NoInts {
      RestartKeeps(p, true);
      var q := if Occupied(p.state) then Disconnect(p) else p;
      ConnectKeeps(q, r, checks);
      if r.connected { OnlyTrans(p, q, Connect(q, r, checks)); }
    } else if p.busy && r.finished {
      var q := p.(busy := false, failure := p.failure || r.failed);
      RestartKeeps(q, r.hung);
      var u := if s.fatal then Restart(q, r.hung) else q;
      EndedKeeps(u, r.id);
      OnlyTrans(p, u, Ended(u, r.id));
    }
  }

  lemma ExpireKeeps(p: Port, r: Reads, checks: nat)
    requires HandlerInv(p)
    ensures HandlerInv(Expire(p, r, checks)) && OnlyDisconnects(p, Expire(p, r, checks))
    ensures PortInv(p) ==> PortInv(Expire(p, r, checks))
  {
    var q := p.(armed := false);
    if p.state == SpinUp {
      if r.connected { ConnectKeeps(q, r, checks); }
    } else if p.state == WaitSig {
      SigCheckKeeps(q, r);
    } else if p.busy {
      AbortKeeps(q.(busy := false, failure := true), r);
    }
  }

  // A command that took too long.
  lemma AbortKeeps(p: Port, r: Reads)
    requires p.state != NoPort && !p.busy && MaskInv(p) && p.state != SpinUp
    requires p.state != WaitSig && (p.hasMedium ==> p.sectorSize > 0)
    requires (p.state == WaitId ==> !p.hasMedium) && (p.openCount > 0 && !p.barrier ==> p.state == GoodDev)
    ensures var q := Ended(Restart(p, r.hung), r.id); PortInv(q) && OnlyDisconnects(p, q)
  {
    var q := Restart(p, r.hung);
    RestartKeeps(p, r.hung);
    EndedKeeps(q, r.id);
    OnlyTrans(p, q, Ended(q, r.id));
  }

  // Every handler keeps the invariant; in particular the timer of a busy port stays set, and the
  // assertions of port_intr and port_id_check hold (see the class Ahci.Port).
  lemma HandleKeeps(p: Port, e: Event, checks: nat)
    requires HandlerInv(p) && Enabled(p, e)
    ensures HandlerInv(Handle(p, e, checks)) && OnlyDisconnects(p, Handle(p, e, checks))
    ensures PortInv(p) ==> PortInv(Handle(p, e, checks))
  {
    match e
    case Interrupt(s, r) => IntrKeeps(p, s, r, checks);
    case Timeout(r) => ExpireKeeps(p, r, checks);
  }

  lemma {:induction false} SettleKeeps(p: Port, script: seq<Event>, checks: nat)
    requires HandlerInv(p) && Waited(p, script, checks)
    ensures HandlerInv(Settle(p, script, checks)) && !Settle(p, script, checks).busy
    ensures OnlyDisconnects(p, Settle(p, script, checks))
    decreases |script|
  {
    if p.busy {
      HandleKeeps(p, script[0], checks);
      SettleKeeps(Handle(p, script[0], checks), script[1..], checks);
      OnlyTrans(p, Handle(p, script[0], checks), Settle(p, script, checks));
    }
  }

  predicate SameDevice(p: Port, q: Port) {
    q.state == GoodDev && q.hasMedium == p.hasMedium && q.atapi == p.atapi && q.sectorSize == p.sectorSize
  }

  lemma SessionStep(p: Port, e: Event, checks: nat)
    requires HandlerInv(p) && p.state == GoodDev && Enabled(p, e)
    ensures Handle(p, e, checks).barrier || SameDevice(p, Handle(p, e, checks))
  {
    if e.Interrupt? && e.status.phyRdy { ConnectKeeps(Disconnect(p), e.regs, checks); }
  }

  // A port in working state stays in it, with the same medium, unless it gets disconnected.
  lemma {:induction false} SessionKept(p: Port, script: seq<Event>, checks: nat)
    requires HandlerInv(p) && p.state == GoodDev && Waited(p, script, checks)
    ensures Settle(p, script, checks).barrier || SameDevice(p, Settle(p, script, checks))
    decreases |script|
  {
    if p.busy {
      var q := Handle(p, script[0], checks);
      HandleKeeps(p, script[0], checks);
      SessionStep(p, script[0], checks);
      if q.barrier {
        SettleKeeps(q, script[1..], checks);
      } else {
        SessionKept(q, script[1..], checks);
      }
    }
  }

  // ----- commands -----

  lemma IssueKeeps(p: Port)
    requires HandlerInv(p) && !p.busy
    ensures HandlerInv(Issue(p))
  {}

  // A command never reports success when the port got disconnected while it was waited for, even
  // if a new device was identified in the meantime.
  lemma ExecKeeps(p: Port, script: seq<Event>, checks: nat)
    requires HandlerInv(p) && !p.busy && Waited(Issue(p), script, checks)
    ensures var q := Exec(p, script, checks);
            && PortInv(q) && !q.busy && OnlyDisconnects(p, q)
            && (Succeeded(q) ==> q.log == p.log)
            && (p.state == GoodDev && !q.barrier ==>
                q.state == GoodDev && q.hasMedium == p.hasMedium && q.atapi == p.atapi)
  {
    SettleKeeps(Issue(p), script, checks);
    if p.state == GoodDev { SessionKept(Issue(p), script, checks); }
    var q := Exec(p, script, checks);
    if q.log != p.log { assert q.log[|p.log|].Disconnected?; }
  }

  lemma LogKept(was: Port, p: Port)
    requires LogInv(was) && OnlyDisconnects(was, p)
    ensures LogInv(p)
  {}

  // A transfer is logged only past the barrier, so everything disconnected before was cleared.
  lemma IssueLogged(p: Port)
    requires LogInv(p) && !p.barrier
    ensures LogInv(Reached(p))
  {
    var log := Reached(p).log;
    forall i, j | 0 <= i < j <= |log| && log[i].Disconnected? && (j < |log| ==> log[j].Issued?)
        ensures ClearedWithin(log, i, j) {
      assert j < |p.log| ==> ClearedWithin(p.log, i, j);
      assert ClearedWithin(p.log, i, |p.log|);
      var m := if j < |p.log| then j else |p.log|;
      var k :| i < k < m && p.log[k] == Cleared(0);
      assert log[k] == Cleared(0);
    }
  }

  lemma ClearLogged(p: Port)
    requires LogInv(p) && p.openCount == 0
    ensures LogInv(Clear(p))
  {
    var log := Clear(p).log;
    forall i, j | 0 <= i < j < |log| && log[i].Disconnected? && log[j].Issued? ensures ClearedWithin(log, i, j) {
      assert ClearedWithin(p.log, i, j);
      var k :| i < k < j && p.log[k] == Cleared(0);
      assert log[k] == Cleared(0);
    }
    forall i | 0 <= i < |log| && log[i].Disconnected? ensures ClearedWithin(log, i, |log|) {
      assert log[|p.log|] == Cleared(0);
    }
  }

  // A port that is at work with a medium, unless it has been disconnected.
  predicate InUse(p: Port) { p.barrier || (p.state == GoodDev && p.hasMedium) }

  lemma TransferKeeps(p: Port, t: Request, checks: nat)
    requires PortInv(p) && LogInv(p) && TransferPlayed(p, t, checks)
    ensures var q := Transfer(p, t, checks);
            PortInv(q) && LogInv(q) && q.openCount == p.openCount && (InUse(p) ==> InUse(q))
                && (p.barrier || p.state == GoodDev ==> q.barrier || q.state == GoodDev) && (p.busy || !q.busy)
  {
    if Accessible(p) && !t.Early? {
      var q := Reached(p);
      IssueLogged(p);
      if !q.halted && t.Run? {
        ExecKeeps(q, t.script, checks);
        LogKept(q, Exec(q, t.script, checks));
      }
    }
  }

  lemma {:induction false} PartitionKeeps(p: Port, ts: seq<Request>, checks: nat)
    requires PortInv(p) && LogInv(p) && !p.busy && PartitionPlayed(p, ts, checks)
    ensures var q := Partition(p, ts, checks);
            PortInv(q) && LogInv(q) && !q.busy && q.openCount == p.openCount && (InUse(p) ==> InUse(q))
                && (p.barrier || p.state == GoodDev ==> q.barrier || q.state == GoodDev)
    decreases |ts|
  {
    if ts != [] && !p.halted {
      TransferKeeps(p, ts[0], checks);
      PartitionKeeps(Transfer(p, ts[0], checks), ts[1..], checks);
    }
  }

  lemma CommandKeeps(p: Port, script: seq<Event>, checks: nat)
    requires PortInv(p) && LogInv(p) && !p.busy && Waited(Issue(p), script, checks)
    ensures var q := Exec(p, script, checks);
            && PortInv(q) && LogInv(q) && !q.busy && q.openCount == p.openCount && q.halted == p.halted
            && (Succeeded(q) && p.state == GoodDev ==>
                q.state == GoodDev && !q.barrier && q.hasMedium == p.hasMedium && q.atapi == p.atapi)
  {
    ExecKeeps(p, script, checks);
    LogKept(p, Exec(p, script, checks));
  }

  // The two commands that find out whether there is a medium.
  lemma TestedKeeps(p: Port, m: Medium, checks: nat)
    requires PortInv(p) && LogInv(p) && !p.busy && p.atapi && p.openCount == 0
    requires p.state == GoodDev && MediumPlayed(p, m, checks)
    ensures var q := Tested(p, m, checks);
            && PortInv(q) && LogInv(q) && !q.busy && q.openCount == 0 && q.halted == p.halted
            && (Succeeded(q) ==> q.state == GoodDev && !q.barrier && q.atapi)
  {
    var t := Exec(p, m.test, checks);
    CommandKeeps(p, m.test, checks);
    if !Succeeded(t) {
      var u := t.(hasMedium := false);
      CommandKeeps(u, m.sense, checks);
      ExecKeeps(p, m.test, checks);
      ExecKeeps(u, m.sense, checks);
    }
  }

  lemma CheckMediumKeeps(p: Port, m: Medium, checks: nat)
    requires PortInv(p) && LogInv(p) && !p.busy && p.atapi && p.openCount == 0
    requires p.state == GoodDev && MediumPlayed(p, m, checks)
    ensures var (q, code) := CheckMedium(p, m, checks);
            && PortInv(q) && LogInv(q) && !q.busy && q.openCount == 0 && q.halted == p.halted
            && (code == OK ==> Accessible(q) && q.hasMedium && q.atapi)
  {
    TestedKeeps(p, m, checks);
    var t, q := Exec(p, m.test, checks), Tested(p, m, checks);
    if (Succeeded(t) || (Succeeded(q) && m.attention)) && !q.hasMedium { ReadCapacityKeeps(q, m, checks); }
  }

  lemma ReadCapacityKeeps(p: Port, m: Medium, checks: nat)
    requires PortInv(p) && LogInv(p) && !p.busy && p.atapi && p.openCount == 0 && p.state == GoodDev && !p.hasMedium
    requires Waited(Issue(p), m.capacity, checks)
    ensures var (q, code) := ReadCapacity(p, m, checks);
            && PortInv(q) && LogInv(q) && !q.busy && q.openCount == 0 && q.halted == p.halted
            && (code == OK ==> Accessible(q) && q.hasMedium && q.atapi)
  {
    CommandKeeps(p, m.capacity, checks);
  }

  // A first open that succeeds gives access to a medium, unless the device gets disconnected while
  // its partition tables are read, or is an ATA device whose medium flag was lost (MediumLostIff).
  lemma FirstOpenKeeps(p: Port, o: Opening, checks: nat)
    requires PortInv(p) && LogInv(p) && !p.busy && p.openCount == 0
    requires p.state == GoodDev && FirstOpenPlayed(p, o, checks)
    ensures var (q, code) := FirstOpen(p, o, checks);
            && PortInv(q) && LogInv(q) && !q.busy
            && q.openCount == (if code == OK then 1 else 0)
            && (code == OK && (p.atapi || p.hasMedium) ==> InUse(q))
  {
    ClearLogged(p);
    if p.atapi { CheckMediumKeeps(Clear(p), o.medium, checks); }
    var (q, code) := Rechecked(p, o.medium, checks);
    if code == OK { PartitionKeeps(q, o.tables, checks); }
  }

  lemma OpenKeeps(p: Port, o: Opening, checks: nat)
    requires PortInv(p) && LogInv(p) && OpenPlayed(p, o, checks)
    ensures PortInv(Open(p, o, checks).0) && LogInv(Open(p, o, checks).0)
    ensures p.openCount > 0 && InUse(p) ==> InUse(Open(p, o, checks).0)
  {
    var q := if p.busy then Settle(p, o.deferred, checks) else p;
    if p.busy {
      SettleKeeps(p, o.deferred, checks);
      LogKept(p, q);
    }
    if q.state == GoodDev && !(q.readonly && o.write) && q.openCount == 0 { FirstOpenKeeps(q, o, checks); }
  }

  // ----- runs -----

  lemma DoKeeps(p: Port, a: Action, checks: nat)
    requires PortInv(p) && LogInv(p) && Possible(p, a, checks)
    ensures PortInv(Do(p, a, checks)) && LogInv(Do(p, a, checks))
  {
    match a
    case Notified(e) => HandleKeeps(p, e, checks); LogKept(p, Handle(p, e, checks));
    case Opened(o) => OpenKeeps(p, o, checks);
    case Closed =>
    case Transferred(t) => TransferKeeps(p, t, checks);
    case Controlled(script) => if p.state == GoodDev { CommandKeeps(p, script, checks); }
  }

  lemma {:induction false} RunKeeps(p: Port, acts: seq<Action>, checks: nat)
    requires PortInv(p) && LogInv(p) && Runs(p, acts, checks)
    ensures PortInv(After(p, acts, checks)) && LogInv(After(p, acts, checks))
    decreases |acts|
  {
    if acts != [] {
      DoKeeps(p, acts[0], checks);
      RunKeeps(Do(p, acts[0], checks), acts[1..], checks);
    }
  }

  // Over every run from port_init: once the port has been disconnected, no transfer is issued to
  // it until the open count was zero and a new first open cleared the barrier.
  lemma BarrierSafety(acts: seq<Action>, checks: nat, i: nat, j: nat)
    requires Runs(Init(), acts, checks)
    requires var log := After(Init(), acts, checks).log; i < j < |log| && log[i].Disconnected? && log[j].Issued?
    ensures exists k :: i < k < j && After(Init(), acts, checks).log[k] == Cleared(0)
    ensures PortInv(After(Init(), acts, checks))
  {
    RunKeeps(Init(), acts, checks);
    assert ClearedWithin(After(Init(), acts, checks).log, i, j);
  }

  // While a port stays open, an accessible one has a medium with a sector size: what
  // port_transfer asserts. (What makes it so is the first open, see FirstOpenKeeps.)
  lemma OpenPortUsable(p: Port, a: Action, checks: nat)
    requires PortInv(p) && LogInv(p) && Possible(p, a, checks) && p.openCount > 0 && InUse(p)
    ensures Accessible(p) ==> p.state == GoodDev && p.hasMedium && p.sectorSize > 0
    ensures InUse(Do(p, a, checks))
  {
    match a
    case Notified(e) => HandleKeeps(p, e, checks); if !p.barrier { SessionStep(p, e, checks); }
    case Opened(o) => OpenKeeps(p, o, checks);
    case Closed =>
    case Transferred(t) => TransferKeeps(p, t, checks);
    case Controlled(script) => if p.state == GoodDev { ExecKeeps(p, script, checks); }
  }

  // ----- deferred opens -----

  // How many timer expiries it can take until the port is no longer busy.
  function Expiries(p: Port, checks: nat): nat {
    if !p.busy then 0
    else match p.state
      case SpinUp => checks + 2
      case WaitSig => p.left + 2
      case _ => 1
  }

  lemma ExpiriesDrop(p: Port, e: Event, checks: nat)
    requires HandlerInv(p) && Enabled(p, e) && p.busy
    requires e.Interrupt? ==> !e.status.phyRdy
    ensures Expiries(Handle(p, e, checks), checks) <= Expiries(p, checks)
    ensures e.Timeout? ==> Expiries(Handle(p, e, checks), checks) < Expiries(p, checks)
  {
    match e
    case Timeout(r) => TimeoutDrops(p, r, checks);
    case Interrupt(s, r) =>
      var q := p.(busy := false, failure := p.failure || r.failed);
      EndedIdle(if s.fatal then Restart(q, r.hung) else q, r.id);
  }

  lemma TimeoutDrops(p: Port, r: Reads, checks: nat)
    requires p.busy
    ensures Expiries(Expire(p, r, checks), checks) < Expiries(p, checks)
  {
    var q := p.(armed := false);
    if p.state == SpinUp {
      if r.connected { SigCheckDrops(Connecting(q, checks), r, checks); }
    } else if p.state == WaitSig {
      SigCheckDrops(q, r, checks);
    } else {
      EndedIdle(Restart(q.(busy := false, failure := true), r.hung), r.id);
    }
  }

  lemma SigCheckDrops(p: Port, r: Reads, checks: nat)
    requires p.state == WaitSig && p.busy
    ensures Expiries(SigCheck(p, r), checks) < p.left + 2
  {
    if r.tfd == Ready {
      ReadSignatureOnce(p, r.sig, checks);
    } else if p.left == 0 && r.tfd == Bsy {
      ReadSignatureOnce(Restart(p, r.hung), r.sig, checks);
    }
  }

  lemma ReadSignatureOnce(p: Port, sig: Signature, checks: nat)
    ensures Expiries(ReadSignature(p, sig), checks) < 2
    ensures ReadSignature(p, sig).state != GoodDev && ReadSignature(p, sig).log == p.log
  {}

  lemma EndedIdle(p: Port, id: Identity)
    requires !p.busy
    ensures !Ended(p, id).busy
  {}

  function Timeouts(script: seq<Event>): nat {
    if script == [] then 0 else (if script[0].Timeout? then 1 else 0) + Timeouts(script[1..])
  }

  // Every event is possible when it comes, for as long as the port is busy.
  ghost predicate Offered(p: Port, script: seq<Event>, checks: nat)
    decreases |script|
  {
    p.busy && script != [] ==> Enabled(p, script[0]) && Offered(Handle(p, script[0], checks), script[1..], checks)
  }

  // Without PhyRdy changes a wait is over after that many expiries; from spin-up, checks + 2. A
  // busy port's timer is always set (HandlerInv), so the expiries do come.
  lemma {:induction false} WaitEnds(p: Port, script: seq<Event>, checks: nat) returns (k: nat)
    requires HandlerInv(p) && Offered(p, script, checks)
    requires forall e :: e in script && e.Interrupt? ==> !e.status.phyRdy
    requires Timeouts(script) >= Expiries(p, checks)
    ensures k <= |script| && Waited(p, script[..k], checks) && !Settle(p, script[..k], checks).busy
    ensures p.state == SpinUp && p.busy ==> Expiries(p, checks) == checks + 2
    decreases |script|
  {
    if !p.busy {
      k := 0;
    } else {
      var q := Handle(p, script[0], checks);
      HandleKeeps(p, script[0], checks);
      ExpiriesDrop(p, script[0], checks);
      var j := WaitEnds(q, script[1..], checks);
      k := j + 1;
      assert script[..k][0] == script[0] && script[..k][1..] == script[1..][..j];
    }
  }

  // ----- deaf ports -----

  predicate Deaf(p: Port) { p.state == BadDev && p.ie == NoInts && !p.busy }

  // The signature was refused, or never came.
  predicate GivesUp(p: Port, r: Reads) {
    if r.tfd == Ready then r.sig == OtherSig else p.left == 0 && (r.tfd == Initial || r.sig == OtherSig)
  }

  // Such a port ends up with all interrupts disabled.
  lemma RefusedIsDeaf(p: Port, r: Reads)
    requires p.state == WaitSig
    ensures SigCheck(p, r).state == BadDev <==> GivesUp(p, r)
    ensures GivesUp(p, r) ==> Deaf(SigCheck(p, r))
  {
    if r.tfd == Ready {
      RejectsOther(p, r.sig);
    } else if p.left == 0 && r.tfd == Bsy {
      RejectsOther(Restart(p, r.hung), r.sig);
    }
  }

  lemma RejectsOther(p: Port, sig: Signature)
    ensures if sig == OtherSig then Deaf(ReadSignature(p, sig)) else ReadSignature(p, sig).state == WaitId
  {}

  // Such a port is lost: no run ever leaves BAD_DEV, whatever is plugged in (the state diagram
  // promises the edge back to NO_DEV).
  lemma {:induction false} DeafForever(p: Port, acts: seq<Action>, checks: nat)
    requires Deaf(p) && Runs(p, acts, checks)
    ensures Deaf(After(p, acts, checks)) && After(p, acts, checks).log == p.log
    decreases |acts|
  {
    if acts != [] {
      assert Deaf(Do(p, acts[0], checks)) && Do(p, acts[0], checks).log == p.log;
      DeafForever(Do(p, acts[0], checks), acts[1..], checks);
    }
  }

  // Whether a bad port can ever be used again depends on that alone: it can leave BAD_DEV exactly
  // when a PhyRdy change still interrupts.
  lemma LeavesBadDevIff(p: Port, checks: nat)
    requires PortInv(p) && !p.halted && p.state == BadDev
    ensures (exists acts :: Runs(p, acts, checks) && After(p, acts, checks).state != BadDev) <==> p.ie == PhyRdyOnly
  {
    if p.ie == PhyRdyOnly {
      var a := Notified(Interrupt(Status(true, false, false), GONE));
      assert Do(p, a, checks).state == NoDev;
      OneAction(p, a, checks);
    } else {
      forall acts | Runs(p, acts, checks) ensures After(p, acts, checks).state == BadDev {
        DeafForever(p, acts, checks);
      }
    }
  }

  // Nobody is connected any more; a device with an unknown signature is.
  const GONE: Reads := Reads(false, Initial, false, OtherSig, false, false, Identity(false, 0, false))
  const STRANGER: Reads := Reads(true, Ready, false, OtherSig, false, false, Identity(false, 0, false))

  // A run that loses a port in this way, from the start.
  lemma RunDeafens()
    ensures Runs(Init(), [Notified(Timeout(STRANGER))], 60)
    ensures Deaf(After(Init(), [Notified(Timeout(STRANGER))], 60))
  {
    OneAction(Init(), Notified(Timeout(STRANGER)), 60);
  }

  // ----- the medium flag of ATA devices -----

  // Identifying an ATA device sets the medium flag; the driver relies on it ever after.
  predicate MediumKnown(p: Port) { p.state == GoodDev && !p.atapi ==> p.hasMedium }

  lemma KnownStep(p: Port, e: Event, checks: nat)
    requires p.state != NoPort
    ensures MediumKnown(Handle(p, e, checks)) <==> MediumKnown(p) || |Handle(p, e, checks).log| > |p.log|
    ensures |Handle(p, e, checks).log| >= |p.log|
  {
    match e
    case Interrupt(s, r) => KnownIntr(p, s, r, checks);
    case Timeout(r) => KnownExpire(p, r, checks);
  }

  lemma KnownIntr(p: Port, s: Status, r: Reads, checks: nat)
    requires p.state != NoPort
    ensures MediumKnown(Intr(p, s, r, checks)) <==> MediumKnown(p) || |Intr(p, s, r, checks).log| > |p.log|
    ensures |Intr(p, s, r, checks).log| >= |p.log|
  {
    if s.phyRdy && p.ie != NoInts {
      KnownPhyRdy(p, s, r, checks);
    } else if p.busy && (s.phyRdy || s.fatal || s.other) && r.finished {
      KnownDone(p, p.failure || r.failed, s.fatal && r.hung, r.id);
    }
  }

  // The end of a command: with a reset of the port, or without.
  lemma KnownDone(p: Port, failure: bool, reset: bool, id: Identity)
    ensures var q := p.(busy := false, failure := failure);
            var u := Ended(if reset then Disconnect(q) else q, id);
            && (MediumKnown(u) <==> MediumKnown(p) || |u.log| > |p.log|) && |u.log| >= |p.log|
  {}

  lemma KnownPhyRdy(p: Port, s: Status, r: Reads, checks: nat)
    requires p.state != NoPort && s.phyRdy && p.ie != NoInts
    ensures MediumKnown(Intr(p, s, r, checks))
    ensures |Intr(p, s, r, checks).log| >= |p.log| + if Occupied(p.state) then 1 else 0
  {
    if Occupied(p.state) {
      if r.connected { ConnectKnown(Disconnect(p), r, checks); }
    } else {
      if r.connected { ConnectKnown(p, r, checks); }
    }
  }

  lemma KnownExpire(p: Port, r: Reads, checks: nat)
    ensures MediumKnown(Expire(p, r, checks)) <==> MediumKnown(p) || |Expire(p, r, checks).log| > |p.log|
    ensures |Expire(p, r, checks).log| >= |p.log|
  {
    if p.state == SpinUp {
      ConnectKnown(p.(armed := false), r, checks);
    } else if p.state == WaitSig {
      SigCheckKnown(p.(armed := false), r);
    } else if p.busy {
      KnownDone(p.(armed := false), true, r.hung, r.id);
    }
  }

  lemma SigCheckKnown(p: Port, r: Reads)
    requires p.state == WaitSig
    ensures MediumKnown(SigCheck(p, r)) && p.log <= SigCheck(p, r).log
  {
    if r.tfd == Ready {
      ReadSignatureOnce(p, r.sig, 1);
    } else if p.left == 0 && r.tfd == Bsy {
      ReadSignatureOnce(Restart(p, r.hung), r.sig, 1);
    }
  }

  lemma ConnectKnown(p: Port, r: Reads, checks: nat)
    ensures MediumKnown(Connect(p, r, checks)) && p.log <= Connect(p, r, checks).log
  {
    SigCheckKnown(Connecting(p, checks), r);
  }

  lemma {:induction false} KnownSettled(p: Port, script: seq<Event>, checks: nat)
    requires HandlerInv(p) && Waited(p, script, checks)
    ensures MediumKnown(Settle(p, script, checks)) <==> MediumKnown(p) || |Settle(p, script, checks).log| > |p.log|
    decreases |script|
  {
    if p.busy {
      var q := Handle(p, script[0], checks);
      HandleKeeps(p, script[0], checks);
      KnownStep(p, script[0], checks);
      SettleKeeps(q, script[1..], checks);
      KnownSettled(q, script[1..], checks);
    }
  }

  // An ATA device was identified while the medium of an ATAPI device was being tested, and the
  // port was not disconnected again during the next command.
  ghost predicate Swapped(p: Port, m: Medium, checks: nat) {
    var t := Exec(p, m.test, checks);
    t.state == GoodDev && !t.atapi && |Exec(t.(hasMedium := false), m.sense, checks).log| == |t.log|
  }

  lemma CheckLosesMedium(p: Port, m: Medium, checks: nat)
    requires PortInv(p) && LogInv(p) && !p.busy && p.atapi && p.openCount == 0
    requires p.state == GoodDev && MediumPlayed(p, m, checks)
    ensures MediumKnown(CheckMedium(p, m, checks).0) <==> !Swapped(p, m, checks)
  {
    var t, q := Exec(p, m.test, checks), Tested(p, m, checks);
    TestedKeeps(p, m, checks);
    TestLosesMedium(p, m, checks);
    if (Succeeded(t) || (Succeeded(q) && m.attention)) && !q.hasMedium {
      ReadCapacityKeeps(q, m, checks);
      CapacityKnown(q, m, checks);
    }
  }

  lemma CapacityKnown(p: Port, m: Medium, checks: nat)
    requires PortInv(p) && !p.busy && MediumKnown(p) && Waited(Issue(p), m.capacity, checks)
    ensures MediumKnown(ReadCapacity(p, m, checks).0)
  {
    ExecKnown(p, m.capacity, checks);
  }

  lemma ExecKnown(p: Port, script: seq<Event>, checks: nat)
    requires PortInv(p) && !p.busy && Waited(Issue(p), script, checks)
    ensures MediumKnown(Exec(p, script, checks)) <==> MediumKnown(p) || |Exec(p, script, checks).log| > |p.log|
  {
    IssueKeeps(p);
    KnownSettled(Issue(p), script, checks);
  }

  lemma TestLosesMedium(p: Port, m: Medium, checks: nat)
    requires PortInv(p) && !p.busy && p.atapi && p.openCount == 0 && p.state == GoodDev && MediumPlayed(p, m, checks)
    ensures MediumKnown(Tested(p, m, checks)) <==> !Swapped(p, m, checks)
  {
    var t := Exec(p, m.test, checks);
    ExecKeeps(p, m.test, checks);
    ExecKnown(p, m.test, checks);
    if !Succeeded(t) {
      ExecKnown(t.(hasMedium := false), m.sense, checks);
      ExecKeeps(t.(hasMedium := false), m.sense, checks);
    }
  }

  // The medium flag, over any action: lost exactly by an open that meets such a swap.
  ghost predicate LosesMedium(p: Port, o: Opening, checks: nat) {
    var q := if p.busy then Settle(p, o.deferred, checks) else p;
    q.state == GoodDev && !(q.readonly && o.write) && q.openCount == 0 && q.atapi && Swapped(Clear(q), o.medium, checks)
  }

  lemma MediumLostIff(p: Port, a: Action, checks: nat)
    requires PortInv(p) && LogInv(p) && MediumKnown(p) && Possible(p, a, checks)
    ensures MediumKnown(Do(p, a, checks)) <==> !(a.Opened? && LosesMedium(p, a.o, checks))
  {
    match a
    case Notified(e) => KnownStep(p, e, checks);
    case Opened(o) => OpenKnown(p, o, checks);
    case Closed =>
    case Transferred(t) => TransferKnown(p, t, checks);
    case Controlled(script) => if p.state == GoodDev { KnownSettled(Issue(p), script, checks); }
  }

  lemma TransferKnown(p: Port, t: Request, checks: nat)
    requires PortInv(p) && MediumKnown(p) && TransferPlayed(p, t, checks)
    ensures MediumKnown(Transfer(p, t, checks))
  {
    if Accessible(p) && t.Run? && !Reached(p).halted { KnownSettled(Issue(Reached(p)), t.script, checks); }
  }

  lemma OpenKnown(p: Port, o: Opening, checks: nat)
    requires PortInv(p) && LogInv(p) && MediumKnown(p) && OpenPlayed(p, o, checks)
    ensures MediumKnown(Open(p, o, checks).0) <==> !LosesMedium(p, o, checks)
  {
    var q := if p.busy then Settle(p, o.deferred, checks) else p;
    if p.busy {
      SettleKeeps(p, o.deferred, checks);
      LogKept(p, q);
      KnownSettled(p, o.deferred, checks);
    }
    if q.state == GoodDev && !(q.readonly && o.write) && q.openCount == 0 { FirstOpenKnown(q, o, checks); }
  }

  lemma FirstOpenKnown(p: Port, o: Opening, checks: nat)
    requires PortInv(p) && LogInv(p) && MediumKnown(p) && FirstOpenPlayed(p, o, checks)
    requires !p.busy && p.openCount == 0 && p.state == GoodDev
    ensures MediumKnown(FirstOpen(p, o, checks).0) <==> !(p.atapi && Swapped(Clear(p), o.medium, checks))
  {
    ClearLogged(p);
    if p.atapi {
      CheckLosesMedium(Clear(p), o.medium, checks);
      CheckMediumKeeps(Clear(p), o.medium, checks);
    }
    var (q, code) := Rechecked(p, o.medium, checks);
    if code == OK { PartitionKnown(q, o.tables, checks); }
  }

  lemma {:induction false} PartitionKnown(p: Port, ts: seq<Request>, checks: nat)
    requires PortInv(p) && LogInv(p) && !p.busy && MediumKnown(p) && PartitionPlayed(p, ts, checks)
    ensures MediumKnown(Partition(p, ts, checks))
    decreases |ts|
  {
    if ts != [] && !p.halted {
      TransferKeeps(p, ts[0], checks);
      TransferKnown(p, ts[0], checks);
      PartitionKnown(Transfer(p, ts[0], checks), ts[1..], checks);
    }
  }

  // ----- the assertions of port_transfer -----

  // Table reads reach the assertions, or none of them does.
  predicate ReadsTables(ts: seq<Request>) { exists i :: 0 <= i < |ts| && !ts[i].Early? }

  // A first open of an ATA device without its medium flag, which gets as far as a table read.
  ghost predicate HaltsOpen(p: Port, o: Opening, checks: nat) {
    var q := if p.busy then Settle(p, o.deferred, checks) else p;
    && q.state == GoodDev && !(q.readonly && o.write) && q.openCount == 0
    && !MediumKnown(q) && ReadsTables(o.tables)
  }

  // The devices that processes have open have a medium.
  predicate OpenInUse(p: Port) { p.openCount > 0 ==> InUse(p) }

  // A transfer request comes only for an open port.
  predicate Proper(p: Port, a: Action) { a.Transferred? ==> p.openCount > 0 }

  lemma TransferHalts(p: Port, t: Request, checks: nat)
    requires PortInv(p) && !p.busy && !p.halted && TransferPlayed(p, t, checks)
    ensures Transfer(p, t, checks).halted <==> Accessible(p) && !p.hasMedium && !t.Early?
  {
    if Accessible(p) && t.Run? && !Reached(p).halted { ExecKeeps(Reached(p), t.script, checks); }
  }

  lemma {:induction false} PartitionHalts(p: Port, ts: seq<Request>, checks: nat)
    requires PortInv(p) && LogInv(p) && !p.busy && !p.halted && PartitionPlayed(p, ts, checks)
    requires Accessible(p) && (p.atapi ==> p.hasMedium)
    ensures Partition(p, ts, checks).halted <==> !p.hasMedium && ReadsTables(ts)
    decreases |ts|
  {
    if p.hasMedium {
      NeverHalts(p, ts, checks);
    } else if ts != [] {
      TransferHalts(p, ts[0], checks);
      if ts[0].Early? {
        PartitionHalts(p, ts[1..], checks);
        assert ReadsTables(ts) <==> ReadsTables(ts[1..]) by { LaterReads(ts); }
      }
    }
  }

  lemma LaterReads(ts: seq<Request>)
    requires ts != [] && ts[0].Early?
    ensures ReadsTables(ts) <==> ReadsTables(ts[1..])
  {
    if ReadsTables(ts) {
      var i :| 0 <= i < |ts| && !ts[i].Early?;
      assert ts[1..][i - 1] == ts[i];
    }
    if ReadsTables(ts[1..]) {
      var i :| 0 <= i < |ts[1..]| && !ts[1..][i].Early?;
      assert ts[i + 1] == ts[1..][i];
    }
  }

  lemma {:induction false} NeverHalts(p: Port, ts: seq<Request>, checks: nat)
    requires PortInv(p) && LogInv(p) && !p.busy && !p.halted && InUse(p) && PartitionPlayed(p, ts, checks)
    ensures !Partition(p, ts, checks).halted
    decreases |ts|
  {
    if ts != [] {
      TransferHalts(p, ts[0], checks);
      TransferKeeps(p, ts[0], checks);
      NeverHalts(Transfer(p, ts[0], checks), ts[1..], checks);
    }
  }

  // Where the driver can stop: at the first table read of such an open, and nowhere else.
  lemma HaltsIff(p: Port, a: Action, checks: nat)
    requires PortInv(p) && LogInv(p) && OpenInUse(p) && Possible(p, a, checks) && Proper(p, a)
    ensures Do(p, a, checks).halted <==> a.Opened? && HaltsOpen(p, a.o, checks)
  {
    match a
    case Notified(e) => HandleKeeps(p, e, checks);
    case Opened(o) => OpenHalts(p, o, checks);
    case Closed =>
    case Transferred(t) => if p.busy { assert !Accessible(p); } else { TransferHalts(p, t, checks); }
    case Controlled(script) => if p.state == GoodDev { ExecKeeps(p, script, checks); }
  }

  lemma OpenHalts(p: Port, o: Opening, checks: nat)
    requires PortInv(p) && LogInv(p) && !p.halted && OpenPlayed(p, o, checks)
    ensures Open(p, o, checks).0.halted <==> HaltsOpen(p, o, checks)
  {
    var q := if p.busy then Settle(p, o.deferred, checks) else p;
    if p.busy {
      SettleKeeps(p, o.deferred, checks);
      LogKept(p, q);
    }
    if q.state == GoodDev && !(q.readonly && o.write) && q.openCount == 0 { FirstOpenHalts(q, o, checks); }
  }

  lemma FirstOpenHalts(p: Port, o: Opening, checks: nat)
    requires PortInv(p) && LogInv(p) && !p.busy && !p.halted && p.openCount == 0 && p.state == GoodDev
    requires FirstOpenPlayed(p, o, checks)
    ensures FirstOpen(p, o, checks).0.halted <==> !MediumKnown(p) && ReadsTables(o.tables)
  {
    ClearLogged(p);
    if p.atapi { CheckMediumKeeps(Clear(p), o.medium, checks); }
    var (q, code) := Rechecked(p, o.medium, checks);
    if code == OK { PartitionHalts(q, o.tables, checks); }
  }

  // Without a loss of the flag, the next open can do no harm; with one, it can.
  lemma CanHaltIff(p: Port, checks: nat)
    requires PortInv(p) && LogInv(p) && !p.busy && !p.halted && p.openCount == 0
    ensures (exists o :: OpenPlayed(p, o, checks) && Open(p, o, checks).0.halted) <==> !MediumKnown(p)
  {
    forall o | OpenPlayed(p, o, checks) ensures Open(p, o, checks).0.halted <==> HaltsOpen(p, o, checks) {
      OpenHalts(p, o, checks);
    }
    if !MediumKnown(p) {
      assert !NEXT_OPEN.tables[0].Early?;
      assert OpenPlayed(p, NEXT_OPEN, checks) && HaltsOpen(p, NEXT_OPEN, checks);
    }
  }

  // An open with one table read, whose arguments are in order.
  const NEXT_OPEN: Opening := Opening(false, [], Medium([], [], false, [], 0), [Run([])])

  // No action of the run makes an ATA device lose its flag, or is a transfer to a closed port.
  ghost predicate Clean(p: Port, acts: seq<Action>, checks: nat)
    decreases |acts|
  {
    acts != [] ==>
      && Proper(p, acts[0]) && !(acts[0].Opened? && LosesMedium(p, acts[0].o, checks))
      && Clean(Do(p, acts[0], checks), acts[1..], checks)
  }

  // Then every transfer that comes to the assertions, also inside a first open, finds its medium
  // and a sector size: they never fail.
  lemma AssertionsHold(acts: seq<Action>, checks: nat)
    requires Runs(Init(), acts, checks) && Clean(Init(), acts, checks)
    ensures var p := After(Init(), acts, checks);
            !p.halted && forall k :: 0 <= k < |p.log| && p.log[k].Issued? ==> p.log[k] == Issued(true)
  {
    CleanRun(Init(), acts, checks);
  }

  ghost predicate Sound(p: Port) {
    PortInv(p) && LogInv(p) && MediumKnown(p) && OpenInUse(p) && !p.halted
  }

  lemma {:induction false} CleanRun(p: Port, acts: seq<Action>, checks: nat)
    requires Sound(p) && Runs(p, acts, checks) && Clean(p, acts, checks)
    ensures Sound(After(p, acts, checks))
    decreases |acts|
  {
    if acts != [] {
      SoundStep(p, acts[0], checks);
      CleanRun(Do(p, acts[0], checks), acts[1..], checks);
    }
  }

  lemma SoundStep(p: Port, a: Action, checks: nat)
    requires Sound(p) && Possible(p, a, checks) && Proper(p, a) && !(a.Opened? && LosesMedium(p, a.o, checks))
    ensures Sound(Do(p, a, checks))
  {
    DoKeeps(p, a, checks);
    MediumLostIff(p, a, checks);
    HaltsIff(p, a, checks);
    if p.openCount > 0 { OpenPortUsable(p, a, checks); }
    if a.Opened? { KnownOpenHolds(p, a.o, checks); }
    if p.openCount == 0 && !a.Opened? { StaysClosed(p, a, checks); }
  }

  lemma StaysClosed(p: Port, a: Action, checks: nat)
    requires PortInv(p) && LogInv(p) && Possible(p, a, checks) && p.openCount == 0 && !a.Opened? && !a.Transferred?
    ensures Do(p, a, checks).openCount == 0
  {
    match a
    case Notified(e) => HandleKeeps(p, e, checks);
    case Closed =>
    case Controlled(script) => if p.state == GoodDev { ExecKeeps(p, script, checks); }
  }

  lemma KnownOpenHolds(p: Port, o: Opening, checks: nat)
    requires Sound(p) && OpenPlayed(p, o, checks)
    ensures !HaltsOpen(p, o, checks)
    ensures p.openCount == 0 ==> OpenInUse(Open(p, o, checks).0)
  {
    var q := if p.busy then Settle(p, o.deferred, checks) else p;
    if p.busy {
      SettleKeeps(p, o.deferred, checks);
      LogKept(p, q);
      KnownSettled(p, o.deferred, checks);
    }
    if q.state == GoodDev && !(q.readonly && o.write) && q.openCount == 0 { FirstOpenKeeps(q, o, checks); }
  }

  // A run in which it happens: an ATAPI device is swapped for an ATA device during the first open.
  const ANSWER: Reads := Reads(true, Ready, false, AtapiSig, true, false, Identity(true, 512, false))
  const DONE: Event := Interrupt(Status(false, false, true), ANSWER)
  const SWAP: Event := Interrupt(Status(true, false, false), ANSWER.(sig := AtaSig))

  function SwapRun(): seq<Action> {
    [Notified(Timeout(ANSWER)), Notified(DONE),
        Opened(Opening(false, [], Medium([SWAP, DONE], [DONE], false, [], 0), []))]
  }

  // It ends with an ATA device without its medium flag. The next open clears the barrier, and its
  // first table read then fails the assertion.
  lemma SwapLosesMedium()
    ensures Runs(Init(), SwapRun(), 60)
    ensures var p := After(Init(), SwapRun(), 60);
            !p.busy && !p.halted && p.openCount == 0 && !p.atapi && !p.hasMedium && Accessible(Clear(p))
  {
    var acts := SwapRun();
    var p1 := Do(Init(), acts[0], 60);
    var p2 := Do(p1, acts[1], 60);
    OneAction(Init(), acts[0], 60);
    OneMore(Init(), [acts[0]], acts[1], 60);
    assert [acts[0]] + [acts[1]] == [acts[0], acts[1]];
    SwapOpen(p2, acts[2].o);
    OneMore(Init(), [acts[0], acts[1]], acts[2], 60);
    assert [acts[0], acts[1]] + [acts[2]] == acts;
  }

  lemma SwapOpen(p: Port, o: Opening)
    requires p.state == GoodDev && p.atapi && !p.busy && p.openCount == 0 && !p.readonly && !p.halted && p.ie == AllInts
    requires o == Opening(false, [], Medium([SWAP, DONE], [DONE], false, [], 0), [])
    ensures OpenPlayed(p, o, 60)
    ensures var q := Open(p, o, 60).0;
            !q.busy && !q.halted && q.openCount == 0 && !q.atapi && !q.hasMedium && q.state == GoodDev && !q.readonly
  {
    SwapWait(Clear(p));
    SenseWait(Exec(Clear(p), o.medium.test, 60).(hasMedium := false));
  }

  // While the first command is waited for, the ATAPI device goes and an ATA device comes.
  lemma SwapWait(p: Port)
    requires p.state == GoodDev && !p.busy && p.ie == AllInts
    ensures Waited(Issue(p), [SWAP, DONE], 60)
    ensures var t := Exec(p, [SWAP, DONE], 60);
            && t.state == GoodDev && !t.atapi && !t.busy && t.barrier && !t.readonly && t.ie == AllInts
            && t.openCount == p.openCount && t.halted == p.halted
  {
    var i0 := Issue(p);
    var i1 := Handle(i0, SWAP, 60);
    OneWait(i1, DONE, 60);
    assert [SWAP, DONE][1..] == [DONE];
  }

  lemma SenseWait(p: Port)
    requires p.state == GoodDev && !p.busy && p.ie == AllInts
    ensures Waited(Issue(p), [DONE], 60) && Exec(p, [DONE], 60) == Issue(p).(busy := false, armed := false)
  {
    OneWait(Issue(p), DONE, 60);
  }

  lemma SwapHalts()
    ensures Runs(Init(), SwapRun() + [Opened(NEXT_OPEN)], 60)
    ensures var p := After(Init(), SwapRun() + [Opened(NEXT_OPEN)], 60);
            p.halted && p.log != [] && p.log[|p.log| - 1] == Issued(false)
  {
    SwapLosesMedium();
    var p := After(Init(), SwapRun(), 60);
    var q := Partition(Clear(p), NEXT_OPEN.tables, 60);
    assert q == Reached(Clear(p));
    OneMore(Init(), SwapRun(), Opened(NEXT_OPEN), 60);
  }

  lemma {:induction false} OneMore(p: Port, acts: seq<Action>, a: Action, checks: nat)
    requires Runs(p, acts, checks) && Possible(After(p, acts, checks), a, checks)
    ensures Runs(p, acts + [a], checks) && After(p, acts + [a], checks) == Do(After(p, acts, checks), a, checks)
    decreases |acts|
  {
    if acts == [] {
      assert acts + [a] == [a];
      OneAction(p, a, checks);
    } else {
      assert (acts + [a])[1..] == acts[1..] + [a];
      OneMore(Do(p, acts[0], checks), acts[1..], a, checks);
    }
  }

  lemma OneWait(p: Port, e: Event, checks: nat)
    ensures Settle(p, [e], checks) == Handle(p, e, checks)
    ensures p.busy && Enabled(p, e) && !Handle(p, e, checks).busy ==> Waited(p, [e], checks)
  {}

  lemma OneAction(p: Port, a: Action, checks: nat)
    ensures After(p, [a], checks) == Do(p, a, checks) && (Possible(p, a, checks) ==> Runs(p, [a], checks))
  {}
}
