// What the port driver's operations come to, in the fields of the port and the events that arrive:
// when a command succeeds, what an identification makes of a device, which code an open returns.
module AhciMeaning {
  import opened AhciPort
  import opened AhciRuns

  // ----- commands on a working port -----

  // The port's connection did not change.
  predicate Still(e: Event) { e.Interrupt? ==> !e.status.phyRdy }

  predicate Quiet(script: seq<Event>) { forall e :: e in script ==> Still(e) }

  // The command is over with this event: it ended, or took too long.
  predicate Ends(e: Event) { e.Timeout? || e.regs.finished }

  // The device did it without an error, and the port needed no reset.
  predicate Clean(e: Event) {
    e.Interrupt? && !e.regs.failed && (e.status.fatal ==> !e.regs.hung)
  }

  // The port had to be reset, and its device counts as disconnected.
  predicate Resets(e: Event) { e.regs.hung && (e.Interrupt? ==> e.status.fatal) }

  function Last(script: seq<Event>): Event
    requires script != []
  {
    script[|script| - 1]
  }

  // Nothing but interrupts without news, up to the event that ends the command.
  predicate EndsLast(script: seq<Event>) {
    && script != [] && Ends(Last(script))
    && forall i :: 0 <= i < |script| - 1 ==> !Ends(script[i])
  }

  predicate Fine(script: seq<Event>) { script != [] && Quiet(script) && Clean(Last(script)) }

  predicate Undisturbed(script: seq<Event>) { script != [] && Quiet(script) && !Resets(Last(script)) }

  // A command on a working port that waits for its end.
  predicate Underway(p: Port) { HandlerInv(p) && p.state == GoodDev && p.busy }

  // The port when its command is over.
  function Stopped(p: Port, failure: bool, reset: bool): Port {
    var q := p.(busy := false, failure := failure);
    if reset then Disconnect(q) else q
  }

  lemma QuietInterrupt(p: Port, s: Status, r: Reads, checks: nat)
    requires Underway(p) && !s.phyRdy && (s.fatal || s.other)
    ensures Intr(p, s, r, checks) == if r.finished then Stopped(p, r.failed, s.fatal && r.hung) else p
  {
    if r.finished {
      var q := p.(busy := false, failure := p.failure || r.failed);
      assert Intr(p, s, r, checks) == Ended(if s.fatal then Restart(q, r.hung) else q, r.id);
    }
  }

  lemma QuietTimeout(p: Port, r: Reads, checks: nat)
    requires Underway(p)
    ensures Expire(p, r, checks) == Stopped(p.(armed := false), true, r.hung)
  {
    var q := p.(armed := false, busy := false, failure := true);
    assert Expire(p, r, checks) == Ended(Restart(q, r.hung), r.id);
  }

  lemma StoppedMeaning(p: Port, failure: bool, reset: bool)
    ensures var q := Stopped(p, failure, reset);
            && !q.busy && q.failure == failure && q.barrier == (p.barrier || reset)
            && (!q.barrier ==> q == p.(busy := false, failure := failure))
  {}

  lemma QuietStep(p: Port, e: Event, checks: nat)
    requires Underway(p) && Still(e) && Enabled(p, e)
    ensures var q := Handle(p, e, checks);
            && q.busy == !Ends(e)
            && (q.busy ==> q == p)
            && (!q.busy ==>
                q.barrier == (p.barrier || Resets(e)) && (!q.failure && !q.barrier <==> !p.barrier && Clean(e)))
            && (!q.busy && !q.barrier ==>
                q.(armed := false) == p.(busy := false, failure := !Clean(e), armed := false))
  {
    match e
    case Interrupt(s, r) =>
      QuietInterrupt(p, s, r, checks);
      StoppedMeaning(p, r.failed, s.fatal && r.hung);
    case Timeout(r) =>
      QuietTimeout(p, r, checks);
      StoppedMeaning(p.(armed := false), true, r.hung);
  }

  // One wait without a change of the connection.
  lemma {:induction false} QuietWait(p: Port, script: seq<Event>, checks: nat)
    requires Underway(p) && Quiet(script) && Waited(p, script, checks)
    ensures EndsLast(script)
    ensures var q := Settle(p, script, checks);
            && q.barrier == (p.barrier || Resets(Last(script)))
            && (!q.failure && !q.barrier <==> !p.barrier && Clean(Last(script)))
            && (!q.barrier ==> q.(armed := false) == p.(busy := false, failure := !Clean(Last(script)), armed := false))
    decreases |script|
  {
    QuietStep(p, script[0], checks);
    if Ends(script[0]) {
      assert script[1..] == [];
    } else {
      assert Handle(p, script[0], checks) == p;
      QuietWait(p, script[1..], checks);
      assert Last(script[1..]) == Last(script);
      forall i | 0 <= i < |script| - 1 ensures !Ends(script[i]) {
        if i > 0 { assert script[i] == script[1..][i - 1]; }
      }
    }
  }

  // One wait with a change: the barrier goes up and stays.
  lemma {:induction false} LoudWait(p: Port, script: seq<Event>, checks: nat)
    requires Underway(p) && !Quiet(script) && Waited(p, script, checks)
    ensures Settle(p, script, checks).barrier
    decreases |script|
  {
    var q := Handle(p, script[0], checks);
    HandleKeeps(p, script[0], checks);
    if Still(script[0]) {
      QuietStep(p, script[0], checks);
      assert !Quiet(script[1..]);
      assert q.busy;
      LoudWait(p, script[1..], checks);
    } else {
      PhyRdyBars(p, script[0], checks);
      SettleKeeps(q, script[1..], checks);
    }
  }

  lemma PhyRdyBars(p: Port, e: Event, checks: nat)
    requires Underway(p) && !Still(e)
    ensures Handle(p, e, checks).barrier
  {
    if e.regs.connected { ConnectKeeps(Disconnect(p), e.regs, checks); }
  }

  // A command on a working port succeeds if and only if the barrier was down, the connection never
  // changed, and the event that ended the wait was an interrupt by which the device reported no
  // error and after which the port needed no reset. So a timeout is never a success, and neither is
  // a command that the device failed. A success leaves the port as it was.
  lemma ExecMeaning(p: Port, script: seq<Event>, checks: nat)
    requires HandlerInv(p) && !p.busy && p.state == GoodDev && Waited(Issue(p), script, checks)
    ensures var q := Exec(p, script, checks);
            && (!q.failure && !q.barrier <==> !p.barrier && Fine(script))
            && (q.barrier <==> p.barrier || !Undisturbed(script))
            && (!q.barrier ==> q == p.(failure := !Fine(script), armed := false))
  {
    IssueKeeps(p);
    if Quiet(script) {
      QuietWait(Issue(p), script, checks);
    } else {
      LoudWait(Issue(p), script, checks);
    }
  }

  // What a wait without a change of the connection can look like, and all of that can happen.
  lemma {:induction false} QuietWaits(p: Port, script: seq<Event>, checks: nat)
    requires Underway(p) && Quiet(script)
    ensures Waited(p, script, checks) <==>
            && EndsLast(script)
            && forall e :: e in script && e.Interrupt? ==> e.status.fatal || e.status.other
    decreases |script|
  {
    if script != [] && Enabled(p, script[0]) {
      QuietStep(p, script[0], checks);
      if Ends(script[0]) {
        assert |script| > 1 ==> !EndsLast(script);
        assert Waited(p, script, checks) <==> script[1..] == [];
        assert |script| == 1 ==> EndsLast(script);
      } else {
        QuietWaits(p, script[1..], checks);
        LaterEnds(script);
      }
    }
  }

  lemma LaterEnds(script: seq<Event>)
    requires script != [] && !Ends(script[0])
    ensures EndsLast(script) <==> EndsLast(script[1..])
  {
    if |script| > 1 {
      assert Last(script[1..]) == Last(script);
      assert forall i :: 0 <= i < |script| - 2 ==> script[1..][i] == script[i + 1];
      assert forall i :: 0 < i < |script| - 1 ==> script[i] == script[1..][i - 1];
    }
  }

  // ----- a device is found, or lost -----

  // What the signature, and then the identification, make of a device.
  lemma SignatureMeaning(p: Port, sig: Signature)
    ensures var q := ReadSignature(p, sig);
            if sig == OtherSig then q == p.(ie := NoInts, state := BadDev, busy := false)
            else q == p.(state := WaitId, atapi := (sig == AtapiSig), hasMedium := false, readonly := false,
                         failure := false, ie := AllInts, busy := true, armed := true)
  {}

  // A device works if its identify command did and it passed the checks: it does what we need, and
  // an ATA device has sectors of 512 bytes or more. A CD-ROM is read-only, and nothing else is; an
  // ATA device has a medium, and an ATAPI device has yet to be asked.
  lemma IdentifiedMeaning(p: Port, id: Identity)
    requires p.state == WaitId && !p.hasMedium && !p.readonly
    ensures var q := IdCheck(p, id);
            && (q.state == GoodDev <==> !p.failure && id.supported && (p.atapi || id.sectorSize >= 512))
            && (q.state == GoodDev ==>
                && (q.readonly <==> p.atapi && id.cdrom) && (q.hasMedium <==> !p.atapi)
                && q.sectorSize == (if p.atapi then p.sectorSize else id.sectorSize) && q.ie == p.ie)
            && (q.state != GoodDev ==> q.state == BadDev && q.ie == PhyRdyOnly && !q.readonly && !q.hasMedium)
            && !q.armed && q.atapi == p.atapi
  {}

  // Where the premise on the read-only flag comes from (that on the medium is in HandlerInv): in
  // every run it is clear while an identification is awaited, and set for ATAPI devices only.
  predicate ReadonlyInv(p: Port) { p.readonly ==> p.atapi && p.state != WaitId }

  lemma SigCheckReadonly(p: Port, r: Reads)
    requires p.state == WaitSig && ReadonlyInv(p)
    ensures ReadonlyInv(SigCheck(p, r))
  {
    if r.tfd == Ready {
      ReadSignatureReadonly(p, r.sig);
    } else if p.left == 0 && r.tfd == Bsy {
      ReadSignatureReadonly(Restart(p, r.hung), r.sig);
    }
  }

  lemma ReadSignatureReadonly(p: Port, sig: Signature)
    requires ReadonlyInv(p)
    ensures ReadonlyInv(ReadSignature(p, sig))
  {}

  lemma ConnectReadonly(p: Port, r: Reads, checks: nat)
    requires ReadonlyInv(p)
    ensures ReadonlyInv(Connect(p, r, checks))
  {
    SigCheckReadonly(Connecting(p, checks), r);
  }

  lemma StoppedReadonly(p: Port, failure: bool, reset: bool, id: Identity)
    requires ReadonlyInv(p)
    ensures ReadonlyInv(Ended(Stopped(p, failure, reset), id))
  {}

  lemma IntrReadonly(p: Port, s: Status, r: Reads, checks: nat)
    requires ReadonlyInv(p)
    ensures ReadonlyInv(Intr(p, s, r, checks))
  {
    if p.state != NoPort && s.phyRdy && p.ie != NoInts {
      PhyRdyMeaning(p, s, r, checks);
      ConnectReadonly(if Occupied(p.state) then Disconnect(p) else p, r, checks);
    } else if p.state != NoPort {
      EndMeaning(p, s, r, checks);
      StoppedReadonly(p, p.failure || r.failed, s.fatal && r.hung, r.id);
    }
  }

  lemma ExpireReadonly(p: Port, r: Reads, checks: nat)
    requires ReadonlyInv(p)
    ensures ReadonlyInv(Expire(p, r, checks))
  {
    var q := p.(armed := false);
    if p.state == SpinUp {
      ConnectReadonly(q, r, checks);
    } else if p.state == WaitSig {
      SigCheckReadonly(q, r);
    } else {
      StoppedReadonly(q, true, r.hung, r.id);
    }
  }

  lemma HandleReadonly(p: Port, e: Event, checks: nat)
    requires ReadonlyInv(p)
    ensures ReadonlyInv(Handle(p, e, checks))
  {
    match e
    case Interrupt(s, r) => IntrReadonly(p, s, r, checks);
    case Timeout(r) => ExpireReadonly(p, r, checks);
  }

  lemma {:induction false} SettleReadonly(p: Port, script: seq<Event>, checks: nat)
    requires ReadonlyInv(p)
    ensures ReadonlyInv(Settle(p, script, checks))
    decreases |script|
  {
    if script != [] {
      HandleReadonly(p, script[0], checks);
      SettleReadonly(Handle(p, script[0], checks), script[1..], checks);
    }
  }

  lemma ExecReadonly(p: Port, script: seq<Event>, checks: nat)
    requires ReadonlyInv(p)
    ensures ReadonlyInv(Exec(p, script, checks))
  {
    SettleReadonly(Issue(p), script, checks);
  }

  lemma {:induction false} PartitionReadonly(p: Port, ts: seq<Request>, checks: nat)
    requires ReadonlyInv(p)
    ensures ReadonlyInv(Partition(p, ts, checks))
    decreases |ts|
  {
    if ts != [] && !p.halted {
      TransferReadonly(p, ts[0], checks);
      PartitionReadonly(Transfer(p, ts[0], checks), ts[1..], checks);
    }
  }

  lemma TransferReadonly(p: Port, t: Request, checks: nat)
    requires ReadonlyInv(p)
    ensures ReadonlyInv(Transfer(p, t, checks))
  {
    if t.Run? { ExecReadonly(Reached(p), t.script, checks); }
  }

  lemma CheckMediumReadonly(p: Port, m: Medium, checks: nat)
    requires ReadonlyInv(p)
    ensures ReadonlyInv(CheckMedium(p, m, checks).0)
  {
    ExecReadonly(p, m.test, checks);
    ExecReadonly(Exec(p, m.test, checks).(hasMedium := false), m.sense, checks);
    ExecReadonly(Tested(p, m, checks), m.capacity, checks);
  }

  lemma OpenReadonly(p: Port, o: Opening, checks: nat)
    requires ReadonlyInv(p)
    ensures ReadonlyInv(Open(p, o, checks).0)
  {
    if p.busy { SettleReadonly(p, o.deferred, checks); }
    FirstOpenReadonly(Awaited(p, o, checks), o, checks);
  }

  lemma FirstOpenReadonly(p: Port, o: Opening, checks: nat)
    requires ReadonlyInv(p)
    ensures ReadonlyInv(FirstOpen(p, o, checks).0)
  {
    CheckMediumReadonly(Clear(p), o.medium, checks);
    PartitionReadonly(Rechecked(p, o.medium, checks).0, o.tables, checks);
  }

  lemma DoReadonly(p: Port, a: Action, checks: nat)
    requires ReadonlyInv(p)
    ensures ReadonlyInv(Do(p, a, checks))
  {
    match a
    case Notified(e) => HandleReadonly(p, e, checks);
    case Opened(o) => OpenReadonly(p, o, checks);
    case Closed =>
    case Transferred(t) => TransferReadonly(p, t, checks);
    case Controlled(script) => ExecReadonly(p, script, checks);
  }

  lemma {:induction false} RunReadonly(p: Port, acts: seq<Action>, checks: nat)
    requires ReadonlyInv(p)
    ensures ReadonlyInv(After(p, acts, checks))
    decreases |acts|
  {
    if acts != [] {
      DoReadonly(p, acts[0], checks);
      RunReadonly(Do(p, acts[0], checks), acts[1..], checks);
    }
  }

  // Over every run from port_init: an ATA device is never refused for writing.
  lemma WritesAllowed(acts: seq<Action>, o: Opening, checks: nat)
    requires Runs(Init(), acts, checks)
    requires var p := After(Init(), acts, checks); !p.busy && !p.atapi
    ensures Open(After(Init(), acts, checks), o, checks).1 != EACCES
  {
    RunReadonly(Init(), acts, checks);
    var p := After(Init(), acts, checks);
    if p.state == GoodDev && p.openCount == 0 { FirstOpenAta(p, o, checks); }
  }

  lemma FirstOpenAta(p: Port, o: Opening, checks: nat)
    requires !p.atapi
    ensures FirstOpen(p, o, checks).1 == OK || FirstOpen(p, o, checks).1 == Gone
  {}

  // A device was seen on the port.
  predicate Found(s: PortState) { s in {BadDev, GoodDev, WaitSig, WaitId} }

  // The device of the port is taken for disconnected: its connection changed while there was one,
  // or the port hung after a command or at the last look at the signature.
  predicate Lost(p: Port, e: Event, checks: nat) {
    match e
    case Interrupt(s, r) =>
      if s.phyRdy && p.ie != NoInts then
        Found(p.state) || (r.connected && checks == 0 && r.tfd == Bsy && r.hung)
      else p.busy && s.fatal && r.finished && r.hung
    case Timeout(r) =>
      if p.state == SpinUp then r.connected && checks == 0 && r.tfd == Bsy && r.hung
      else if p.state == WaitSig then p.left == 0 && r.tfd == Bsy && r.hung
      else p.busy && r.hung
  }

  // A handler puts the barrier up exactly then; after a change that leaves no connection the port
  // waits for the next one with only that interrupt enabled.
  lemma BarrierRaisedIff(p: Port, e: Event, checks: nat)
    requires HandlerInv(p)
    ensures Handle(p, e, checks).barrier <==> p.barrier || Lost(p, e, checks)
    ensures e.Interrupt? && e.status.phyRdy && p.ie != NoInts && !e.regs.connected && Found(p.state) ==>
              Handle(p, e, checks) == p.(state := NoDev, ie := PhyRdyOnly, busy := false, barrier := true,
                  failure := p.failure || p.busy, armed := p.armed && !p.busy, log := Handle(p, e, checks).log)
  {
    match e
    case Interrupt(s, r) => IntrBars(p, s, r, checks);
    case Timeout(r) => ExpireBars(p, r, checks);
  }

  lemma IntrBars(p: Port, s: Status, r: Reads, checks: nat)
    requires p.state != NoPort
    ensures Intr(p, s, r, checks).barrier <==>
            p.barrier || Lost(p, Interrupt(s, r), checks)
  {
    if s.phyRdy && p.ie != NoInts {
      PlugBars(p, s, r, checks);
    } else {
      EndBars(p, s, r, checks);
    }
  }

  lemma PlugBars(p: Port, s: Status, r: Reads, checks: nat)
    requires p.state != NoPort && s.phyRdy && p.ie != NoInts
    ensures Intr(p, s, r, checks).barrier <==>
            p.barrier || Found(p.state) || (r.connected && checks == 0 && r.tfd == Bsy && r.hung)
  {
    var q := if Found(p.state) then Disconnect(p) else p;
    PhyRdyMeaning(p, s, r, checks);
    if r.connected { ConnectBars(q, r, checks); }
    DisconnectBars(p);
  }

  lemma DisconnectBars(p: Port)
    ensures Disconnect(p).barrier
  {}

  lemma EndBars(p: Port, s: Status, r: Reads, checks: nat)
    requires p.state != NoPort && !(s.phyRdy && p.ie != NoInts)
    ensures Intr(p, s, r, checks).barrier <==> p.barrier || (p.busy && s.fatal && r.finished && r.hung)
  {
    EndMeaning(p, s, r, checks);
    StoppedBars(p, p.failure || r.failed, s.fatal && r.hung, r.id);
  }

  // The two branches of the interrupt handler.
  lemma PhyRdyMeaning(p: Port, s: Status, r: Reads, checks: nat)
    requires p.state != NoPort && s.phyRdy && p.ie != NoInts
    ensures var q := if Found(p.state) then Disconnect(p) else p;
            Intr(p, s, r, checks) == (if r.connected then Connect(q, r, checks) else q)
  {}

  lemma EndMeaning(p: Port, s: Status, r: Reads, checks: nat)
    requires p.state != NoPort && !(s.phyRdy && p.ie != NoInts)
    ensures Intr(p, s, r, checks) ==
            if p.busy && (s.phyRdy || s.fatal || s.other) && r.finished
            then Ended(Stopped(p, p.failure || r.failed, s.fatal && r.hung), r.id) else p
  {}

  lemma ExpireBars(p: Port, r: Reads, checks: nat)
    ensures Expire(p, r, checks).barrier <==> p.barrier || Lost(p, Timeout(r), checks)
  {
    var q := p.(armed := false);
    if p.state == SpinUp {
      ConnectBars(q, r, checks);
    } else if p.state == WaitSig {
      SigCheckBars(q, r);
    } else {
      StoppedBars(q, true, r.hung, r.id);
    }
  }

  lemma ConnectBars(p: Port, r: Reads, checks: nat)
    ensures Connect(p, r, checks).barrier <==> p.barrier || (checks == 0 && r.tfd == Bsy && r.hung)
  {
    SigCheckBars(Connecting(p, checks), r);
  }

  lemma StoppedBars(p: Port, failure: bool, reset: bool, id: Identity)
    ensures Ended(Stopped(p, failure, reset), id).barrier <==> p.barrier || reset
  {}

  lemma SigCheckBars(p: Port, r: Reads)
    requires p.state == WaitSig
    ensures SigCheck(p, r).barrier <==> p.barrier || (p.left == 0 && r.tfd == Bsy && r.hung)
  {
    if r.tfd == Ready {
      ReadSignatureOnce(p, r.sig, 1);
      ReadSignatureBars(p, r.sig);
    } else if p.left == 0 && r.tfd == Bsy {
      ReadSignatureBars(Restart(p, r.hung), r.sig);
    }
  }

  lemma ReadSignatureBars(p: Port, sig: Signature)
    ensures ReadSignature(p, sig).barrier == p.barrier
  {}

  // Timer expiries at which the device does not show a signature.
  predicate Silent(script: seq<Event>) {
    forall i :: 0 <= i < |script| ==> script[i].Timeout? && script[i].regs.tfd != Ready
  }

  // A device whose signature is awaited has it looked at again at every expiry, as often as the
  // count says; by the next one it has been refused, or is told to identify itself anyway.
  lemma {:induction false} SignatureTries(p: Port, script: seq<Event>, checks: nat)
    requires p.state == WaitSig && Silent(script)
    ensures |script| <= p.left ==>
              && Settle(p, script, checks).state == WaitSig && Settle(p, script, checks).left == p.left - |script|
              && (p.armed ==> Settle(p, script, checks).armed)
    ensures |script| == p.left + 1 ==> Settle(p, script, checks).state != WaitSig
    decreases |script|
  {
    if script != [] && p.left > 0 {
      TryAgain(p, script[0], checks);
      SignatureTries(Handle(p, script[0], checks), script[1..], checks);
    } else if |script| == 1 {
      GaveUp(p.(armed := false), script[0].regs);
      OneWait(p, script[0], checks);
    }
  }

  lemma TryAgain(p: Port, e: Event, checks: nat)
    requires p.state == WaitSig && p.left > 0 && e.Timeout? && e.regs.tfd != Ready
    ensures Handle(p, e, checks) == p.(left := p.left - 1, armed := true)
  {}

  // The first look is when it is connected.
  lemma ConnectMeaning(p: Port, r: Reads, checks: nat)
    requires r.tfd != Ready && checks > 0
    ensures var q := Connect(p, r, checks);
            q.state == WaitSig && q.left == checks - 1 && q.busy && q.armed && q.ie == PhyRdyOnly
            && q.barrier == p.barrier
  {}

  lemma GaveUp(p: Port, r: Reads)
    requires p.state == WaitSig && p.left == 0 && r.tfd != Ready
    ensures SigCheck(p, r).state != WaitSig
  {}

  // A port that does not spin up has no device, and a deferred open is over; no barrier is put up. If
  // a device is there after all, it is treated as one that was just connected.
  lemma SpinUpMeaning(p: Port, r: Reads, checks: nat)
    requires p.state == SpinUp
    ensures Handle(p, Timeout(r), checks) ==
            if r.connected then Connect(p.(armed := false), r, checks)
            else p.(state := NoDev, busy := false, armed := false)
  {}

  // ----- opening -----

  // The device answers its readiness check, or says that its medium has changed.
  predicate Responds(m: Medium) {
    Fine(m.test) || (Undisturbed(m.test) && Fine(m.sense) && m.attention)
  }

  // Its capacity can be read, and comes with a sector size that is even and not zero.
  predicate Readable(m: Medium) { Fine(m.capacity) && m.sectorSize > 0 && m.sectorSize % 2 == 0 }

  // Which medium check succeeds, and how one that does not ends, from the events and the answers
  // alone. A device that did not pass its readiness check has its capacity read anew.
  lemma CheckMediumMeaning(p: Port, m: Medium, checks: nat)
    requires PortInv(p) && !p.busy && Accessible(p) && MediumPlayed(p, m, checks)
    ensures var (q, code) := CheckMedium(p, m, checks);
            var known := Fine(m.test) && p.hasMedium;
            var read := Readable(m);
            && (code == ENXIO <==> !Responds(m))
            && (code == EIO <==> Responds(m) && !known && !read)
            && (code == OK <==> Responds(m) && (known || read))
            && (code == OK && !known ==> q.hasMedium && q.sectorSize == m.sectorSize)
  {
    ExecMeaning(p, m.test, checks);
    TestedMeaning(p, m, checks);
    var q := Tested(p, m, checks);
    if Responds(m) && !q.hasMedium { ExecMeaning(q, m.capacity, checks); }
  }

  lemma TestedMeaning(p: Port, m: Medium, checks: nat)
    requires PortInv(p) && !p.busy && Accessible(p) && TestPlayed(p, m, checks)
    ensures var q := Tested(p, m, checks);
            && (Succeeded(q) <==> Fine(m.test) || (Undisturbed(m.test) && Fine(m.sense)))
            && (Succeeded(q) ==>
                HandlerInv(q) && !q.busy && Accessible(q) && q.hasMedium == (Fine(m.test) && p.hasMedium))
  {
    ExecMeaning(p, m.test, checks);
    ExecKeeps(p, m.test, checks);
    if !Fine(m.test) { SenseMeaning(Exec(p, m.test, checks).(hasMedium := false), m, checks); }
  }

  lemma SenseMeaning(p: Port, m: Medium, checks: nat)
    requires PortInv(p) && !p.busy && (p.barrier || p.state == GoodDev) && Waited(Issue(p), m.sense, checks)
    ensures var q := Exec(p, m.sense, checks);
            && (Succeeded(q) <==> !p.barrier && Fine(m.sense))
            && (Succeeded(q) ==> HandlerInv(q) && !q.busy && Accessible(q) && q.hasMedium == p.hasMedium)
  {
    ExecKeeps(p, m.sense, checks);
    if !p.barrier { ExecMeaning(p, m.sense, checks); }
  }

  // The port as an open finds it, after the wait for a pending identification.
  function Awaited(p: Port, o: Opening, checks: nat): Port {
    if p.busy then Settle(p, o.deferred, checks) else p
  }

  // A first open of an ATAPI device asks for its medium; for an ATA device there is nothing to ask.
  predicate MediumAnswers(p: Port, m: Medium) {
    p.atapi ==> Responds(m) && ((Fine(m.test) && p.hasMedium) || Readable(m))
  }

  // Which code an open returns. One that the driver refuses before it asks for a medium changes
  // nothing, in particular not the barrier; one that succeeds is counted.
  lemma OpenMeaning(p: Port, o: Opening, checks: nat)
    requires PortInv(p) && LogInv(p) && !p.halted && OpenPlayed(p, o, checks)
    ensures var q := Awaited(p, o, checks);
            var (t, code) := Open(p, o, checks);
            var first := q.state == GoodDev && !(q.readonly && o.write) && q.openCount == 0;
            && (code == EACCES <==> q.state == GoodDev && q.readonly && o.write)
            && (q.state != GoodDev ==> code == ENXIO)
            && (q.state == GoodDev && !(q.readonly && o.write) && q.openCount > 0 ==>
                code == if q.barrier then ENXIO else OK)
            && (first ==>
                && (code == ENXIO <==> q.atapi && !Responds(o.medium))
                && (code == EIO <==> q.atapi && Responds(o.medium) && !MediumAnswers(q, o.medium))
                && (code == OK || code == Gone <==> MediumAnswers(q, o.medium)))
            && (!first && code != OK ==> t == q)
            && t.openCount == q.openCount + (if code == OK then 1 else 0)
            && code != EINVAL && (code == Gone <==> t.halted)
  {
    OpenKeeps(p, o, checks);
    var q := Awaited(p, o, checks);
    if p.busy {
      SettleKeeps(p, o.deferred, checks);
      LogKept(p, q);
    }
    if q.state == GoodDev && !(q.readonly && o.write) && q.openCount == 0 { FirstOpenMeaning(q, o, checks); }
  }

  lemma FirstOpenMeaning(p: Port, o: Opening, checks: nat)
    requires PortInv(p) && LogInv(p) && !p.busy && !p.halted && p.openCount == 0
    requires p.state == GoodDev && FirstOpenPlayed(p, o, checks)
    ensures var (t, code) := FirstOpen(p, o, checks);
            && (code == ENXIO <==> p.atapi && !Responds(o.medium))
            && (code == EIO <==> p.atapi && Responds(o.medium) && !MediumAnswers(p, o.medium))
            && (code == OK || code == Gone <==> MediumAnswers(p, o.medium))
            && t.openCount == (if code == OK then 1 else 0) && (code == Gone <==> t.halted)
  {
    ClearLogged(p);
    FirstOpenKeeps(p, o, checks);
    if p.atapi {
      CheckMediumMeaning(Clear(p), o.medium, checks);
      CheckMediumKeeps(Clear(p), o.medium, checks);
    }
  }

  // A READ or WRITE runs to its end on a working port whose barrier is down, with a medium, and
  // with a command that does; the port has its sector size then (HandlerInv). It leaves the port as
  // it was but for the history.
  lemma TransferMeaning(p: Port, t: Request, checks: nat)
    requires PortInv(p) && !p.busy && !p.halted && TransferPlayed(p, t, checks)
    ensures var q := Transfer(p, t, checks);
            && (p.state != GoodDev || p.barrier || t.Early? ==> q == p)
            && (q.log == p.log + [Issued(true)] && t.Run? && !q.failure && !q.barrier && !q.halted && q.state == GoodDev
                <==> p.state == GoodDev && !p.barrier && p.hasMedium && t.Run? && Fine(t.script))
  {
    if Accessible(p) && t.Run? && !Reached(p).halted {
      ExecMeaning(Reached(p), t.script, checks);
      ExecKeeps(Reached(p), t.script, checks);
    }
  }
}
