// The port driver of drivers/drivers/ahci/ahci.c: handlers and calls that update a port in place.
module Ahci {
  import opened AhciPort
  import opened AhciRuns
  import opened AhciMeaning

  class PortDriver {
    var state: PortState
    var busy: bool
    var failure: bool
    var barrier: bool
    var atapi: bool
    var hasMedium: bool
    var readonly: bool
    var ie: IntMask
    var armed: bool
    var left: nat
    var openCount: nat
    var sectorSize: nat
    var halted: bool                    // the process ended at a failed assertion
    ghost var log: seq<Mark>
    const checks: nat                   // ahci_sig_checks, at least 1

    ghost function Value(): Port
      reads this
    {
      Port(state, busy, failure, barrier, atapi, hasMedium, readonly, ie, armed, left, openCount, sectorSize,
           halted, log)
    }

    // port_init
    constructor (sigChecks: nat)
      ensures Value() == Init() && checks == sigChecks && PortInv(Value()) && LogInv(Value()) && MediumKnown(Value())
    {
      state, busy, failure, barrier, atapi, hasMedium, readonly := SpinUp, true, false, false, false, false, false;
      ie, armed, left, openCount, sectorSize, halted, log := PhyRdyOnly, true, 0, 0, 0, false, [];
      checks := sigChecks;
    }

    method PortDisconnect()
      modifies this
      ensures Value() == Disconnect(old(Value()))
    {
      if busy {
        armed := false;
      }
      if state != BadDev {
        ie := NoInts;
      }
      state := NoDev;
      ie := PhyRdyOnly;
      if busy {
        busy := false;
        failure := true;
      }
      barrier := true;
      log := log + [Disconnected(openCount)];
    }

    method PortRestart(hung: bool)
      modifies this
      ensures Value() == Restart(old(Value()), hung)
    {
      if hung {
        PortDisconnect();
        return;
      }
    }

    method PortIssue()
      modifies this
      ensures Value() == Issue(old(Value()))
    {
      busy := true;
      failure := false;
      armed := true;
    }

    method PortSigCheck(r: Reads)
      modifies this
      ensures Value() == SigCheck(old(Value()), r)
    {
      if r.tfd != Ready {
        if left > 0 {
          left := left - 1;
          armed := true;
          return;
        }
        if r.tfd == Initial {
          ie := NoInts;
          state := BadDev;
          busy := false;
          return;
        }
        PortRestart(r.hung);
      }
      PortReadSig(r.sig);
    }

    method PortReadSig(sig: Signature)
      modifies this
      ensures Value() == ReadSignature(old(Value()), sig)
    {
      if sig == OtherSig {
        ie := NoInts;
        state := BadDev;
        busy := false;
        return;
      }
      failure, atapi, hasMedium, readonly := false, false, false, false;
      if sig == AtapiSig {
        atapi := true;
      }
      state := WaitId;
      ie := AllInts;
      PortIssue();
    }

    method PortIdCheck(id: Identity)
      requires state == WaitId && !busy
      modifies this
      ensures Value() == IdCheck(old(Value()), id)
    {
      armed := false;
      assert state == WaitId;
      assert !busy;
      var r := !failure;
      if r {
        if atapi {
          r := id.supported;
          if r && id.cdrom {
            readonly := true;
          }
        } else {
          r := id.supported;
          if r {
            sectorSize := id.sectorSize;
            r := sectorSize >= ATA_SECTOR_SIZE;
          }
          if r {
            hasMedium := true;
          }
        }
      }
      if !r {
        ie := NoInts;
        state := BadDev;
        ie := PhyRdyOnly;
        return;
      }
      state := GoodDev;
    }

    method PortConnect(r: Reads)
      modifies this
      ensures Value() == Connect(old(Value()), r, checks)
    {
      if state == SpinUp {
        armed := false;
      }
      state := WaitSig;
      left := checks;
      busy := true;
      ie := PhyRdyOnly;
      PortSigCheck(r);
    }

    // With the assertion of port_intr that a busy port has no failure pending.
    method PortIntr(s: Status, r: Reads)
      requires state == NoPort || (HandlerInv(Value()) && Enabled(Value(), Interrupt(s, r)))
      modifies this
      ensures Value() == Intr(old(Value()), s, r, checks)
    {
      if state == NoPort {
        return;
      }
      if s.phyRdy && ie != NoInts {
        if state == BadDev || state == GoodDev || state == WaitSig || state == WaitId {
          PortDisconnect();
        }
        if r.connected {
          PortConnect(r);
        }
      } else if busy && (s.phyRdy || s.fatal || s.other) && r.finished {
        assert state == WaitId || state == GoodDev || state == BadDev || state == NoDev;
        assert !failure;
        busy := false;
        if r.failed {
          failure := true;
        }
        if s.fatal {
          PortRestart(r.hung);
        }
        if state == WaitId {
          PortIdCheck(r.id);
        }
      }
    }

    method PortTimeout(r: Reads)
      modifies this
      ensures Value() == Expire(old(Value()), r, checks)
    {
      armed := false;
      if state == SpinUp {
        if r.connected {
          PortConnect(r);
        } else {
          state := NoDev;
          busy := false;
        }
        return;
      }
      if state == WaitSig {
        PortSigCheck(r);
        return;
      }
      if !busy {
        return;
      }
      busy := false;
      failure := true;
      PortRestart(r.hung);
      if state == WaitId {
        PortIdCheck(r.id);
      }
    }

    // The events that arrive for this port are given as a script.
    method PortWait(script: seq<Event>)
      requires HandlerInv(Value()) && Waited(Value(), script, checks)
      modifies this
      ensures Value() == Settle(old(Value()), script, checks) && !busy && HandlerInv(Value())
    {
      var i := 0;
      while busy
        invariant i <= |script| && HandlerInv(Value()) && Waited(Value(), script[i..], checks)
        invariant Settle(Value(), script[i..], checks) == Settle(old(Value()), script, checks)
        decreases |script| - i
      {
        HandleKeeps(Value(), script[i], checks);
        assert script[i..][1..] == script[i + 1..];
        match script[i] {
          case Interrupt(s, r) => PortIntr(s, r);
          case Timeout(r) => PortTimeout(r);
        }
        i := i + 1;
      }
    }

    method CancelTimer()
      modifies this
      ensures Value() == Disarm(old(Value()))
    {
      armed := false;
    }

    // port_exec; what its result means is ExecKeeps.
    method PortExec(script: seq<Event>) returns (code: Code)
      requires HandlerInv(Value()) && !busy && Waited(Issue(Value()), script, checks)
      modifies this
      ensures Value() == Exec(old(Value()), script, checks) && PortInv(Value()) && !busy && halted == old(halted)
      ensures code == if Succeeded(Value()) then OK else EIO
      // no success if the port was disconnected meanwhile
      ensures code == OK ==> log == old(log) && !barrier
      // success exactly by an interrupt that ends the command without an error; never by a timeout
      ensures old(state) == GoodDev ==> (code == OK <==> !old(barrier) && Fine(script))
    {
      ExecKeeps(Value(), script, checks);
      if state == GoodDev { ExecMeaning(Value(), script, checks); }
      code := IssueAndWait(script);
    }

    // With the assertion that the port is no longer busy.
    method IssueAndWait(script: seq<Event>) returns (code: Code)
      requires HandlerInv(Value()) && !busy && Waited(Issue(Value()), script, checks)
      modifies this
      ensures Value() == Exec(old(Value()), script, checks)
      ensures code == if Succeeded(Value()) then OK else EIO
    {
      IssueKeeps(Value());
      PortIssue();
      PortWait(script);
      CancelTimer();
      assert !busy;
      if failure || barrier {
        return EIO;
      }
      return OK;
    }

    // ahci_transfer. The assertions of port_transfer end the driver if they fail (HaltsIff).
    method AhciTransfer(t: Request) returns (done: bool)
      requires PortInv(Value()) && !busy && !halted && TransferPlayed(Value(), t, checks)
      modifies this
      ensures Value() == Transfer(old(Value()), t, checks) && !busy
      ensures done <==> old(Accessible(Value())) && t.Run? && !halted && Succeeded(Value())
      ensures done <==> old(state) == GoodDev && !old(barrier) && old(hasMedium) && t.Run? && Fine(t.script)
    {
      if state != GoodDev || barrier || t.Early? {
        return false;
      }
      log := log + [Issued(hasMedium && sectorSize > 0)];
      assert state == GoodDev;
      if !hasMedium || sectorSize == 0 {
        halted := true;
        return false;
      }
      if t.Late? {
        return false;
      }
      var code := PortExec(t.script);
      return code == OK;
    }

    method AtapiCheckMedium(m: Medium) returns (code: Code)
      requires PortInv(Value()) && LogInv(Value()) && !busy && atapi && openCount == 0 && state == GoodDev
      requires MediumPlayed(Value(), m, checks)
      modifies this
      ensures (Value(), code) == CheckMedium(old(Value()), m, checks)
      ensures !old(barrier) ==>
                (code == OK <==> Responds(m) && ((Fine(m.test) && old(hasMedium)) || Readable(m)))
    {
      TestedKeeps(Value(), m, checks);
      if !barrier { CheckMediumMeaning(Value(), m, checks); }
      var ready := TestUnit(m);
      if !ready {
        return ENXIO;
      }
      if !hasMedium {
        code := AtapiReadCapacity(m);
        return;
      }
      return OK;
    }

    method AtapiReadCapacity(m: Medium) returns (code: Code)
      requires HandlerInv(Value()) && !busy && Waited(Issue(Value()), m.capacity, checks)
      modifies this
      ensures (Value(), code) == ReadCapacity(old(Value()), m, checks)
    {
      var capacity := PortExec(m.capacity);
      if capacity != OK {
        return EIO;
      }
      sectorSize := m.sectorSize;
      if sectorSize == 0 || sectorSize % 2 == 1 {
        return EIO;
      }
      hasMedium := true;
      return OK;
    }

    // The readiness check, and the sense key if it fails.
    method TestUnit(m: Medium) returns (ready: bool)
      requires PortInv(Value()) && !busy && TestPlayed(Value(), m, checks)
      modifies this
      ensures Value() == Tested(old(Value()), m, checks) && HandlerInv(Value()) && !busy
      ensures ready <==> Succeeded(Exec(old(Value()), m.test, checks)) || (Succeeded(Value()) && m.attention)
    {
      var test := PortExec(m.test);
      if test != OK {
        ready := RequestSense(m);
        return;
      }
      return true;
    }

    method RequestSense(m: Medium) returns (ready: bool)
      requires HandlerInv(Value()) && !busy && Waited(Issue(Value().(hasMedium := false)), m.sense, checks)
      modifies this
      ensures Value() == Exec(old(Value()).(hasMedium := false), m.sense, checks) && HandlerInv(Value()) && !busy
      ensures ready <==> Succeeded(Value()) && m.attention
    {
      hasMedium := false;
      var sense := PortExec(m.sense);
      if sense != OK || !m.attention {
        return false;
      }
      return true;
    }

    // partition(): the table reads of a first open.
    method ReadTables(ts: seq<Request>)
      requires PortInv(Value()) && LogInv(Value()) && !busy && !halted && PartitionPlayed(Value(), ts, checks)
      modifies this
      ensures Value() == Partition(old(Value()), ts, checks) && openCount == old(openCount)
    {
      PartitionKeeps(Value(), ts, checks);
      var i := 0;
      while i < |ts| && !halted
        invariant i <= |ts| && PortInv(Value()) && LogInv(Value()) && !busy
        invariant PartitionPlayed(Value(), ts[i..], checks)
        invariant Partition(Value(), ts[i..], checks) == Partition(old(Value()), ts, checks)
      {
        TransferKeeps(Value(), ts[i], checks);
        assert ts[i..][1..] == ts[i + 1..];
        var _ := AhciTransfer(ts[i]);
        i := i + 1;
      }
    }

    // ahci_open. Whether it can end the driver is HaltsIff.
    method AhciOpen(o: Opening) returns (code: Code)
      requires PortInv(Value()) && LogInv(Value()) && !halted && OpenPlayed(Value(), o, checks)
      modifies this
      ensures (Value(), code) == Open(old(Value()), o, checks) && PortInv(Value()) && LogInv(Value())
      ensures openCount == old(openCount) + if code == OK then 1 else 0
      ensures !old(busy) ==>
                && (code == EACCES <==> old(state) == GoodDev && old(readonly) && o.write)
                && (code == ENXIO <==>
                    || old(state) != GoodDev
                    || (!(old(readonly) && o.write) &&
                        if old(openCount) > 0 then old(barrier) else old(atapi) && !Responds(o.medium)))
    {
      OpenKeeps(Value(), o, checks);
      OpenMeaning(Value(), o, checks);
      if busy {
        SettleKeeps(Value(), o.deferred, checks);
        LogKept(Value(), Settle(Value(), o.deferred, checks));
        PortWait(o.deferred);
      }
      if state != GoodDev {
        return ENXIO;
      }
      if readonly && o.write {
        return EACCES;
      }
      if openCount == 0 {
        code := OpenFirst(o);
      } else {
        if barrier {
          return ENXIO;
        }
        openCount := openCount + 1;
        return OK;
      }
    }

    method OpenFirst(o: Opening) returns (code: Code)
      requires PortInv(Value()) && LogInv(Value()) && !busy && openCount == 0 && state == GoodDev && !halted
      requires FirstOpenPlayed(Value(), o, checks)
      modifies this
      ensures (Value(), code) == FirstOpen(old(Value()), o, checks) && openCount == if code == OK then 1 else 0
    {
      code := Recheck(o.medium);
      if code != OK {
        return;
      }
      ReadTables(o.tables);
      if halted {
        return Gone;
      }
      openCount := openCount + 1;
    }

    method Recheck(m: Medium) returns (code: Code)
      requires PortInv(Value()) && LogInv(Value()) && !busy && openCount == 0 && state == GoodDev
      requires atapi ==> MediumPlayed(Clear(Value()), m, checks)
      modifies this
      ensures (Value(), code) == Rechecked(old(Value()), m, checks)
      ensures PortInv(Value()) && LogInv(Value()) && !busy && openCount == 0 && halted == old(halted)
    {
      ClearLogged(Value());
      barrier := false;
      log := log + [Cleared(openCount)];
      if !atapi {
        return OK;
      }
      CheckMediumKeeps(Value(), m, checks);
      code := AtapiCheckMedium(m);
    }

    method AhciClose() returns (code: Code)
      modifies this
      ensures (Value(), code) == Close(old(Value()))
      ensures code == if old(openCount) == 0 then EINVAL else OK
    {
      if openCount == 0 {
        return EINVAL;
      }
      openCount := openCount - 1;
      return OK;
    }

    // ahci_other: the requests that run a command need a working device.
    method AhciIoctl(script: seq<Event>) returns (code: Code)
      requires PortInv(Value()) && (state == GoodDev ==> Waited(Issue(Value()), script, checks))
      modifies this
      ensures Value() == Ioctl(old(Value()), script, checks) && PortInv(Value())
      ensures code == if old(state) == GoodDev && Succeeded(Value()) then OK else EIO
      ensures code == OK <==> old(state) == GoodDev && !old(barrier) && Fine(script)
    {
      if state != GoodDev {
        return EIO;
      }
      code := PortExec(script);
    }
  }
}
