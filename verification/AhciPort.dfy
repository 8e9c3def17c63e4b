// The port state machine of drivers/drivers/ahci/ahci.c on values. What the hardware shows the
// driver while it handles one event is a parameter; the AHCI registers are not modelled further.
module AhciPort {

  const ATA_SECTOR_SIZE: nat := 512

  datatype PortState = NoPort | SpinUp | NoDev | WaitSig | WaitId | BadDev | GoodDev

  // What PxIE enables: nothing, PhyRdy changes only, or everything.
  datatype IntMask = NoInts | PhyRdyOnly | AllInts

  datatype Mark =
    | Disconnected(openCount: nat)      // port_disconnect ran
    | Cleared(openCount: nat)           // a first open cleared the barrier
    | Issued(asserted: bool)            // port_transfer came to its assertions; did they hold?

  datatype Port = Port(
    state: PortState,
    busy: bool, failure: bool, barrier: bool,
    atapi: bool, hasMedium: bool, readonly: bool,
    ie: IntMask,
    armed: bool,                        // is the port's timer set?
    left: nat, openCount: nat, sectorSize: nat,
    halted: bool,                       // an assertion failed: the driver is gone
    log: seq<Mark>)                     // history, read by no operation

  datatype TaskFile = Initial | Bsy | Ready
  datatype Signature = AtaSig | AtapiSig | OtherSig
  datatype Identity = Identity(supported: bool, sectorSize: nat, cdrom: bool)

  // What the registers and the identification buffer say during one handler.
  datatype Reads = Reads(connected: bool, tfd: TaskFile, hung: bool, sig: Signature, finished: bool, failed: bool,
      id: Identity)

  // The status bits of an interrupt: PhyRdy change, the fatal errors, the other ones we know.
  datatype Status = Status(phyRdy: bool, fatal: bool, other: bool)

  datatype Event = Interrupt(status: Status, regs: Reads) | Timeout(regs: Reads)

  // Gone: no reply, the driver stopped at an assertion.
  datatype Code = OK | EIO | ENXIO | EACCES | EINVAL | Gone

  // ----- handlers -----

  function Disconnect(p: Port): Port {
    p.(armed := p.armed && !p.busy, state := NoDev, ie := PhyRdyOnly, busy := false,
       failure := p.failure || p.busy, barrier := true, log := p.log + [Disconnected(p.openCount)])
  }

  // port_restart: a port that still hangs is reset, and its device taken as disconnected.
  function Restart(p: Port, hung: bool): Port { if hung then Disconnect(p) else p }

  function Reject(p: Port): Port { p.(ie := NoInts, state := BadDev, busy := false) }

  // The second half of port_sig_check.
  function ReadSignature(p: Port, sig: Signature): Port {
    if sig == OtherSig then Reject(p)
    else Issue(p.(atapi := sig == AtapiSig, hasMedium := false, readonly := false, failure := false,
                  state := WaitId, ie := AllInts))
  }

  // port_sig_check. After a restart the signature is read all the same.
  function SigCheck(p: Port, r: Reads): Port {
    if r.tfd == Ready then ReadSignature(p, r.sig)
    else if p.left > 0 then p.(left := p.left - 1, armed := true)
    else if r.tfd == Initial then Reject(p)
    else ReadSignature(Restart(p, r.hung), r.sig)
  }

  predicate Usable(atapi: bool, id: Identity) { id.supported && (atapi || id.sectorSize >= ATA_SECTOR_SIZE) }

  // port_id_check
  function IdCheck(p: Port, id: Identity): Port {
    var q := p.(armed := false,
                sectorSize := if !p.failure && !p.atapi && id.supported then id.sectorSize else p.sectorSize);
    if p.failure || !Usable(p.atapi, id) then q.(state := BadDev, ie := PhyRdyOnly)
    else q.(state := GoodDev, readonly := p.readonly || (p.atapi && id.cdrom), hasMedium := p.hasMedium || !p.atapi)
  }

  function Connecting(p: Port, checks: nat): Port {
    p.(armed := p.armed && p.state != SpinUp, state := WaitSig, left := checks, busy := true, ie := PhyRdyOnly)
  }

  function Connect(p: Port, r: Reads, checks: nat): Port { SigCheck(Connecting(p, checks), r) }

  // The tail of both handlers: an identify command that ended is followed by its check.
  function Ended(p: Port, id: Identity): Port { if p.state == WaitId then IdCheck(p, id) else p }

  predicate Occupied(s: PortState) { s == BadDev || s == GoodDev || s == WaitSig || s == WaitId }

  function Intr(p: Port, s: Status, r: Reads, checks: nat): Port {
    if p.state == NoPort then p
    else if s.phyRdy && p.ie != NoInts then
      var q := if Occupied(p.state) then Disconnect(p) else p;
      if r.connected then Connect(q, r, checks) else q
    else if p.busy && (s.phyRdy || s.fatal || s.other) && r.finished then
      var q := p.(busy := false, failure := p.failure || r.failed);
      Ended(if s.fatal then Restart(q, r.hung) else q, r.id)
    else p
  }

  function Expire(p: Port, r: Reads, checks: nat): Port {
    var q := p.(armed := false);
    if p.state == SpinUp then
      if r.connected then Connect(q, r, checks) else q.(state := NoDev, busy := false)
    else if p.state == WaitSig then SigCheck(q, r)
    else if !p.busy then q
    else Ended(Restart(q.(busy := false, failure := true), r.hung), r.id)
  }

  // An interrupt comes only with an enabled status bit set, a timeout only from a set timer.
  predicate Enabled(p: Port, e: Event) {
    match e
    case Interrupt(s, _) => (s.phyRdy && p.ie != NoInts) || ((s.fatal || s.other) && p.ie == AllInts)
    case Timeout(_) => p.armed
  }

  function Handle(p: Port, e: Event, checks: nat): Port {
    match e
    case Interrupt(s, r) => Intr(p, s, r, checks)
    case Timeout(r) => Expire(p, r, checks)
  }

  // ----- commands -----

  function Issue(p: Port): Port { p.(busy := true, failure := false, armed := true) }

  // The events of one port_wait: it takes them while the port is busy, and no more.
  ghost predicate Waited(p: Port, script: seq<Event>, checks: nat)
    decreases |script|
  {
    if !p.busy then script == []
    else script != [] && Enabled(p, script[0]) && Waited(Handle(p, script[0], checks), script[1..], checks)
  }

  function Settle(p: Port, script: seq<Event>, checks: nat): Port
    decreases |script|
  {
    if script == [] then p else Settle(Handle(p, script[0], checks), script[1..], checks)
  }

  // port_exec
  function Exec(p: Port, script: seq<Event>, checks: nat): Port { Disarm(Settle(Issue(p), script, checks)) }

  function Disarm(p: Port): Port { p.(armed := false) }

  predicate Succeeded(p: Port) { !p.failure && !p.barrier }

  // One READ or WRITE: its arguments are refused before the assertions of port_transfer, or after
  // them, or a command is run, with these events while it is waited for.
  datatype Request = Early | Late | Run(script: seq<Event>)

  predicate Accessible(p: Port) { p.state == GoodDev && !p.barrier }

  // The assertions of port_transfer on a working port.
  predicate Asserted(p: Port) { p.hasMedium && p.sectorSize > 0 }

  function Reached(p: Port): Port {
    p.(halted := p.halted || !Asserted(p), log := p.log + [Issued(Asserted(p))])
  }

  // ahci_transfer and the command in port_transfer
  function Transfer(p: Port, t: Request, checks: nat): Port {
    if !Accessible(p) || t.Early? then p
    else
      var q := Reached(p);
      if !q.halted && t.Run? then Exec(q, t.script, checks) else q
  }

  ghost predicate TransferPlayed(p: Port, t: Request, checks: nat) {
    Accessible(p) && t.Run? && !Reached(p).halted ==> Waited(Issue(Reached(p)), t.script, checks)
  }

  // atapi_check_medium: the events during its commands, and what the device answers.
  datatype Medium = Medium(test: seq<Event>, sense: seq<Event>, attention: bool, capacity: seq<Event>, sectorSize: nat)

  function Tested(p: Port, m: Medium, checks: nat): Port {
    var q := Exec(p, m.test, checks);
    if Succeeded(q) then q else Exec(q.(hasMedium := false), m.sense, checks)
  }

  function ReadCapacity(p: Port, m: Medium, checks: nat): (Port, Code) {
    var c := Exec(p, m.capacity, checks);
    if !Succeeded(c) then (c, EIO)
    else if m.sectorSize == 0 || m.sectorSize % 2 == 1 then (c.(sectorSize := m.sectorSize), EIO)
    else (c.(sectorSize := m.sectorSize, hasMedium := true), OK)
  }

  function CheckMedium(p: Port, m: Medium, checks: nat): (Port, Code) {
    var t := Exec(p, m.test, checks);
    var q := Tested(p, m, checks);
    if !Succeeded(t) && (!Succeeded(q) || !m.attention) then (q, ENXIO)
    else if q.hasMedium then (q, OK)
    else ReadCapacity(q, m, checks)
  }

  ghost predicate TestPlayed(p: Port, m: Medium, checks: nat) {
    var t := Exec(p, m.test, checks);
    Waited(Issue(p), m.test, checks) && (!Succeeded(t) ==> Waited(Issue(t.(hasMedium := false)), m.sense, checks))
  }

  ghost predicate MediumPlayed(p: Port, m: Medium, checks: nat) {
    var t := Exec(p, m.test, checks);
    var q := Tested(p, m, checks);
    && TestPlayed(p, m, checks)
    && (!(!Succeeded(t) && (!Succeeded(q) || !m.attention)) && !q.hasMedium ==> Waited(Issue(q), m.capacity, checks))
  }

  // partition() reads the partition tables through ahci_transfer.
  function Partition(p: Port, ts: seq<Request>, checks: nat): Port
    decreases |ts|
  {
    if ts == [] || p.halted then p else Partition(Transfer(p, ts[0], checks), ts[1..], checks)
  }

  ghost predicate PartitionPlayed(p: Port, ts: seq<Request>, checks: nat)
    decreases |ts|
  {
    ts != [] && !p.halted ==>
      TransferPlayed(p, ts[0], checks) && PartitionPlayed(Transfer(p, ts[0], checks), ts[1..], checks)
  }

  // One DEV_OPEN: for writing?, the events while it is deferred, the medium, the table reads.
  datatype Opening = Opening(write: bool, deferred: seq<Event>, medium: Medium, tables: seq<Request>)

  function Clear(p: Port): Port { p.(barrier := false, log := p.log + [Cleared(p.openCount)]) }

  // What a first open does before it reads the partition tables.
  function Rechecked(p: Port, m: Medium, checks: nat): (Port, Code) {
    if p.atapi then CheckMedium(Clear(p), m, checks) else (Clear(p), OK)
  }

  function FirstOpen(p: Port, o: Opening, checks: nat): (Port, Code) {
    var (q, code) := Rechecked(p, o.medium, checks);
    if code != OK then (q, code)
    else
      var t := Partition(q, o.tables, checks);
      if t.halted then (t, Gone) else (t.(openCount := t.openCount + 1), OK)
  }

  function Open(p: Port, o: Opening, checks: nat): (Port, Code) {
    var q := if p.busy then Settle(p, o.deferred, checks) else p;
    if q.state != GoodDev then (q, ENXIO)
    else if q.readonly && o.write then (q, EACCES)
    else if q.openCount == 0 then FirstOpen(q, o, checks)
    else if q.barrier then (q, ENXIO)
    else (q.(openCount := q.openCount + 1), OK)
  }

  ghost predicate FirstOpenPlayed(p: Port, o: Opening, checks: nat) {
    && (p.atapi ==> MediumPlayed(Clear(p), o.medium, checks))
    && var (q, code) := Rechecked(p, o.medium, checks);
       (code == OK ==> PartitionPlayed(q, o.tables, checks))
  }

  ghost predicate OpenPlayed(p: Port, o: Opening, checks: nat) {
    var q := if p.busy then Settle(p, o.deferred, checks) else p;
    && (p.busy ==> Waited(p, o.deferred, checks))
    && (q.state == GoodDev && !(q.readonly && o.write) && q.openCount == 0 ==> FirstOpenPlayed(q, o, checks))
  }

  function Close(p: Port): (Port, Code) {
    if p.openCount == 0 then (p, EINVAL) else (p.(openCount := p.openCount - 1), OK)
  }

  // The ioctls that run a command.
  function Ioctl(p: Port, script: seq<Event>, checks: nat): Port {
    if p.state != GoodDev then p else Exec(p, script, checks)
  }

  // ----- runs -----

  // What the driver's main loop does with a port.
  datatype Action =
    | Notified(e: Event)
    | Opened(o: Opening)
    | Closed
    | Transferred(t: Request)
    | Controlled(script: seq<Event>)

  ghost predicate Possible(p: Port, a: Action, checks: nat) {
    && !p.halted
    && match a
       case Notified(e) => Enabled(p, e)
       case Opened(o) => OpenPlayed(p, o, checks)
       case Closed => true
       case Transferred(t) => TransferPlayed(p, t, checks)
       case Controlled(script) => p.state == GoodDev ==> Waited(Issue(p), script, checks)
  }

  function Do(p: Port, a: Action, checks: nat): Port {
    match a
    case Notified(e) => Handle(p, e, checks)
    case Opened(o) => Open(p, o, checks).0
    case Closed => Close(p).0
    case Transferred(t) => Transfer(p, t, checks)
    case Controlled(script) => Ioctl(p, script, checks)
  }

  ghost predicate Runs(p: Port, acts: seq<Action>, checks: nat)
    decreases |acts|
  {
    acts != [] ==> Possible(p, acts[0], checks) && Runs(Do(p, acts[0], checks), acts[1..], checks)
  }

  function After(p: Port, acts: seq<Action>, checks: nat): Port
    decreases |acts|
  {
    if acts == [] then p else After(Do(p, acts[0], checks), acts[1..], checks)
  }

  // port_init
  function Init(): Port {
    Port(SpinUp, true, false, false, false, false, false, PhyRdyOnly, true, 0, 0, 0, false, [])
  }
}
