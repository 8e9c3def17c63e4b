// The direct scatter/gather path of setup_dma in drivers/drivers/at_wini/at_wini.c.
module WiniDma {
  import opened Scatter

  const N_PRDTE: nat := 1024
  const PRDTE_FL_EOT: nat := 0x80
  const SEGMENT: nat := 0x10000
  const PHYS_LIMIT: nat := 0x1_0000_0000

  datatype Prdte = Prdte(base: nat, count: nat, reserved: nat, flags: nat)

  // A count of zero in the 16-bit field means 64K (Programming Interface for Bus Master IDE
  // Controller, section 1.2).
  function Decoded(e: Prdte): Chunk { Chunk(e.base, if e.count == 0 then SEGMENT else e.count) }

  function Encoded(c: Chunk): Prdte { Prdte(c.addr, c.size % SEGMENT, 0, 0) }

  lemma CountRoundTrip(c: Chunk)
    ensures Decoded(Encoded(c)) == c <==> 0 < c.size <= SEGMENT
  {}

  function Table(es: seq<Prdte>): seq<Chunk> { seq(|es|, i requires 0 <= i < |es| => Decoded(es[i])) }

  // ----- cutting at 64K boundaries -----

  function Room(addr: nat): (n: nat)
    ensures 0 < n <= SEGMENT
  {
    SEGMENT - addr % SEGMENT
  }

  function Cut(c: Chunk): seq<Chunk>
    decreases c.size
  {
    if c.size == 0 then []
    else
      var n := Min(c.size, Room(c.addr));
      [Chunk(c.addr, n)] + Cut(Chunk(c.addr + n, c.size - n))
  }

  function CutAll(cs: seq<Chunk>): seq<Chunk> { if cs == [] then [] else Cut(cs[0]) + CutAll(cs[1..]) }

  predicate Fits(c: Chunk) { 0 < c.size <= SEGMENT && c.addr / SEGMENT == (c.addr + c.size - 1) / SEGMENT }

  predicate Even(c: Chunk) { c.addr % 2 == 0 && c.size % 2 == 0 }

  lemma RoomFits(addr: nat, n: nat)
    requires n > 0
    ensures Fits(Chunk(addr, Min(n, Room(addr))))
    ensures addr / SEGMENT != (addr + n - 1) / SEGMENT <==> Room(addr) < n
    ensures Room(addr) == (addr / SEGMENT + 1) * SEGMENT - addr
  {}

  lemma {:induction false} CutBytes(c: Chunk)
    ensures Bytes(Cut(c)) == Span(c.addr, c.size)
    decreases c.size
  {
    if c.size > 0 {
      var n := Min(c.size, Room(c.addr));
      SpanSplit(c.addr, n, c.size - n);
      CutBytes(Chunk(c.addr + n, c.size - n));
      assert Cut(c)[1..] == Cut(Chunk(c.addr + n, c.size - n));
    }
  }

  lemma {:induction false} CutFits(c: Chunk, e: Chunk)
    requires e in Cut(c)
    ensures Fits(e)
    decreases c.size
  {
    var n := Min(c.size, Room(c.addr));
    RoomFits(c.addr, c.size);
    if e != Chunk(c.addr, n) { CutFits(Chunk(c.addr + n, c.size - n), e); }
  }

  lemma {:induction false} CutEven(c: Chunk, e: Chunk)
    requires e in Cut(c) && Even(c)
    ensures Even(e)
    decreases c.size
  {
    var n := Min(c.size, Room(c.addr));
    var rest := Chunk(c.addr + n, c.size - n);
    EvenFront(c);
    assert Cut(c) == [Chunk(c.addr, n)] + Cut(rest);
    if e in Cut(rest) { CutEven(rest, e); }
  }

  lemma EvenFront(c: Chunk)
    requires Even(c)
    ensures var n := Min(c.size, Room(c.addr)); Even(Chunk(c.addr, n)) && Even(Chunk(c.addr + n, c.size - n))
  {}

  lemma {:induction false} CutAllKeeps(cs: seq<Chunk>)
    ensures Bytes(CutAll(cs)) == Bytes(cs)
    ensures forall e :: e in CutAll(cs) ==> Fits(e) && ((forall c :: c in cs ==> Even(c)) ==> Even(e))
  {
    if cs != [] {
      CutBytes(cs[0]);
      forall e | e in Cut(cs[0]) ensures Fits(e) && (Even(cs[0]) ==> Even(e)) {
        CutFits(cs[0], e);
        if Even(cs[0]) { CutEven(cs[0], e); }
      }
      CutAllKeeps(cs[1..]);
      BytesAppend(Cut(cs[0]), CutAll(cs[1..]));
    }
  }

  // How many entries a buffer takes: one per 64K segment it touches.
  lemma {:induction false} CutLength(c: Chunk)
    requires c.size > 0
    ensures |Cut(c)| == (c.addr + c.size - 1) / SEGMENT - c.addr / SEGMENT + 1
    decreases c.size
  {
    var n := Min(c.size, Room(c.addr));
    RoomFits(c.addr, c.size);
    if n < c.size { CutLength(Chunk(c.addr + n, c.size - n)); }
  }

  // ----- the vector -----

  // addrOffset is how much of the first buffer was already transferred; its size no longer counts it.
  function Chunks(iov: seq<Element>, addrOffset: nat): seq<Chunk> {
    if iov == [] then []
    else [Chunk((if iov[0].area.At? then iov[0].area.addr else 0) + addrOffset, iov[0].size)] + Chunks(iov[1..], 0)
  }

  lemma {:induction false} ChunksAt(iov: seq<Element>, addrOffset: nat, k: nat)
    requires k < |iov|
    ensures |Chunks(iov, addrOffset)| == |iov|
    ensures Chunks(iov, addrOffset)[k].size == iov[k].size
    ensures iov[k].area.At? ==> Chunks(iov, addrOffset)[k].addr == iov[k].area.addr + if k == 0 then addrOffset else 0
  {
    if k > 0 { ChunksAt(iov[1..], 0, k - 1); } else if |iov| > 1 { ChunksAt(iov[1..], 0, 0); }
  }

  // The buffers a transfer of n bytes uses.
  function Pieces(iov: seq<Element>, addrOffset: nat, n: nat): seq<Chunk> { Clip(Chunks(iov, addrOffset), n) }

  predicate Usable(e: Element, c: Chunk) { c.size > 0 && c.size % 2 == 0 && e.area.At? }

  ghost predicate AllGood(iov: seq<Element>, ps: seq<Chunk>, k: nat)
    requires k <= |ps| <= |iov|
  {
    forall i :: 0 <= i < k ==> Usable(iov[i], ps[i]) && ps[i].addr % 2 == 0
  }

  datatype Outcome = Direct(entries: nat) | Bad | Panic

  // Which outcome a request must have: the first buffer that cannot be used decides.
  ghost predicate Outcomes(iov: seq<Element>, ps: seq<Chunk>, r: Outcome)
    requires |ps| <= |iov|
  {
    match r
    case Direct(n) => ps != [] && AllGood(iov, ps, |ps|) && n == |CutAll(ps)| <= N_PRDTE
    case Panic =>
      ps == []
      || exists k :: 0 <= k < |ps| && AllGood(iov, ps, k) && |CutAll(ps[..k])| <= N_PRDTE && !Usable(iov[k], ps[k])
    case Bad =>
      exists k :: 0 <= k < |ps| && AllGood(iov, ps, k) && |CutAll(ps[..k])| <= N_PRDTE && Usable(iov[k], ps[k])
                  && (ps[k].addr % 2 == 1 || |CutAll(ps[..k + 1])| > N_PRDTE)
  }

  // ----- the loop -----

  lemma {:induction false} CutAllSnoc(cs: seq<Chunk>, k: nat)
    requires k < |cs|
    ensures CutAll(cs[..k + 1]) == CutAll(cs[..k]) + Cut(cs[k])
  {
    if k > 0 {
      CutAllSnoc(cs[1..], k - 1);
      assert cs[..k + 1][1..] == cs[1..][..k] && cs[..k][1..] == cs[1..][..k - 1];
    } else {
      assert cs[..1][1..] == [];
    }
  }

  // What is left of buffer i, of which offset bytes are in the table.
  function Rest(ps: seq<Chunk>, i: nat, offset: nat): Chunk
    requires i < |ps| && offset <= ps[i].size
  {
    Chunk(ps[i].addr + offset, ps[i].size - offset)
  }

  // The loop has reached offset bytes into buffer i, with j entries made and size bytes to go.
  ghost predicate Reached(iov: seq<Element>, ps: seq<Chunk>, i: nat, offset: nat, size: nat, done: seq<Chunk>)
    requires |ps| <= |iov|
  {
    if size == 0 then AllGood(iov, ps, |ps|) && done == CutAll(ps)
    else
      && i < |ps| && AllGood(iov, ps, i) && offset % 2 == 0
      && (offset == 0 || (offset < ps[i].size && AllGood(iov, ps, i + 1)))
      && offset + size == ps[i].size + Total(ps[i + 1..])
      && done + Cut(Rest(ps, i, offset)) == CutAll(ps[..i + 1])
      && |CutAll(ps[..i])| <= |done|
  }

  lemma TableSnoc(before: seq<Prdte>, after: seq<Prdte>, c: Chunk)
    requires after == before + [Encoded(c)] && 0 < c.size <= SEGMENT
    ensures Table(after) == Table(before) + [c]
  {}

  // The piece the loop looks at is buffer i of the clipped vector.
  lemma NextPiece(iov: seq<Element>, addrOffset: nat, total: nat, i: nat, offset: nat, size: nat)
    requires var ps := Pieces(iov, addrOffset, total);
             && total <= Total(Chunks(iov, addrOffset)) && i < |ps| && offset <= ps[i].size
             && offset + size == ps[i].size + Total(ps[i + 1..])
    ensures var ps := Pieces(iov, addrOffset, total);
            && i < |iov| && offset <= iov[i].size && ps[i].size - offset == Min(iov[i].size - offset, size)
            && (ps[i].size < iov[i].size ==> size == ps[i].size - offset)
            && (iov[i].area.At? ==> ps[i].addr == iov[i].area.addr + if i == 0 then addrOffset else 0)
  {
    var cs, ps := Chunks(iov, addrOffset), Pieces(iov, addrOffset, total);
    ClipTotal(cs, total);
    ClipAt(cs, total, i);
    ChunksLength(iov, addrOffset);
    ChunksAt(iov, addrOffset, i);
    TotalAt(ps, i);
  }

  lemma {:induction false} ChunksLength(iov: seq<Element>, addrOffset: nat)
    ensures |Chunks(iov, addrOffset)| == |iov|
  {
    if iov != [] { ChunksLength(iov[1..], 0); }
  }

  // A clipped vector has no empty tail.
  ghost predicate Tight(ps: seq<Chunk>) {
    forall k {:trigger ps[k..]} :: 0 <= k < |ps| ==> Total(ps[k..]) > 0
  }

  lemma ClipTight(cs: seq<Chunk>, n: nat)
    requires n <= Total(cs)
    ensures Tight(Clip(cs, n))
  {
    var ps := Clip(cs, n);
    ClipBytes(cs, n);
    forall k {:trigger ps[k..]} | 0 <= k < |ps| ensures Total(ps[k..]) > 0 {
      ClipAt(cs, n, k);
      assert ps == ps[..k] + ps[k..];
      TotalAppend(ps[..k], ps[k..]);
    }
  }

  // One entry more, within buffer i ...
  lemma AdvanceWithin(iov: seq<Element>, ps: seq<Chunk>, i: nat, offset: nat, size: nat, done: seq<Chunk>, n: nat)
    requires |ps| <= |iov| && size > 0 && Reached(iov, ps, i, offset, size, done)
    requires Usable(iov[i], ps[i]) && ps[i].addr % 2 == 0
    requires n == Room(ps[i].addr + offset) < ps[i].size - offset
    ensures Reached(iov, ps, i, offset + n, size - n, done + [Chunk(ps[i].addr + offset, n)])
  {
    OffsetEven(ps[i], offset);
    CutFront(Rest(ps, i, offset), done);
    assert Chunk(ps[i].addr + offset + n, ps[i].size - offset - n) == Rest(ps, i, offset + n);
  }

  lemma OffsetEven(c: Chunk, offset: nat)
    requires c.addr % 2 == 0 && offset % 2 == 0
    ensures (offset + Room(c.addr + offset)) % 2 == 0
  {}

  lemma CutFront(c: Chunk, done: seq<Chunk>)
    requires Room(c.addr) < c.size
    ensures var n := Room(c.addr); done + Cut(c) == done + [Chunk(c.addr, n)] + Cut(Chunk(c.addr + n, c.size - n))
  {}

  // ... or up to its end.
  lemma AdvancePast(iov: seq<Element>, ps: seq<Chunk>, i: nat, offset: nat, size: nat, done: seq<Chunk>, n: nat)
    requires |ps| <= |iov| && Tight(ps) && size > 0 && Reached(iov, ps, i, offset, size, done)
    requires Usable(iov[i], ps[i]) && ps[i].addr % 2 == 0
    requires 0 < n == ps[i].size - offset <= Room(ps[i].addr + offset)
    ensures Reached(iov, ps, i + 1, 0, size - n, done + [Chunk(ps[i].addr + offset, n)])
  {
    var more := done + [Chunk(ps[i].addr + offset, n)];
    LastCut(Rest(ps, i, offset));
    assert more == CutAll(ps[..i + 1]);
    if size > n {
      StartNext(iov, ps, i, size - n, more);
    } else {
      assert i + 1 == |ps| && ps[..i + 1] == ps;
    }
  }

  // The loop comes to piece i + 1 with the table of the pieces before it.
  lemma StartNext(iov: seq<Element>, ps: seq<Chunk>, i: nat, size: nat, done: seq<Chunk>)
    requires |ps| <= |iov| && i < |ps| && size > 0 && size == Total(ps[i + 1..]) && AllGood(iov, ps, i + 1)
    requires done == CutAll(ps[..i + 1])
    ensures Reached(iov, ps, i + 1, 0, size, done)
  {
    CutAllSnoc(ps, i + 1);
    assert ps[i + 1..][1..] == ps[i + 2..];
  }

  lemma LastCut(c: Chunk)
    requires 0 < c.size <= Room(c.addr)
    ensures Cut(c) == [c]
  {}

  lemma AdvanceKeeps(iov: seq<Element>, ps: seq<Chunk>, i: nat, offset: nat, size: nat, done: seq<Chunk>, n: nat)
    requires |ps| <= |iov| && Tight(ps) && size > 0 && Reached(iov, ps, i, offset, size, done)
    requires Usable(iov[i], ps[i]) && ps[i].addr % 2 == 0 && offset < ps[i].size
    requires n == Min(ps[i].size - offset, Room(ps[i].addr + offset))
    ensures n <= size
    ensures var more := done + [Chunk(ps[i].addr + offset, n)];
            if offset + n < ps[i].size then Reached(iov, ps, i, offset + n, size - n, more)
            else Reached(iov, ps, i + 1, 0, size - n, more)
  {
    if offset + n < ps[i].size {
      AdvanceWithin(iov, ps, i, offset, size, done, n);
    } else {
      AdvancePast(iov, ps, i, offset, size, done, n);
    }
  }

  // The loop's own bookkeeping after an entry.
  lemma Stepped(iov: seq<Element>, addrOffset: nat, total: nat, i: nat, offset: nat, size: nat,
      done: seq<Chunk>, c: Chunk)
    requires total <= Total(Chunks(iov, addrOffset)) && |Pieces(iov, addrOffset, total)| <= |iov| && size > 0
    requires var ps := Pieces(iov, addrOffset, total);
             && Tight(ps) && Reached(iov, ps, i, offset, size, done)
             && Allowed(iov, ps, i, offset, c)
    ensures 0 < c.size <= size && c.size <= SEGMENT
    ensures var ps := Pieces(iov, addrOffset, total);
            if offset + c.size >= iov[i].size then Reached(iov, ps, i + 1, 0, size - c.size, done + [c])
            else Reached(iov, ps, i, offset + c.size, size - c.size, done + [c])
  {
    NextPiece(iov, addrOffset, total, i, offset, size);
    AdvanceKeeps(iov, Pieces(iov, addrOffset, total), i, offset, size, done, c.size);
  }

  // ----- outcomes -----

  lemma PanicHere(iov: seq<Element>, ps: seq<Chunk>, i: nat, offset: nat, size: nat, done: seq<Chunk>)
    requires |ps| <= |iov| && size > 0 && Reached(iov, ps, i, offset, size, done)
    requires |done| <= N_PRDTE && !Usable(iov[i], ps[i])
    ensures Outcomes(iov, ps, Panic)
  {}

  lemma BadHere(iov: seq<Element>, ps: seq<Chunk>, i: nat, offset: nat, size: nat, done: seq<Chunk>)
    requires |ps| <= |iov| && size > 0 && Reached(iov, ps, i, offset, size, done)
    requires |done| <= N_PRDTE && Usable(iov[i], ps[i])
    requires ps[i].addr % 2 == 1 || (|done| == N_PRDTE && offset < ps[i].size)
    ensures Outcomes(iov, ps, Bad)
  {}

  // What a direct table says to the controller: exactly the first n bytes of the vector, in
  // order; no entry leaves its 64K segment or is odd; and only the last one ends the table.
  ghost predicate Covers(es: seq<Prdte>, iov: seq<Element>, addrOffset: nat, n: nat)
    requires n <= Total(Chunks(iov, addrOffset))
  {
    && Bytes(Table(es)) == Bytes(Chunks(iov, addrOffset))[..n]
    && (forall k :: 0 <= k < |es| ==> Fits(Decoded(es[k])) && Even(Decoded(es[k])))
    && EndsLast(es)
  }

  lemma TableCovers(es: seq<Prdte>, iov: seq<Element>, addrOffset: nat, n: nat)
    requires n <= Total(Chunks(iov, addrOffset)) && |Pieces(iov, addrOffset, n)| <= |iov|
    requires var ps := Pieces(iov, addrOffset, n); AllGood(iov, ps, |ps|) && Table(es) == CutAll(ps)
    requires EndsLast(es)
    ensures Covers(es, iov, addrOffset, n)
  {
    var ps := Pieces(iov, addrOffset, n);
    ClipBytes(Chunks(iov, addrOffset), n);
    CutAllKeeps(ps);
    forall k | 0 <= k < |es| ensures Fits(Decoded(es[k])) && Even(Decoded(es[k])) {
      assert Table(es)[k] in CutAll(ps);
    }
  }

  datatype Verdict = Stop(r: Outcome) | Entry(c: Chunk)

  // Which entry comes next, or why none can: the part of the loop before the table is touched.
  method NextEntry(iov: seq<Element>, addrOffset: nat, i: nat, offset: nat, size: nat, ghost total: nat,
      ghost done: seq<Chunk>)
    returns (v: Verdict)
    requires total <= Total(Chunks(iov, addrOffset)) && size > 0 && |done| <= N_PRDTE
    requires |Pieces(iov, addrOffset, total)| <= |iov|
    requires Reached(iov, Pieces(iov, addrOffset, total), i, offset, size, done)
    ensures var ps := Pieces(iov, addrOffset, total);
            match v
            case Stop(r) => !r.Direct? && Outcomes(iov, ps, r)
            case Entry(c) => Allowed(iov, ps, i, offset, c)
  {
    ghost var ps := Pieces(iov, addrOffset, total);
    NextPiece(iov, addrOffset, total, i, offset, size);
    var n := iov[i].size - offset;
    if n > size {
      n := size;
    }
    if n == 0 || n % 2 == 1 || iov[i].area == Unmapped {
      PanicHere(iov, ps, i, offset, size, done);
      return Stop(Panic);
    }
    var phys := iov[i].area.addr + offset + if i == 0 then addrOffset else 0;
    if phys % 2 == 1 {
      BadHere(iov, ps, i, offset, size, done);
      return Stop(Bad);
    }
    n := WithinSegment(phys, n);
    return Entry(Chunk(phys, n));
  }

  // A buffer is not transferred across a 64K segment boundary.
  method WithinSegment(phys: nat, size: nat) returns (n: nat)
    requires size > 0
    ensures n == Min(size, Room(phys))
  {
    RoomFits(phys, size);
    n := size;
    if phys / SEGMENT != (phys + n - 1) / SEGMENT {
      n := (phys / SEGMENT + 1) * SEGMENT - phys;
    }
  }

  // A request for total bytes that the vector holds.
  ghost predicate Request(iov: seq<Element>, addrOffset: nat, total: nat) {
    && total <= Total(Chunks(iov, addrOffset))
    && |Pieces(iov, addrOffset, total)| <= |iov| && Tight(Pieces(iov, addrOffset, total))
  }

  // The loop: all entries of the table, or why there can be none.
  method FillTable(prdt: array<Prdte>, iov: seq<Element>, addrOffset: nat, total: nat) returns (v: Outcome)
    requires prdt.Length == N_PRDTE && Request(iov, addrOffset, total) && Total(Pieces(iov, addrOffset, total)) == total
    modifies prdt
    ensures var ps := Pieces(iov, addrOffset, total);
            if v.Direct? then
              && v.entries <= N_PRDTE && Reached(iov, ps, 0, 0, 0, Table(prdt[..v.entries]))
              && Plain(prdt[..v.entries])
            else Outcomes(iov, ps, v)
  {
    ghost var ps := Pieces(iov, addrOffset, total);
    StartReached(iov, ps, total);
    var size: nat, i: nat, j: nat, offset: nat := total, 0, 0, 0;
    v := Direct(0);
    while size > 0 && v.Direct?
      invariant j <= N_PRDTE && Plain(prdt[..j]) && (v.Direct? ==> Reached(iov, ps, i, offset, size, Table(prdt[..j])))
      invariant !v.Direct? ==> Outcomes(iov, ps, v)
      decreases size, if v.Direct? then 1 else 0
    {
      v, i, offset, size, j := FillOne(prdt, iov, addrOffset, i, offset, size, j, total);
    }
    if v.Direct? {
      v := Direct(j);
    }
  }

  // One round of the loop.
  method FillOne(prdt: array<Prdte>, iov: seq<Element>, addrOffset: nat, i0: nat, offset0: nat, size0: nat, j0: nat,
      ghost total: nat)
    returns (v: Outcome, i: nat, offset: nat, size: nat, j: nat)
    requires prdt.Length == N_PRDTE && Request(iov, addrOffset, total) && size0 > 0 && j0 <= N_PRDTE
    requires Plain(prdt[..j0]) && Reached(iov, Pieces(iov, addrOffset, total), i0, offset0, size0, Table(prdt[..j0]))
    modifies prdt
    ensures j <= N_PRDTE && Plain(prdt[..j]) && size <= size0
    ensures var ps := Pieces(iov, addrOffset, total);
            if v.Direct? then size < size0 && Reached(iov, ps, i, offset, size, Table(prdt[..j]))
            else Outcomes(iov, ps, v)
  {
    i, offset, size, j := i0, offset0, size0, j0;
    var next := NextEntry(iov, addrOffset, i, offset, size, total, Table(prdt[..j]));
    if next.Stop? {
      v := next.r;
      return;
    }
    if j >= N_PRDTE {
      BadHere(iov, Pieces(iov, addrOffset, total), i, offset, size, Table(prdt[..j]));
      v := Bad;
      return;
    }
    i, offset, size := Place(prdt, iov, addrOffset, i, offset, size, j, next.c, total);
    j := j + 1;
    v := Direct(j);
  }

  // Store the entry and step past it.
  method Place(prdt: array<Prdte>, iov: seq<Element>, ghost addrOffset: nat, i0: nat, offset0: nat, size0: nat, j: nat,
      c: Chunk, ghost total: nat)
    returns (i: nat, offset: nat, size: nat)
    requires j < prdt.Length && Request(iov, addrOffset, total) && size0 > 0 && Plain(prdt[..j])
    requires Reached(iov, Pieces(iov, addrOffset, total), i0, offset0, size0, Table(prdt[..j]))
    requires Allowed(iov, Pieces(iov, addrOffset, total), i0, offset0, c)
    modifies prdt
    ensures Plain(prdt[..j + 1]) && size < size0
    ensures Reached(iov, Pieces(iov, addrOffset, total), i, offset, size, Table(prdt[..j + 1]))
  {
    Stepped(iov, addrOffset, total, i0, offset0, size0, Table(prdt[..j]), c);
    i, offset, size := i0, offset0, size0;
    AddEntry(prdt, j, c);
    offset := offset + c.size;
    if offset >= iov[i].size {
      i := i + 1;
      offset := 0;
    }
    size := size - c.size;
  }

  // c is the longest entry that starts offset bytes into the usable buffer i.
  ghost predicate Allowed(iov: seq<Element>, ps: seq<Chunk>, i: nat, offset: nat, c: Chunk) {
    && i < |ps| && i < |iov| && Usable(iov[i], ps[i]) && ps[i].addr % 2 == 0 && offset < ps[i].size
    && c == Chunk(ps[i].addr + offset, Min(ps[i].size - offset, Room(ps[i].addr + offset)))
  }

  // The table is a static array in the driver. Physical memory ends below 4G, so that no sum
  // wraps; the caller asks for no more than the vector holds.
  method SetupDma(prdt: array<Prdte>, iov: seq<Element>, addrOffset: nat, total: nat) returns (r: Outcome)
    requires prdt.Length == N_PRDTE && total <= Total(Chunks(iov, addrOffset))
    requires forall k :: 0 <= k < |iov| && iov[k].area.At? ==> iov[k].area.addr + addrOffset + iov[k].size <= PHYS_LIMIT
    modifies prdt
    ensures |Pieces(iov, addrOffset, total)| <= |iov| && Outcomes(iov, Pieces(iov, addrOffset, total), r)
    ensures r.Direct? ==> r.entries <= N_PRDTE && Covers(prdt[..r.entries], iov, addrOffset, total)
  {
    ChunksLength(iov, addrOffset);
    ClipBytes(Chunks(iov, addrOffset), total);
    ClipTight(Chunks(iov, addrOffset), total);
    r := FillTable(prdt, iov, addrOffset, total);
    if r.Direct? {
      if r.entries <= 0 {
        return Panic;
      }
      EndTable(prdt, r.entries);
      TableCovers(prdt[..r.entries], iov, addrOffset, total);
    }
  }

  ghost predicate Plain(es: seq<Prdte>) { forall k :: 0 <= k < |es| ==> es[k].reserved == 0 && es[k].flags == 0 }

  ghost predicate EndsLast(es: seq<Prdte>) {
    forall k :: 0 <= k < |es| ==> es[k].reserved == 0 && (es[k].flags == PRDTE_FL_EOT <==> k == |es| - 1)
  }

  method AddEntry(prdt: array<Prdte>, j: nat, c: Chunk)
    requires j < prdt.Length && 0 < c.size <= SEGMENT && Plain(prdt[..j])
    modifies prdt
    ensures Table(prdt[..j + 1]) == old(Table(prdt[..j])) + [c] && Plain(prdt[..j + 1])
  {
    prdt[j] := Prdte(c.addr, c.size % SEGMENT, 0, 0);
    assert prdt[..j + 1] == old(prdt[..j]) + [Encoded(c)];
    TableSnoc(old(prdt[..j]), prdt[..j + 1], c);
  }

  method EndTable(prdt: array<Prdte>, j: nat)
    requires 0 < j <= prdt.Length && Plain(prdt[..j])
    modifies prdt
    ensures Table(prdt[..j]) == old(Table(prdt[..j])) && EndsLast(prdt[..j])
  {
    ghost var es := prdt[..j];
    prdt[j - 1] := prdt[j - 1].(flags := PRDTE_FL_EOT);
    assert forall k :: 0 <= k < j ==> prdt[k] == if k == j - 1 then es[k].(flags := PRDTE_FL_EOT) else es[k];
  }

  lemma StartReached(iov: seq<Element>, ps: seq<Chunk>, total: nat)
    requires |ps| <= |iov| && Total(ps) == total && Tight(ps)
    ensures Reached(iov, ps, 0, 0, total, [])
  {
    if total > 0 {
      assert ps[..1] == [ps[0]] && ps[1..] == ps[0..][1..] && ps[..0] == [];
    } else {
      assert ps[0..] == ps;
    }
  }
}
