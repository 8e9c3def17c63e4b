// The DMA table arithmetic of drivers/drivers/ahci/ahci.c, on 32-bit unsigned sizes.
module AhciPrdt {
  import opened Scatter

  const NR_IOREQS: nat := 64
  const NR_PRDS: nat := NR_IOREQS + 2
  const LONG_MAX: nat := 0x7FFF_FFFF
  const WORD: nat := 0x1_0000_0000
  const MAX_TRANSFER: nat := 0x40_0000
  const ATA_MAX_SECTORS: nat := 0x10000

  datatype Code = OK | EINVAL | EIO | ENOMEM

  // ----- the size of a request -----

  function Sum(sizes: seq<nat>): nat { if sizes == [] then 0 else sizes[0] + Sum(sizes[1..]) }

  function Sizes(iov: seq<Element>): seq<nat> { seq(|iov|, i requires 0 <= i < |iov| => iov[i].size) }

  predicate GoodSize(n: nat) { n > 0 && n % 2 == 0 && n <= LONG_MAX }

  ghost predicate GoodVector(sizes: seq<nat>) { (forall n :: n in sizes ==> GoodSize(n)) && Sum(sizes) <= LONG_MAX }

  lemma {:induction false} SumSnoc(sizes: seq<nat>, k: nat)
    requires k < |sizes|
    ensures Sum(sizes[..k + 1]) == Sum(sizes[..k]) + sizes[k]
  {
    if k > 0 {
      SumSnoc(sizes[1..], k - 1);
      assert sizes[..k + 1][1..] == sizes[1..][..k] && sizes[..k][1..] == sizes[1..][..k - 1];
    } else {
      assert sizes[..1][1..] == [] && sizes[..0] == [];
    }
  }

  lemma {:induction false} SumPrefix(sizes: seq<nat>, k: nat)
    requires k <= |sizes|
    ensures Sum(sizes[..k]) <= Sum(sizes)
    decreases |sizes| - k
  {
    if k < |sizes| {
      SumSnoc(sizes, k);
      SumPrefix(sizes, k + 1);
    } else {
      assert sizes[..k] == sizes;
    }
  }

  // sum_iovec: the total, in 32-bit arithmetic that never wraps, or an error if an element is
  // empty, odd or too large, or the total is.
  method SumIovec(iov: seq<Element>) returns (code: Code, total: nat)
    requires forall i :: 0 <= i < |iov| ==> iov[i].size < WORD
    ensures code == if GoodVector(Sizes(iov)) then OK else EINVAL
    ensures code == OK ==> total == Sum(Sizes(iov)) <= LONG_MAX
  {
    ghost var sizes := Sizes(iov);
    var bytes: nat := 0;
    total := 0;
    for i := 0 to |iov|
      invariant bytes == Sum(sizes[..i]) <= LONG_MAX
      invariant forall k :: 0 <= k < i ==> GoodSize(sizes[k])
    {
      SumSnoc(sizes, i);
      SumPrefix(sizes, i + 1);
      var size := iov[i].size;
      if size == 0 || size % 2 == 1 || size > LONG_MAX {
        assert sizes[i] in sizes;
        return EINVAL, 0;
      }
      bytes := (bytes + size) % WORD;
      if bytes > LONG_MAX {
        return EINVAL, 0;
      }
    }
    assert sizes[..|iov|] == sizes;
    return OK, bytes;
  }

  // ----- trailing padding and sector count -----

  // (sector_size - (lead + size)) % sector_size with the inner difference taken modulo 2^32.
  function Trail(lead: nat, size: nat, sector: nat): (t: nat)
    requires sector > 0
    ensures t < sector
  {
    (sector - (lead + size)) % WORD % sector
  }

  // (lead + size + sector_size - 1) / sector_size, likewise.
  function Count(lead: nat, size: nat, sector: nat): nat
    requires sector > 0
  {
    (lead + size + sector - 1) % WORD / sector
  }

  lemma MulGap(p: nat, q: nat, d: nat)
    requires p < q
    ensures p * d + d <= q * d
  {
    var k := q - p - 1;
    assert q * d == (p + 1 + k) * d == p * d + d + k * d;
  }

  lemma DivUnique(a: nat, d: nat, q: nat, r: nat)
    requires r < d && a == q * d + r
    ensures a / d == q && a % d == r
  {
    DivBelow(a, d, q, r);
    DivAbove(a, d, q, r);
  }

  lemma DivBelow(a: nat, d: nat, q: nat, r: nat)
    requires r < d && a == q * d + r
    ensures a / d <= q
  {
    if q < a / d { MulGap(q, a / d, d); }
  }

  lemma DivAbove(a: nat, d: nat, q: nat, r: nat)
    requires r < d && a == q * d + r
    ensures a / d >= q
  {
    if a / d < q { MulGap(a / d, q, d); }
  }

  lemma ModShift(a: nat, b: nat, d: nat)
    requires d > 0
    ensures (a + b % d) % d == (a + b) % d
  {
    var q, r := (a + b % d) / d, (a + b % d) % d;
    assert a + b == (q + b / d) * d + r by {
      assert b == b / d * d + b % d;
      assert a + b % d == q * d + r;
      assert (q + b / d) * d == q * d + b / d * d;
    }
    DivUnique(a + b, d, q + b / d, r);
  }

  // Rounding x up to a multiple of d adds t < d exactly when x + t is such a multiple.
  lemma RoundUp(x: nat, t: nat, d: nat)
    requires t < d
    ensures x + t == (x + d - 1) / d * d <==> (x + t) % d == 0
  {
    if (x + t) % d == 0 {
      var k := (x + t) / d;
      assert x + t == k * d;
      DivUnique(x + d - 1, d, k, d - 1 - t);
    } else if x + t == (x + d - 1) / d * d {
      DivUnique(x + t, d, (x + d - 1) / d, 0);
    }
  }

  lemma TrailWraps(lead: nat, size: nat, sector: nat)
    requires 0 < sector < lead + size < WORD
    ensures (lead + size + Trail(lead, size, sector)) % sector == WORD % sector
  {
    var x := lead + size;
    DivUnique(WORD + sector - x, WORD, 0, WORD + sector - x);
    assert (sector - x) % WORD == WORD + sector - x;
    ModShift(x, WORD + sector - x, sector);
    ModShift(WORD, sector, sector);
    assert sector % sector == 0 by { DivUnique(sector, sector, 1, 0); }
    assert x + (WORD + sector - x) == WORD + sector;
  }

  // A sum that wraps gives too few sectors: at most one, which the lead alone exceeds.
  lemma CountWraps(lead: nat, size: nat, sector: nat)
    requires 0 < sector < WORD && lead < sector && size <= MAX_TRANSFER && lead + size + sector - 1 >= WORD
    ensures Count(lead, size, sector) * sector < lead + size
  {}

  // The table is a whole number of sectors, the number the command asks for, exactly when the
  // sum for the count does not wrap and the difference for the padding either does not wrap or
  // wraps at a multiple of the sector size.
  lemma PaddingFits(lead: nat, size: nat, sector: nat)
    requires 0 < sector < WORD && lead < sector && size <= MAX_TRANSFER
    ensures lead + size + Trail(lead, size, sector) == Count(lead, size, sector) * sector
            <==> lead + size + sector - 1 < WORD && (lead + size <= sector || WORD % sector == 0)
  {
    var x, t := lead + size, Trail(lead, size, sector);
    if x + sector - 1 >= WORD {
      CountWraps(lead, size, sector);
    } else {
      DivUnique(x + sector - 1, WORD, 0, x + sector - 1);
      RoundUp(x, t, sector);
      if x > sector {
        TrailWraps(lead, size, sector);
      } else {
        TrailExact(x, sector);
      }
    }
  }

  lemma TrailExact(x: nat, sector: nat)
    requires 0 < sector < WORD && x <= sector
    ensures (x + (sector - x) % WORD % sector) % sector == 0
  {
    DivUnique(sector - x, WORD, 0, sector - x);
    ModShift(x, sector - x, sector);
    DivUnique(sector, sector, 1, 0);
  }

  // A sector size for which it goes wrong: 520-byte sectors, 1040 bytes from a sector boundary on.
  lemma Sector520()
    ensures 1040 + Trail(0, 1040, 520) != Count(0, 1040, 520) * 520
  {}

  // What ata_transfer asserts about the count.
  lemma CountInRange(lead: nat, size: nat, sector: nat)
    requires 512 <= sector && lead < sector && size <= MAX_TRANSFER
    ensures Count(lead, size, sector) <= ATA_MAX_SECTORS
  {
    var n := (lead + size + sector - 1) % WORD;
    assert n <= lead + size + sector - 1;
    assert n < (ATA_MAX_SECTORS + 1) * sector;
    DivBound(n, sector, ATA_MAX_SECTORS);
  }

  lemma DivBound(n: nat, d: nat, k: nat)
    requires d > 0 && n < (k + 1) * d
    ensures n / d <= k
  {
    if k < n / d { MulGap(k, n / d, d); }
  }

  // ----- setup_prdt -----

  // The data part of the table: the buffers of the first size bytes, all mapped at even addresses.
  function Chunks(iov: seq<Element>): seq<Chunk> {
    if iov == [] then [] else [Chunk(if iov[0].area.At? then iov[0].area.addr else 0, iov[0].size)] + Chunks(iov[1..])
  }

  predicate Mapped(e: Element) { e.area.At? && e.area.addr % 2 == 0 }

  ghost predicate AllMapped(iov: seq<Element>, k: nat) {
    forall i :: 0 <= i < k && i < |iov| ==> Mapped(iov[i])
  }

  // The whole table: leading padding, data, trailing padding.
  function Table(iov: seq<Element>, size: nat, lead: nat, sector: nat, pad: nat): seq<Chunk>
    requires sector > 0
  {
    var trail := Trail(lead, size, sector);
    (if lead > 0 then [Chunk(pad, lead)] else [])
    + Clip(Chunks(iov), size)
    + (if trail > 0 then [Chunk(pad + lead, trail)] else [])
  }

  lemma {:induction false} ChunksAt(iov: seq<Element>, k: nat)
    requires k < |iov|
    ensures |Chunks(iov)| == |iov| && Chunks(iov)[k].size == iov[k].size
    ensures iov[k].area.At? ==> Chunks(iov)[k].addr == iov[k].area.addr
  {
    if k > 0 { ChunksAt(iov[1..], k - 1); } else if |iov| > 1 { ChunksAt(iov[1..], 0); }
  }

  // Its sizes add up; its data part is the first size bytes of the vector, in order; and it has
  // at most two entries more than the vector.
  lemma TableCovers(iov: seq<Element>, size: nat, lead: nat, sector: nat, pad: nat)
    requires sector > 0 && size <= Total(Chunks(iov))
    ensures var t, trail := Table(iov, size, lead, sector, pad), Trail(lead, size, sector);
            && Total(t) == lead + size + trail
            && Bytes(t) == Span(pad, lead) + Bytes(Chunks(iov))[..size] + Span(pad + lead, trail)
            && |t| <= |iov| + 2
  {
    var trail := Trail(lead, size, sector);
    ClipBytes(Chunks(iov), size);
    if iov != [] { ChunksAt(iov, 0); }
    Framed(pad, lead, Clip(Chunks(iov), size), pad + lead, trail);
  }

  lemma Framed(a: nat, m: nat, cs: seq<Chunk>, b: nat, n: nat)
    ensures var t := (if m > 0 then [Chunk(a, m)] else []) + cs + (if n > 0 then [Chunk(b, n)] else []);
            Total(t) == m + Total(cs) + n && Bytes(t) == Span(a, m) + Bytes(cs) + Span(b, n)
  {
    var front := if m > 0 then [Chunk(a, m)] else [];
    var back := if n > 0 then [Chunk(b, n)] else [];
    BytesAppend(front, cs);
    BytesAppend(front + cs, back);
    SingleBytes(a, m, front);
    SingleBytes(b, n, back);
    TotalAppend(front, cs);
    TotalAppend(front + cs, back);
  }

  lemma SingleBytes(addr: nat, n: nat, cs: seq<Chunk>)
    requires cs == if n > 0 then [Chunk(addr, n)] else []
    ensures Bytes(cs) == Span(addr, n) && Total(cs) == n
  {}

  ghost function SetupCode(iov: seq<Element>, size: nat, lead: nat, padOk: bool): Code {
    if lead > 0 && !padOk then ENOMEM
    else if AllMapped(iov, |Clip(Chunks(iov), size)|) then OK
    else EINVAL
  }

  // A buffer counts if it holds one of the first size bytes.
  lemma {:induction false} ClipReach(iov: seq<Element>, n: nat, i: nat)
    requires i < |iov|
    ensures i < |Clip(Chunks(iov), n)| <==> Sum(Sizes(iov)[..i]) < n
  {
    if n > 0 && i > 0 {
      var m := Min(iov[0].size, n);
      assert Sizes(iov)[1..] == Sizes(iov[1..]) && Sizes(iov)[..i][1..] == Sizes(iov[1..])[..i - 1];
      ClipReach(iov[1..], n - m, i - 1);
      assert Clip(Chunks(iov), n)[1..] == Clip(Chunks(iov[1..]), n - m);
    }
  }

  // Which requests get a table: the padding buffer is there if it is needed, and every buffer that
  // holds one of the first size bytes is mapped, at an even address.
  lemma SetupMeaning(iov: seq<Element>, size: nat, lead: nat, padOk: bool)
    ensures var code := SetupCode(iov, size, lead, padOk);
            var unusable := exists i :: 0 <= i < |iov| && Sum(Sizes(iov)[..i]) < size
                                        && (iov[i].area == Unmapped || iov[i].area.addr % 2 == 1);
            && (code == ENOMEM <==> lead > 0 && !padOk)
            && (code == EINVAL <==> (lead == 0 || padOk) && unusable)
            && (code == OK <==> (lead == 0 || padOk) && !unusable)
  {
    var n := |Clip(Chunks(iov), size)|;
    forall i | 0 <= i < |iov| ensures i < n <==> Sum(Sizes(iov)[..i]) < size { ClipReach(iov, size, i); }
    if !AllMapped(iov, n) {
      var i :| 0 <= i < n && i < |iov| && !Mapped(iov[i]);
      assert iov[i].area == Unmapped || iov[i].area.addr % 2 == 1;
    }
  }

  // What the device can do: even addresses and even sizes throughout.
  predicate Aligned(cs: seq<Chunk>) { EvenAddresses(cs) && EvenSizes(cs) }

  predicate EvenAddresses(cs: seq<Chunk>) { forall c :: c in cs ==> c.addr % 2 == 0 }

  predicate EvenSizes(cs: seq<Chunk>) { forall c :: c in cs ==> c.size % 2 == 0 }

  lemma AlignedParts(a: seq<Chunk>, b: seq<Chunk>, c: seq<Chunk>)
    ensures Aligned(a + b + c) <==> Aligned(a) && Aligned(b) && Aligned(c)
  {
    var t := a + b + c;
    assert forall x :: x in t <==> x in a || x in b || x in c;
  }

  lemma AlignedOne(addr: nat, n: nat)
    requires addr % 2 == 0
    ensures Aligned(if n > 0 then [Chunk(addr, n)] else []) <==> n % 2 == 0
  {
    var cs := if n > 0 then [Chunk(addr, n)] else [];
    if n % 2 != 0 { assert Chunk(addr, n) in cs; }
  }

  lemma {:induction false} EvenTotal(cs: seq<Chunk>)
    requires EvenSizes(cs)
    ensures Total(cs) % 2 == 0
  {
    if cs != [] {
      assert cs[0] in cs;
      EvenTotal(cs[1..]);
    }
  }

  lemma {:induction false} EvenClip(cs: seq<Chunk>, n: nat)
    requires EvenSizes(cs) && n % 2 == 0
    ensures EvenSizes(Clip(cs, n))
  {
    if cs != [] && n > 0 {
      assert cs[0] in cs;
      EvenClip(cs[1..], n - Min(cs[0].size, n));
    }
  }

  lemma TrailParity(lead: nat, size: nat, sector: nat)
    requires sector > 0 && sector % 2 == 0 && lead % 2 == 0
    ensures Trail(lead, size, sector) % 2 == size % 2
  {
    ModEven(sector - (lead + size), WORD);
    ModEven((sector - (lead + size)) % WORD, sector);
    SubParity(sector, lead, size);
  }

  lemma SubParity(sector: nat, lead: nat, size: nat)
    requires sector % 2 == 0 && lead % 2 == 0
    ensures (sector - (lead + size)) % 2 == size % 2
  {}

  lemma ModEven(a: int, d: nat)
    requires d > 0 && d % 2 == 0
    ensures a % d % 2 == a % 2
  {
    var h := d / 2;
    assert a == a / d * d + a % d;
    assert a / d * d == 2 * (a / d * h) by { assert d == 2 * h; }
  }

  // With a sector size and a padding buffer that are even, the whole table is aligned exactly when
  // the number of bytes to transfer is even. The vector's sizes being so is not enough for that:
  // the request may have been cut at the end of the partition.
  lemma AlignedIff(iov: seq<Element>, size: nat, lead: nat, sector: nat, pad: nat)
    requires GoodVector(Sizes(iov)) && size <= Sum(Sizes(iov)) && SetupCode(iov, size, lead, true) == OK
    requires sector > 0 && sector % 2 == 0 && lead % 2 == 0 && pad % 2 == 0
    ensures Aligned(Table(iov, size, lead, sector, pad)) <==> size % 2 == 0
  {
    TrailParity(lead, size, sector);
    DataAligned(iov, size);
    FrameAligned(pad, lead, Clip(Chunks(iov), size), Trail(lead, size, sector));
  }

  lemma FrameAligned(pad: nat, lead: nat, data: seq<Chunk>, trail: nat)
    requires pad % 2 == 0 && lead % 2 == 0
    ensures var t := (if lead > 0 then [Chunk(pad, lead)] else []) + data
                     + (if trail > 0 then [Chunk(pad + lead, trail)] else []);
            Aligned(t) <==> Aligned(data) && trail % 2 == 0
  {
    var front := if lead > 0 then [Chunk(pad, lead)] else [];
    var back := if trail > 0 then [Chunk(pad + lead, trail)] else [];
    AlignedOne(pad, lead);
    AlignedOne(pad + lead, trail);
    AlignedParts(front, data, back);
  }

  lemma DataAligned(iov: seq<Element>, size: nat)
    requires GoodVector(Sizes(iov)) && size <= Sum(Sizes(iov)) && AllMapped(iov, |Clip(Chunks(iov), size)|)
    ensures Aligned(Clip(Chunks(iov), size)) <==> size % 2 == 0
  {
    var data := Clip(Chunks(iov), size);
    SizesTotal(iov);
    ClipBytes(Chunks(iov), size);
    forall c | c in data ensures c.addr % 2 == 0 { DataAt(iov, size, c); }
    if size % 2 == 0 {
      ChunksEven(iov);
      EvenClip(Chunks(iov), size);
    } else if EvenSizes(data) {
      EvenTotal(data);
    }
  }

  lemma DataAt(iov: seq<Element>, size: nat, c: Chunk)
    requires size <= Total(Chunks(iov)) && c in Clip(Chunks(iov), size)
    requires AllMapped(iov, |Clip(Chunks(iov), size)|)
    ensures c.addr % 2 == 0
  {
    var k :| 0 <= k < |Clip(Chunks(iov), size)| && Clip(Chunks(iov), size)[k] == c;
    ClipAt(Chunks(iov), size, k);
    if iov != [] { ChunksAt(iov, 0); }
    ChunksAt(iov, k);
    assert Mapped(iov[k]);
  }

  lemma ChunksEven(iov: seq<Element>)
    requires GoodVector(Sizes(iov))
    ensures EvenSizes(Chunks(iov))
  {
    forall c | c in Chunks(iov) ensures c.size % 2 == 0 {
      if iov != [] { ChunksAt(iov, 0); }
      var k :| 0 <= k < |Chunks(iov)| && Chunks(iov)[k] == c;
      ChunksAt(iov, k);
      assert Sizes(iov)[k] in Sizes(iov);
    }
  }

  // Whether the cut leaves an even number depends on the end of the partition alone.
  lemma LimitedEvenIff(iov: seq<Element>, pos: nat, eof: nat)
    requires GoodVector(Sizes(iov)) && pos < eof
    ensures var n := Min(Sum(Sizes(iov)), 0x40_0000);
            Limited(Sum(Sizes(iov)), pos, eof) % 2 == 0 <==> pos + n < eof || (eof - pos) % 2 == 0
  {
    ChunksEven(iov);
    EvenTotal(Chunks(iov));
    SizesTotal(iov);
  }

  // A read that passes all checks and transfers three bytes.
  lemma OddCut()
    ensures CheckCode([Element(At(0), 4)], 0, 3, 512, false) == OK
    ensures Limited(Sum(Sizes([Element(At(0), 4)])), 0, 3) == 3
    ensures !Aligned(Table([Element(At(0), 4)], 3, 0, 512, 0))
  {
    var iov := [Element(At(0), 4)];
    OneElement(iov);
    AlignedIff(iov, 3, 0, 512, 0);
  }

  lemma OneElement(iov: seq<Element>)
    requires iov == [Element(At(0), 4)]
    ensures Sizes(iov) == [4] && Sum(Sizes(iov)) == 4 && GoodVector(Sizes(iov)) && SetupCode(iov, 3, 0, true) == OK
  {
    assert Sum([4]) == 4;
  }

  // setup_prdt, with its assertions that the table does not overflow. Whether the padding buffer
  // can be had, and where it is, are parameters.
  method SetupPrdt(prdt: array<Chunk>, iov: seq<Element>, size: nat, lead: nat, sector: nat, padOk: bool, pad: nat)
    returns (code: Code, n: nat)
    requires prdt.Length == NR_PRDS && |iov| <= NR_IOREQS && sector > 0
    modifies prdt
    ensures code == SetupCode(iov, size, lead, padOk)
    ensures code == OK ==> n <= NR_PRDS && prdt[..n] == Table(iov, size, lead, sector, pad)
  {
    n := 0;
    if lead > 0 {
      if !padOk {
        return ENOMEM, 0;
      }
      prdt[n] := Chunk(pad, lead);
      n := n + 1;
    }
    assert prdt[..n] == if lead > 0 then [Chunk(pad, lead)] else [];
    code, n := MapData(prdt, n, iov, size);
    if code == OK {
      n := AddTrail(prdt, n, pad + lead, Trail(lead, size, sector));
    }
  }

  method AddTrail(prdt: array<Chunk>, n0: nat, addr: nat, trail: nat) returns (n: nat)
    requires prdt.Length == NR_PRDS && n0 < NR_PRDS
    modifies prdt
    ensures n <= NR_PRDS && prdt[..n] == old(prdt[..n0]) + if trail > 0 then [Chunk(addr, trail)] else []
  {
    n := n0;
    if trail > 0 {
      assert n < NR_PRDS;
      prdt[n] := Chunk(addr, trail);
      n := n + 1;
    }
  }

  // The loop of setup_prdt.
  method MapData(prdt: array<Chunk>, n0: nat, iov: seq<Element>, size0: nat) returns (code: Code, n: nat)
    requires prdt.Length == NR_PRDS && n0 + |iov| < NR_PRDS
    modifies prdt
    ensures code == if AllMapped(iov, |Clip(Chunks(iov), size0)|) then OK else EINVAL
    ensures code == OK ==> n < NR_PRDS && prdt[..n] == old(prdt[..n0]) + Clip(Chunks(iov), size0)
  {
    n := n0;
    var size: nat := size0;
    ghost var all, front := Clip(Chunks(iov), size0), prdt[..n0];
    var i := 0;
    assert iov[0..] == iov;
    while i < |iov| && size > 0
      invariant i <= |iov| && n == n0 + i && |all| == i + |Clip(Chunks(iov[i..]), size)|
      invariant prdt[..n] == front + all[..i]
      invariant all[i..] == Clip(Chunks(iov[i..]), size) && AllMapped(iov, i)
    {
      assert iov[i..][0] == iov[i] && iov[i..][1..] == iov[i + 1..];
      var bytes := Min(iov[i].size, size);
      if iov[i].area == Unmapped {
        return EINVAL, 0;
      }
      var phys := iov[i].area.addr;
      if phys % 2 == 1 {
        return EINVAL, 0;
      }
      assert n < NR_PRDS;
      assert all[i] == Chunk(phys, bytes) by { assert all[i..][0] == all[i]; }
      NextClip(all, i, iov[i..], size);
      prdt[n] := Chunk(phys, bytes);
      n := n + 1;
      size := size - bytes;
      i := i + 1;
    }
    assert all[..i] == all;
    return OK, n;
  }

  lemma NextClip(all: seq<Chunk>, i: nat, rest: seq<Element>, size: nat)
    requires i < |all| && rest != [] && size > 0 && all[i..] == Clip(Chunks(rest), size)
    ensures all[i + 1..] == Clip(Chunks(rest[1..]), size - Min(rest[0].size, size))
            && all[..i + 1] == all[..i] + [all[i]]
  {}

  // ----- port_transfer -----

  // The request, cut to the largest transfer and to the end of the partition.
  function Limited(total: nat, pos: nat, eof: nat): nat
    requires pos < eof
  {
    var size := Min(total, MAX_TRANSFER);
    if pos + size >= eof then eof - pos else size
  }

  // The vector after n bytes were transferred: they are taken from the front.
  function Shrunk(iov: seq<Element>, n: nat): seq<Element> {
    if iov == [] then []
    else
      var m := Min(iov[0].size, n);
      [iov[0].(size := iov[0].size - m)] + Shrunk(iov[1..], n - m)
  }

  // It has lost exactly those bytes, ...
  lemma {:induction false} ShrunkSum(iov: seq<Element>, n: nat)
    requires n <= Sum(Sizes(iov))
    ensures Sum(Sizes(Shrunk(iov, n))) + n == Sum(Sizes(iov))
  {
    if iov != [] {
      var m := Min(iov[0].size, n);
      var t := Shrunk(iov, n);
      assert Sizes(iov)[1..] == Sizes(iov[1..]);
      assert t[1..] == Shrunk(iov[1..], n - m);
      assert Sizes(t)[1..] == Sizes(t[1..]);
      ShrunkSum(iov[1..], n - m);
    }
  }

  // ... nothing but sizes has changed, and no element behind a non-empty one has.
  lemma {:induction false} ShrunkFrontFirst(iov: seq<Element>, n: nat, j: nat, k: nat)
    requires j < k < |iov|
    ensures var t := Shrunk(iov, n);
            && |t| == |iov| && t[j] == iov[j].(size := t[j].size) && t[j].size <= iov[j].size
            && t[k] == iov[k].(size := t[k].size) && t[k].size <= iov[k].size
            && (t[j].size > 0 ==> t[k] == iov[k])
  {
    var m := Min(iov[0].size, n);
    ShrunkLength(iov[1..], n - m);
    if j > 0 {
      ShrunkFrontFirst(iov[1..], n - m, j - 1, k - 1);
    } else {
      if m < iov[0].size { ShrunkNone(iov[1..]); }
      if k > 1 { ShrunkFrontFirst(iov[1..], n - m, 0, k - 1); }
    }
  }

  lemma {:induction false} ShrunkLength(iov: seq<Element>, n: nat)
    ensures |Shrunk(iov, n)| == |iov|
  {
    if iov != [] { ShrunkLength(iov[1..], n - Min(iov[0].size, n)); }
  }

  lemma {:induction false} ShrunkNone(iov: seq<Element>)
    ensures Shrunk(iov, 0) == iov
  {
    if iov != [] { ShrunkNone(iov[1..]); }
  }

  // What is refused before any address is looked up.
  ghost function CheckCode(iov: seq<Element>, pos: nat, eof: nat, sector: nat, write: bool): Code
    requires sector > 0 && pos < eof
  {
    var size := Limited(Sum(Sizes(iov)), pos, eof);
    var lead := pos % sector;
    if !GoodVector(Sizes(iov)) then EINVAL
    else if lead % 2 == 1 || (write && lead != 0) || (write && size % sector != 0) then EIO
    else OK
  }

  method LimitSize(total: nat, pos: nat, eof: nat) returns (size: nat)
    requires pos < eof
    ensures size == Limited(total, pos, eof) && size <= MAX_TRANSFER && size <= total && pos + size <= eof
    ensures size == total || size == MAX_TRANSFER || pos + size == eof
  {
    size := total;
    if size > MAX_TRANSFER {
      size := MAX_TRANSFER;
    }
    if pos + size >= eof {
      size := eof - pos;
    }
  }

  method SectorCount(lead: nat, size: nat, sector: nat) returns (count: nat)
    requires 0 < sector < WORD
    ensures count == Count(lead, size, sector)
  {
    var sum := (lead + size + sector - 1) % WORD;
    count := sum / sector;
  }

  method CheckTransfer(iov: seq<Element>, pos: nat, eof: nat, sector: nat, write: bool)
    returns (code: Code, size: nat, lead: nat, count: nat)
    requires 0 < sector < WORD && pos < eof && forall i :: 0 <= i < |iov| ==> iov[i].size < WORD
    ensures code == CheckCode(iov, pos, eof, sector, write)
    ensures code == EINVAL <==> !GoodVector(Sizes(iov))
    // a read starts at a word, a write consists of whole sectors
    ensures code == EIO <==>
            && GoodVector(Sizes(iov))
            && (pos % sector % 2 == 1
                || (write && (pos % sector != 0 || Limited(Sum(Sizes(iov)), pos, eof) % sector != 0)))
    ensures code == OK ==>
              && size == Limited(Sum(Sizes(iov)), pos, eof) && lead == pos % sector
              && count == Count(lead, size, sector)
  {
    lead, count := 0, 0;
    code, size := SumIovec(iov);
    if code != OK {
      return;
    }
    size := LimitSize(size, pos, eof);
    lead := pos % sector;
    count := SectorCount(lead, size, sector);
    if lead % 2 == 1 || (write && lead != 0) {
      code := EIO;
      return;
    }
    if write && size % sector != 0 {
      code := EIO;
      return;
    }
  }

  ghost function TransferCode(iov: seq<Element>, pos: nat, eof: nat, sector: nat, write: bool, padOk: bool,
      moved: bool): Code
    requires sector > 0 && pos < eof
  {
    var check := CheckCode(iov, pos, eof, sector, write);
    var setup := SetupCode(iov, Limited(Sum(Sizes(iov)), pos, eof), pos % sector, padOk);
    if check != OK then check else if setup != OK then setup else if moved then OK else EIO
  }

  // Whether the command itself succeeds is a parameter. The positions are those ahci_transfer
  // passes on: the start lies before the end of the partition.
  method PortTransfer(prdt: array<Chunk>, iov: array<Element>, pos: nat, eof: nat, sector: nat, write: bool,
      padOk: bool, pad: nat, moved: bool)
    returns (code: Code, nrPrds: nat, count: nat)
    requires prdt.Length == NR_PRDS && iov.Length <= NR_IOREQS && 0 < sector < WORD && pos < eof
    requires forall i :: 0 <= i < iov.Length ==> iov[i].size < WORD
    modifies prdt, iov
    ensures code == TransferCode(old(iov[..]), pos, eof, sector, write, padOk, moved)
    ensures code != OK ==> iov[..] == old(iov[..])
    ensures code == OK ==>
              var v := old(iov[..]);
              var size, lead := Limited(Sum(Sizes(v)), pos, eof), pos % sector;
              && iov[..] == Shrunk(v, size) && count == Count(lead, size, sector)
              && nrPrds <= |v| + 2 && nrPrds <= NR_PRDS && prdt[..nrPrds] == Table(v, size, lead, sector, pad)
    // the sizes in the table make exactly the sectors asked of the device, if nothing wraps
    ensures code == OK ==>
              var size, lead := Limited(Sum(Sizes(old(iov[..]))), pos, eof), pos % sector;
              Total(prdt[..nrPrds]) == count * sector
              <==> lead + size + sector - 1 < WORD && (lead + size <= sector || WORD % sector == 0)
  {
    ghost var v := iov[..];
    nrPrds := 0;
    var size, lead;
    code, size, lead, count := CheckTransfer(iov[..], pos, eof, sector, write);
    if code != OK {
      return;
    }
    code, nrPrds := SetupPrdt(prdt, iov[..], size, lead, sector, padOk, pad);
    if code != OK {
      return;
    }
    SizesTotal(v);
    TableMakesSectors(v, size, lead, sector, pad);
    if !moved {
      code := EIO;
      return;
    }
    Shrink(iov, size);
  }

  lemma TableMakesSectors(iov: seq<Element>, size: nat, lead: nat, sector: nat, pad: nat)
    requires 0 < sector < WORD && lead < sector && size <= MAX_TRANSFER && size <= Total(Chunks(iov))
    ensures Total(Table(iov, size, lead, sector, pad)) == Count(lead, size, sector) * sector
            <==> lead + size + sector - 1 < WORD && (lead + size <= sector || WORD % sector == 0)
    ensures |Table(iov, size, lead, sector, pad)| <= |iov| + 2
  {
    TableCovers(iov, size, lead, sector, pad);
    PaddingFits(lead, size, sector);
  }

  // The end of port_transfer: take the transferred bytes off the vector.
  method Shrink(iov: array<Element>, size0: nat)
    modifies iov
    ensures iov[..] == Shrunk(old(iov[..]), size0)
  {
    ghost var v := iov[..];
    ghost var t := Shrunk(v, size0);
    ShrunkLength(v, size0);
    var size := size0;
    var i := 0;
    assert v[0..] == v && t[0..] == t;
    while i < iov.Length && size > 0
      invariant i <= iov.Length && t[i..] == Shrunk(v[i..], size)
      invariant forall k :: 0 <= k < iov.Length ==> iov[k] == if k < i then t[k] else v[k]
    {
      ShrunkNext(t, v, i, size);
      var chunk := Min(iov[i].size, size);
      iov[i] := iov[i].(size := iov[i].size - chunk);
      size := size - chunk;
      i := i + 1;
    }
    ShrunkNone(v[i..]);
    assert forall k :: i <= k < |v| ==> t[k] == t[i..][k - i] && v[k] == v[i..][k - i];
  }

  lemma ShrunkNext(t: seq<Element>, v: seq<Element>, i: nat, size: nat)
    requires i < |v| == |t| && t[i..] == Shrunk(v[i..], size)
    ensures var m := Min(v[i].size, size);
            t[i] == v[i].(size := v[i].size - m) && t[i + 1..] == Shrunk(v[i + 1..], size - m)
  {}

  lemma {:induction false} SizesTotal(iov: seq<Element>)
    ensures Sum(Sizes(iov)) == Total(Chunks(iov))
  {
    if iov != [] {
      assert Sizes(iov)[1..] == Sizes(iov[1..]);
      SizesTotal(iov[1..]);
    }
  }
}
