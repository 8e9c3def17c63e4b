// Specification of the allocator of asn1/malloc.c: the block list as a sequence.
module HeapSpec {
  const BLOCK_SIZE: nat := 32          // sizeof(Block) with 64-bit pointers
  const ALIGNMENT: nat := 16
  const STD_CHUNK_SIZE: nat := 65536
  const SIZE_MODULUS: nat := 0x1_0000_0000_0000_0000
  const SIZE_MAX: nat := SIZE_MODULUS - 1
  const INTPTR_LIMIT: nat := 0x8000_0000_0000_0000
  const BREAK_MAX: nat := INTPTR_LIMIT - ALIGNMENT

  datatype Block = Block(addr: nat, size: nat, free: bool)

  function End(b: Block): nat { b.addr + BLOCK_SIZE + b.size }

  // The blocks tile [base, brk): no gap, no overlap, everything aligned.
  ghost predicate Tiles(bs: seq<Block>, base: nat, brk: nat) {
    && bs != [] && bs[0].addr == base && base % ALIGNMENT == 0
    && (forall i :: 0 <= i < |bs| ==> bs[i].size % ALIGNMENT == 0)
    && (forall i, j :: 0 <= i && j == i + 1 && j < |bs| ==> bs[j].addr == End(bs[i]))
    && End(bs[|bs| - 1]) == brk
  }

  // No two neighbours are both free.
  ghost predicate Coalesced(bs: seq<Block>) {
    forall i, j :: 0 <= i && j == i + 1 && j < |bs| ==> !(bs[i].free && bs[j].free)
  }

  lemma {:induction false} TilesOrdered(bs: seq<Block>, base: nat, brk: nat, i: nat, j: nat)
    requires Tiles(bs, base, brk) && i < j < |bs|
    ensures End(bs[i]) <= bs[j].addr && base <= bs[i].addr && End(bs[j]) <= brk
    decreases j - i, |bs| - j
  {
    if i + 1 < j { TilesOrdered(bs, base, brk, i + 1, j); }
    AboveBase(bs, base, brk, i);
    BelowBreak(bs, base, brk, j);
  }

  lemma {:induction false} AboveBase(bs: seq<Block>, base: nat, brk: nat, i: nat)
    requires Tiles(bs, base, brk) && i < |bs|
    ensures base <= bs[i].addr && bs[i].addr % ALIGNMENT == 0 && (i > 0 ==> base < bs[i].addr)
  {
    if i > 0 { AboveBase(bs, base, brk, i - 1); }
  }

  lemma {:induction false} BelowBreak(bs: seq<Block>, base: nat, brk: nat, i: nat)
    requires Tiles(bs, base, brk) && i < |bs|
    ensures End(bs[i]) <= brk
    decreases |bs| - i
  {
    if i + 1 < |bs| { BelowBreak(bs, base, brk, i + 1); }
  }

  // Live allocations lie inside the heap, are 16-aligned, and never overlap one another.
  lemma LivePayloadsDisjoint(bs: seq<Block>, base: nat, brk: nat, i: nat, j: nat)
    requires Tiles(bs, base, brk) && i < |bs| && j < |bs| && i != j
    ensures End(bs[i]) <= bs[j].addr + BLOCK_SIZE || End(bs[j]) <= bs[i].addr + BLOCK_SIZE
    ensures (bs[i].addr + BLOCK_SIZE) % ALIGNMENT == 0 && base <= bs[i].addr && End(bs[i]) <= brk
  {
    AboveBase(bs, base, brk, i);
    BelowBreak(bs, base, brk, i);
    TilesOrdered(bs, base, brk, if i < j then i else j, if i < j then j else i);
  }

  // ----- malloc -----

  // (size + 15) & ~15 in size_t.
  function Aligned(size: nat): nat { (size + 15) % SIZE_MODULUS / 16 * 16 }

  // The request is rounded up, except for the last 15 sizes, which wrap to zero.
  lemma AlignedCovers(size: nat)
    requires size <= SIZE_MAX
    ensures Aligned(size) % ALIGNMENT == 0 && Aligned(size) <= SIZE_MAX
    ensures size <= Aligned(size) <==> size <= SIZE_MAX - 15
    ensures size <= SIZE_MAX - 15 ==> Aligned(size) < size + 16
    ensures size > SIZE_MAX - 15 ==> Aligned(size) == 0
  {}

  function FirstFit(bs: seq<Block>, a: nat): (i: nat)
    ensures i <= |bs|
    ensures i < |bs| ==> bs[i].free && bs[i].size >= a
    ensures forall j :: 0 <= j < i ==> !(bs[j].free && bs[j].size >= a)
  {
    if bs == [] || (bs[0].free && bs[0].size >= a) then 0 else 1 + FirstFit(bs[1..], a)
  }

  predicate Splits(b: Block, a: nat) { b.size >= a + BLOCK_SIZE + ALIGNMENT }

  // Allocating a bytes from block i, returning what is left over to the list.
  function Carve(bs: seq<Block>, i: nat, a: nat): seq<Block>
    requires i < |bs|
  {
    var b := bs[i];
    if Splits(b, a) then
      bs[..i] + [Block(b.addr, a, false), Block(b.addr + BLOCK_SIZE + a, b.size - a - BLOCK_SIZE, true)] + bs[i + 1..]
    else bs[i := b.(free := false)]
  }

  function NewSize(a: nat): nat { if a > STD_CHUNK_SIZE then a else STD_CHUNK_SIZE }

  // A size_t as sbrk takes it, an intptr_t: from 2^63 on it is negative.
  function Increment(n: nat): int { if n < INTPTR_LIMIT then n else n - SIZE_MODULUS }

  // The break after sbrk(n) was granted; it does not go below zero.
  function Moved(brk: nat, n: nat): nat { if brk + Increment(n) < 0 then 0 else brk + Increment(n) }

  // What malloc makes of the old break after sbrk(n): n more bytes, in size_t, for the last block
  // if that is free, and otherwise a new block.
  function Extend(bs: seq<Block>, brk: nat, n: nat): seq<Block>
    requires n >= BLOCK_SIZE
  {
    if bs != [] && bs[|bs| - 1].free
    then bs[..|bs| - 1] + [bs[|bs| - 1].(size := (bs[|bs| - 1].size + (n - BLOCK_SIZE) + BLOCK_SIZE) % SIZE_MODULUS)]
    else bs + [Block(brk, n - BLOCK_SIZE, true)]
  }

  // The requests for which the break moves up.
  predicate Representable(size: nat) { NewSize(Aligned(size)) < INTPTR_LIMIT }

  ghost predicate SmallLast(bs: seq<Block>) { bs != [] ==> bs[|bs| - 1].size < INTPTR_LIMIT }

  // How often malloc extends the heap before it can serve a bytes, if the break moves up.
  function Extensions(bs: seq<Block>, a: nat): (e: nat)
    ensures e <= 2
  {
    if FirstFit(bs, a) < |bs| then 0
    else if bs != [] && bs[|bs| - 1].free then 1
    else if NewSize(a) - BLOCK_SIZE >= a then 1
    else 2
  }

  function ExtendTimes(bs: seq<Block>, brk: nat, a: nat, e: nat): seq<Block>
    decreases e
  {
    if e == 0 then bs else ExtendTimes(Extend(bs, brk, NewSize(a)), Moved(brk, NewSize(a)), a, e - 1)
  }

  function MovedTimes(brk: nat, a: nat, e: nat): nat
    decreases e
  {
    if e == 0 then brk else MovedTimes(Moved(brk, NewSize(a)), a, e - 1)
  }

  lemma OneMoreExtension(bs: seq<Block>, brk: nat, a: nat, e: nat)
    ensures ExtendTimes(bs, brk, a, e + 1) == ExtendTimes(Extend(bs, brk, NewSize(a)), Moved(brk, NewSize(a)), a, e)
    ensures MovedTimes(brk, a, e + 1) == MovedTimes(Moved(brk, NewSize(a)), a, e)
  {}

  // How often that is, in numbers: not at all if a free block is large enough; once if the last block
  // is free, or if a chunk of 64K has room for the request and a header; and twice otherwise.
  lemma ExtensionsMeaning(bs: seq<Block>, a: nat)
    ensures var fits := exists i :: 0 <= i < |bs| && bs[i].free && bs[i].size >= a;
            var last := bs != [] && bs[|bs| - 1].free;
            && (Extensions(bs, a) == 0 <==> fits)
            && (Extensions(bs, a) == 1 <==> !fits && (last || a <= 65504))
            && (Extensions(bs, a) == 2 <==> !fits && !last && a > 65504)
  {
    var k := FirstFit(bs, a);
    if k < |bs| { assert bs[k].free && bs[k].size >= a; }
  }

  // Each extension moves the break by the request, but by at least 64K.
  lemma {:induction false} MovedTimesMeaning(brk: nat, a: nat, e: nat)
    requires a < INTPTR_LIMIT
    ensures MovedTimes(brk, a, e) == brk + e * (if a > 65536 then a else 65536)
    decreases e
  {
    if e > 0 {
      var n := if a > 65536 then a else 65536;
      MovedTimesMeaning(Moved(brk, NewSize(a)), a, e - 1);
      assert e * n == n + (e - 1) * n;
    }
  }

  // Each extension malloc makes was necessary, and after the last one the request fits.
  lemma ExtensionsStep(bs: seq<Block>, brk: nat, a: nat)
    requires FirstFit(bs, a) == |bs| && NewSize(a) < INTPTR_LIMIT && SmallLast(bs)
    ensures Extensions(bs, a) > 0
    ensures Extensions(Extend(bs, brk, NewSize(a)), a) == Extensions(bs, a) - 1
    ensures Extensions(bs, a) > 1 ==> SmallLast(Extend(bs, brk, NewSize(a)))
  {
    var n := NewSize(a);
    if bs != [] && bs[|bs| - 1].free {
      ExtendsLast(bs, brk, n);
      StepInto(bs, bs[|bs| - 1].(size := bs[|bs| - 1].size + n), a);
    } else {
      StepBehind(bs, Block(brk, n - BLOCK_SIZE, true), a);
    }
  }

  lemma StepInto(bs: seq<Block>, b: Block, a: nat)
    requires FirstFit(bs, a) == |bs| && bs != [] && bs[|bs| - 1].free && b.free && b.size >= a
    ensures Extensions(bs, a) == 1 && Extensions(bs[..|bs| - 1] + [b], a) == 0
  {
    LastFits(bs[..|bs| - 1], b, a);
  }

  lemma StepBehind(bs: seq<Block>, b: Block, a: nat)
    requires FirstFit(bs, a) == |bs| && !(bs != [] && bs[|bs| - 1].free) && b.free && b.size == NewSize(a) - BLOCK_SIZE
    ensures Extensions(bs, a) == Extensions(bs + [b], a) + 1
  {
    if b.size >= a { LastFits(bs, b, a); } else { LastMisses(bs, b, a); }
  }

  lemma ExtendsLast(bs: seq<Block>, brk: nat, n: nat)
    requires bs != [] && bs[|bs| - 1].free && BLOCK_SIZE <= n < INTPTR_LIMIT && SmallLast(bs)
    ensures Extend(bs, brk, n) == bs[..|bs| - 1] + [bs[|bs| - 1].(size := bs[|bs| - 1].size + n)]
  {
    NoWrap(bs[|bs| - 1].size, n);
  }

  lemma NoWrap(size: nat, n: nat)
    requires size < INTPTR_LIMIT && BLOCK_SIZE <= n < INTPTR_LIMIT
    ensures (size + (n - BLOCK_SIZE) + BLOCK_SIZE) % SIZE_MODULUS == size + n
  {}

  lemma LastFits(bs: seq<Block>, b: Block, a: nat)
    requires b.free && b.size >= a
    ensures FirstFit(bs + [b], a) < |bs + [b]|
  {
    assert (bs + [b])[|bs|] == b;
  }

  lemma LastMisses(bs: seq<Block>, b: Block, a: nat)
    requires FirstFit(bs, a) == |bs| && b.size < a
    ensures FirstFit(bs + [b], a) == |bs + [b]|
  {}

  lemma {:induction false} ExtensionsSuffice(bs: seq<Block>, brk: nat, a: nat)
    requires NewSize(a) < INTPTR_LIMIT && SmallLast(bs)
    ensures FirstFit(ExtendTimes(bs, brk, a, Extensions(bs, a)), a) < |ExtendTimes(bs, brk, a, Extensions(bs, a))|
    decreases Extensions(bs, a)
  {
    if FirstFit(bs, a) == |bs| {
      ExtensionsStep(bs, brk, a);
      if Extensions(bs, a) > 1 { ExtensionsSuffice(Extend(bs, brk, NewSize(a)), Moved(brk, NewSize(a)), a); }
    }
  }

  lemma ExtendKeeps(bs: seq<Block>, base: nat, brk: nat, n: nat)
    requires Tiles(bs, base, brk) && Coalesced(bs) && BLOCK_SIZE <= n < INTPTR_LIMIT && n % ALIGNMENT == 0
    requires SmallLast(bs)
    ensures Tiles(Extend(bs, brk, n), base, Moved(brk, n)) && Coalesced(Extend(bs, brk, n))
    ensures Moved(brk, n) == brk + n
  {
    var last := |bs| - 1;
    if bs[last].free {
      ExtendsLast(bs, brk, n);
      LongerKeeps(bs, base, brk, n);
    } else {
      BehindKeeps(bs, base, brk, n);
      assert Extend(bs, brk, n) == bs + [Block(brk, n - BLOCK_SIZE, true)];
    }
  }

  lemma LongerKeeps(bs: seq<Block>, base: nat, brk: nat, n: nat)
    requires Tiles(bs, base, brk) && Coalesced(bs) && n % ALIGNMENT == 0 && bs[|bs| - 1].free
    ensures var t := bs[..|bs| - 1] + [bs[|bs| - 1].(size := bs[|bs| - 1].size + n)];
            Tiles(t, base, brk + n) && Coalesced(t)
  {
    var t := bs[..|bs| - 1] + [bs[|bs| - 1].(size := bs[|bs| - 1].size + n)];
    forall i | 0 <= i < |t| ensures t[i].addr == bs[i].addr && t[i].free == bs[i].free {}
    assert forall i :: 0 <= i < |t| - 1 ==> t[i] == bs[i];
  }

  lemma BehindKeeps(bs: seq<Block>, base: nat, brk: nat, n: nat)
    requires Tiles(bs, base, brk) && Coalesced(bs) && n >= BLOCK_SIZE && n % ALIGNMENT == 0 && !bs[|bs| - 1].free
    ensures var t := bs + [Block(brk, n - BLOCK_SIZE, true)]; Tiles(t, base, brk + n) && Coalesced(t)
  {
    var t := bs + [Block(brk, n - BLOCK_SIZE, true)];
    assert forall i :: 0 <= i < |bs| ==> t[i] == bs[i];
  }

  // Extending as often as is needed keeps the heap tiled.
  lemma {:induction false} ExtensionsTile(bs: seq<Block>, base: nat, brk: nat, a: nat, e: nat)
    requires Tiles(bs, base, brk) && Coalesced(bs) && a % ALIGNMENT == 0 && NewSize(a) < INTPTR_LIMIT
    requires SmallLast(bs) && e <= Extensions(bs, a)
    ensures Tiles(ExtendTimes(bs, brk, a, e), base, MovedTimes(brk, a, e))
    ensures Coalesced(ExtendTimes(bs, brk, a, e))
    decreases e
  {
    if e > 0 {
      var n := NewSize(a);
      ExtendKeeps(bs, base, brk, n);
      ExtensionsStep(bs, brk, a);
      if e > 1 { ExtensionsTile(Extend(bs, brk, n), base, Moved(brk, n), a, e - 1); }
    }
  }

  // ----- requests of 2^63 bytes or more -----

  // After e extensions, all granted, the heap is tiled up to the break and some block fits.
  ghost predicate ServedAfter(bs: seq<Block>, base: nat, brk: nat, a: nat, e: nat) {
    var t := ExtendTimes(bs, brk, a, e);
    Tiles(t, base, MovedTimes(brk, a, e)) && FirstFit(t, a) < |t|
  }

  // Two extensions serve a request on a tiled heap exactly when a block fits already or the
  // increment of the break is not negative. Otherwise no number of them does.
  lemma ServedIff(bs: seq<Block>, base: nat, brk: nat, a: nat)
    requires Tiles(bs, base, brk) && Coalesced(bs) && brk <= BREAK_MAX && a % ALIGNMENT == 0 && a <= SIZE_MAX
    ensures (exists e :: 0 <= e <= 2 && ServedAfter(bs, base, brk, a, e))
       <==> FirstFit(bs, a) < |bs| || NewSize(a) < INTPTR_LIMIT
    ensures (exists e: nat :: ServedAfter(bs, base, brk, a, e))
       <==> FirstFit(bs, a) < |bs| || NewSize(a) < INTPTR_LIMIT
  {
    BelowBreak(bs, base, brk, |bs| - 1);
    if FirstFit(bs, a) < |bs| {
      assert ServedAfter(bs, base, brk, a, 0);
    } else if NewSize(a) < INTPTR_LIMIT {
      ExtensionsSuffice(bs, brk, a);
      ExtensionsTile(bs, base, brk, a, Extensions(bs, a));
      assert ServedAfter(bs, base, brk, a, Extensions(bs, a));
    } else {
      forall e: nat ensures !ServedAfter(bs, base, brk, a, e) { HugeNeverServed(bs, base, brk, a, e); }
    }
  }

  lemma HugeNeverServed(bs: seq<Block>, base: nat, brk: nat, a: nat, e: nat)
    requires brk <= BREAK_MAX && INTPTR_LIMIT <= a <= SIZE_MAX
    ensures !ServedAfter(bs, base, brk, a, e)
  {
    var t := ExtendTimes(bs, brk, a, e);
    MovedDown(brk, a, e);
    if Tiles(t, base, MovedTimes(brk, a, e)) && FirstFit(t, a) < |t| {
      BelowBreak(t, base, MovedTimes(brk, a, e), FirstFit(t, a));
    }
  }

  lemma {:induction false} MovedDown(brk: nat, a: nat, e: nat)
    requires INTPTR_LIMIT <= a <= SIZE_MAX
    ensures MovedTimes(brk, a, e) <= brk
    decreases e
  {
    if e > 0 { MovedDown(Moved(brk, NewSize(a)), a, e - 1); }
  }

  // What happens instead: the break moves down by d bytes. A free last block gives them back, time
  // after time for as long as it has as many, and never gets to fit ...
  lemma {:induction false} HugeShrinks(bs: seq<Block>, base: nat, brk: nat, a: nat, d: nat, k: nat)
    requires Tiles(bs, base, brk) && brk <= BREAK_MAX && a % ALIGNMENT == 0 && 0 < d <= INTPTR_LIMIT
    requires a + d == SIZE_MODULUS && FirstFit(bs, a) == |bs| && bs[|bs| - 1].free && k * d <= bs[|bs| - 1].size
    ensures ExtendTimes(bs, brk, a, k) == Shortened(bs, k * d) && MovedTimes(brk, a, k) == brk - k * d
    ensures Tiles(Shortened(bs, k * d), base, brk - k * d) && FirstFit(Shortened(bs, k * d), a) == |bs|
    decreases k
  {
    if k > 0 {
      var last := |bs| - 1;
      assert k * d == d + (k - 1) * d;
      BelowBreak(bs, base, brk, last);
      HugeOnce(bs, base, brk, a, d);
      HugeShrinks(Extend(bs, brk, a), base, brk - d, a, d, k - 1);
    }
  }

  lemma HugeOnce(bs: seq<Block>, base: nat, brk: nat, a: nat, d: nat)
    requires Tiles(bs, base, brk) && brk <= BREAK_MAX && a % ALIGNMENT == 0 && 0 < d <= INTPTR_LIMIT
    requires a + d == SIZE_MODULUS && FirstFit(bs, a) == |bs| && bs[|bs| - 1].free && d <= bs[|bs| - 1].size
    ensures Moved(brk, a) == brk - d && NewSize(a) == a
    ensures Extend(bs, brk, a) == Shortened(bs, d)
    ensures Tiles(Shortened(bs, d), base, brk - d) && FirstFit(Shortened(bs, d), a) == |bs|
  {
    GapAligned(a, d);
    BelowBreak(bs, base, brk, |bs| - 1);
    HugeMoved(brk, a, d);
    ShortenedExtend(bs, brk, a, d);
    ShortenedTiles(bs, base, brk, d);
    NoFitShortened(bs, a, d);
  }

  lemma GapAligned(a: nat, d: nat)
    requires a % ALIGNMENT == 0 && a + d == SIZE_MODULUS
    ensures d % ALIGNMENT == 0
  {}

  lemma HugeMoved(brk: nat, a: nat, d: nat)
    requires a + d == SIZE_MODULUS && 0 < d <= INTPTR_LIMIT && d <= brk
    ensures Moved(brk, a) == brk - d && NewSize(a) == a
  {}

  lemma ShortenedExtend(bs: seq<Block>, brk: nat, a: nat, d: nat)
    requires bs != [] && bs[|bs| - 1].free && d <= bs[|bs| - 1].size < INTPTR_LIMIT
    requires a + d == SIZE_MODULUS && BLOCK_SIZE <= a
    ensures Extend(bs, brk, a) == Shortened(bs, d)
  {
    HugeSum(bs[|bs| - 1].size, a, d);
  }

  // The list with its last block d bytes shorter.
  function Shortened(bs: seq<Block>, d: nat): seq<Block>
    requires bs != [] && d <= bs[|bs| - 1].size
  {
    bs[..|bs| - 1] + [bs[|bs| - 1].(size := bs[|bs| - 1].size - d)]
  }

  lemma HugeSum(size: nat, a: nat, d: nat)
    requires a + d == SIZE_MODULUS && d <= size < INTPTR_LIMIT && BLOCK_SIZE <= a
    ensures (size + (a - BLOCK_SIZE) + BLOCK_SIZE) % SIZE_MODULUS == size - d
  {
    assert size + (a - BLOCK_SIZE) + BLOCK_SIZE == size - d + SIZE_MODULUS;
  }

  lemma ShortenedTiles(bs: seq<Block>, base: nat, brk: nat, d: nat)
    requires Tiles(bs, base, brk) && d <= bs[|bs| - 1].size && d % ALIGNMENT == 0
    ensures Tiles(Shortened(bs, d), base, brk - d)
  {}

  lemma NoFitShortened(bs: seq<Block>, a: nat, d: nat)
    requires bs != [] && d <= bs[|bs| - 1].size && FirstFit(bs, a) == |bs|
    ensures FirstFit(Shortened(bs, d), a) == |bs|
  {
    var t := Shortened(bs, d);
    forall k | 0 <= k < |t| && t[k].free ensures t[k].size < a { assert bs[k].free && bs[k].size >= t[k].size; }
  }

  // ... and if the last block is allocated, a header is written behind the lowered break.
  lemma HugeUntiles(bs: seq<Block>, base: nat, brk: nat, a: nat)
    requires Tiles(bs, base, brk) && INTPTR_LIMIT <= a <= SIZE_MAX && !bs[|bs| - 1].free
    ensures !Tiles(Extend(bs, brk, NewSize(a)), base, Moved(brk, NewSize(a)))
  {}

  // A concrete case: 2^64 - 48 bytes from a fresh heap. Three extensions, past the two that are
  // ever needed otherwise, hand back 48 bytes each and serve nothing.
  lemma HugeRequest(base: nat)
    requires base % ALIGNMENT == 0 && base + STD_CHUNK_SIZE <= BREAK_MAX
    ensures var a, start := Aligned(SIZE_MAX - 47), [Block(base, STD_CHUNK_SIZE - BLOCK_SIZE, true)];
            && !Representable(SIZE_MAX - 47)
            && MovedTimes(base + STD_CHUNK_SIZE, a, 3) == base + STD_CHUNK_SIZE - 144
            && FirstFit(ExtendTimes(start, base + STD_CHUNK_SIZE, a, 3), a) == 1
  {
    HugeAligned();
    FreshHeap(base, SIZE_MODULUS - 48);
    var start := [Block(base, STD_CHUNK_SIZE - BLOCK_SIZE, true)];
    HugeShrinks(start, base, base + STD_CHUNK_SIZE, SIZE_MODULUS - 48, 48, 3);
  }

  lemma HugeAligned()
    ensures Aligned(SIZE_MAX - 47) == SIZE_MODULUS - 48 && !Representable(SIZE_MAX - 47)
  {
    assert (SIZE_MAX - 47 + 15) % SIZE_MODULUS == SIZE_MODULUS - 33;
  }

  lemma FreshHeap(base: nat, a: nat)
    requires base % ALIGNMENT == 0 && a > STD_CHUNK_SIZE
    ensures var start := [Block(base, STD_CHUNK_SIZE - BLOCK_SIZE, true)];
            Tiles(start, base, base + STD_CHUNK_SIZE) && FirstFit(start, a) == 1
  {}

  lemma CarveKeeps(bs: seq<Block>, base: nat, brk: nat, i: nat, a: nat)
    requires Tiles(bs, base, brk) && Coalesced(bs) && i < |bs| && bs[i].free && a <= bs[i].size && a % ALIGNMENT == 0
    ensures Tiles(Carve(bs, i, a), base, brk) && Coalesced(Carve(bs, i, a))
    ensures Carve(bs, i, a)[i].addr == bs[i].addr && !Carve(bs, i, a)[i].free && Carve(bs, i, a)[i].size >= a
  {
    CarveTiles(bs, base, brk, i, a);
    CarveCoalesced(bs, i, a);
  }

  // The list t after a bytes were allocated from block i: a block that has 48 bytes to spare, a header
  // and one unit of payload, keeps exactly a bytes and leaves the rest to a free block behind it.
  ghost predicate CutOff(bs: seq<Block>, i: nat, a: nat, t: seq<Block>)
    requires i < |bs|
  {
    var b := bs[i];
    if b.size >= a + 48 then
      t == bs[..i] + [Block(b.addr, a, false), Block(b.addr + 32 + a, b.size - a - 32, true)] + bs[i + 1..]
    else t == bs[i := Block(b.addr, b.size, false)]
  }

  lemma CutIsCarve(bs: seq<Block>, i: nat, a: nat, t: seq<Block>)
    requires i < |bs| && bs[i].free && CutOff(bs, i, a, t)
    ensures t == Carve(bs, i, a)
  {}

  // So no allocation takes 48 bytes more than it was asked for.
  lemma CarveMeaning(bs: seq<Block>, i: nat, a: nat)
    requires i < |bs| && bs[i].free && a <= bs[i].size
    ensures CutOff(bs, i, a, Carve(bs, i, a)) && i < |Carve(bs, i, a)|
    ensures var b := Carve(bs, i, a)[i]; b.addr == bs[i].addr && !b.free && a <= b.size < a + 48
    ensures bs[i].size >= a + 48 ==>
              && |Carve(bs, i, a)| == |bs| + 1
              && Carve(bs, i, a)[i + 1] == Block(bs[i].addr + 32 + a, bs[i].size - a - 32, true)
  {}

  lemma CarveCoalesced(bs: seq<Block>, i: nat, a: nat)
    requires Coalesced(bs) && i < |bs| && bs[i].free && a <= bs[i].size
    ensures Coalesced(Carve(bs, i, a))
  {}

  lemma CarveTiles(bs: seq<Block>, base: nat, brk: nat, i: nat, a: nat)
    requires Tiles(bs, base, brk) && i < |bs| && a <= bs[i].size && a % ALIGNMENT == 0
    ensures Tiles(Carve(bs, i, a), base, brk)
  {
    var t := Carve(bs, i, a);
    if Splits(bs[i], a) {
      assert (bs[i].size - a - BLOCK_SIZE) % ALIGNMENT == 0;
      assert End(t[i + 1]) == End(bs[i]) && t[i + 1].addr == End(t[i]);
      forall j, k | 0 <= j && k == j + 1 && k < |t| ensures t[k].addr == End(t[j]) {
        if j < i { assert t[j] == bs[j] && t[k].addr == bs[k].addr; }
        if j > i { assert t[k] == bs[k - 1] && End(t[j]) == End(bs[j - 1]); }
      }
    }
  }

  // ----- free -----

  predicate InPayload(b: Block, ptr: nat) { b.addr + BLOCK_SIZE <= ptr < End(b) }

  // The block that free works on: the one whose payload holds ptr, else the one ptr points behind.
  ghost predicate Owns(bs: seq<Block>, k: nat, ptr: nat) {
    k < |bs| && (InPayload(bs[k], ptr) || ptr == bs[k].addr + BLOCK_SIZE)
  }

  // Block i swallows its successor.
  function Merge(bs: seq<Block>, i: nat): seq<Block>
    requires i + 1 < |bs|
  {
    bs[..i] + [bs[i].(size := bs[i].size + (bs[i + 1].size + BLOCK_SIZE))] + bs[i + 2..]
  }

  function MergeNext(bs: seq<Block>, k: nat): seq<Block>
    requires k < |bs|
  {
    if k + 1 < |bs| && bs[k + 1].free then Merge(bs, k) else bs
  }

  function MergePrev(bs: seq<Block>, k: nat): seq<Block>
    requires k < |bs|
  {
    if k > 0 && bs[k - 1].free then Merge(bs, k - 1) else bs
  }

  function Release(bs: seq<Block>, k: nat): seq<Block>
    requires k < |bs|
  {
    var s := bs[k := bs[k].(free := true)];
    MergePrev(MergeNext(s, k), k)
  }

  lemma MergeTiles(bs: seq<Block>, base: nat, brk: nat, i: nat)
    requires Tiles(bs, base, brk) && i + 1 < |bs|
    ensures Tiles(Merge(bs, i), base, brk)
  {
    var t := Merge(bs, i);
    forall j, k | 0 <= j && k == j + 1 && k < |t| ensures t[k].addr == End(t[j]) { MergeLinks(bs, base, brk, i, j); }
    MergeSizes(bs, i);
    MergeEnd(bs, base, brk, i);
  }

  lemma MergeLinks(bs: seq<Block>, base: nat, brk: nat, i: nat, j: nat)
    requires Tiles(bs, base, brk) && i + 1 < |bs| && j + 1 < |Merge(bs, i)|
    ensures Merge(bs, i)[j + 1].addr == End(Merge(bs, i)[j])
  {
    var k := if j < i then j else j + 1;
    assert bs[k + 1].addr == End(bs[k]);
    if j == i { assert bs[i + 1].addr == End(bs[i]); }
  }

  lemma MergeSizes(bs: seq<Block>, i: nat)
    requires i + 1 < |bs| && forall j :: 0 <= j < |bs| ==> bs[j].size % ALIGNMENT == 0
    ensures forall j :: 0 <= j < |Merge(bs, i)| ==> Merge(bs, i)[j].size % ALIGNMENT == 0
  {}

  lemma MergeEnd(bs: seq<Block>, base: nat, brk: nat, i: nat)
    requires Tiles(bs, base, brk) && i + 1 < |bs|
    ensures var t := Merge(bs, i); t != [] && t[0].addr == base && End(t[|t| - 1]) == brk
  {
    assert bs[i + 1].addr == End(bs[i]);
  }

  lemma ReleaseKeeps(bs: seq<Block>, base: nat, brk: nat, k: nat)
    requires Tiles(bs, base, brk) && Coalesced(bs) && k < |bs|
    ensures Tiles(Release(bs, k), base, brk) && Coalesced(Release(bs, k))
  {
    var s := bs[k := bs[k].(free := true)];
    if k + 1 < |s| { MergeTiles(s, base, brk, k); }
    var t := MergeNext(s, k);
    if k > 0 { MergeTiles(t, base, brk, k - 1); }
    ReleaseCoalesces(bs, k);
  }

  lemma ReleaseCoalesces(bs: seq<Block>, k: nat)
    requires Coalesced(bs) && k < |bs|
    ensures Coalesced(Release(bs, k))
  {}

  // Freeing what a malloc that did not extend the heap just handed out restores the list exactly.
  lemma ReleaseUndoesCarve(bs: seq<Block>, i: nat, a: nat)
    requires Coalesced(bs) && i < |bs| && bs[i].free && a <= bs[i].size
    ensures Release(Carve(bs, i, a), i) == bs
  {}

  // The same through any pointer into the payload: it identifies block i and no other.
  lemma OwnerUnique(bs: seq<Block>, base: nat, brk: nat, i: nat, j: nat, ptr: nat)
    requires Tiles(bs, base, brk) && Owns(bs, i, ptr) && Owns(bs, j, ptr)
    ensures i == j
  {
    if i < j { TilesOrdered(bs, base, brk, i, j); }
    if j < i { TilesOrdered(bs, base, brk, j, i); }
  }

  lemma AllocateThenFree(bs: seq<Block>, base: nat, brk: nat, a: nat, j: nat, ptr: nat)
    requires Tiles(bs, base, brk) && Coalesced(bs) && a % ALIGNMENT == 0 && FirstFit(bs, a) < |bs|
    requires var t := Carve(bs, FirstFit(bs, a), a); Owns(t, FirstFit(bs, a), ptr) && Owns(t, j, ptr)
    ensures Release(Carve(bs, FirstFit(bs, a), a), j) == bs
  {
    var k := FirstFit(bs, a);
    CarveKeeps(bs, base, brk, k, a);
    OwnerUnique(Carve(bs, k, a), base, brk, j, k, ptr);
    ReleaseUndoesCarve(bs, k, a);
  }

  // ----- live allocations survive -----

  // Every allocated block of bs but the one at position k is still there, unchanged, in t.
  ghost predicate LiveKept(bs: seq<Block>, t: seq<Block>, k: int) {
    forall i :: 0 <= i < |bs| && i != k && !bs[i].free ==> bs[i] in t
  }

  lemma CarveLive(bs: seq<Block>, i: nat, a: nat)
    requires i < |bs| && bs[i].free
    ensures LiveKept(bs, Carve(bs, i, a), -1)
  {}

  lemma ExtendLive(bs: seq<Block>, brk: nat, n: nat)
    requires n >= BLOCK_SIZE
    ensures LiveKept(bs, Extend(bs, brk, n), -1)
  {}

  lemma {:induction false} ExtendTimesLive(bs: seq<Block>, brk: nat, a: nat, e: nat)
    ensures LiveKept(bs, ExtendTimes(bs, brk, a, e), -1)
    decreases e
  {
    if e > 0 {
      var u := Extend(bs, brk, NewSize(a));
      ExtendLive(bs, brk, NewSize(a));
      ExtendTimesLive(u, Moved(brk, NewSize(a)), a, e - 1);
      LiveTrans(bs, u, ExtendTimes(bs, brk, a, e));
    }
  }

  lemma LiveTrans(bs: seq<Block>, t: seq<Block>, u: seq<Block>)
    requires LiveKept(bs, t, -1) && LiveKept(t, u, -1)
    ensures LiveKept(bs, u, -1)
  {}

  // free takes exactly one allocation away.
  lemma ReleaseLive(bs: seq<Block>, k: nat)
    requires k < |bs|
    ensures LiveKept(bs, Release(bs, k), k)
  {}

  // ----- realloc in place -----

  predicate Fits(bs: seq<Block>, k: nat, size: nat) requires k < |bs| { bs[k].size >= size }

  predicate GrowsForward(bs: seq<Block>, k: nat, size: nat)
    requires k < |bs|
  {
    !Fits(bs, k, size) && k + 1 < |bs| && bs[k + 1].free && bs[k].size + bs[k + 1].size + BLOCK_SIZE >= size
  }

  predicate GrowsBackward(bs: seq<Block>, k: nat, size: nat)
    requires k < |bs|
  {
    !Fits(bs, k, size) && !GrowsForward(bs, k, size)
    && k > 0 && bs[k - 1].free && bs[k - 1].size + bs[k].size + BLOCK_SIZE >= size
  }

  // What realloc does without malloc: the new list, and the position of the block it returns.
  function ReallocInPlace(bs: seq<Block>, k: nat, size: nat): (seq<Block>, nat)
    requires k < |bs|
  {
    if GrowsForward(bs, k, size) then (Merge(bs, k), k)
    else if GrowsBackward(bs, k, size) then (Merge(bs, k - 1), k - 1)
    else (bs, k)
  }

  // The block realloc returns in place is marked as allocated, at the address it had, exactly
  // when it did not grow backward: that branch returns a block which is still marked free.
  lemma ReallocInPlaceLive(bs: seq<Block>, base: nat, brk: nat, k: nat, size: nat)
    requires Tiles(bs, base, brk) && k < |bs| && !bs[k].free
    ensures var (t, i) := ReallocInPlace(bs, k, size);
            && i < |t| && Tiles(t, base, brk)
            && (!t[i].free <==> !GrowsBackward(bs, k, size))
            && (t[i].addr == bs[k].addr <==> !GrowsBackward(bs, k, size))
            && (Fits(bs, k, size) || GrowsForward(bs, k, size) || GrowsBackward(bs, k, size) ==> t[i].size >= size)
  {
    if GrowsForward(bs, k, size) { MergeTiles(bs, base, brk, k); }
    if GrowsBackward(bs, k, size) { MergeTiles(bs, base, brk, k - 1); }
  }
}
