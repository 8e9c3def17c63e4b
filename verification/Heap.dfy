// The allocator of asn1/malloc.c on memory: headers are linked in place and the break moves.
module Heap {
  import opened Prelude
  import opened HeapSpec

  // struct Block as stored at an address; a null pointer is None.
  datatype Header = Header(next: Option<nat>, prev: Option<nat>, size: nat, free: bool)

  function Next(bs: seq<Block>, i: nat): Option<nat> { if i + 1 < |bs| then Some(bs[i + 1].addr) else None }
  function Prev(bs: seq<Block>, i: nat): Option<nat>
    requires i <= |bs|
  {
    if i > 0 then Some(bs[i - 1].addr) else None
  }

  ghost predicate ShownAt(mem: map<nat, Header>, bs: seq<Block>, i: nat)
    requires i < |bs|
  {
    bs[i].addr in mem && mem[bs[i].addr] == Header(Next(bs, i), Prev(bs, i), bs[i].size, bs[i].free)
  }

  // The headers in memory are those of the list bs.
  ghost predicate Shown(mem: map<nat, Header>, bs: seq<Block>) {
    forall i :: 0 <= i < |bs| ==> ShownAt(mem, bs, i)
  }

  // The list malloc works on: after init_heap if there was none.
  function Started(bs: seq<Block>, brk: nat): seq<Block> {
    if bs == [] then [Block(AlignUp(brk), STD_CHUNK_SIZE - BLOCK_SIZE, true)] else bs
  }

  function StartBreak(bs: seq<Block>, brk: nat): nat {
    if bs == [] then AlignUp(brk) + STD_CHUNK_SIZE else brk
  }

  function AlignUp(brk: nat): nat {
    if brk % ALIGNMENT != 0 then brk + (ALIGNMENT - brk % ALIGNMENT) else brk
  }

  // A malloc of a rounded bytes from list bs gave p, leaving list t and break brk': either the least
  // number of extensions and then the first block that fits, or fewer, the next one having been
  // refused.
  ghost predicate Allocated(bs: seq<Block>, brk: nat, a: nat, p: Option<nat>, t: seq<Block>, brk': nat) {
    var e := Extensions(bs, a);
    match p
    case Some(ptr) =>
      var g := ExtendTimes(bs, brk, a, e);
      var k := FirstFit(g, a);
      k < |g| && CutOff(g, k, a, t) && ptr == g[k].addr + 32 && brk' == MovedTimes(brk, a, e)
    case None =>
      exists j: nat :: j < e && t == ExtendTimes(bs, brk, a, j) && brk' == MovedTimes(brk, a, j)
  }

  class Allocator {
    var head: Option<nat>
    var mem: map<nat, Header>
    var brk: nat
    ghost var base: nat
    ghost var blocks: seq<Block>
    ghost var refusals: nat          // how often sbrk has failed

    ghost predicate Valid()
      reads this
    {
      && brk <= BREAK_MAX
      && Shown(mem, blocks)
      && if head == None then blocks == []
         else Tiles(blocks, base, brk) && Coalesced(blocks) && head == Some(blocks[0].addr)
    }

    // Before the first call: no heap, and the break wherever the program image ends.
    constructor (start: nat)
      requires start <= BREAK_MAX
      ensures Valid() && head == None && brk == start && refusals == 0
    {
      head, mem, brk, base, blocks, refusals := None, map[], start, 0, [], 0;
    }

    // sbrk(n) for a size_t n: the system either moves the break, downward if n is 2^63 or more,
    // and returns the old one, or refuses.
    method Sbrk(n: nat) returns (r: Option<nat>)
      requires n <= SIZE_MAX
      modifies this`brk, this`refusals
      ensures r.Some? ==>
                r == Some(old(brk)) && brk == old(brk) + Increment(n) <= BREAK_MAX && refusals == old(refusals)
      ensures r == None ==> brk == old(brk) && refusals == old(refusals) + 1
    {
      var granted: bool := *;
      if granted && 0 <= brk + Increment(n) <= BREAK_MAX {
        r := Some(brk);
        brk := brk + Increment(n);
      } else {
        r := None;
        refusals := refusals + 1;
      }
    }

    // init_heap. The break stays aligned if only the second request is refused.
    method InitHeap() returns (ok: bool)
      requires Valid() && head == None
      modifies this
      ensures Valid() && (ok <==> refusals == old(refusals))
      ensures ok ==> head.Some? && blocks == Started([], old(brk)) && brk == StartBreak([], old(brk))
      ensures !ok ==> head == None && refusals > old(refusals) && (brk == old(brk) || brk == AlignUp(old(brk)))
    {
      if brk % ALIGNMENT != 0 {
        var temp := Sbrk(ALIGNMENT - brk % ALIGNMENT);
        if temp == None {
          return false;
        }
      }
      var m := Sbrk(STD_CHUNK_SIZE);
      if m == None {
        return false;
      }
      mem := mem[m.value := Header(None, None, STD_CHUNK_SIZE - BLOCK_SIZE, true)];
      head := m;
      base := m.value;
      blocks := [Block(base, STD_CHUNK_SIZE - BLOCK_SIZE, true)];
      return true;
    }

    // align_heap. Since init_heap the break is always aligned, so its growth branch is never
    // taken and the list never contains a misaligned filler block.
    method AlignHeap()
      requires Valid() && head.Some?
    {
      if brk % ALIGNMENT != 0 {
        BreakAligned(blocks, base, brk);
        assert false;
      }
    }

    // The first fit, or None and the last block of the list.
    method FindFit(a: nat) returns (current: Option<nat>, prev: Option<nat>)
      requires Valid() && head.Some?
      ensures var k := FirstFit(blocks, a);
              if k < |blocks| then current == Some(blocks[k].addr)
              else current == None && prev == Some(blocks[|blocks| - 1].addr)
    {
      current, prev := head, None;
      ghost var i := 0;
      while current != None
        invariant i <= |blocks| && current == (if i < |blocks| then Some(blocks[i].addr) else None)
                  && prev == Prev(blocks, i)
        invariant i + FirstFit(blocks[i..], a) == FirstFit(blocks, a)
        decreases |blocks| - i
      {
        assert ShownAt(mem, blocks, i);
        if mem[current.value].free && mem[current.value].size >= a {
          return;
        }
        assert blocks[i..][1..] == blocks[i + 1..];
        prev := current;
        current := mem[current.value].next;
        i := i + 1;
      }
      assert blocks[i..] == [];
    }

    // Allocate from a free block that is large enough, splitting it if there is room.
    method Take(current: nat, a: nat, ghost k: nat)
      requires Valid() && head.Some? && k < |blocks| && current == blocks[k].addr
      requires blocks[k].free && blocks[k].size >= a
      requires a % ALIGNMENT == 0
      modifies this`mem, this`blocks
      ensures Valid() && blocks == Carve(old(blocks), k, a)
    {
      ghost var bs, was := blocks, mem;
      assert ShownAt(mem, bs, k);
      mem := mem[current := mem[current].(free := false)];
      BelowBreakAll(bs, base, brk);
      if mem[current].size >= a + BLOCK_SIZE + ALIGNMENT {
        Split(current, a, k, bs, was);
      }
      CarveKeeps(bs, base, brk, k, a);
      blocks := Carve(bs, k, a);
      CarveShown(bs, k, a, was, mem);
    }

    // Cut a bytes off the front of the block at `current`; the rest becomes a free block.
    method Split(current: nat, a: nat, ghost k: nat, ghost bs: seq<Block>, ghost was: map<nat, Header>)
      requires Tiles(bs, base, brk) && Ordered(bs) && Shown(was, bs)
      requires k < |bs| && current == bs[k].addr && Splits(bs[k], a)
      requires current in was && mem == was[current := was[current].(free := false)]
      modifies this`mem
      ensures Carved(bs, k, a, was, mem)
    {
      assert ShownAt(was, bs, k);
      var rest := current + BLOCK_SIZE + a;
      RestIsNew(bs, base, brk, k, rest);
      mem := mem[rest := Header(mem[current].next, Some(current), mem[current].size - a - BLOCK_SIZE, true)];
      if mem[current].next.Some? {
        assert ShownAt(was, bs, k + 1);
        var next := mem[current].next.value;
        mem := mem[next := mem[next].(prev := Some(rest))];
      }
      mem := mem[current := mem[current].(size := a, next := Some(rest))];
    }

    // request_mem plus hanging the new chunk behind prev, merging it into prev if that is free.
    method Grow(prev: nat, n: nat) returns (ok: bool)
      requires Valid() && head.Some? && prev == blocks[|blocks| - 1].addr
      requires BLOCK_SIZE <= n < INTPTR_LIMIT && n % ALIGNMENT == 0
      modifies this`mem, this`brk, this`blocks, this`refusals
      ensures Valid() && (ok <==> refusals == old(refusals)) && refusals >= old(refusals)
      ensures if ok then blocks == Extend(old(blocks), old(brk), n) && brk == old(brk) + n
              else blocks == old(blocks) && brk == old(brk)
    {
      ghost var bs, was, brk0 := blocks, mem, brk;
      var m := Sbrk(n);
      if m == None {
        return false;
      }
      var chunk := m.value;
      BelowBreakAll(bs, base, brk0);
      assert ShownAt(was, bs, |bs| - 1);
      mem := mem[chunk := Header(None, Some(prev), n - BLOCK_SIZE, true)];
      mem := mem[prev := mem[prev].(next := Some(chunk))];
      if mem[prev].free {
        // the new block has no successor whose prev would need changing
        mem := mem[prev := mem[prev].(size := (mem[prev].size + mem[chunk].size + BLOCK_SIZE) % SIZE_MODULUS,
                                      next := mem[chunk].next)];
      }
      BelowBreak(bs, base, brk0, |bs| - 1);
      ExtendKeeps(bs, base, brk0, n);
      blocks := Extend(bs, brk0, n);
      ExtendShown(bs, base, brk0, n, was, mem);
      return true;
    }

    // One round of malloc after the heap exists: serve the request, or extend the heap for a retry.
    method TryOnce(alignedSize: nat) returns (p: Option<nat>, retry: bool)
      requires Valid() && head.Some? && alignedSize % ALIGNMENT == 0 && NewSize(alignedSize) < INTPTR_LIMIT
      modifies this`mem, this`brk, this`blocks, this`refusals
      ensures Valid() && head.Some? && refusals >= old(refusals)
      ensures retry ==> p == None && refusals == old(refusals) && FirstFit(old(blocks), alignedSize) == |old(blocks)|
      ensures retry ==> blocks == Extend(old(blocks), old(brk), NewSize(alignedSize))
                        && brk == Moved(old(brk), NewSize(alignedSize))
      ensures !retry ==> Allocated(old(blocks), old(brk), alignedSize, p, blocks, brk)
                         && (p == None <==> refusals > old(refusals))
    {
      LastIsSmall(blocks, base, brk);
      AllocatedAtOnce(blocks, brk, alignedSize);
      AlignHeap();
      var current, prev := FindFit(alignedSize);
      if current.Some? {
        Take(current.value, alignedSize, FirstFit(blocks, alignedSize));
        return Some(current.value + BLOCK_SIZE), false;
      }
      var newSize := STD_CHUNK_SIZE;
      if alignedSize > newSize {
        newSize := alignedSize;
      }
      p := None;
      retry := Grow(prev.value, newSize);
    }

    // For the sizes that do not make the break move down; ServedIff says what depends on that.
    method Malloc(size: nat) returns (p: Option<nat>)
      requires Valid() && size <= SIZE_MAX && Representable(size)
      modifies this
      ensures Valid() && refusals >= old(refusals)
      // it fails only when the system refuses memory
      ensures p == None <==> refusals > old(refusals)
      ensures head.Some? ==> Allocated(Started(old(blocks), old(brk)), StartBreak(old(blocks), old(brk)),
              Aligned(size), p, blocks, brk)
      ensures head == None ==> p == None && old(head) == None
      decreases if head == None then 3 else Extensions(blocks, Aligned(size)), 1
    {
      if head == None {
        var ok := InitHeap();
        if !ok {
          return None;
        }
      }
      p := Serve(size);
    }

    // malloc once the heap exists. After an extension the source calls itself again.
    method Serve(size: nat) returns (p: Option<nat>)
      requires Valid() && head.Some? && size <= SIZE_MAX && Representable(size)
      modifies this
      ensures Valid() && head.Some? && refusals >= old(refusals)
      ensures p == None <==> refusals > old(refusals)
      ensures Allocated(old(blocks), old(brk), Aligned(size), p, blocks, brk)
      decreases Extensions(blocks, Aligned(size)), 0
    {
      var alignedSize := Aligned(size);
      AlignedCovers(size);
      ghost var bs, brk0 := blocks, brk;
      LastIsSmall(bs, base, brk);
      var retry;
      p, retry := TryOnce(alignedSize);
      if retry {
        assert blocks != [];
        ExtensionsStep(bs, brk0, alignedSize);
        p := Malloc(size);
        AllocatedAfter(bs, brk0, alignedSize, p, blocks, brk);
      }
    }

    // Valid, except that neighbours may both be free.
    ghost predicate Listed()
      reads this
    {
      brk <= BREAK_MAX && Shown(mem, blocks) && Tiles(blocks, base, brk) && head == Some(blocks[0].addr)
    }

    // Unlink the successor of the block at `block` and add its space to it.
    method Absorb(block: nat, ghost k: nat)
      requires Listed() && k + 1 < |blocks| && block == blocks[k].addr
      modifies this`mem, this`blocks
      ensures Listed() && blocks == Merge(old(blocks), k)
    {
      ghost var bs, was := blocks, mem;
      BelowBreakAll(bs, base, brk);
      assert ShownAt(was, bs, k) && ShownAt(was, bs, k + 1);
      var next := mem[block].next.value;
      mem := mem[block := mem[block].(size := mem[block].size + (mem[next].size + BLOCK_SIZE), next := mem[next].next)];
      if mem[block].next.Some? {
        assert ShownAt(was, bs, k + 2);
        var after := mem[block].next.value;
        mem := mem[after := mem[after].(prev := Some(block))];
      }
      MergeTiles(bs, base, brk, k);
      blocks := Merge(bs, k);
      MergeShown(bs, k, was, mem);
    }

    // The block whose payload holds ptr, if there is one.
    method FindOwner(ptr: nat, ghost k: nat) returns (owner: Option<nat>)
      requires Valid() && head.Some? && Owns(blocks, k, ptr)
      ensures owner == if InPayload(blocks[k], ptr) then Some(blocks[k].addr) else None
    {
      owner := head;
      ghost var i := 0;
      while owner != None
        invariant i <= |blocks| && owner == (if i < |blocks| then Some(blocks[i].addr) else None)
        invariant forall j :: 0 <= j < i ==> !InPayload(blocks[j], ptr)
        decreases |blocks| - i
      {
        assert ShownAt(mem, blocks, i);
        if owner.value + BLOCK_SIZE <= ptr < owner.value + BLOCK_SIZE + mem[owner.value].size {
          OwnerUnique(blocks, base, brk, i, k, ptr);
          return;
        }
        owner := mem[owner.value].next;
        i := i + 1;
      }
    }

    // free, for any pointer into the payload of a block (or to its start, if that is empty).
    method Free(ptr: Option<nat>, ghost k: nat)
      requires Valid() && (ptr.Some? ==> head.Some? && Owns(blocks, k, ptr.value))
      modifies this`mem, this`blocks
      ensures Valid()
      ensures if ptr == None then blocks == old(blocks) else blocks == Release(old(blocks), k)
    {
      if ptr == None {
        return;
      }
      ghost var bs := blocks;
      var owner := FindOwner(ptr.value, k);
      var start := if owner.Some? then owner.value + BLOCK_SIZE else ptr.value;
      var block := start - BLOCK_SIZE;
      ReleaseKeeps(bs, base, brk, k);
      MarkFree(block, k);
      assert ShownAt(mem, blocks, k);
      if mem[block].next.Some? {
        assert ShownAt(mem, blocks, k + 1);
        if mem[mem[block].next.value].free { Absorb(block, k); }
      }
      assert blocks == MergeNext(bs[k := bs[k].(free := true)], k);
      assert ShownAt(mem, blocks, k);
      if mem[block].prev.Some? {
        assert ShownAt(mem, blocks, k - 1);
        if mem[mem[block].prev.value].free { Absorb(mem[block].prev.value, k - 1); }
      }
    }

    method MarkFree(block: nat, ghost k: nat)
      requires Listed() && k < |blocks| && block == blocks[k].addr
      modifies this`mem, this`blocks
      ensures Listed() && blocks == old(blocks)[k := old(blocks)[k].(free := true)]
    {
      ghost var bs, was := blocks, mem;
      BelowBreakAll(bs, base, brk);
      assert ShownAt(was, bs, k);
      mem := mem[block := mem[block].(free := true)];
      MarkShown(bs, base, brk, k, was);
      blocks := bs[k := bs[k].(free := true)];
    }

    // calloc. Clearing the payload is not modelled; every zero or overflowing product is refused.
    method Calloc(nmemb: nat, size: nat) returns (p: Option<nat>)
      requires Valid() && nmemb <= SIZE_MAX && size <= SIZE_MAX
      requires nmemb * size <= SIZE_MAX ==> Representable(nmemb * size)
      modifies this
      ensures Valid() && refusals >= old(refusals)
      ensures nmemb == 0 || size == 0 || nmemb * size > SIZE_MAX ==>
              p == None && blocks == old(blocks) && brk == old(brk)
      ensures 0 < nmemb * size <= SIZE_MAX ==>
                && (p == None <==> refusals > old(refusals))
                && (head.Some? ==> Allocated(Started(old(blocks), old(brk)), StartBreak(old(blocks), old(brk)),
                                             Aligned(nmemb * size), p, blocks, brk))
    {
      if nmemb == 0 || size == 0 {
        return None;
      }
      ProductOverflow(nmemb, size);
      if nmemb > SIZE_MAX / size {
        return None;
      }
      p := Malloc(nmemb * size);
    }

    // realloc, but for the branch that grows backward (see ReallocInPlaceLive); copying the
    // payload is not modelled.
    method Realloc(ptr: Option<nat>, size: nat, ghost k: nat) returns (p: Option<nat>)
      requires Valid() && size <= SIZE_MAX - 15 && Representable(size)
      requires ptr.Some? ==>
                 head.Some? && Owns(blocks, k, ptr.value) && !blocks[k].free && !GrowsBackward(blocks, k, size)
      modifies this
      ensures Valid()
      // every other allocation stays, and so does this one if realloc fails
      ensures ptr.Some? ==> LiveKept(old(blocks), blocks, if size > 0 && p == None then -1 else k)
      ensures ptr == None ==> LiveKept(old(blocks), blocks, -1)
      ensures p.Some? ==> Holds(blocks, p.value, size)
      ensures ptr.Some? && size == 0 ==> p == None && blocks == Release(old(blocks), k)
      // a block that is large enough stays; one that is with the free block behind it swallows that
      ensures ptr.Some? && 0 < size <= old(blocks)[k].size ==>
                p == Some(old(blocks)[k].addr + 32) && blocks == old(blocks)
      ensures ptr.Some? && old(blocks)[k].size < size && k + 1 < |old(blocks)| && old(blocks)[k + 1].free
              && size <= old(blocks)[k].size + old(blocks)[k + 1].size + 32 ==>
                p == Some(old(blocks)[k].addr + 32) && Swallows(old(blocks), k, blocks)
      // a block that moves leaves nothing behind
      ensures ptr.Some? && p.Some? && p.value != old(blocks)[k].addr + 32 ==> Unused(blocks, old(blocks)[k].addr + 32)
    {
      ghost var bs, base0, brk0 := blocks, base, brk;
      AlignedCovers(size);
      if ptr == None {
        p := Malloc(size);
        if bs != [] { BelowBreak(bs, base0, brk0, |bs| - 1); }
        if head.Some? { MallocLive(bs, base0, brk0, Aligned(size), p, blocks, brk); }
        return;
      }
      if size == 0 {
        Free(ptr, k);
        ReleaseLive(bs, k);
        return None;
      }
      var owner := FindOwner(ptr.value, k);
      var block := if owner.Some? then owner.value else ptr.value - BLOCK_SIZE;
      assert ShownAt(mem, blocks, k);
      if mem[block].size >= size {
        return Some(block + BLOCK_SIZE);
      }
      assert k + 1 < |blocks| ==> ShownAt(mem, blocks, k + 1);
      if mem[block].next.Some? && mem[mem[block].next.value].free
         && mem[block].size + mem[mem[block].next.value].size + BLOCK_SIZE >= size
      {
        Absorb(block, k);
        MergeUsed(bs, k);
        return Some(block + BLOCK_SIZE);
      }
      p := Move(block + BLOCK_SIZE, size, k);
    }

    // The last resort of realloc: allocate elsewhere, copy, and free the old block.
    method Move(start: nat, size: nat, ghost k: nat) returns (p: Option<nat>)
      requires Valid() && head.Some? && size <= SIZE_MAX - 15 && Representable(size)
      requires k < |blocks| && !blocks[k].free && start == blocks[k].addr + BLOCK_SIZE
      modifies this
      ensures Valid() && LiveKept(old(blocks), blocks, if p == None then -1 else k)
      ensures p.Some? ==> Holds(blocks, p.value, size) && Unused(blocks, start)
    {
      ghost var bs, base0, brk0 := blocks, base, brk;
      AlignedCovers(size);
      p := Malloc(size);
      BelowBreakAll(bs, base0, brk0);
      BelowBreak(bs, base0, brk0, |bs| - 1);
      MallocLive(bs, base0, brk0, Aligned(size), p, blocks, brk);
      if p.Some? {
        p := FreeOld(bs, k, start, p.value, size);
      }
    }

    // The end of realloc: the new block is allocated, the old one goes.
    method FreeOld(ghost bs: seq<Block>, ghost k: nat, start: nat, p0: nat, size: nat) returns (p: Option<nat>)
      requires Valid() && head.Some? && k < |bs| && !bs[k].free
      requires start == bs[k].addr + BLOCK_SIZE && LiveKept(bs, blocks, -1)
      requires Unused(bs, p0) && Ordered(bs) && Holds(blocks, p0, size)
      modifies this`mem, this`blocks
      ensures Valid() && p == Some(p0) && LiveKept(bs, blocks, k) && Holds(blocks, p0, size)
      ensures Unused(blocks, start)
    {
      ghost var t := blocks;
      ghost var i :| 0 <= i < |t| && t[i] == bs[k] by { assert bs[k] in t; }
      BelowBreakAll(t, base, brk);
      Free(Some(start), i);
      ReleaseLive(t, i);
      ReleaseGone(t, i);
      NewKept(bs, t, blocks, k, i, p0, size);
      OthersKept(bs, t, blocks, k, i);
      return Some(p0);
    }
  }

  // No allocated block starts where the released one did.
  lemma ReleaseGone(t: seq<Block>, i: nat)
    requires i < |t| && Ordered(t)
    ensures Unused(Release(t, i), t[i].addr + BLOCK_SIZE)
  {
    var s := t[i := t[i].(free := true)];
    forall b | b in s && !b.free ensures b.addr != t[i].addr {
      var m :| 0 <= m < |s| && s[m] == b;
      assert m != i && t[m] == b;
    }
    var u := MergeNext(s, i);
    if u != s { MergeFrees(s, i); }
    if i > 0 && u[i - 1].free { MergeFrees(u, i - 1); }
  }

  // Joining a free block with the next one allocates nothing.
  lemma MergeFrees(bs: seq<Block>, i: nat)
    requires i + 1 < |bs| && bs[i].free
    ensures forall b :: b in Merge(bs, i) && !b.free ==> b in bs
  {}

  // The new block is not the one that is released.
  lemma NewKept(bs: seq<Block>, t: seq<Block>, u: seq<Block>, k: nat, i: nat, p: nat, size: nat)
    requires k < |bs| && !bs[k].free && i < |t| && t[i] == bs[k] && LiveKept(t, u, i)
    requires Unused(bs, p) && Holds(t, p, size)
    ensures Holds(u, p, size)
  {
    var j :| 0 <= j < |t| && !t[j].free && p == t[j].addr + BLOCK_SIZE && t[j].size >= size;
    assert t[j] in u;
    var m :| 0 <= m < |u| && u[m] == t[j];
  }

  lemma BreakAligned(bs: seq<Block>, base: nat, brk: nat)
    requires Tiles(bs, base, brk)
    ensures brk % ALIGNMENT == 0
  {
    AboveBase(bs, base, brk, |bs| - 1);
  }

  lemma LastIsSmall(bs: seq<Block>, base: nat, brk: nat)
    requires Tiles(bs, base, brk) && brk <= BREAK_MAX
    ensures SmallLast(bs)
  {
    BelowBreak(bs, base, brk, |bs| - 1);
  }

  lemma BelowBreakAll(bs: seq<Block>, base: nat, brk: nat)
    requires Tiles(bs, base, brk)
    ensures forall i :: 0 <= i < |bs| ==> bs[i].addr < brk
    ensures Ordered(bs)
  {
    forall i | 0 <= i < |bs| ensures bs[i].addr < brk { BelowBreak(bs, base, brk, i); }
    forall i, j | 0 <= i < j < |bs| ensures bs[i].addr < bs[j].addr { TilesOrdered(bs, base, brk, i, j); }
  }

  // An address inside a block is the address of no block.
  lemma RestIsNew(bs: seq<Block>, base: nat, brk: nat, k: nat, x: nat)
    requires Tiles(bs, base, brk) && k < |bs| && bs[k].addr < x < End(bs[k])
    ensures forall i :: 0 <= i < |bs| ==> bs[i].addr != x
  {
    forall i | 0 <= i < |bs| ensures bs[i].addr != x {
      if i < k { TilesOrdered(bs, base, brk, i, k); }
      if i > k { TilesOrdered(bs, base, brk, k, i); }
    }
  }

  // The first chunk starts at the next multiple of 16.
  lemma AlignUpMeaning(brk: nat)
    ensures AlignUp(brk) % 16 == 0 && brk <= AlignUp(brk) < brk + 16
  {}

  // The headers after allocating a bytes from block k, in terms of those before.
  ghost predicate Carved(bs: seq<Block>, k: nat, a: nat, was: map<nat, Header>, mem: map<nat, Header>)
    requires k < |bs|
  {
    && was.Keys <= mem.Keys && bs[k].addr in was
    && if Splits(bs[k], a) then
         var rest := bs[k].addr + BLOCK_SIZE + a;
         && rest in mem && mem[rest] == Header(Next(bs, k), Some(bs[k].addr), bs[k].size - a - BLOCK_SIZE, true)
         && mem[bs[k].addr] == Header(Some(rest), Prev(bs, k), a, false)
         && (k + 1 < |bs| && bs[k + 1].addr in was ==> mem[bs[k + 1].addr] == was[bs[k + 1].addr].(prev := Some(rest)))
         && (forall i :: 0 <= i < |bs| && i != k && i != k + 1 && bs[i].addr in was ==>
             mem[bs[i].addr] == was[bs[i].addr])
       else
         && mem[bs[k].addr] == was[bs[k].addr].(free := false)
         && (forall i :: 0 <= i < |bs| && i != k && bs[i].addr in was ==> mem[bs[i].addr] == was[bs[i].addr])
  }

  lemma CarveShown(bs: seq<Block>, k: nat, a: nat, was: map<nat, Header>, mem: map<nat, Header>)
    requires Shown(was, bs) && k < |bs| && a <= bs[k].size && Carved(bs, k, a, was, mem)
    ensures Shown(mem, Carve(bs, k, a))
  {
    var t := Carve(bs, k, a);
    var d := if Splits(bs[k], a) then 1 else 0;
    forall i | 0 <= i < |t| ensures ShownAt(mem, t, i) {
      if i < k {
        assert ShownAt(was, bs, i);
      } else if i > k + d {
        assert ShownAt(was, bs, i - d);
      } else {
        assert ShownAt(was, bs, k);
      }
    }
  }

  lemma ExtendShown(bs: seq<Block>, base: nat, brk: nat, n: nat, was: map<nat, Header>, mem: map<nat, Header>)
    requires Shown(was, bs) && Tiles(bs, base, brk) && n >= BLOCK_SIZE
    requires was.Keys <= mem.Keys && bs[|bs| - 1].addr in was
    requires var last := bs[|bs| - 1];
             if last.free then
               mem[last.addr] ==
               was[last.addr].(size := (was[last.addr].size + (n - BLOCK_SIZE) + BLOCK_SIZE) % SIZE_MODULUS,
                               next := None)
             else brk in mem && mem[brk] == Header(None, Some(last.addr), n - BLOCK_SIZE, true)
                  && mem[last.addr] == was[last.addr].(next := Some(brk))
    requires forall i :: 0 <= i < |bs| - 1 && bs[i].addr in was ==> mem[bs[i].addr] == was[bs[i].addr]
    ensures Shown(mem, Extend(bs, brk, n))
  {
    var t := Extend(bs, brk, n);
    forall i | 0 <= i < |t| ensures ShownAt(mem, t, i) {
      assert i < |bs| ==> ShownAt(was, bs, i);
      assert i == |bs| ==> ShownAt(was, bs, |bs| - 1);
    }
  }

  // Without any extension: served if some block fits, refused if none does.
  lemma AllocatedAtOnce(bs: seq<Block>, brk: nat, a: nat)
    requires NewSize(a) < INTPTR_LIMIT && SmallLast(bs)
    ensures var k := FirstFit(bs, a);
            if k < |bs| then Allocated(bs, brk, a, Some(bs[k].addr + BLOCK_SIZE), Carve(bs, k, a), brk)
            else Allocated(bs, brk, a, None, bs, brk)
  {
    assert ExtendTimes(bs, brk, a, 0) == bs && MovedTimes(brk, a, 0) == brk;
    if FirstFit(bs, a) == |bs| { ExtensionsStep(bs, brk, a); } else { CarveMeaning(bs, FirstFit(bs, a), a); }
  }

  // One more extension in front.
  lemma AllocatedAfter(bs: seq<Block>, brk: nat, a: nat, p: Option<nat>, t: seq<Block>, brk': nat)
    requires FirstFit(bs, a) == |bs| && Extensions(Extend(bs, brk, NewSize(a)), a) == Extensions(bs, a) - 1
    requires Allocated(Extend(bs, brk, NewSize(a)), Moved(brk, NewSize(a)), a, p, t, brk')
    ensures Allocated(bs, brk, a, p, t, brk')
  {
    if p == None {
      RefusedAfter(bs, brk, Extend(bs, brk, NewSize(a)), Moved(brk, NewSize(a)), a, t, brk');
    } else {
      OneMoreExtension(bs, brk, a, Extensions(bs, a) - 1);
    }
  }

  lemma RefusedAfter(bs: seq<Block>, brk: nat, u: seq<Block>, m: nat, a: nat, t: seq<Block>, brk': nat)
    requires u == Extend(bs, brk, NewSize(a)) && m == Moved(brk, NewSize(a))
    requires Extensions(u, a) == Extensions(bs, a) - 1 && Allocated(u, m, a, None, t, brk')
    ensures Allocated(bs, brk, a, None, t, brk')
  {
    var j: nat :| j < Extensions(u, a) && t == ExtendTimes(u, m, a, j) && brk' == MovedTimes(m, a, j);
    OneMoreExtension(bs, brk, a, j);
    assert j + 1 < Extensions(bs, a);
  }

  // The block malloc returns has the rounded size, or up to 47 bytes more.
  lemma AllocatedTightly(bs: seq<Block>, brk: nat, a: nat, p: nat, t: seq<Block>, brk': nat)
    requires Allocated(bs, brk, a, Some(p), t, brk')
    ensures exists j :: 0 <= j < |t| && !t[j].free && p == t[j].addr + 32 && a <= t[j].size < a + 48
  {
    var g := ExtendTimes(bs, brk, a, Extensions(bs, a));
    var k := FirstFit(g, a);
    CutIsCarve(g, k, a, t);
    CarveMeaning(g, k, a);
    assert !t[k].free;
  }

  lemma MergeShown(bs: seq<Block>, k: nat, was: map<nat, Header>, mem: map<nat, Header>)
    requires Shown(was, bs) && k + 1 < |bs| && was.Keys <= mem.Keys && bs[k].addr in was && bs[k + 1].addr in was
    requires mem[bs[k].addr] ==
             was[bs[k].addr].(size := bs[k].size + (bs[k + 1].size + BLOCK_SIZE), next := was[bs[k + 1].addr].next)
    requires k + 2 < |bs| && bs[k + 2].addr in was ==>
             mem[bs[k + 2].addr] == was[bs[k + 2].addr].(prev := Some(bs[k].addr))
    requires forall i :: 0 <= i < |bs| && i != k && i != k + 1 && i != k + 2 && bs[i].addr in was ==>
             mem[bs[i].addr] == was[bs[i].addr]
    ensures Shown(mem, Merge(bs, k))
  {
    var t := Merge(bs, k);
    assert ShownAt(was, bs, k) && ShownAt(was, bs, k + 1);
    forall i | 0 <= i < |t| ensures ShownAt(mem, t, i) {
      assert ShownAt(was, bs, if i <= k then i else i + 1);
    }
  }

  lemma MarkShown(bs: seq<Block>, base: nat, brk: nat, k: nat, was: map<nat, Header>)
    requires Shown(was, bs) && Tiles(bs, base, brk) && k < |bs| && bs[k].addr in was
    requires Ordered(bs)
    ensures var t := bs[k := bs[k].(free := true)];
            Shown(was[bs[k].addr := was[bs[k].addr].(free := true)], t) && Tiles(t, base, brk)
                && t[0].addr == bs[0].addr
  {
    var t, m := bs[k := bs[k].(free := true)], was[bs[k].addr := was[bs[k].addr].(free := true)];
    forall i | 0 <= i < |bs| ensures ShownAt(m, t, i) {
      assert ShownAt(was, bs, i);
      assert i != k ==> bs[i].addr != bs[k].addr;
    }
  }

  lemma ProductOverflow(m: nat, n: nat)
    requires 0 < m && 0 < n
    ensures m * n > 0 && (m > SIZE_MAX / n <==> m * n > SIZE_MAX)
  {
    var q, r := SIZE_MAX / n, SIZE_MAX % n;
    assert SIZE_MAX == q * n + r;
    if m <= q { assert m * n <= q * n; } else { assert m * n >= (q + 1) * n == q * n + n; }
  }

  // Block k has the header and the payload of the next block besides its own.
  ghost predicate Swallows(bs: seq<Block>, k: nat, t: seq<Block>)
    requires k + 1 < |bs|
  {
    t == bs[..k] + [Block(bs[k].addr, bs[k].size + bs[k + 1].size + 32, false)] + bs[k + 2..]
  }

  lemma MergeUsed(bs: seq<Block>, k: nat)
    requires k + 1 < |bs| && !bs[k].free && bs[k + 1].free && Coalesced(bs)
    ensures Swallows(bs, k, Merge(bs, k))
    ensures Coalesced(Merge(bs, k)) && LiveKept(bs, Merge(bs, k), k)
    ensures var t := Merge(bs, k);
            t[k].addr == bs[k].addr && !t[k].free && t[k].size == bs[k].size + bs[k + 1].size + BLOCK_SIZE
  {}

  lemma OthersKept(bs: seq<Block>, t: seq<Block>, u: seq<Block>, k: nat, i: nat)
    requires k < |bs| && i < |t| && t[i] == bs[k] && LiveKept(bs, t, -1) && LiveKept(t, u, i) && Ordered(bs)
    ensures LiveKept(bs, u, k)
  {}

  ghost predicate Ordered(bs: seq<Block>) {
    forall i, j :: 0 <= i < j < |bs| ==> bs[i].addr < bs[j].addr
  }

  // p is the payload of an allocated block of t of at least size bytes.
  ghost predicate Holds(t: seq<Block>, p: nat, size: nat) {
    exists j :: 0 <= j < |t| && !t[j].free && p == t[j].addr + BLOCK_SIZE && t[j].size >= size
  }

  // p is the payload of no allocated block of bs.
  ghost predicate Unused(bs: seq<Block>, p: nat) {
    forall i :: 0 <= i < |bs| && !bs[i].free ==> bs[i].addr + BLOCK_SIZE != p
  }

  lemma CarvedUnused(bs: seq<Block>, g: seq<Block>, k: nat)
    requires Ordered(g) && k < |g| && g[k].free && LiveKept(bs, g, -1)
    ensures Unused(bs, g[k].addr + BLOCK_SIZE)
  {}

  lemma CarveHolds(g: seq<Block>, k: nat, a: nat)
    requires k < |g| && g[k].size >= a
    ensures Holds(Carve(g, k, a), g[k].addr + BLOCK_SIZE, a)
  {
    assert !Carve(g, k, a)[k].free;
  }

  // What an allocation means to the other allocations: they all stay where they are, and the
  // new block is none of them, is marked allocated, and is as large as asked.
  lemma MallocLive(bs: seq<Block>, base: nat, brk: nat, a: nat, p: Option<nat>, t: seq<Block>, brk': nat)
    requires bs == [] || (Tiles(bs, base, brk) && Coalesced(bs) && SmallLast(bs))
    requires a % ALIGNMENT == 0 && NewSize(a) < INTPTR_LIMIT
    requires Allocated(Started(bs, brk), StartBreak(bs, brk), a, p, t, brk')
    ensures LiveKept(bs, t, -1)
    ensures p.Some? ==> Holds(t, p.value, a) && Unused(bs, p.value)
  {
    var b0, k0 := Started(bs, brk), StartBreak(bs, brk);
    match p
    case None =>
      var j: nat :| j < Extensions(b0, a) && t == ExtendTimes(b0, k0, a, j);
      ExtendTimesLive(b0, k0, a, j);
    case Some(ptr) =>
      var e := Extensions(b0, a);
      var g := ExtendTimes(b0, k0, a, e);
      var k := FirstFit(g, a);
      ExtendTimesLive(b0, k0, a, e);
      CutIsCarve(g, k, a, t);
      CarveLive(g, k, a);
      LiveTrans(b0, g, t);
      CarveHolds(g, k, a);
      if bs != [] {
        ExtensionsTile(bs, base, brk, a, e);
        BelowBreakAll(g, base, MovedTimes(brk, a, e));
        CarvedUnused(bs, g, k);
      }
  }
}
