// Scatter lists: what bytes of memory they name, in order.
module Scatter {

  // An I/O vector element: where the buffer is mapped, if it is, and how large it is.
  datatype Element = Element(area: Mapping, size: nat)
  datatype Mapping = Unmapped | At(addr: nat)

  datatype Chunk = Chunk(addr: nat, size: nat)

  function Span(addr: nat, n: nat): seq<nat> { seq(n, i => addr + i) }

  function Bytes(cs: seq<Chunk>): (b: seq<nat>)
    ensures |b| == Total(cs)
  {
    if cs == [] then [] else Span(cs[0].addr, cs[0].size) + Bytes(cs[1..])
  }

  function Total(cs: seq<Chunk>): nat { if cs == [] then 0 else cs[0].size + Total(cs[1..]) }

  function Min(a: nat, b: nat): nat { if a < b then a else b }

  // The first n bytes of a list.
  function Clip(cs: seq<Chunk>, n: nat): seq<Chunk> {
    if cs == [] || n == 0 then []
    else [Chunk(cs[0].addr, Min(cs[0].size, n))] + Clip(cs[1..], n - Min(cs[0].size, n))
  }

  lemma {:induction false} TotalAppend(a: seq<Chunk>, b: seq<Chunk>)
    ensures Total(a + b) == Total(a) + Total(b)
  {
    if a == [] {
      assert a + b == b;
    } else {
      assert (a + b)[1..] == a[1..] + b;
      TotalAppend(a[1..], b);
    }
  }

  lemma {:induction false} BytesAppend(a: seq<Chunk>, b: seq<Chunk>)
    ensures Bytes(a + b) == Bytes(a) + Bytes(b)
  {
    if a == [] {
      assert a + b == b;
    } else {
      assert (a + b)[1..] == a[1..] + b;
      BytesAppend(a[1..], b);
    }
  }

  lemma SpanSplit(addr: nat, m: nat, n: nat)
    ensures Span(addr, m + n) == Span(addr, m) + Span(addr + m, n)
  {}

  // Clipping names exactly the first n bytes, in order.
  lemma {:induction false} ClipBytes(cs: seq<Chunk>, n: nat)
    requires n <= Total(cs)
    ensures Bytes(Clip(cs, n)) == Bytes(cs)[..n] && Total(Clip(cs, n)) == n && |Clip(cs, n)| <= |cs|
  {
    if cs != [] && n > 0 {
      var m := Min(cs[0].size, n);
      ClipBytes(cs[1..], n - m);
      SpanSplit(cs[0].addr, m, cs[0].size - m);
      assert Clip(cs, n)[1..] == Clip(cs[1..], n - m);
      assert m < cs[0].size ==> n - m == 0;
    }
  }

  // Position by position, a clipped chunk is the original one, but for the last.
  lemma ClipTotal(cs: seq<Chunk>, n: nat)
    requires n <= Total(cs)
    ensures Total(Clip(cs, n)) == n
  {
    ClipBytes(cs, n);
  }

  lemma TotalAt(cs: seq<Chunk>, i: nat)
    requires i < |cs|
    ensures Total(cs) == Total(cs[..i]) + cs[i].size + Total(cs[i + 1..])
  {
    assert cs == cs[..i] + cs[i..] && cs[i..] == [cs[i]] + cs[i + 1..];
    TotalAppend(cs[..i], cs[i..]);
  }

  lemma {:induction false} ClipAt(cs: seq<Chunk>, n: nat, k: nat)
    requires k < |Clip(cs, n)|
    ensures k < |cs| && Total(Clip(cs, n)[..k]) < n
    ensures Clip(cs, n)[k] == Chunk(cs[k].addr, Min(cs[k].size, n - Total(Clip(cs, n)[..k])))
  {
    var c := Clip(cs, n);
    if k > 0 {
      ClipAt(cs[1..], n - c[0].size, k - 1);
      assert c[1..] == Clip(cs[1..], n - c[0].size);
      assert c[..k][1..] == c[1..][..k - 1];
    }
  }
}
