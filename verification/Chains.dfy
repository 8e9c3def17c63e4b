// Singly linked lists threaded through a table: link[x] is the slot after x, None the end.
module Chains {
  import opened Prelude

  type Link = Option<nat>

  function At(q: seq<nat>, i: nat): Link { if i < |q| then Some(q[i]) else None }
  function Last(q: seq<nat>): Link { if q == [] then None else Some(q[|q| - 1]) }

  // Following `link` from `from` visits exactly q.
  ghost predicate Chain(link: seq<Link>, from: Link, q: seq<nat>) {
    && from == At(q, 0) && NoDup(q)
    && (forall i :: 0 <= i < |q| ==> q[i] < |link|)
    && (forall i {:trigger link[q[i]]} :: 0 <= i < |q| ==> link[q[i]] == At(q, i + 1))
  }

  // Cutting out position k by redirecting the cell that points at it.
  lemma ChainCut(link: seq<Link>, from: Link, q: seq<nat>, k: nat)
    requires Chain(link, from, q) && k < |q|
    ensures var link' := if k == 0 then link else link[q[k - 1] := link[q[k]]];
            Chain(link', if k == 0 then link[q[k]] else from, Splice(q, k))
  {}

  lemma RemoveIsSplice(q: seq<nat>, p: nat, k: nat)
    requires NoDup(q) && k < |q| && q[k] == p
    ensures Remove(q, p) == Splice(q, k)
  {
    RemoveAt(q, p, k);
  }

  // ----- one of many chains -----

  ghost predicate QueueChains(link: seq<Link>, head: seq<Link>, qs: seq<seq<nat>>) {
    |head| == |qs| && forall q :: 0 <= q < |qs| ==> Chain(link, head[q], qs[q])
  }

  // The cell that points at position k of q now points past it.
  function CutLink(link: seq<Link>, q: seq<nat>, k: nat): seq<Link>
    requires k < |q| && forall i :: 0 <= i < |q| ==> q[i] < |link|
  {
    if k == 0 then link else link[q[k - 1] := link[q[k]]]
  }

  function CutFrom(link: seq<Link>, from: Link, q: seq<nat>, k: nat): Link
    requires k < |q| && q[k] < |link|
  {
    if k == 0 then link[q[k]] else from
  }

  // Queue q shares no slot with another one.
  ghost predicate Apart(qs: seq<seq<nat>>, q: nat)
    requires q < |qs|
  {
    forall r, i, j :: 0 <= r < |qs| && r != q && 0 <= i < |qs[q]| && 0 <= j < |qs[r]| ==> qs[q][i] != qs[r][j]
  }

  ghost predicate Absent(qs: seq<seq<nat>>, x: nat) { forall r :: 0 <= r < |qs| ==> x !in qs[r] }

  lemma SpliceChains(link: seq<Link>, head: seq<Link>, qs: seq<seq<nat>>, q: nat, k: nat)
    requires QueueChains(link, head, qs) && q < |qs| && k < |qs[q]| && Apart(qs, q)
    ensures QueueChains(CutLink(link, qs[q], k), head[q := CutFrom(link, head[q], qs[q], k)], qs[q := Splice(qs[q], k)])
  {
    ChainCut(link, head[q], qs[q], k);
    forall r | 0 <= r < |qs| && r != q ensures Chain(CutLink(link, qs[q], k), head[r], qs[r]) {
      assert Chain(link, head[r], qs[r]);
    }
  }

  lemma AppendChains(link: seq<Link>, head: seq<Link>, qs: seq<seq<nat>>, q: nat, x: nat)
    requires QueueChains(link, head, qs) && q < |qs| && x < |link| && Absent(qs, x) && Apart(qs, q)
    ensures var link' := if qs[q] == [] then link[x := None] else link[qs[q][|qs[q]| - 1] := Some(x)][x := None];
            QueueChains(link', if qs[q] == [] then head[q := Some(x)] else head, qs[q := qs[q] + [x]])
  {}

  lemma PushChains(link: seq<Link>, head: seq<Link>, qs: seq<seq<nat>>, q: nat, x: nat)
    requires QueueChains(link, head, qs) && q < |qs| && x < |link| && Absent(qs, x)
    ensures QueueChains(link[x := head[q]], head[q := Some(x)], qs[q := [x] + qs[q]])
  {}

  // The cell at the end of q, or the d-th head if q is empty, now points at c.
  function HungLink(link: seq<Link>, q: seq<nat>, c: nat): seq<Link>
    requires forall i :: 0 <= i < |q| ==> q[i] < |link|
  {
    if q == [] then link else link[q[|q| - 1] := Some(c)]
  }

  function HungHead(head: seq<Link>, q: seq<nat>, d: nat, c: nat): seq<Link>
    requires d < |head|
  {
    if q == [] then head[d := Some(c)] else head
  }

  // The new last slot has no link yet.
  lemma EndedAlready(link: seq<Link>, q: seq<nat>, c: nat)
    requires c < |link| && link[c] == None && c !in q && forall i :: 0 <= i < |q| ==> q[i] < |link|
    ensures HungLink(link, q, c) == if q == [] then link[c := None] else link[q[|q| - 1] := Some(c)][c := None]
  {
    assert q != [] ==> q[|q| - 1] in q;
  }

  lemma HangChains(link: seq<Link>, head: seq<Link>, qs: seq<seq<nat>>, d: nat, c: nat)
    requires QueueChains(link, head, qs) && d < |qs| && c < |link| && link[c] == None
    requires Absent(qs, c) && Apart(qs, d)
    ensures (forall i :: 0 <= i < |qs[d]| ==> qs[d][i] < |link|)
    ensures QueueChains(HungLink(link, qs[d], c), HungHead(head, qs[d], d, c), qs[d := qs[d] + [c]])
  {
    assert Chain(link, head[d], qs[d]);
    EndedAlready(link, qs[d], c);
    AppendChains(link, head, qs, d, c);
  }
}
