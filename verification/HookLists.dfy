// The hook lists of kernel/interrupt.c as chains through the hooks' next fields, and the lines they
// show. A hook is named by its number; its id is in a table.
module HookLists {
  import opened Prelude
  import opened Chains
  import opened InterruptLines

  ghost predicate Sized(q: seq<nat>, n: nat) { forall i :: 0 <= i < |q| ==> q[i] < n }

  ghost function HooksOf(q: seq<nat>, ids: seq<nat>): (hooks: seq<Hook>)
    requires Sized(q, |ids|)
    ensures |hooks| == |q| && forall i :: 0 <= i < |q| ==> hooks[i] == Hook(q[i], ids[q[i]])
  {
    seq(|q|, i requires 0 <= i < |q| && Sized(q, |ids|) => Hook(q[i], ids[q[i]]))
  }

  // The lists qs are those of the lines.
  ghost predicate Tabled(qs: seq<seq<nat>>, n: nat) { forall k :: 0 <= k < |qs| ==> Sized(qs[k], n) }

  ghost function LinesOf(qs: seq<seq<nat>>, ids: seq<nat>, active: seq<set<nat>>, masked: seq<bool>): (ls: seq<Line>)
    requires Tabled(qs, |ids|) && |active| == |masked| == |qs|
    ensures |ls| == |qs| && forall k :: 0 <= k < |qs| ==> ls[k] == Line(HooksOf(qs[k], ids), active[k], masked[k])
  {
    seq(|qs|, k requires 0 <= k < |qs| && Tabled(qs, |ids|) && |active| == |masked| == |qs| =>
      Line(HooksOf(qs[k], ids), active[k], masked[k]))
  }

  lemma NoHooks(qs: seq<seq<nat>>, ids: seq<nat>, active: seq<set<nat>>, masked: seq<bool>)
    requires |active| == |masked| == |qs|
    requires forall k :: 0 <= k < |qs| ==> qs[k] == [] && active[k] == {} && masked[k]
    ensures Tabled(qs, |ids|) && Invariant(LinesOf(qs, ids, active, masked))
    ensures forall k :: 0 <= k < |qs| ==> LinesOf(qs, ids, active, masked)[k] == Line([], {}, true)
  {}

  // Another list, set of active hooks or mask for one line changes that line only.
  lemma LinesChange(qs: seq<seq<nat>>, ids: seq<nat>, active: seq<set<nat>>, masked: seq<bool>, irq: nat,
      q: seq<nat>, a: set<nat>, m: bool)
    requires Tabled(qs, |ids|) && |active| == |masked| == |qs| && irq < |qs| && Sized(q, |ids|)
    ensures Tabled(qs[irq := q], |ids|)
    ensures LinesOf(qs[irq := q], ids, active[irq := a], masked[irq := m])
         == LinesOf(qs, ids, active, masked)[irq := Line(HooksOf(q, ids), a, m)]
  {}

  // Every hook on a list says that it is on that line; so it is on no other list.
  ghost predicate Homed(qs: seq<seq<nat>>, irqs: seq<int>) {
    forall k, i :: 0 <= k < |qs| && 0 <= i < |qs[k]| ==> qs[k][i] < |irqs| && irqs[qs[k][i]] == k
  }

  lemma HomedApart(qs: seq<seq<nat>>, irqs: seq<int>, k: nat)
    requires Homed(qs, irqs) && k < |qs|
    ensures Apart(qs, k)
  {}

  lemma ChainsTabled(link: seq<Link>, head: seq<Link>, qs: seq<seq<nat>>)
    requires QueueChains(link, head, qs)
    ensures Tabled(qs, |link|)
  {
    forall k | 0 <= k < |qs| ensures Sized(qs[k], |link|) { assert Chain(link, head[k], qs[k]); }
  }

  lemma HasKeyIff(q: seq<nat>, ids: seq<nat>, key: nat)
    requires Sized(q, |ids|)
    ensures Has(HooksOf(q, ids), key) <==> key in q
  {
    if key in q {
      var i :| 0 <= i < |q| && q[i] == key;
      assert HooksOf(q, ids)[i].key == key;
    }
  }

  // ----- registering -----

  // The list up to the given hook, or all of it.
  ghost function UpTo(q: seq<nat>, key: nat): (r: seq<nat>)
    ensures |r| <= |q| && r == q[..|r|]
    ensures key !in q ==> r == q
    ensures key in q ==> r != [] && r[|r| - 1] == key
    ensures forall i :: 0 <= i < |r| - 1 ==> r[i] != key
  {
    if q == [] then []
    else if q[0] == key then [key]
    else [q[0]] + UpTo(q[1..], key)
  }

  // The lists after the hook was appended to one of them: its next field no longer leads on.
  ghost function PutLists(qs: seq<seq<nat>>, irq: nat, key: nat): (t: seq<seq<nat>>)
    requires irq < |qs|
    ensures |t| == |qs| && t[irq] == qs[irq] + [key]
    ensures forall k :: 0 <= k < |qs| && k != irq ==> t[k] == UpTo(qs[k], key)
  {
    seq(|qs|, k requires 0 <= k < |qs| && irq < |qs| => if k == irq then qs[irq] + [key] else UpTo(qs[k], key))
  }

  lemma PutChains(link: seq<Link>, head: seq<Link>, qs: seq<seq<nat>>, irq: nat, key: nat)
    requires QueueChains(link, head, qs) && irq < |qs| && key < |link| && key !in qs[irq] && Apart(qs, irq)
    ensures Sized(qs[irq], |link|)
    ensures QueueChains(HungLink(link[key := None], qs[irq], key), HungHead(head, qs[irq], irq, key),
                        PutLists(qs, irq, key))
  {
    assert Chain(link, head[irq], qs[irq]);
    var link', t := HungLink(link[key := None], qs[irq], key), PutLists(qs, irq, key);
    Hung(link, head[irq], qs[irq], key);
    forall k | 0 <= k < |qs| && k != irq ensures Chain(link', head[k], t[k]) {
      assert Chain(link, head[k], qs[k]);
      assert forall i :: 0 <= i < |qs[irq]| ==> qs[irq][i] !in qs[k];
      Severed(link, link', head[k], qs[k], key);
    }
  }

  lemma Hung(link: seq<Link>, from: Link, q: seq<nat>, key: nat)
    requires Chain(link, from, q) && key < |link| && key !in q
    ensures Chain(HungLink(link[key := None], q, key), if q == [] then Some(key) else from, q + [key])
  {}

  lemma Severed(link: seq<Link>, link': seq<Link>, from: Link, q: seq<nat>, key: nat)
    requires Chain(link, from, q) && key < |link| == |link'| && link'[key] == None
    requires forall i :: 0 <= i < |q| && q[i] != key ==> link'[q[i]] == link[q[i]]
    ensures Chain(link', from, UpTo(q, key))
  {
    var r := UpTo(q, key);
    forall i | 0 <= i < |r| ensures r[i] < |link'| && link'[r[i]] == At(r, i + 1) {
      assert r[i] == q[i];
      if i + 1 < |r| { assert r[i + 1] == q[i + 1]; }
    }
  }

  // Each hook is still on one line only, if no other line had this one.
  lemma PutHomedIff(qs: seq<seq<nat>>, irqs: seq<int>, irq: nat, key: nat)
    requires Homed(qs, irqs) && irq < |qs| && key < |irqs| && key !in qs[irq]
    ensures Homed(PutLists(qs, irq, key), irqs[key := irq]) <==>
            forall k :: 0 <= k < |qs| && k != irq ==> key !in qs[k]
  {
    var t, irqs' := PutLists(qs, irq, key), irqs[key := irq];
    if k :| 0 <= k < |qs| && k != irq && key in qs[k] {
      assert t[k][|t[k]| - 1] == key;
    } else {
      forall k, i | 0 <= k < |t| && 0 <= i < |t[k]| ensures t[k][i] < |irqs'| && irqs'[t[k][i]] == k {
        if k != irq {
          assert t[k] == qs[k] && qs[k][i] in qs[k];
        } else if i < |qs[irq]| {
          assert t[k][i] == qs[irq][i] && qs[irq][i] in qs[irq];
        }
      }
    }
  }

  lemma {:induction false} UpToSevers(q: seq<nat>, ids: seq<nat>, key: nat, id: nat)
    requires Sized(q, |ids|) && key < |ids|
    ensures Sized(UpTo(q, key), |ids|)
    ensures HooksOf(UpTo(q, key), ids[key := id]) == Sever(HooksOf(q, ids), key, id)
  {
    if q != [] {
      var ids', h := ids[key := id], HooksOf(q, ids);
      assert h[1..] == HooksOf(q[1..], ids);
      if q[0] != key {
        var r := UpTo(q[1..], key);
        UpToSevers(q[1..], ids, key, id);
        assert UpTo(q, key) == [q[0]] + r;
        HooksCons(q[0], r, ids');
      } else {
        assert HooksOf([key], ids') == [Hook(key, id)];
      }
    }
  }

  lemma HooksCons(x: nat, q: seq<nat>, ids: seq<nat>)
    requires x < |ids| && Sized(q, |ids|)
    ensures Sized([x] + q, |ids|) && HooksOf([x] + q, ids) == [Hook(x, ids[x])] + HooksOf(q, ids)
  {}

  lemma PutLines(qs: seq<seq<nat>>, ids: seq<nat>, active: seq<set<nat>>, masked: seq<bool>, irq: nat, key: nat)
    requires Tabled(qs, |ids|) && |active| == |masked| == |qs| && irq < |qs| && key < |ids| && key !in qs[irq]
    requires FreeId(Ids(HooksOf(qs[irq], ids)), 0) < ID_BITS
    ensures Tabled(PutLists(qs, irq, key), |ids|)
    ensures var id := FreeId(Ids(HooksOf(qs[irq], ids)), 0);
            var left := active[irq] - {id};
            var mask := if left == {} then false else masked[irq];
            PutAt(LinesOf(qs, ids, active, masked), irq, key) ==
            Some(LinesOf(PutLists(qs, irq, key), ids[key := id], active[irq := left], masked[irq := mask]))
  {
    var ls, id := LinesOf(qs, ids, active, masked), FreeId(Ids(HooksOf(qs[irq], ids)), 0);
    var left := active[irq] - {id};
    var mask := if left == {} then false else masked[irq];
    var t := PutLists(qs, irq, key);
    forall k | 0 <= k < |qs| ensures Sized(t[k], |ids|) { if k != irq { UpToSevers(qs[k], ids, key, id); } }
    var u := LinesOf(t, ids[key := id], active[irq := left], masked[irq := mask]);
    HasKeyIff(qs[irq], ids, key);
    AddedHook(qs[irq], ids, key, id);
    assert Register(ls[irq], key) == Some(u[irq]);
    forall k | 0 <= k < |qs| && k != irq ensures u[k] == ls[k].(hooks := Sever(ls[k].hooks, key, id)) {
      UpToSevers(qs[k], ids, key, id);
    }
    assert PutAt(ls, irq, key).value == u;
  }

  lemma AddedHook(q: seq<nat>, ids: seq<nat>, key: nat, id: nat)
    requires Sized(q, |ids|) && key < |ids| && key !in q
    ensures HooksOf(q + [key], ids[key := id]) == HooksOf(q, ids) + [Hook(key, id)]
  {
    forall i | 0 <= i < |q| ensures ids[key := id][q[i]] == ids[q[i]] { assert q[i] in q; }
  }

  // ----- removing -----

  lemma SplicedHooks(q: seq<nat>, ids: seq<nat>, i: nat)
    requires Sized(q, |ids|) && i < |q|
    ensures Sized(Splice(q, i), |ids|)
    ensures HooksOf(Splice(q, i), ids) == HooksOf(q, ids)[..i] + HooksOf(q, ids)[i + 1..]
  {}

  lemma SpliceHomed(qs: seq<seq<nat>>, irqs: seq<int>, k: nat, i: nat)
    requires Homed(qs, irqs) && k < |qs| && i < |qs[k]|
    ensures Homed(qs[k := Splice(qs[k], i)], irqs)
  {}

  // The loop stands at position i of what is left of the list, having seen `seen` of its hooks;
  // `was` and `active` are the active ids before the loop and now.
  ghost predicate Unlinking(line: seq<Hook>, hooks: seq<Hook>, i: nat, seen: nat, id: nat,
      was: set<nat>, active: set<nat>) {
    && i <= |line| && seen <= |hooks| && line[i..] == hooks[seen..]
    && line[..i] + Without(hooks[seen..], id) == Without(hooks, id)
    && active == if id in Ids(hooks[..seen]) then was - {id} else was
  }

  lemma UnlinkStart(hooks: seq<Hook>, id: nat, was: set<nat>)
    ensures Unlinking(hooks, hooks, 0, 0, id, was, was)
  {
    assert hooks[..0] == [] && hooks[0..] == hooks;
  }

  lemma UnlinkStep(line: seq<Hook>, hooks: seq<Hook>, i: nat, seen: nat, id: nat, was: set<nat>, active: set<nat>)
    requires i < |line| && Unlinking(line, hooks, i, seen, id, was, active)
    ensures if line[i].id == id
            then Unlinking(line[..i] + line[i + 1..], hooks, i, seen + 1, id, was, active - {id})
            else Unlinking(line, hooks, i + 1, seen + 1, id, was, active)
  {
    assert hooks[..seen + 1] == hooks[..seen] + [hooks[seen]];
    IdsSnoc(hooks[..seen], hooks[seen]);
    assert hooks[seen] == line[i];
  }

  // What the loop comes to.
  ghost predicate Unlinked(hooks: seq<Hook>, line: seq<Hook>, id: nat, was: set<nat>, active: set<nat>) {
    line == Without(hooks, id) && active == if id in Ids(hooks) then was - {id} else was
  }

  lemma UnlinkEnd(line: seq<Hook>, hooks: seq<Hook>, i: nat, seen: nat, id: nat, was: set<nat>, active: set<nat>)
    requires Unlinking(line, hooks, i, seen, id, was, active) && i == |line|
    ensures Unlinked(hooks, line, id, was, active)
  {
    assert line[..i] == line && line[i..] == [] && hooks[seen..] == [] && hooks[..seen] == hooks;
  }
}
