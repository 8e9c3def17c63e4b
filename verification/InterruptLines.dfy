// Shared interrupt lines (kernel/interrupt.c): one line as a value, and what its operations keep.
// A bit mask is the set of its bit numbers, and a hook's id the number of its one bit.
module InterruptLines {
  import opened Prelude

  const ID_BITS: nat := 32

  // A registered hook: which one, and its id bit.
  datatype Hook = Hook(key: nat, id: nat)

  // The hooks of a line in order, its active ids, and whether the hardware line is masked.
  datatype Line = Line(hooks: seq<Hook>, active: set<nat>, masked: bool)

  function Ids(hooks: seq<Hook>): set<nat> { set i | 0 <= i < |hooks| :: hooks[i].id }

  predicate Has(hooks: seq<Hook>, key: nat) { exists i :: 0 <= i < |hooks| && hooks[i].key == key }

  // Distinct ids within the width of the mask, and every hook once.
  ghost predicate Distinct(hooks: seq<Hook>) {
    && (forall i :: 0 <= i < |hooks| ==> hooks[i].id < ID_BITS)
    && (forall i, j :: 0 <= i < j < |hooks| ==> hooks[i].id != hooks[j].id && hooks[i].key != hooks[j].key)
  }

  // Only ids of registered hooks are active, and the line is unmasked exactly when it has a hook
  // and no active id.
  ghost predicate LineInv(l: Line) {
    Distinct(l.hooks) && l.active <= Ids(l.hooks) && (!l.masked <==> l.hooks != [] && l.active == {})
  }

  // ----- operations -----

  // The lowest id not in use; ID_BITS if all are.
  function FreeId(used: set<nat>, id: nat): (r: nat)
    requires id <= ID_BITS
    ensures id <= r <= ID_BITS && (r < ID_BITS ==> r !in used) && forall k :: id <= k < r ==> k in used
    decreases ID_BITS - id
  {
    if id == ID_BITS || id !in used then id else FreeId(used, id + 1)
  }

  // put_irq_handler; None is the panic for a line that has no id left.
  function Register(l: Line, key: nat): Option<Line> {
    if Has(l.hooks, key) then Some(l)
    else
      var id := FreeId(Ids(l.hooks), 0);
      if id == ID_BITS then None
      else
        var active := l.active - {id};
        Some(Line(l.hooks + [Hook(key, id)], active, if active == {} then false else l.masked))
  }

  // The hooks up to the given one, which gets a new id: what is left of a list when one of its hooks
  // is registered again and thereby becomes the last one.
  function Sever(hooks: seq<Hook>, key: nat, id: nat): seq<Hook> {
    if hooks == [] then []
    else if hooks[0].key == key then [Hook(key, id)]
    else [hooks[0]] + Sever(hooks[1..], key, id)
  }

  // put_irq_handler on all lines: it does not look whether the hook is on another one.
  function PutAt(ls: seq<Line>, irq: nat, key: nat): Option<seq<Line>>
    requires irq < |ls|
  {
    if Has(ls[irq].hooks, key) then Some(ls)
    else
      match Register(ls[irq], key)
      case None => None
      case Some(l) =>
        var id := FreeId(Ids(ls[irq].hooks), 0);
        Some(seq(|ls|, k requires 0 <= k < |ls| =>
          if k == irq then l else ls[k].(hooks := Sever(ls[k].hooks, key, id))))
  }

  function Without(hooks: seq<Hook>, id: nat): seq<Hook> {
    if hooks == [] then []
    else if hooks[0].id == id then Without(hooks[1..], id)
    else [hooks[0]] + Without(hooks[1..], id)
  }

  // rm_irq_handler
  function Unregister(l: Line, id: nat): Line {
    var hooks := Without(l.hooks, id);
    var active := if id in Ids(l.hooks) then l.active - {id} else l.active;
    Line(hooks, active, if hooks == [] then true else if active == {} then false else l.masked)
  }

  // The ids of the hooks whose handler did not return true.
  function Pending(hooks: seq<Hook>, done: seq<bool>): set<nat>
    requires |done| == |hooks|
  {
    set i | 0 <= i < |hooks| && !done[i] :: hooks[i].id
  }

  // The active ids after the first n handlers have been called one by one.
  function Called(active: set<nat>, hooks: seq<Hook>, done: seq<bool>, n: nat): set<nat>
    requires n <= |hooks| == |done|
  {
    if n == 0 then active
    else
      var before := Called(active, hooks, done, n - 1) + {hooks[n - 1].id};
      if done[n - 1] then before - {hooks[n - 1].id} else before
  }

  // irq_handle; done says which handlers return true.
  function HandleIrq(l: Line, done: seq<bool>): Line
    requires |done| == |l.hooks|
  {
    if l.hooks == [] then l.(masked := true)
    else
      var active := Called(l.active, l.hooks, done, |l.hooks|);
      l.(active := active, masked := active != {})
  }

  // enable_irq
  function Enable(l: Line, id: nat): Line {
    var active := l.active - {id};
    Line(l.hooks, active, if active == {} then false else l.masked)
  }

  // disable_irq
  function Disable(l: Line, id: nat): (Line, bool) {
    if id in l.active then (l, false) else (Line(l.hooks, l.active + {id}, true), true)
  }

  // ----- what the operations keep -----

  // The number of hooks with ids below n, and the ids themselves, agree.
  lemma {:induction false} IdsCount(hooks: seq<Hook>)
    requires Distinct(hooks)
    ensures |Ids(hooks)| == |hooks|
  {
    if hooks != [] {
      var rest := hooks[..|hooks| - 1];
      IdsCount(rest);
      assert Ids(hooks) == Ids(rest) + {hooks[|hooks| - 1].id};
    }
  }

  function Below(n: nat): (r: set<nat>)
    ensures |r| == n && forall k :: k in r <==> 0 <= k < n
  {
    if n == 0 then {} else Below(n - 1) + {n - 1}
  }

  lemma IdsSnoc(hooks: seq<Hook>, h: Hook)
    ensures Ids(hooks + [h]) == Ids(hooks) + {h.id}
  {
    var t := hooks + [h];
    forall k | k in Ids(hooks) + {h.id} ensures k in Ids(t) {
      if k == h.id {
        assert t[|hooks|].id == k;
      } else {
        var i :| 0 <= i < |hooks| && hooks[i].id == k;
        assert t[i].id == k;
      }
    }
  }

  // Registering a new hook panics exactly when the line has 32 hooks; else the hook gets an id of
  // its own, and the lowest one at that.
  lemma RegisterKeeps(l: Line, key: nat)
    requires LineInv(l)
    ensures Register(l, key) == None <==> !Has(l.hooks, key) && |l.hooks| == ID_BITS
    ensures Register(l, key).Some? ==> LineInv(Register(l, key).value) && Has(Register(l, key).value.hooks, key)
    ensures Register(l, key).Some? && !Has(l.hooks, key) ==>
              var m := Register(l, key).value;
              && m.hooks == l.hooks + [Hook(key, m.hooks[|l.hooks|].id)] && m.hooks[|l.hooks|].id !in Ids(l.hooks)
              && (forall k :: 0 <= k < ID_BITS && k !in Ids(l.hooks) ==> m.hooks[|l.hooks|].id <= k)
              && m.active == l.active && (m.masked <==> l.active != {})
    ensures Has(l.hooks, key) ==> Register(l, key) == Some(l)
  {
    var id := FreeId(Ids(l.hooks), 0);
    FullIff(l.hooks);
    if !Has(l.hooks, key) && id != ID_BITS {
      var m := Register(l, key).value;
      assert m.hooks[|l.hooks|] == Hook(key, id);
      forall i | 0 <= i < |l.hooks| ensures l.hooks[i].id in Ids(l.hooks) && l.hooks[i].key != key {}
      IdsSnoc(l.hooks, Hook(key, id));
      assert m.active == l.active;
    }
  }

  lemma FullIff(hooks: seq<Hook>)
    requires Distinct(hooks)
    ensures FreeId(Ids(hooks), 0) == ID_BITS <==> |hooks| == ID_BITS
  {
    var all := Below(ID_BITS);
    IdsCount(hooks);
    assert Ids(hooks) <= all;
    if |hooks| == ID_BITS { SubsetFull(Ids(hooks), all); }
    if FreeId(Ids(hooks), 0) == ID_BITS { assert Ids(hooks) == all; }
  }

  lemma SubsetFull(a: set<nat>, b: set<nat>)
    requires a <= b && |a| == |b|
    ensures a == b
  {
    assert b == a + (b - a);
    assert |b - a| == 0;
  }

  lemma {:induction false} WithoutIn(hooks: seq<Hook>, id: nat, h: Hook)
    ensures h in Without(hooks, id) <==> h in hooks && h.id != id
  {
    if hooks != [] { WithoutIn(hooks[1..], id, h); }
  }

  lemma {:induction false} WithoutKeeps(hooks: seq<Hook>, id: nat)
    requires Distinct(hooks)
    ensures Distinct(Without(hooks, id))
  {
    if hooks != [] {
      WithoutKeeps(hooks[1..], id);
      var t := Without(hooks[1..], id);
      forall i | 0 <= i < |t| ensures t[i].id != hooks[0].id && t[i].key != hooks[0].key {
        WithoutIn(hooks[1..], id, t[i]);
      }
    }
  }

  // Removing an id keeps the invariant, also one that is not registered, and removes no other hook.
  // The id is no longer active, and every other one is exactly if it was.
  lemma UnregisterKeeps(l: Line, id: nat)
    requires LineInv(l)
    ensures LineInv(Unregister(l, id))
    ensures forall h :: h in Unregister(l, id).hooks <==> h in l.hooks && h.id != id
    ensures forall k :: k in Unregister(l, id).active <==> k in l.active && k != id
  {
    WithoutKeeps(l.hooks, id);
    var m := Unregister(l, id);
    forall h ensures h in m.hooks <==> h in l.hooks && h.id != id { WithoutIn(l.hooks, id, h); }
    forall k | k in m.active ensures k in Ids(m.hooks) {
      var i :| 0 <= i < |l.hooks| && l.hooks[i].id == k;
      assert l.hooks[i] in m.hooks;
    }
    if id !in Ids(l.hooks) && l.hooks != [] { assert l.hooks[0].id in Ids(l.hooks) && l.hooks[0] in m.hooks; }
  }

  lemma PendingSnoc(hooks: seq<Hook>, done: seq<bool>, n: nat)
    requires n < |hooks| == |done|
    ensures Pending(hooks[..n + 1], done[..n + 1])
         == Pending(hooks[..n], done[..n]) + if done[n] then {} else {hooks[n].id}
  {}

  lemma {:induction false} CalledPending(active: set<nat>, hooks: seq<Hook>, done: seq<bool>, n: nat)
    requires Distinct(hooks) && n <= |hooks| == |done|
    ensures Called(active, hooks, done, n) == (active - Ids(hooks[..n])) + Pending(hooks[..n], done[..n])
  {
    if n > 0 {
      CalledPending(active, hooks, done, n - 1);
      assert hooks[..n] == hooks[..n - 1] + [hooks[n - 1]];
      IdsSnoc(hooks[..n - 1], hooks[n - 1]);
      PendingSnoc(hooks, done, n - 1);
      NotPending(hooks, done, n - 1);
    }
  }

  lemma NotPending(hooks: seq<Hook>, done: seq<bool>, n: nat)
    requires Distinct(hooks) && n < |hooks| == |done|
    ensures hooks[n].id !in Pending(hooks[..n], done[..n])
  {}

  // After an interrupt exactly those hooks are active whose handler did not return true, whatever
  // was active before; so the line is open again exactly when all handlers returned true.
  lemma HandleKeeps(l: Line, done: seq<bool>)
    requires LineInv(l) && |done| == |l.hooks|
    ensures LineInv(HandleIrq(l, done)) && HandleIrq(l, done).active == Pending(l.hooks, done)
    ensures !HandleIrq(l, done).masked <==> l.hooks != [] && forall i :: 0 <= i < |done| ==> done[i]
  {
    CalledPending(l.active, l.hooks, done, |l.hooks|);
    assert l.hooks[..|l.hooks|] == l.hooks && done[..|done|] == done;
    forall i | 0 <= i < |done| && !done[i] ensures l.hooks[i].id in Pending(l.hooks, done) {}
  }

  // Enabling keeps the invariant exactly on a line that has a hook ...
  lemma EnableKeeps(l: Line, id: nat)
    requires LineInv(l)
    ensures LineInv(Enable(l, id)) <==> l.hooks != []
    ensures forall k :: k in Enable(l, id).active <==> k in l.active && k != id
    ensures Enable(l, id).hooks == l.hooks
    ensures l.hooks != [] ==> (Enable(l, id).masked <==> exists k :: k in l.active && k != id)
  {
    if Enable(l, id).active != {} {
      var k :| k in Enable(l, id).active;
      assert k in l.active && k != id;
    }
  }

  // ... and disabling exactly for an id that is registered there.
  lemma DisableKeeps(l: Line, id: nat)
    requires LineInv(l)
    ensures LineInv(Disable(l, id).0) <==> id in Ids(l.hooks)
    ensures Disable(l, id).1 <==> id !in l.active
    ensures forall k :: k in Disable(l, id).0.active <==> k in l.active || k == id
    ensures Disable(l, id).0.hooks == l.hooks && Disable(l, id).0.masked
  {}

  // ----- any sequence of operations -----

  datatype Op =
    | Put(irq: nat, key: nat)
    | Remove(irq: nat, id: nat)
    | Interrupt(irq: nat, done: seq<bool>)
    | EnableIrq(irq: nat, id: nat)
    | DisableIrq(irq: nat, id: nat)

  // Callers keep to the hooks they registered; a hook is on at most one line.
  ghost predicate Legal(ls: seq<Line>, op: Op) {
    && op.irq < |ls|
    && match op
       case Put(irq, key) =>
         (forall k :: 0 <= k < |ls| && k != irq ==> !Has(ls[k].hooks, key)) && Register(ls[irq], key).Some?
       case Remove(_, _) => true
       case Interrupt(irq, done) => |done| == |ls[irq].hooks|
       case EnableIrq(irq, id) => id in Ids(ls[irq].hooks)
       case DisableIrq(irq, id) => id in Ids(ls[irq].hooks)
  }

  ghost function Do(ls: seq<Line>, op: Op): seq<Line>
    requires Legal(ls, op)
  {
    var l := ls[op.irq];
    ls[op.irq := match op
                 case Put(_, key) => Register(l, key).value
                 case Remove(_, id) => Unregister(l, id)
                 case Interrupt(_, done) => HandleIrq(l, done)
                 case EnableIrq(_, id) => Enable(l, id)
                 case DisableIrq(_, id) => Disable(l, id).0]
  }

  ghost predicate Invariant(ls: seq<Line>) {
    && (forall k :: 0 <= k < |ls| ==> LineInv(ls[k]))
    && (forall j, k, h, g :: 0 <= j < k < |ls| && h in ls[j].hooks && g in ls[k].hooks ==> h.key != g.key)
  }

  ghost predicate Runs(ls: seq<Line>, ops: seq<Op>)
    decreases |ops|
  {
    ops != [] ==> Legal(ls, ops[0]) && Runs(Do(ls, ops[0]), ops[1..])
  }

  ghost function After(ls: seq<Line>, ops: seq<Op>): seq<Line>
    requires Runs(ls, ops)
    decreases |ops|
  {
    if ops == [] then ls else After(Do(ls, ops[0]), ops[1..])
  }

  lemma OpKeepsLine(ls: seq<Line>, op: Op)
    requires Invariant(ls) && Legal(ls, op)
    ensures LineInv(Do(ls, op)[op.irq])
    ensures forall h :: h in Do(ls, op)[op.irq].hooks ==> h in ls[op.irq].hooks || (op.Put? && h.key == op.key)
  {
    var l := ls[op.irq];
    match op
    case Put(_, key) => RegisterKeeps(l, key);
    case Remove(_, id) => UnregisterKeeps(l, id);
    case Interrupt(_, done) => HandleKeeps(l, done);
    case EnableIrq(_, id) => EnableKeeps(l, id);
    case DisableIrq(_, id) => DisableKeeps(l, id);
  }

  lemma OpKeeps(ls: seq<Line>, op: Op)
    requires Invariant(ls) && Legal(ls, op)
    ensures Invariant(Do(ls, op))
  {
    var t := Do(ls, op);
    OpKeepsLine(ls, op);
    forall j, k, h, g | 0 <= j < k < |t| && h in t[j].hooks && g in t[k].hooks ensures h.key != g.key {
      if op.Put? && j == op.irq && h !in ls[j].hooks { assert !Has(ls[k].hooks, op.key); HasKey(ls[k].hooks, g); }
      if op.Put? && k == op.irq && g !in ls[k].hooks { assert !Has(ls[j].hooks, op.key); HasKey(ls[j].hooks, h); }
    }
  }

  lemma HasKey(hooks: seq<Hook>, h: Hook)
    requires h in hooks
    ensures Has(hooks, h.key)
  {}

  lemma {:induction false} SeverNot(hooks: seq<Hook>, key: nat, id: nat)
    requires !Has(hooks, key)
    ensures Sever(hooks, key, id) == hooks
  {
    if hooks != [] {
      assert hooks[0].key != key;
      forall i | 0 <= i < |hooks| - 1 ensures hooks[1..][i].key != key { assert hooks[i + 1].key != key; }
      SeverNot(hooks[1..], key, id);
    }
  }

  lemma {:induction false} SeverEnds(hooks: seq<Hook>, key: nat, id: nat)
    requires Has(hooks, key)
    ensures Hook(key, id) in Sever(hooks, key, id)
  {
    if hooks[0].key != key {
      var i :| 0 <= i < |hooks| && hooks[i].key == key;
      assert hooks[1..][i - 1].key == key;
      SeverEnds(hooks[1..], key, id);
    }
  }

  // The hook is registered on no other line.
  ghost predicate OnlyOn(ls: seq<Line>, key: nat, irq: nat) {
    forall k :: 0 <= k < |ls| && k != irq ==> !Has(ls[k].hooks, key)
  }

  // Registering a hook keeps the invariant exactly when no other line has it; else that line loses
  // all hooks behind it, and shares it.
  lemma PutKeepsIff(ls: seq<Line>, irq: nat, key: nat)
    requires Invariant(ls) && irq < |ls| && PutAt(ls, irq, key).Some?
    ensures Invariant(PutAt(ls, irq, key).value) <==> OnlyOn(ls, key, irq)
    ensures OnlyOn(ls, key, irq) ==> PutAt(ls, irq, key) == Some(Do(ls, Put(irq, key)))
  {
    if OnlyOn(ls, key, irq) {
      PutAlone(ls, irq, key);
      OpKeeps(ls, Put(irq, key));
    } else {
      var k :| 0 <= k < |ls| && k != irq && Has(ls[k].hooks, key);
      PutShared(ls, irq, key, k);
    }
  }

  lemma PutAlone(ls: seq<Line>, irq: nat, key: nat)
    requires irq < |ls| && PutAt(ls, irq, key).Some? && OnlyOn(ls, key, irq)
    ensures Legal(ls, Put(irq, key)) && PutAt(ls, irq, key) == Some(Do(ls, Put(irq, key)))
  {
    if !Has(ls[irq].hooks, key) {
      var id := FreeId(Ids(ls[irq].hooks), 0);
      forall k | 0 <= k < |ls| && k != irq ensures Sever(ls[k].hooks, key, id) == ls[k].hooks {
        SeverNot(ls[k].hooks, key, id);
      }
      assert PutAt(ls, irq, key).value == Do(ls, Put(irq, key));
    } else {
      assert ls[irq := ls[irq]] == ls;
    }
  }

  lemma PutShared(ls: seq<Line>, irq: nat, key: nat, k: nat)
    requires Invariant(ls) && irq < |ls| && PutAt(ls, irq, key).Some? && k < |ls| && k != irq && Has(ls[k].hooks, key)
    ensures !Invariant(PutAt(ls, irq, key).value)
  {
    var id, t := FreeId(Ids(ls[irq].hooks), 0), PutAt(ls, irq, key).value;
    NotOnTwo(ls, irq, k, key);
    SeverEnds(ls[k].hooks, key, id);
    assert Hook(key, id) in t[k].hooks;
    assert t[irq].hooks[|ls[irq].hooks|] == Hook(key, id);
    assert Hook(key, id) in t[irq].hooks;
  }

  lemma NotOnTwo(ls: seq<Line>, j: nat, k: nat, key: nat)
    requires Invariant(ls) && j < |ls| && k < |ls| && j != k && Has(ls[k].hooks, key)
    ensures !Has(ls[j].hooks, key)
  {
    var i :| 0 <= i < |ls[k].hooks| && ls[k].hooks[i].key == key;
    assert ls[k].hooks[i] in ls[k].hooks;
    forall m | 0 <= m < |ls[j].hooks| ensures ls[j].hooks[m].key != key { assert ls[j].hooks[m] in ls[j].hooks; }
  }

  // Over any sequence of calls and interrupts from the unused lines.
  lemma {:induction false} RunKeeps(ls: seq<Line>, ops: seq<Op>)
    requires Invariant(ls) && Runs(ls, ops)
    ensures Invariant(After(ls, ops))
    decreases |ops|
  {
    if ops != [] {
      OpKeeps(ls, ops[0]);
      RunKeeps(Do(ls, ops[0]), ops[1..]);
    }
  }
}
