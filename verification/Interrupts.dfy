// The interrupt hooks of kernel/interrupt.c, updated in place: the lists run through the hooks, of
// which there are some number. InterruptLines.RunKeeps is about any sequence of these operations
// by callers that keep to the hooks they registered.
module Interrupts {
  import opened Prelude
  import opened Chains
  import opened HookLists
  import opened InterruptLines

  datatype Result = Done | Panic

  class Controller {
    const heads: array<Link>             // irq_handlers: the first hook of each line
    const next: array<Link>              // hook->next
    const hookIrq: array<int>            // hook->irq
    const hookId: array<nat>             // hook->id
    const actids: array<set<nat>>        // irq_actids
    const masked: array<bool>            // the hardware's mask
    ghost var lists: seq<seq<nat>>       // the hooks of each line, in order

    // The lists run through the hooks.
    ghost predicate Linked()
      reads this, heads, next, hookIrq, hookId, actids, masked
    {
      && heads != next && |lists| == heads.Length == actids.Length == masked.Length
      && next.Length == hookIrq.Length == hookId.Length
      && QueueChains(next[..], heads[..], lists) && Tabled(lists, next.Length)
    }

    // Besides, every hook is on one list only, that of its line.
    ghost predicate Valid()
      reads this, heads, next, hookIrq, hookId, actids, masked
    {
      Linked() && Homed(lists, hookIrq[..])
    }

    ghost function Lines(): (ls: seq<Line>)
      requires Linked()
      reads this, heads, next, hookIrq, hookId, actids, masked
      ensures |ls| == heads.Length
    {
      LinesOf(lists, hookId[..], actids[..], masked[..])
    }

    constructor (vectors: nat, count: nat)
      ensures Valid() && heads.Length == vectors && next.Length == count
      ensures Lines() == seq(vectors, _ => Line([], {}, true)) && Invariant(Lines())
    {
      heads := new Link[vectors](_ => None);
      next := new Link[count](_ => None);
      hookIrq := new int[count];
      hookId := new nat[count];
      actids := new set<nat>[vectors](_ => {});
      masked := new bool[vectors](_ => true);
      lists := seq(vectors, _ => []);
      new;
      NoHooks(lists, hookId[..], actids[..], masked[..]);
      assert Lines() == seq(vectors, _ => Line([], {}, true));
    }

    // The hook may be on another line: whether the lists stay apart depends on that alone.
    method PutIrqHandler(key: nat, irq: int) returns (r: Result)
      requires Valid() && key < next.Length
      modifies this`lists, heads, next, hookIrq, hookId, actids, masked
      ensures Linked()
      ensures r == Done <==> 0 <= irq < heads.Length && PutAt(old(Lines()), irq, key).Some?
      ensures if r == Done then Some(Lines()) == PutAt(old(Lines()), irq, key)
              else Valid() && Lines() == old(Lines())
      ensures r == Done ==> (Valid() <==> OnlyOn(old(Lines()), key, irq))
    {
      if irq < 0 || irq >= heads.Length {
        return Panic;
      }
      HasKeyIff(lists[irq], hookId[..], key);
      var found, prev, bitmap := Scan(irq, key);
      if found {
        OnItsLine(irq, key);
        return Done;
      }
      var id := LowestFree(bitmap);
      if id == ID_BITS {
        return Panic;
      }
      OnOthers(irq, key);
      Attach(irq, key, id, prev);
      return Done;
    }

    // A hook that is on its line is on no other.
    lemma OnItsLine(irq: nat, key: nat)
      requires Valid() && irq < heads.Length && key in lists[irq]
      ensures OnlyOn(Lines(), key, irq)
    {
      HomedApart(lists, hookIrq[..], irq);
      OnOthers(irq, key);
    }

    lemma OnOthers(irq: nat, key: nat)
      requires Linked() && irq < heads.Length
      ensures OnlyOn(Lines(), key, irq) <==> forall k :: 0 <= k < |lists| && k != irq ==> key !in lists[k]
    {
      forall k | 0 <= k < |lists| ensures Has(Lines()[k].hooks, key) <==> key in lists[k] {
        HasKeyIff(lists[k], hookId[..], key);
      }
    }

    // Is the hook on the list already? If not, the last hook of the list, and the ids in use.
    method Scan(irq: nat, key: nat) returns (found: bool, prev: Link, bitmap: set<nat>)
      requires Linked() && irq < heads.Length
      ensures found == (key in lists[irq])
      ensures !found ==> prev == Last(lists[irq]) && bitmap == Ids(Lines()[irq].hooks)
    {
      ghost var q, hooks, i := lists[irq], Lines()[irq].hooks, 0;
      assert Chain(next[..], heads[irq], q);
      found, prev, bitmap := false, None, {};
      var cur := heads[irq];
      while cur != None
        invariant i <= |q| && cur == At(q, i) && prev == if i == 0 then None else Some(q[i - 1])
        invariant bitmap == Ids(hooks[..i]) && key !in q[..i]
        decreases |q| - i
      {
        if cur.value == key {
          found := true;
          return;
        }
        IdsSnoc(hooks[..i], hooks[i]);
        assert hooks[..i + 1] == hooks[..i] + [hooks[i]];
        bitmap := bitmap + {hookId[cur.value]};
        prev := cur;
        assert next[..][q[i]] == At(q, i + 1);
        cur := next[cur.value];
        i := i + 1;
      }
      assert hooks[..i] == hooks && q[..i] == q;
    }

    static method LowestFree(bitmap: set<nat>) returns (id: nat)
      ensures id == FreeId(bitmap, 0)
    {
      id := 0;
      while id < ID_BITS && id in bitmap
        invariant id <= ID_BITS && FreeId(bitmap, id) == FreeId(bitmap, 0)
      {
        id := id + 1;
      }
    }

    // Hang the hook at the end of the list, whose last hook is prev, and open the line.
    method Attach(irq: nat, key: nat, id: nat, prev: Link)
      requires Valid() && irq < heads.Length && key < next.Length && key !in lists[irq] && prev == Last(lists[irq])
      requires id == FreeId(Ids(Lines()[irq].hooks), 0) < ID_BITS
      modifies this`lists, heads, next, hookIrq, hookId, actids, masked
      ensures Linked() && Some(Lines()) == PutAt(old(Lines()), irq, key)
      ensures Valid() <==> forall k :: 0 <= k < |old(lists)| && k != irq ==> key !in old(lists)[k]
    {
      ghost var qs, link, head, irqs := lists, next[..], heads[..], hookIrq[..];
      ghost var ids, active, mask := hookId[..], actids[..], masked[..];
      HomedApart(qs, irqs, irq);
      PutChains(link, head, qs, irq, key);
      PutHomedIff(qs, irqs, irq, key);
      PutLines(qs, ids, active, mask, irq, key);
      Hang(irq, key, prev);
      hookIrq[key] := irq;
      hookId[key] := id;
      Open(irq, id);
      lists := PutLists(qs, irq, key);
      assert hookIrq[..] == irqs[key := irq] && hookId[..] == ids[key := id];
    }

    // The hook ends its list, and the cell at the end of this list points at it.
    method Hang(irq: nat, key: nat, prev: Link)
      requires Linked() && irq < heads.Length && key < next.Length && key !in lists[irq] && prev == Last(lists[irq])
      modifies heads, next
      ensures Sized(lists[irq], next.Length)
      ensures next[..] == HungLink(old(next[..])[key := None], lists[irq], key)
      ensures heads[..] == HungHead(old(heads[..]), lists[irq], irq, key)
    {
      assert Chain(next[..], heads[irq], lists[irq]);
      next[key] := None;
      if prev == None { heads[irq] := Some(key); } else { next[prev.value] := Some(key); }
    }

    // Clear an active id; the line is opened when none is left.
    method Open(irq: nat, id: nat)
      requires irq < actids.Length == masked.Length
      modifies actids, masked
      ensures var left := old(actids[irq]) - {id};
              && actids[..] == old(actids[..])[irq := left]
              && masked[..] == old(masked[..])[irq := if left == {} then false else old(masked[irq])]
    {
      actids[irq] := actids[irq] - {id};
      if actids[irq] == {} {
        masked[irq] := false;
      }
    }

    // Takes out every hook of the line that has the id of this one, registered or not.
    method RmIrqHandler(key: nat) returns (r: Result)
      requires Valid() && key < next.Length
      modifies this`lists, heads, next, actids, masked
      ensures Valid()
      ensures r == Done <==> 0 <= hookIrq[key] < heads.Length
      ensures Lines() == if r == Done then Do(old(Lines()), Remove(hookIrq[key], hookId[key])) else old(Lines())
    {
      var irq, id := hookIrq[key], hookId[key];
      if irq < 0 || irq >= heads.Length {
        return Panic;
      }
      ghost var qs, acts, mask := lists, actids[..], masked[..];
      Unlink(irq, id);
      CloseOrOpen(irq);
      assert lists == qs[irq := lists[irq]] && actids[..] == acts[irq := actids[irq]];
      LinesChange(qs, hookId[..], acts, mask, irq, lists[irq], actids[irq], masked[irq]);
      return Done;
    }

    // The end of rm_irq_handler: a line without hooks is masked, one without active ids opened.
    method CloseOrOpen(irq: nat)
      requires Linked() && irq < heads.Length
      modifies masked
      ensures Linked()
      ensures masked[..] == old(masked[..])[irq :=
                if lists[irq] == [] then true else if actids[irq] == {} then false else old(masked[irq])]
    {
      assert Chain(next[..], heads[irq], lists[irq]);
      if heads[irq] == None {
        masked[irq] := true;
      } else if actids[irq] == {} {
        masked[irq] := false;
      }
    }

    // The loop of rm_irq_handler.
    method Unlink(irq: nat, id: nat)
      requires Valid() && irq < heads.Length
      modifies this`lists, heads, next, actids
      ensures Valid() && SameBut(old(lists), lists, irq)
      ensures var hooks := HooksOf(old(lists)[irq], hookId[..]);
              Unlinked(hooks, HooksOf(lists[irq], hookId[..]), id, old(actids[irq]), actids[irq])
      ensures forall k :: 0 <= k < actids.Length && k != irq ==> actids[k] == old(actids[k])
    {
      ghost var ids, was, qs, acts := hookId[..], actids[irq], lists, actids[..];
      ghost var hooks := HooksOf(lists[irq], ids);
      ghost var i, seen := 0, 0;
      var prev: Link := None;
      var cur := heads[irq];
      assert Chain(next[..], heads[irq], lists[irq]);
      UnlinkStart(hooks, id, was);
      while cur != None
        invariant Valid() && Stands(irq, prev, cur, i) && SameBut(qs, lists, irq)
        invariant forall k :: 0 <= k < actids.Length && k != irq ==> actids[k] == acts[k]
        invariant hookId[..] == ids && Unlinking(HooksOf(lists[irq], ids), hooks, i, seen, id, was, actids[irq])
        decreases |lists[irq]| - i
      {
        prev, cur, i := Examine(irq, id, prev, cur.value, i, hooks, seen, was);
        seen := seen + 1;
      }
      UnlinkEnd(HooksOf(lists[irq], ids), hooks, i, seen, id, was, actids[irq]);
    }

    // The cell behind prev, or else the head of the line, points at position i of the list.
    ghost predicate Stands(irq: nat, prev: Link, cur: Link, i: nat)
      requires irq < |lists|
      reads this
    {
      i <= |lists[irq]| && cur == At(lists[irq], i) && prev == if i == 0 then None else Some(lists[irq][i - 1])
    }

    // One hook: it is taken out if it has the id, and passed if it has not.
    method Examine(irq: nat, id: nat, prev0: Link, cur: nat, ghost i0: nat, ghost hooks: seq<Hook>, ghost seen: nat,
        ghost was: set<nat>)
      returns (prev: Link, after: Link, ghost i: nat)
      requires Valid() && irq < heads.Length && Stands(irq, prev0, Some(cur), i0)
      requires Unlinking(HooksOf(lists[irq], hookId[..]), hooks, i0, seen, id, was, actids[irq])
      modifies this`lists, heads, next, actids
      ensures Valid() && SameBut(old(lists), lists, irq) && Stands(irq, prev, after, i)
      ensures |lists[irq]| - i == |old(lists)[irq]| - i0 - 1
      ensures Unlinking(HooksOf(lists[irq], hookId[..]), hooks, i, seen + 1, id, was, actids[irq])
      ensures forall k :: 0 <= k < actids.Length && k != irq ==> actids[k] == old(actids[k])
    {
      UnlinkStep(HooksOf(lists[irq], hookId[..]), hooks, i0, seen, id, was, actids[irq]);
      i := i0;
      if hookId[cur] == id {
        prev := prev0;
        after := Bypass(irq, prev, cur, i);
        assert id !in actids[irq] ==> actids[irq] - {id} == actids[irq];
        if id in actids[irq] {
          actids[irq] := actids[irq] - {id};
        }
      } else {
        assert Chain(next[..], heads[irq], lists[irq]);
        assert next[..][lists[irq][i]] == At(lists[irq], i + 1);
        prev, after := Some(cur), next[cur];
        i := i + 1;
      }
    }

    // *line = (*line)->next, where line is the cell that points at cur.
    method Bypass(irq: nat, prev: Link, cur: nat, ghost i: nat) returns (after: Link)
      requires Valid() && irq < heads.Length && Stands(irq, prev, Some(cur), i)
      modifies this`lists, heads, next
      ensures Valid() && lists == old(lists)[irq := Splice(old(lists)[irq], i)] && Stands(irq, prev, after, i)
      ensures HooksOf(lists[irq], hookId[..])
           == HooksOf(old(lists)[irq], hookId[..])[..i] + HooksOf(old(lists)[irq], hookId[..])[i + 1..]
    {
      ghost var qs, link, head := lists, next[..], heads[..];
      assert Chain(link, head[irq], qs[irq]);
      HomedApart(qs, hookIrq[..], irq);
      SpliceChains(link, head, qs, irq, i);
      SpliceHomed(qs, hookIrq[..], irq, i);
      SplicedHooks(qs[irq], hookId[..], i);
      after := next[cur];
      if prev == None { heads[irq] := after; } else { next[prev.value] := after; }
      assert next[..] == CutLink(link, qs[irq], i) && heads[..] == head[irq := CutFrom(link, head[irq], qs[irq], i)];
      lists := qs[irq := Splice(qs[irq], i)];
      ChainsTabled(next[..], heads[..], lists);
    }

    // done says which handlers return true; the handlers do not touch the lines themselves.
    method IrqHandle(irq: nat, done: seq<bool>)
      requires Valid() && irq < heads.Length && |done| == |lists[irq]|
      modifies actids, masked
      ensures Valid()
      ensures Lines() == Do(old(Lines()), Interrupt(irq, done))
    {
      ghost var acts, mask := actids[..], masked[..];
      masked[irq] := true;
      assert Chain(next[..], heads[irq], lists[irq]);
      if heads[irq] == None {
        LinesChange(lists, hookId[..], acts, mask, irq, lists[irq], actids[irq], true);
        assert actids[..] == acts[irq := actids[irq]] && masked[..] == mask[irq := true];
        return;
      }
      CallAll(irq, done);
      UnmaskIfIdle(irq);
      assert actids[..] == acts[irq := actids[irq]] && masked[..] == mask[irq := actids[irq] != {}];
      LinesChange(lists, hookId[..], acts, mask, irq, lists[irq], actids[irq], actids[irq] != {});
    }

    // The end of irq_handle: the line is opened again if no handler is active.
    method UnmaskIfIdle(irq: nat)
      requires irq < actids.Length == masked.Length && masked[irq]
      modifies masked
      ensures masked[..] == old(masked[..])[irq := actids[irq] != {}]
    {
      if actids[irq] == {} {
        masked[irq] := false;
      }
    }

    // The loop of irq_handle: mark each hook active, call it, and unmark it if it returns true.
    method CallAll(irq: nat, done: seq<bool>)
      requires Valid() && irq < heads.Length && |done| == |lists[irq]|
      modifies actids
      ensures Valid()
      ensures var l := old(Lines())[irq];
              actids[..] == old(actids[..])[irq := Called(l.active, l.hooks, done, |l.hooks|)]
    {
      ghost var q, hooks, i, active0 := lists[irq], Lines()[irq].hooks, 0, actids[irq];
      assert Chain(next[..], heads[irq], q);
      var hook, left := heads[irq], done;
      while hook != None
        invariant i <= |q| && hook == At(q, i) && left == done[i..]
        invariant actids[..] == old(actids[..])[irq := Called(active0, hooks, done, i)]
        decreases |q| - i
      {
        assert hooks[i].id == hookId[hook.value] && next[..][q[i]] == At(q, i + 1);
        actids[irq] := actids[irq] + {hookId[hook.value]};
        if left[0] {
          assert hookIrq[..][q[i]] == irq;
          actids[hookIrq[hook.value]] := actids[hookIrq[hook.value]] - {hookId[hook.value]};
        }
        hook, left := next[hook.value], left[1..];
        i := i + 1;
      }
    }

    // The hook need not be registered any more.
    method EnableIrq(key: nat)
      requires Linked() && key < next.Length && 0 <= hookIrq[key] < heads.Length
      modifies actids, masked
      ensures Linked() && (old(Valid()) ==> Valid())
      ensures Lines() == old(Lines())[hookIrq[key] := Enable(old(Lines())[hookIrq[key]], hookId[key])]
    {
      Open(hookIrq[key], hookId[key]);
    }

    // True if the hook was enabled before.
    method DisableIrq(key: nat) returns (was: bool)
      requires Linked() && key < next.Length && 0 <= hookIrq[key] < heads.Length
      modifies actids, masked
      ensures Linked() && (old(Valid()) ==> Valid())
      ensures Lines() == old(Lines())[hookIrq[key] := Disable(old(Lines())[hookIrq[key]], hookId[key]).0]
      ensures was <==> hookId[key] !in old(Lines())[hookIrq[key]].active
    {
      var irq, id := hookIrq[key], hookId[key];
      if id in actids[irq] {
        return false;
      }
      actids[irq] := actids[irq] + {id};
      masked[irq] := true;
      return true;
    }
  }

  // Only the list of this line may have changed.
  ghost predicate SameBut(qs: seq<seq<nat>>, t: seq<seq<nat>>, irq: nat) {
    |t| == |qs| && forall k :: 0 <= k < |qs| && k != irq ==> t[k] == qs[k]
  }
}
