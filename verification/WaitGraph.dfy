// The blocked-on graph of a process table: every process has at most one outgoing edge.
module WaitGraph {
  import opened Prelude
  import opened KernelState

  // The process k blocked-on steps away from x, if the chain is that long.
  function Follow(procs: seq<Proc>, x: nat, k: nat): Option<nat>
    decreases k
  {
    if k == 0 then Some(x)
    else if x < |procs| && BlockedOn(procs[x]).Slot? then Follow(procs, BlockedOn(procs[x]).n, k - 1)
    else None
  }

  // y is on the chain that starts at x (x itself only counts if the chain returns to it).
  ghost predicate Reaches(procs: seq<Proc>, x: nat, y: nat) {
    exists k: nat :: k > 0 && Follow(procs, x, k) == Some(y)
  }

  ghost predicate NoCycle(procs: seq<Proc>) {
    forall p: nat, k: nat :: k > 0 ==> Follow(procs, p, k) != Some(p)
  }

  // A measure that every edge decreases.
  ghost predicate IsRank(procs: seq<Proc>, rank: seq<nat>) {
    && |rank| == |procs|
    && forall p :: 0 <= p < |procs| && BlockedOn(procs[p]).Slot? ==>
         BlockedOn(procs[p]).n < |procs| && rank[BlockedOn(procs[p]).n] < rank[p]
  }

  ghost predicate Acyclic(procs: seq<Proc>) {
    exists rank :: IsRank(procs, rank)
  }

  lemma {:induction false} FollowStep(procs: seq<Proc>, x: nat, k: nat)
    ensures Follow(procs, x, k + 1) ==
            match Follow(procs, x, k)
            case None => None
            case Some(y) => if y < |procs| && BlockedOn(procs[y]).Slot? then Some(BlockedOn(procs[y]).n) else None
    decreases k
  {
    if k > 0 && x < |procs| && BlockedOn(procs[x]).Slot? {
      FollowStep(procs, BlockedOn(procs[x]).n, k - 1);
    }
  }

  lemma {:induction false} RankDecreases(procs: seq<Proc>, rank: seq<nat>, x: nat, k: nat, y: nat)
    requires IsRank(procs, rank) && x < |procs| && k > 0 && Follow(procs, x, k) == Some(y)
    ensures y < |procs| && rank[y] < rank[x]
    decreases k
  {
    if k > 1 {
      RankDecreases(procs, rank, BlockedOn(procs[x]).n, k - 1, y);
    }
  }

  lemma AcyclicHasNoCycle(procs: seq<Proc>)
    requires Acyclic(procs)
    ensures NoCycle(procs)
  {
    var rank :| IsRank(procs, rank);
    forall p: nat, k: nat | k > 0 && Follow(procs, p, k) == Some(p) ensures false {
      RankDecreases(procs, rank, p, k, p);
    }
  }

  // Only who is blocked on whom matters.
  lemma {:induction false} FollowSame(procs: seq<Proc>, procs': seq<Proc>, x: nat, k: nat)
    requires |procs'| == |procs| && forall p :: 0 <= p < |procs| ==> BlockedOn(procs'[p]) == BlockedOn(procs[p])
    ensures Follow(procs', x, k) == Follow(procs, x, k)
    decreases k
  {
    if k > 0 && x < |procs| && BlockedOn(procs[x]).Slot? {
      FollowSame(procs, procs', BlockedOn(procs[x]).n, k - 1);
    }
  }

  lemma ReachesSame(procs: seq<Proc>, procs': seq<Proc>, x: nat, y: nat)
    requires |procs'| == |procs| && forall p :: 0 <= p < |procs| ==> BlockedOn(procs'[p]) == BlockedOn(procs[p])
    ensures Reaches(procs', x, y) <==> Reaches(procs, x, y)
  {
    forall k: nat ensures Follow(procs', x, k) == Follow(procs, x, k) { FollowSame(procs, procs', x, k); }
  }

  // procs' is procs with c, so far not blocked, now blocked on d.
  ghost predicate EdgeAdded(procs: seq<Proc>, procs': seq<Proc>, c: nat, d: nat) {
    && |procs'| == |procs| && c < |procs| && d < |procs|
    && BlockedOn(procs[c]) == NONE && BlockedOn(procs'[c]) == Slot(d)
    && forall p :: 0 <= p < |procs| && p != c ==> BlockedOn(procs'[p]) == BlockedOn(procs[p])
  }

  lemma {:induction false} FollowKept(procs: seq<Proc>, procs': seq<Proc>, c: nat, d: nat, x: nat, k: nat)
    requires EdgeAdded(procs, procs', c, d) && Follow(procs, x, k) == Some(c)
    ensures Follow(procs', x, k) == Some(c)
    decreases k
  {
    if k > 0 {
      FollowKept(procs, procs', c, d, BlockedOn(procs[x]).n, k - 1);
    }
  }

  lemma AddEdge(procs: seq<Proc>, procs': seq<Proc>, c: nat, d: nat)
    requires EdgeAdded(procs, procs', c, d) && Acyclic(procs) && c != d && !Reaches(procs, d, c)
    ensures Acyclic(procs')
  {
    var rank :| IsRank(procs, rank);
    // Everything the chain from d visits keeps its rank, the others move above d.
    var rank' := seq(|procs|, (x: nat) requires x < |procs| =>
      if x == d || Reaches(procs, d, x) then rank[x] else rank[x] + rank[d] + 1);
    forall p | 0 <= p < |procs| && BlockedOn(procs'[p]).Slot?
      ensures BlockedOn(procs'[p]).n < |procs| && rank'[BlockedOn(procs'[p]).n] < rank'[p]
    {
      if p != c && (p == d || Reaches(procs, d, p)) {
        var k: nat :| Follow(procs, d, k) == Some(p) by {
          assert Follow(procs, d, 0) == Some(d);
        }
        FollowStep(procs, d, k);
        assert Follow(procs, d, k + 1) == Some(BlockedOn(procs[p]).n);
      }
    }
    assert IsRank(procs', rank');
  }

  // Blocking c on d closes a cycle exactly when the chain from d leads to c.
  lemma CycleClosedIff(procs: seq<Proc>, procs': seq<Proc>, c: nat, d: nat)
    requires EdgeAdded(procs, procs', c, d) && Acyclic(procs)
    ensures NoCycle(procs') <==> c != d && !Reaches(procs, d, c)
  {
    if c != d && !Reaches(procs, d, c) {
      AddEdge(procs, procs', c, d);
      AcyclicHasNoCycle(procs');
    } else {
      var k: nat :| Follow(procs, d, k) == Some(c) by {
        assert c == d ==> Follow(procs, d, 0) == Some(c);
      }
      FollowKept(procs, procs', c, d, d, k);
      assert Follow(procs', c, k + 1) == Some(c);
    }
  }

  // ----- the same in the fields of the table -----

  // p is blocked sending to n or, if it is not sending, receiving from n.
  predicate WaitsFor(p: Proc, n: nat) {
    if SENDING in p.flags then p.sendTo == Slot(n) else RECEIVING in p.flags && p.getFrom == Slot(n)
  }

  // Each process of the path but the last one waits for the next.
  ghost predicate WaitPath(procs: seq<Proc>, path: seq<nat>) {
    && path != []
    && forall i :: 0 < i < |path| ==> WaitsAt(procs, path[i - 1], path[i])
  }

  ghost predicate WaitsAt(procs: seq<Proc>, x: nat, n: nat) { x < |procs| && WaitsFor(procs[x], n) }

  lemma {:induction false} PathFollowed(procs: seq<Proc>, path: seq<nat>)
    requires WaitPath(procs, path)
    ensures Follow(procs, path[0], |path| - 1) == Some(path[|path| - 1])
    decreases |path|
  {
    if |path| > 1 {
      assert WaitsAt(procs, path[1 - 1], path[1]);
      var rest := path[1..];
      forall i | 0 < i < |rest| ensures WaitsAt(procs, rest[i - 1], rest[i]) {
        assert WaitsAt(procs, path[i + 1 - 1], path[i + 1]);
      }
      PathFollowed(procs, rest);
    }
  }

  lemma {:induction false} FollowedPath(procs: seq<Proc>, x: nat, k: nat, y: nat) returns (path: seq<nat>)
    requires Follow(procs, x, k) == Some(y)
    ensures WaitPath(procs, path) && |path| == k + 1 && path[0] == x && path[k] == y
    decreases k
  {
    if k == 0 {
      path := [x];
    } else {
      var rest := FollowedPath(procs, BlockedOn(procs[x]).n, k - 1, y);
      path := [x] + rest;
      forall i | 0 < i < |path| ensures WaitsAt(procs, path[i - 1], path[i]) {
        assert path[i] == rest[i - 1];
        if i > 1 { assert WaitsAt(procs, rest[i - 1 - 1], rest[i - 1]); }
      }
    }
  }

  lemma ReachesMeaning(procs: seq<Proc>, x: nat, y: nat)
    ensures Reaches(procs, x, y) <==>
            exists path :: |path| > 1 && WaitPath(procs, path) && path[0] == x && path[|path| - 1] == y
  {
    if Reaches(procs, x, y) {
      var k: nat :| k > 0 && Follow(procs, x, k) == Some(y);
      var path := FollowedPath(procs, x, k, y);
      assert |path| > 1;
    }
    forall path | |path| > 1 && WaitPath(procs, path) && path[0] == x && path[|path| - 1] == y
      ensures Reaches(procs, x, y)
    {
      PathFollowed(procs, path);
    }
  }

  lemma NoCycleMeaning(procs: seq<Proc>)
    requires NoCycle(procs)
    ensures forall path :: |path| > 1 && WaitPath(procs, path) ==> path[0] != path[|path| - 1]
  {
    forall path | |path| > 1 && WaitPath(procs, path) ensures path[0] != path[|path| - 1] {
      PathFollowed(procs, path);
    }
  }
}
