// Small value types and sequence facts shared by the models.
module Prelude {

  datatype Option<+T> = None | Some(value: T)

  ghost predicate NoDup<T(!new)>(q: seq<T>) {
    forall i, j :: 0 <= i < j < |q| ==> q[i] != q[j]
  }

  // The queue without the first occurrence of p; every other element keeps its place.
  function Remove<T(==)>(q: seq<T>, p: T): (r: seq<T>)
    ensures p !in q ==> r == q
    ensures forall x :: x in r ==> x in q
    ensures forall x :: x in q && x != p ==> x in r
    ensures |q| - 1 <= |r| <= |q|
  {
    if q == [] then []
    else if q[0] == p then q[1..]
    else [q[0]] + Remove(q[1..], p)
  }

  lemma {:induction false} RemoveAt<T>(q: seq<T>, p: T, i: nat)
    requires i < |q| && q[i] == p && p !in q[..i]
    ensures Remove(q, p) == q[..i] + q[i + 1..]
  {
    if i > 0 {
      assert q[1..][..i - 1] == q[..i][1..];
      RemoveAt(q[1..], p, i - 1);
      assert q[..i] == [q[0]] + q[1..][..i - 1];
    }
  }

  lemma {:induction false} RemoveNoDup<T(!new)>(q: seq<T>, p: T)
    requires NoDup(q)
    ensures NoDup(Remove(q, p)) && p !in Remove(q, p)
  {
    if p in q {
      var i :| 0 <= i < |q| && q[i] == p;
      RemoveAt(q, p, i);
    }
  }

  lemma {:induction false} PigeonHole(q: seq<int>, n: nat)
    requires NoDup(q) && forall x :: x in q ==> 0 <= x < n
    ensures |q| <= n
    decreases n
  {
    if q != [] {
      assert q[0] in q;
      RemoveNoDup(q, n - 1);
      var r := Remove(q, n - 1);
      forall x | x in r ensures 0 <= x < n - 1 { assert x in q; }
      PigeonHole(r, n - 1);
    }
  }

  lemma Associate<T>(a: seq<T>, b: seq<T>, c: seq<T>)
    ensures (a + b) + c == a + (b + c)
  {}

  // The queue without position k.
  function Splice<T>(q: seq<T>, k: nat): (r: seq<T>)
    requires k < |q|
    ensures |r| == |q| - 1
    ensures forall i :: 0 <= i < k ==> r[i] == q[i]
    ensures forall i :: k <= i < |r| ==> r[i] == q[i + 1]
  {
    q[..k] + q[k + 1..]
  }

  lemma SpliceNoDup<T(!new)>(q: seq<T>, k: nat)
    requires NoDup(q) && k < |q|
    ensures NoDup(Splice(q, k)) && q[k] !in Splice(q, k)
    ensures forall x :: x in q && x != q[k] ==> x in Splice(q, k)
  {}
}
