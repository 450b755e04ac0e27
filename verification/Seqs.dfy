/** Sequences without repetition, and finite sets. */
module Seqs {
  ghost predicate NoDup<T>(q: seq<T>) {
    forall i, j | 0 <= i < j < |q| :: q[i] != q[j]
  }

  /** Where the first `t` of `q` is */
  ghost function IndexOf<T>(q: seq<T>, t: T): (i: nat)
    requires t in q
    ensures i < |q| && q[i] == t && t !in q[..i]
  {
    if q[0] == t then 0 else 1 + IndexOf(q[1..], t)
  }

  ghost function Less<T>(q: seq<T>, k: nat): seq<T>
    requires k < |q|
  {
    q[..k] + q[k + 1..]
  }

  lemma LessAt<T>(q: seq<T>, k: nat)
    requires NoDup(q) && k < |q|
    ensures NoDup(Less(q, k)) && |Less(q, k)| == |q| - 1
    ensures forall i | 0 <= i < |q| - 1 :: Less(q, k)[i] == q[if i < k then i else i + 1]
    ensures forall x :: x in Less(q, k) <==> x in q && x != q[k]
  {
    forall x | x in q && x != q[k] ensures x in Less(q, k) {
      var j :| 0 <= j < |q| && q[j] == x;
      assert Less(q, k)[if j < k then j else j - 1] == x;
    }
  }

  ghost function More<T>(q: seq<T>, k: nat, t: T): seq<T>
    requires k <= |q|
  {
    q[..k] + [t] + q[k..]
  }

  lemma MoreAt<T>(q: seq<T>, k: nat, t: T)
    requires NoDup(q) && k <= |q| && t !in q
    ensures NoDup(More(q, k, t)) && |More(q, k, t)| == |q| + 1
    ensures More(q, k, t)[k] == t
    ensures forall i | 0 <= i < k :: More(q, k, t)[i] == q[i]
    ensures forall i | k < i <= |q| :: More(q, k, t)[i] == q[i - 1]
    ensures forall x :: x in More(q, k, t) <==> x in q || x == t
  {
    var r := More(q, k, t);
    assert forall i | 0 <= i <= |q| :: r[i] == if i < k then q[i] else if i == k then t else q[i - 1];
    forall x | x in q ensures x in r {
      var j :| 0 <= j < |q| && q[j] == x;
      assert r[if j < k then j else j + 1] == x;
    }
  }

  lemma Smaller<T>(a: set<T>, b: set<T>)
    requires a <= b
    ensures |a| <= |b|
  {
    assert b == a + (b - a);
  }

  /** The last element takes the place of element `i`. */
  function SwapRemove<T>(q: seq<T>, i: nat): seq<T>
    requires i < |q|
  {
    q[i := q[|q| - 1]][..|q| - 1]
  }

  lemma SwapRemoved<T>(q: seq<T>, i: nat)
    requires NoDup(q) && i < |q|
    ensures NoDup(SwapRemove(q, i)) && forall x :: x in SwapRemove(q, i) <==> x in q && x != q[i]
    ensures |SwapRemove(q, i)| == |q| - 1
    ensures forall k | 0 <= k < |q| - 1 :: SwapRemove(q, i)[k] == if k == i then q[|q| - 1] else q[k]
  {
    var r := SwapRemove(q, i);
    forall x | x in q && x != q[i] ensures x in r {
      var k :| 0 <= k < |q| && q[k] == x;
      assert r[if k == |q| - 1 then i else k] == x;
    }
  }
}
