/** The arithmetic behind the sieve of primes.c. */
module Primes {
  ghost predicate Prime(p: nat) {
    p >= 2 && forall d | 2 <= d < p :: p % d != 0
  }

  ghost predicate Coprime(v: nat, ps: seq<nat>) {
    forall k | 0 <= k < |ps| :: ps[k] > 0 && v % ps[k] != 0
  }

  /** `q` holds the first numbers from 2 that none of `ps` divides, in increasing order. */
  ghost predicate Stream(q: seq<nat>, ps: seq<nat>) {
    && Increasing(q)
    && (forall i | 0 <= i < |q| :: q[i] >= 2 && Coprime(q[i], ps))
    && (forall v, i | 0 <= i < |q| && 2 <= v <= q[i] && Coprime(v, ps) :: v in q)
  }

  /** `ps` holds the first primes, in increasing order. */
  ghost predicate FirstPrimes(ps: seq<nat>) {
    && Increasing(ps)
    && (forall i | 0 <= i < |ps| :: Prime(ps[i]))
    && (forall v, i | 0 <= i < |ps| && v <= ps[i] && Prime(v) :: v in ps)
  }

  /** The numbers from 2 up to, not including, `i` */
  ghost function Ints(i: nat): (q: seq<nat>)
    requires i >= 2
    ensures |q| == i - 2 && forall j | 0 <= j < i - 2 :: q[j] == j + 2
  {
    seq(i - 2, j requires 0 <= j < i - 2 => j + 2)
  }

  /** What a stage with prime `p` passes on */
  ghost function Filter(q: seq<nat>, p: nat): seq<nat>
    requires p > 0
  {
    if q == [] then []
    else Filter(q[..|q| - 1], p) + if q[|q| - 1] % p != 0 then [q[|q| - 1]] else []
  }

  lemma FilterMore(q: seq<nat>, x: nat, p: nat)
    requires p > 0
    ensures Filter(q + [x], p) == if x % p != 0 then Filter(q, p) + [x] else Filter(q, p)
  {
    assert (q + [x])[..|q|] == q;
  }

  lemma IntsStream(i: nat)
    requires i >= 2
    ensures Stream(Ints(i), []) && Ints(i + 1) == Ints(i) + [i]
  {
    forall v, k | 0 <= k < |Ints(i)| && 2 <= v <= Ints(i)[k] ensures v in Ints(i) {
      assert Ints(i)[v - 2] == v;
    }
  }

  lemma StreamPrefix(q: seq<nat>, ps: seq<nat>, n: nat)
    requires Stream(q, ps) && n <= |q|
    ensures Stream(q[..n], ps)
  {
    forall v, i | 0 <= i < n && 2 <= v <= q[i] && Coprime(v, ps) ensures v in q[..n] {
      assert v in q;
      var j :| 0 <= j < |q| && q[j] == v;
      assert j <= i;
      assert q[..n][j] == v;
    }
  }

  lemma {:induction false} FilterMembers(q: seq<nat>, p: nat)
    requires p > 0
    ensures forall v: nat :: v in Filter(q, p) <==> v in q && v % p != 0
  {
    if q != [] {
      var r, x := q[..|q| - 1], q[|q| - 1];
      assert q == r + [x];
      FilterMembers(r, p);
    }
  }

  ghost predicate Increasing(q: seq<nat>) {
    forall i, j | 0 <= i < j < |q| :: q[i] < q[j]
  }

  lemma {:induction false} FilterOrdered(q: seq<nat>, p: nat)
    requires p > 0 && Increasing(q)
    ensures Increasing(Filter(q, p))
  {
    if q != [] {
      var r, x := q[..|q| - 1], q[|q| - 1];
      FilterOrdered(r, p);
      FilterMembers(r, p);
      var f := Filter(r, p);
      forall i | 0 <= i < |f| ensures f[i] < x {
        assert f[i] in f;
        var k :| 0 <= k < |r| && r[k] == f[i];
      }
      assert Filter(q, p) == if x % p != 0 then f + [x] else f;
    }
  }

  /** A stage turns the stream that is not divisible by `ps` into the one for `ps + [p]`. */
  lemma FilterStream(q: seq<nat>, ps: seq<nat>, p: nat)
    requires Stream(q, ps) && p > 0
    ensures Stream(Filter(q, p), ps + [p])
  {
    var f := Filter(q, p);
    FilterMembers(q, p);
    FilterOrdered(q, p);
    forall i | 0 <= i < |f| ensures f[i] >= 2 && Coprime(f[i], ps + [p]) {
      assert f[i] in f;
      var j :| 0 <= j < |q| && q[j] == f[i];
    }
    forall v, i | 0 <= i < |f| && 2 <= v <= f[i] && Coprime(v, ps + [p]) ensures v in f {
      assert f[i] in f;
      var j :| 0 <= j < |q| && q[j] == f[i];
      CoprimeParts(v, ps, p);
    }
  }

  lemma CoprimeParts(v: nat, ps: seq<nat>, p: nat)
    ensures Coprime(v, ps + [p]) <==> Coprime(v, ps) && p > 0 && v % p != 0
  {
    assert forall k | 0 <= k < |ps| :: (ps + [p])[k] == ps[k];
    assert (ps + [p])[|ps|] == p;
  }

  lemma DividesThrough(v: nat, d: nat, p: nat)
    requires d > 0 && p > 0 && v % d == 0 && d % p == 0
    ensures v % p == 0
  {
    var a, b := v / d, d / p;
    assert v == a * d && d == b * p;
    assert v == (a * b) * p;
    MultipleMod(a * b, p);
  }

  lemma MultipleMod(a: nat, p: nat)
    requires p > 0
    ensures (a * p) % p == 0
  {
    var q, r := a * p / p, (a * p) % p;
    assert (a - q) * p == r;
    if a > q {
      AtLeast(a - q, p);
    } else if a < q {
      AtLeast(q - a, p);
    }
  }

  lemma AtLeast(x: nat, p: nat)
    requires x > 0
    ensures x * p >= p
  {
  }

  /** Nothing smaller than the head of a stream is in it, so an earlier prime divides it. */
  lemma BelowHead(q: seq<nat>, ps: seq<nat>, d: nat) returns (k: nat)
    requires Stream(q, ps) && q != [] && 2 <= d < q[0] && forall k | 0 <= k < |ps| :: ps[k] > 0
    ensures k < |ps| && d % ps[k] == 0
  {
    assert forall j | 0 <= j < |q| :: q[j] >= q[0];
    assert d !in q;
    assert !Coprime(d, ps);
    k :| 0 <= k < |ps| && d % ps[k] == 0;
  }

  /** The first number that none of the first primes divides is the next prime. */
  lemma HeadIsNextPrime(q: seq<nat>, ps: seq<nat>)
    requires Stream(q, ps) && q != [] && FirstPrimes(ps)
    ensures FirstPrimes(ps + [q[0]])
  {
    var p := q[0];
    forall d | 2 <= d < p ensures p % d != 0 {
      var k := BelowHead(q, ps, d);
      if p % d == 0 {
        DividesThrough(p, d, ps[k]);
      }
    }
    assert Prime(p);
    assert p % p == 0;
    assert forall i | 0 <= i < |ps| :: ps[i] != p;
    assert p !in ps;
    forall v | v <= p && Prime(v) ensures v in ps + [p] {
      if v < p {
        var k := BelowHead(q, ps, v);
        assert v >= ps[k] ==> v == ps[k];
      }
    }
  }

  /** When the next of the first primes exceeds `goal`, those before it are all up to `goal`. */
  lemma AllUpTo(ps: seq<nat>, p: nat, goal: int)
    requires FirstPrimes(ps + [p]) && p > goal && forall k | 0 <= k < |ps| :: ps[k] <= goal
    ensures forall v: nat :: v in ps <==> Prime(v) && v <= goal
  {
    var qs := ps + [p];
    assert qs[|ps|] == p;
    forall v: nat ensures v in ps <==> Prime(v) && v <= goal {
      if v in ps {
        var k :| 0 <= k < |ps| && ps[k] == v;
        assert qs[k] == v;
      }
      assert Prime(v) && v <= p ==> v in qs;
      assert v in qs <==> v in ps || v == p;
    }
  }
}
