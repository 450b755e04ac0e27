/** Index arithmetic of a ring of `n` slots of `e` bytes each. */
module Ring {

  /** Slot `k` of `n` lies inside the `n * e` bytes. */
  lemma {:induction false} SlotInside(k: nat, n: nat, e: nat)
    requires k < n
    ensures 0 <= k * e <= k * e + e <= n * e
    decreases n
  {
    assert n * e == (n - 1) * e + e;
    if k < n - 1 { SlotInside(k, n - 1, e); }
  }

  /** Different slots do not overlap. */
  lemma SlotsApart(k: nat, l: nat, e: nat)
    requires k != l
    ensures k * e + e <= l * e || l * e + e <= k * e
  {
    if k < l { SlotInside(k, l, e); } else { SlotInside(l, k, e); }
  }

  /** The position `i` places after `off`, for an offset below `n`. */
  function At(off: nat, i: nat, n: nat): (k: nat)
    requires 0 < n
    ensures k < n
  {
    (off + i) % n
  }

  /** Moving the read position on by one, as `if(++off == n) off = 0` does, renumbers
      every later position by one. */
  lemma AtNext(off: nat, i: nat, n: nat)
    requires off < n && i < n
    ensures At(off, i + 1, n) == At(if off + 1 == n then 0 else off + 1, i, n)
    ensures At(off, 0, n) == off
  {
    Mod(off + i + 1, n);
    Mod((if off + 1 == n then 0 else off + 1) + i, n);
    Mod(off, n);
  }

  lemma Mod(x: nat, n: nat)
    requires 0 < n && x < 2 * n
    ensures x % n == if x < n then x else x - n
  {
    if x >= n { assert x == 1 * n + (x - n); assert x / n == 1; }
  }

  /** Two positions less than a full turn apart are different slots. */
  lemma AtApart(off: nat, i: nat, j: nat, n: nat)
    requires off < n && i < j < n
    ensures At(off, i, n) != At(off, j, n)
  {
    Mod(off + i, n);
    Mod(off + j, n);
  }
}
