/** Facts about division the pool rotation and the wrapping counters rest on. */
module Modular {

  lemma ProductBound(n: int, d: int)
    requires n > 0
    ensures d >= 1 ==> n * d >= n
    ensures d <= -1 ==> n * d <= -n
  {}

  lemma DivideUnique(x: nat, n: nat, q: nat, r: nat)
    requires n > 0 && r < n && x == q * n + r
    ensures x / n == q && x % n == r
  {
    var d := x / n - q;
    assert n * d == r - x % n;
    ProductBound(n, d);
  }

  lemma ModAtMost(x: nat, n: nat)
    requires n > 0
    ensures x % n <= x
  {
    if x < n {
      DivideUnique(x, n, 0, x);
    }
  }

  lemma WrapStep(x: nat, m: nat)
    requires m > 0
    ensures (x % m + 1) % m == (x + 1) % m
  {
    DivideUnique(x, m, x / m, x % m);
    if x % m + 1 < m {
      DivideUnique(x + 1, m, x / m, x % m + 1);
    } else {
      DivideUnique(x + 1, m, x / m + 1, 0);
      DivideUnique(m, m, 1, 0);
    }
  }

  lemma ModShift(base: nat, x: nat, m: nat)
    requires m > 0 && base % m == 0
    ensures (base + x) % m == x % m
  {
    var q, r := base / m, x / m;
    assert base + x == q * m + r * m + x % m;
    assert (q + r) * m == q * m + r * m;
    DivideUnique(base + x, m, q + r, x % m);
  }

  lemma ModMod(x: nat, m: nat, n: nat)
    requires m > 0 && n > 0 && m % n == 0
    ensures (x % m) % n == x % n
  {
    var a, b := x / m, m / n;
    var t, r := (x % m) / n, (x % m) % n;
    Regroup(n, b, a, t);
    DivideUnique(x, n, a * b + t, r);
  }

  lemma Regroup(n: nat, b: nat, a: nat, t: nat)
    ensures (n * b) * a + n * t == (a * b + t) * n
  {
    assert (n * b) * a == (a * b) * n;
  }

  /** x modulo n, for x below 2n. */
  function Wrap(x: nat, n: nat): nat {
    if x < n then x else x - n
  }

  lemma WrapIsMod(x: nat, n: nat)
    requires n > 0 && x < 2 * n
    ensures x % n == Wrap(x, n)
  {
    DivideUnique(x, n, if x < n then 0 else 1, Wrap(x, n));
  }

  /** k < n steps on from start, modulo n. */
  lemma ShiftIsWrap(start: nat, k: nat, n: nat)
    requires k < n
    ensures (start + k) % n == Wrap(start % n + k, n)
  {
    DivideUnique(start - start % n, n, start / n, 0);
    ModShift(start - start % n, start % n + k, n);
    WrapIsMod(start % n + k, n);
  }
}
