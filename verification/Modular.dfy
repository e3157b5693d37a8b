/** Division with remainder by a variable divisor. */
module Modular {

  lemma AtLeastOnce(n: int, a: int)
    requires n > 0 && a >= 1
    ensures n * a >= n
  {
  }

  lemma Gap(n: int, a: int, b: int)
    requires n > 0
    ensures a < b ==> n * a + n <= n * b
  {
    if a < b {
      AtLeastOnce(n, b - a);
      assert n * (b - a) == n * b - n * a;
    }
  }

  /** Quotient and remainder are unique. */
  lemma Unique(x: int, n: int, q: int, r: int)
    requires n > 0 && x == n * q + r && 0 <= r < n
    ensures x / n == q && x % n == r
  {
    assert x == n * (x / n) + x % n && 0 <= x % n < n;
    Gap(n, q, x / n);
    Gap(n, x / n, q);
  }

  /** Counting modulo n. */
  lemma Successor(x: nat, n: nat)
    requires n > 0
    ensures (x + 1) % n == if x % n + 1 == n then 0 else x % n + 1
  {
    var q, r := x / n, x % n;
    if r + 1 == n {
      assert n * (q + 1) == n * q + n;
      Unique(x + 1, n, q + 1, 0);
    } else {
      Unique(x + 1, n, q, r + 1);
    }
  }

  lemma Next(x: nat, n: nat)
    requires n > 0
    ensures (x + 1) % n == (x % n + 1) % n < n
  {
    Successor(x, n);
    if x % n + 1 == n { Unique(n, n, 1, 0); } else { Unique(x % n + 1, n, 0, x % n + 1); }
  }

  /** Two numbers less than n apart with the same remainder are equal. */
  lemma Same(n: nat, a: nat, b: nat)
    requires a <= b < a + n && a % n == b % n
    ensures a == b
  {
    assert a == n * (a / n) + a % n && b == n * (b / n) + b % n;
    Gap(n, a / n, b / n);
    Gap(n, b / n, a / n);
  }
}
