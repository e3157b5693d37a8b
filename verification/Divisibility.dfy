/** Greatest common divisors and least common multiples of positive numbers. */
module Divisibility {
  import Modular

  ghost predicate Divides(a: nat, b: nat) {
    exists k: nat :: b == a * k
  }

  lemma Cancel(k: nat, a: nat, b: nat)
    requires k > 0 && k * a == k * b
    ensures a == b
  {
    Modular.Gap(k, a, b);
    Modular.Gap(k, b, a);
  }

  /** The order of three factors does not matter. */
  lemma Swap(a: nat, b: nat, c: nat)
    ensures a * b * c == a * (b * c) == b * (a * c) == c * (a * b)
  {
    Associate(a, b, c);
    Associate(b, a, c);
  }

  lemma Associate(a: nat, b: nat, c: nat)
    ensures a * b * c == a * (b * c)
  {
  }

  lemma DividesSelf(a: nat)
    ensures Divides(a, a)
  {
    assert a == a * 1;
  }

  lemma DividesTrans(a: nat, b: nat, c: nat)
    requires Divides(a, b) && Divides(b, c)
    ensures Divides(a, c)
  {
    var k: nat, l: nat :| b == a * k && c == b * l;
    assert c == a * (k * l);
  }

  lemma DividesSum(d: nat, a: nat, b: nat)
    requires Divides(d, a) && Divides(d, b)
    ensures Divides(d, a + b)
  {
    var k: nat, l: nat :| a == d * k && b == d * l;
    assert a + b == d * (k + l);
  }

  lemma DividesDifference(d: nat, a: nat, b: nat)
    requires Divides(d, a) && Divides(d, b) && 0 < d && a <= b
    ensures Divides(d, b - a)
  {
    var k: nat, l: nat :| a == d * k && b == d * l;
    if l < k { assert d * (k - l) == a - b; }
    assert b - a == d * (l - k);
  }

  lemma DividesProduct(a: nat, b: nat, m: nat)
    requires Divides(a, b)
    ensures Divides(m * a, m * b)
  {
    var k: nat :| b == a * k;
    assert m * b == (m * a) * k;
  }

  lemma Cofactor(a: nat, b: nat) returns (k: nat)
    requires a > 0 && b > 0 && Divides(a, b)
    ensures b == a * k && k > 0 && a <= b
  {
    k :| b == a * k;
    assert a * 0 == 0;
    Modular.AtLeastOnce(a, k);
  }

  lemma DividesBoth(a: nat, b: nat)
    requires a > 0 && b > 0 && Divides(a, b) && Divides(b, a)
    ensures a == b
  {
    var k := Cofactor(a, b);
    var l := Cofactor(b, a);
  }

  lemma DivideExactly(a: nat, k: nat)
    requires a > 0
    ensures (a * k) / a == k
  {
    Modular.Unique(a * k, a, k, 0);
  }

  function Gcd(a: nat, b: nat): (g: nat)
    requires a > 0 && b > 0
    ensures g > 0
    decreases a + b
  {
    if a == b then a else if a < b then Gcd(a, b - a) else Gcd(a - b, b)
  }

  lemma {:induction false} GcdDivides(a: nat, b: nat)
    requires a > 0 && b > 0
    ensures Divides(Gcd(a, b), a) && Divides(Gcd(a, b), b)
    decreases a + b
  {
    if a == b {
      DividesSelf(a);
    } else if a < b {
      GcdDivides(a, b - a);
      DividesSum(Gcd(a, b), a, b - a);
    } else {
      GcdDivides(a - b, b);
      DividesSum(Gcd(a, b), a - b, b);
    }
  }

  /** Every common divisor divides the greatest one. */
  lemma {:induction false} GcdGreatest(a: nat, b: nat, d: nat)
    requires a > 0 && b > 0 && d > 0 && Divides(d, a) && Divides(d, b)
    ensures Divides(d, Gcd(a, b))
    decreases a + b
  {
    if a < b {
      DividesDifference(d, a, b);
      GcdGreatest(a, b - a, d);
    } else if b < a {
      DividesDifference(d, b, a);
      GcdGreatest(a - b, b, d);
    }
  }

  lemma {:induction false} GcdScales(m: nat, a: nat, b: nat)
    requires m > 0 && a > 0 && b > 0
    ensures m * a > 0 && m * b > 0 && Gcd(m * a, m * b) == m * Gcd(a, b)
    decreases a + b
  {
    if a < b {
      assert m * (b - a) == m * b - m * a && m * (b - a) > 0;
      GcdScales(m, a, b - a);
    } else if b < a {
      assert m * (a - b) == m * a - m * b && m * (a - b) > 0;
      GcdScales(m, a - b, b);
    }
  }

  /** Scaling one argument scales the greatest common divisor by a divisor of the factor. */
  lemma GcdOfMultiple(m: nat, a: nat, c: nat)
    requires m > 0 && a > 0 && c > 0
    ensures m * a > 0 && Divides(Gcd(m * a, c), m * Gcd(a, c))
  {
    GcdScales(m, a, c);
    var d := Gcd(m * a, c);
    GcdDivides(m * a, c);
    assert c * m == m * c;
    assert Divides(c, m * c);
    DividesTrans(d, c, m * c);
    GcdGreatest(m * a, m * c, d);
  }

  function Lcm(a: nat, b: nat): nat
    requires a > 0 && b > 0
  {
    a / Gcd(a, b) * b
  }

  lemma LcmCofactors(a: nat, b: nat) returns (k: nat, l: nat)
    requires a > 0 && b > 0
    ensures k > 0 && a == Gcd(a, b) * k && b == Gcd(a, b) * l && Lcm(a, b) == b * k
  {
    GcdDivides(a, b);
    k := Cofactor(Gcd(a, b), a);
    l := Cofactor(Gcd(a, b), b);
    DivideExactly(Gcd(a, b), k);
  }

  lemma LcmProduct(a: nat, b: nat)
    requires a > 0 && b > 0
    ensures Lcm(a, b) > 0 && Lcm(a, b) * Gcd(a, b) == a * b
    ensures Divides(a, Lcm(a, b)) && Divides(b, Lcm(a, b))
  {
    var k, l := LcmCofactors(a, b);
    var g, m := Gcd(a, b), Lcm(a, b);
    Modular.AtLeastOnce(b, k);
    assert m * g == a * b by { Swap(g, k, b); }
    assert m == a * l by { Swap(g, k, l); }
  }

  /** The least common multiple divides every common multiple. */
  lemma LcmLeast(a: nat, b: nat, m: nat)
    requires a > 0 && b > 0 && m > 0 && Divides(a, m) && Divides(b, m)
    ensures Divides(Lcm(a, b), m)
  {
    var g, l := Gcd(a, b), Lcm(a, b);
    LcmProduct(a, b);
    DividesProduct(b, m, a);
    DividesProduct(a, m, b);
    Modular.AtLeastOnce(a, b);
    GcdScales(m, a, b);
    CommonDivisor(a, b, m);
    var k: nat :| m * g == (a * b) * k;
    Swap(l, g, k);
    Cancel(g, m, l * k);
  }

  lemma CommonDivisor(a: nat, b: nat, m: nat)
    requires a > 0 && b > 0 && m > 0 && Divides(a * b, m * a) && Divides(a * b, m * b)
    requires a * b > 0 && m * a > 0 && m * b > 0 && Gcd(m * a, m * b) == m * Gcd(a, b)
    ensures Divides(a * b, m * Gcd(a, b))
  {
    GcdGreatest(m * a, m * b, a * b);
  }
}
