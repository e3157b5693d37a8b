/** The integer arithmetic of execution rates: tools/pgmrt.cpp:624-633, 754, 763 and 770. */
module RateArithmetic {
  import opened Divisibility
  import Modular

  /** x arrivals in every interval of length y. */
  datatype Rate = Rate(y: nat, x: nat)

  /** An edge to the node `dst`. */
  datatype Edge = Edge(dst: nat, produce: nat, consume: nat)

  predicate Positive(r: Rate) {
    r.x > 0 && r.y > 0
  }

  predicate EdgePositive(e: Edge) {
    e.produce > 0 && e.consume > 0
  }

  /** The comparison of rates: the same number of arrivals per time. */
  predicate Same(a: Rate, b: Rate) {
    a.x * b.y == b.x * a.y
  }

  /** Arrivals at rate a, sent along the edge, are arrivals at rate b. */
  predicate Matches(e: Edge, a: Rate, b: Rate) {
    b.x * (e.consume * a.y) == (e.produce * a.x) * b.y
  }

  function Interval(e: Edge, r: Rate): nat
    requires EdgePositive(e) && Positive(r)
  {
    assert e.produce * r.x > 0;
    (e.consume * r.y) / Gcd(e.produce * r.x, e.consume)
  }

  function Arrivals(e: Edge, r: Rate, y: nat): nat
    requires EdgePositive(e) && Positive(r)
  {
    assert e.consume * r.y > 0;
    (y * e.produce * r.x) / (e.consume * r.y)
  }

  /** The first division leaves no remainder. */
  lemma IntervalExact(e: Edge, r: Rate) returns (g: nat, a: nat, c: nat)
    requires EdgePositive(e) && Positive(r)
    ensures e.produce * r.x > 0 && g == Gcd(e.produce * r.x, e.consume) > 0 && a > 0 && c > 0
    ensures e.produce * r.x == g * a && e.consume == g * c
    ensures Interval(e, r) == c * r.y > 0
    ensures Interval(e, r) * g == e.consume * r.y
  {
    assert e.produce * r.x > 0;
    g := Gcd(e.produce * r.x, e.consume);
    GcdDivides(e.produce * r.x, e.consume);
    a := Cofactor(g, e.produce * r.x);
    c := Cofactor(g, e.consume);
    assert e.consume * r.y == g * (c * r.y) by { Swap(g, c, r.y); }
    DivideExactly(g, c * r.y);
    Modular.AtLeastOnce(c, r.y);
  }

  /** The second division leaves no remainder either, and its result is the rate the edge asks for. */
  lemma ArrivalsExact(e: Edge, r: Rate, y: nat)
    requires EdgePositive(e) && Positive(r) && y > 0 && Divides(Interval(e, r), y)
    ensures Positive(Rate(y, Arrivals(e, r, y))) && Matches(e, r, Rate(y, Arrivals(e, r, y)))
  {
    var g, a, c := IntervalExact(e, r);
    var k := Cofactor(Interval(e, r), y);
    var d, n := e.consume * r.y, e.produce * r.x;
    assert y * e.produce * r.x == d * (k * a) by { Numerator(y, e.produce, r.x, g, a, c, r.y, k, e.consume); }
    Modular.AtLeastOnce(e.consume, r.y);
    DivideExactly(d, k * a);
    Modular.AtLeastOnce(k, a);
    Associate(y, e.produce, r.x);
  }

  lemma Numerator(y: nat, p: nat, x: nat, g: nat, a: nat, c: nat, v: nat, k: nat, consume: nat)
    requires p * x == g * a && y == c * v * k && consume == g * c
    ensures y * p * x == (consume * v) * (k * a)
  {
    calc {
      y * p * x;
      { Associate(y, p, x); }
      y * (g * a);
      { Swap(y, g, a); }
      g * (y * a);
      { Associate(c * v, k, a); }
      g * ((c * v) * (k * a));
      { Associate(g, c * v, k * a); Associate(g, c, v); }
      (consume * v) * (k * a);
    }
  }

  /** Rates that agree with a third agree with each other. */
  lemma SameTrans(a: Rate, b: Rate, c: Rate)
    requires Positive(c) && Same(a, c) && Same(b, c)
    ensures Same(a, b)
  {
    calc {
      c.y * (a.x * b.y);
      { Swap(c.y, a.x, b.y); }
      (a.x * c.y) * b.y;
      (c.x * a.y) * b.y;
      { Swap(c.x, a.y, b.y); }
      a.y * (c.x * b.y);
      a.y * (b.x * c.y);
      { Swap(a.y, b.x, c.y); }
      c.y * (b.x * a.y);
    }
    Cancel(c.y, a.x * b.y, b.x * a.y);
  }

  /** At one ratio, a multiple of the interval comes with the same multiple of arrivals. */
  lemma ScaledBy(r: Rate, s: Rate) returns (m: nat)
    requires Positive(r) && Positive(s) && Same(r, s) && Divides(r.y, s.y)
    ensures m > 0 && s.y == m * r.y && s.x == m * r.x
  {
    m := Cofactor(r.y, s.y);
    assert r.y * s.x == r.y * (m * r.x) by { Swap(m, r.x, r.y); }
    Cancel(r.y, s.x, m * r.x);
  }

  /** A longer interval at the source asks for a multiple of the interval at the destination. */
  lemma IntervalGrows(e: Edge, r: Rate, s: Rate)
    requires EdgePositive(e) && Positive(r) && Positive(s) && Same(r, s) && Divides(r.y, s.y)
    ensures Divides(Interval(e, r), Interval(e, s))
  {
    var m := ScaledBy(r, s);
    var g, a, c := IntervalExact(e, r);
    var h, b, d := IntervalExact(e, s);
    assert e.produce * s.x == m * (e.produce * r.x) by { Swap(e.produce, m, r.x); }
    GcdOfMultiple(m, e.produce * r.x, e.consume);
    var k: nat :| m * g == h * k;
    Cofactors(m, g, h, k, c, d);
    assert Interval(e, s) == Interval(e, r) * k by { Swap(d, m, r.y); Swap(c, k, r.y); }
  }

  lemma Cofactors(m: nat, g: nat, h: nat, k: nat, c: nat, d: nat)
    requires m * g == h * k && g * c == h * d && g > 0 && h > 0
    ensures d * m == c * k
  {
    calc {
      (g * h) * (d * m);
      { Swap(g, h, d * m); Associate(h, d, m); }
      g * ((h * d) * m);
      g * ((g * c) * m);
      { Swap(g, c, m); }
      g * (c * (m * g));
      g * (c * (h * k));
      { Swap(c, h, k); Associate(g, h, c * k); }
      (g * h) * (c * k);
    }
    Modular.AtLeastOnce(g, h);
    Cancel(g * h, d * m, c * k);
  }

  /** The rate that an edge asks for is the destination's, whichever rate at the source's ratio it is computed from. */
  lemma MatchCarries(e: Edge, r: Rate, a: Rate, s: Rate, b: Rate)
    requires EdgePositive(e) && Positive(r) && Positive(a) && Same(r, a) && Matches(e, r, s) && Matches(e, a, b)
    ensures Same(s, b)
  {
    var c, p := e.consume, e.produce;
    calc {
      (c * (r.y * a.y)) * (s.x * b.y);
      { Regroup(c, r.y, a.y, s.x, b.y); }
      (s.x * (c * r.y)) * (a.y * b.y);
      ((p * r.x) * s.y) * (a.y * b.y);
      { Regroup2(p, r.x, s.y, a.y, b.y); }
      (p * (r.x * a.y)) * (s.y * b.y);
      (p * (a.x * r.y)) * (s.y * b.y);
      { Regroup3(p, a.x, r.y, s.y, b.y); }
      ((p * a.x) * b.y) * (r.y * s.y);
      (b.x * (c * a.y)) * (r.y * s.y);
      { Regroup4(c, r.y, a.y, b.x, s.y); }
      (c * (r.y * a.y)) * (b.x * s.y);
    }
    assert r.y * a.y > 0 && c * (r.y * a.y) > 0;
    Cancel(c * (r.y * a.y), s.x * b.y, b.x * s.y);
  }

  lemma Regroup(c: nat, u: nat, v: nat, w: nat, z: nat)
    ensures (c * (u * v)) * (w * z) == (w * (c * u)) * (v * z)
  {
    Associate(c, u, v);
    Associate(c * u, v, w * z);
    Swap(v, w, z);
    Associate(c * u, w, v * z);
  }

  lemma Regroup2(p: nat, u: nat, v: nat, w: nat, z: nat)
    ensures ((p * u) * v) * (w * z) == (p * (u * w)) * (v * z)
  {
    Associate(p, u, w);
    Associate(p * u, v, w * z);
    Swap(v, w, z);
    Associate(p * u, w, v * z);
  }

  lemma Regroup3(p: nat, u: nat, v: nat, w: nat, z: nat)
    ensures (p * (u * v)) * (w * z) == ((p * u) * z) * (v * w)
  {
    Associate(p, u, v);
    Associate(p * u, v, w * z);
    Swap(v, w, z);
    Associate(p * u, z, v * w);
  }

  lemma Regroup4(c: nat, u: nat, v: nat, w: nat, z: nat)
    ensures (w * (c * v)) * (u * z) == (c * (u * v)) * (w * z)
  {
    Regroup(c, v, u, w, z);
  }
}
