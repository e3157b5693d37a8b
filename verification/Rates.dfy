/**
  The propagation of execution rates over an acyclic graph, tools/pgmrt.cpp:694-787, and the
  comparison of predecessor rates, tools/pgmrt.cpp:635-692. Numbers are unbounded.
 */
module Rates {
  import opened Divisibility
  import opened RateArithmetic

  /** The edges that leave each node. */
  type Graph = seq<seq<Edge>>

  predicate GraphOk(g: Graph) {
    forall u, i :: 0 <= u < |g| && 0 <= i < |g[u]| ==> g[u][i].dst < |g| && EdgePositive(g[u][i])
  }

  /** A topological numbering: the graph is acyclic. */
  predicate Ranked(g: Graph, rank: seq<nat>) {
    && |rank| == |g|
    && (forall u :: 0 <= u < |g| ==> rank[u] < |g|)
    && forall u, i :: 0 <= u < |g| && 0 <= i < |g[u]| ==> g[u][i].dst < |g| && rank[u] < rank[g[u][i].dst]
  }

  /** One rate per node fits the given rates and all edges: the graph is balanced. */
  predicate Balanced(g: Graph, init: map<nat, Rate>, rho: map<nat, Rate>) {
    && (forall v :: v in rho ==> v < |g| && Positive(rho[v]))
    && (forall v :: v in init ==> v in rho && Positive(init[v]) && Same(init[v], rho[v]))
    && (forall u, i :: u in rho && 0 <= i < |g[u]| ==> g[u][i].dst in rho && Matches(g[u][i], rho[u], rho[g[u][i].dst]))
  }

  // -------------------------------------------------------------- invariants

  /** What holds of the rates on any acyclic graph. */
  predicate RatesPositive(g: Graph, rates: map<nat, Rate>) {
    forall v :: v in rates ==> v < |g| && Positive(rates[v])
  }

  predicate RatesOk(g: Graph, init: map<nat, Rate>, rho: map<nat, Rate>, rates: map<nat, Rate>) {
    && init.Keys <= rates.Keys <= rho.Keys
    && (forall v :: v in rates ==> Positive(rates[v]) && Same(rates[v], rho[v]))
  }

  /** The interval that edge i out of u asks for divides m. */
  ghost predicate Asks(g: Graph, rates: map<nat, Rate>, u: nat, i: nat, m: nat)
    requires GraphOk(g) && u < |g| && i < |g[u]| && u in rates && Positive(rates[u])
  {
    Divides(Interval(g[u][i], rates[u]), m)
  }

  /** The edge has been taken into account. */
  ghost predicate Satisfied(g: Graph, rates: map<nat, Rate>, u: nat, i: nat)
    requires GraphOk(g) && u < |g| && i < |g[u]| && u in rates && Positive(rates[u])
  {
    g[u][i].dst in rates && Asks(g, rates, u, i, rates[g[u][i].dst].y)
  }

  /** m is a multiple of the given interval of v and of all intervals that edges into v ask for. */
  ghost predicate CommonMultiple(g: Graph, init: map<nat, Rate>, rates: map<nat, Rate>, v: nat, m: nat)
    requires GraphOk(g) && RatesPositive(g, rates)
  {
    && m > 0
    && (v in init ==> Divides(init[v].y, m))
    && forall u, i :: u in rates && 0 <= i < |g[u]| && g[u][i].dst == v ==> Asks(g, rates, u, i, m)
  }

  /** No interval is longer than the edges ask for. */
  ghost predicate Least(g: Graph, init: map<nat, Rate>, rates: map<nat, Rate>, v: nat)
    requires GraphOk(g) && v in rates && RatesPositive(g, rates)
  {
    forall m :: CommonMultiple(g, init, rates, v, m) ==> Divides(rates[v].y, m)
  }

  ghost predicate ClosedSet(g: Graph, init: map<nat, Rate>, s: set<nat>) {
    init.Keys <= s && forall u, i :: u in s && u < |g| && 0 <= i < |g[u]| ==> g[u][i].dst in s
  }

  /** Only nodes that a path from a given one leads to have a rate. */
  ghost predicate Grounded(g: Graph, init: map<nat, Rate>, rates: map<nat, Rate>) {
    forall s :: ClosedSet(g, init, s) ==> rates.Keys <= s
  }

  /** On any graph: what has been asked for by nodes that are not listed has been taken into account. */
  ghost predicate Work(g: Graph, init: map<nat, Rate>, rates: map<nat, Rate>, listed: set<nat>) {
    && GraphOk(g) && RatesPositive(g, rates)
    && init.Keys <= rates.Keys && listed <= rates.Keys
    && (forall v :: v in init ==> Divides(init[v].y, rates[v].y))
    && (forall u, i :: u in rates && u !in listed && 0 <= i < |g[u]| ==> Satisfied(g, rates, u, i))
    && Grounded(g, init, rates)
  }

  /** On a balanced graph: every rate is right, and no interval too long. */
  ghost predicate Tight(g: Graph, init: map<nat, Rate>, rho: map<nat, Rate>, rates: map<nat, Rate>)
    requires GraphOk(g) && RatesPositive(g, rates)
  {
    Balanced(g, init, rho) && RatesOk(g, init, rho, rates) && forall v :: v in rates ==> Least(g, init, rates, v)
  }

  // ---------------------------------------------------------------- one update

  /** The rate that lines 754 to 770 give to the destination of edge i out of u. */
  function NewRate(g: Graph, rates: map<nat, Rate>, u: nat, i: nat): (r: Rate)
    requires GraphOk(g) && u < |g| && i < |g[u]| && u in rates && Positive(rates[u])
    requires g[u][i].dst in rates ==> rates[g[u][i].dst].y > 0
  {
    var e := g[u][i];
    var own := Interval(e, rates[u]);
    assert own > 0 by { var _, _, _ := IntervalExact(e, rates[u]); }
    var y := if e.dst in rates then Lcm(own, rates[e.dst].y) else own;
    Rate(y, Arrivals(e, rates[u], y))
  }

  lemma NewRateDivides(g: Graph, rates: map<nat, Rate>, u: nat, i: nat)
    requires GraphOk(g) && RatesPositive(g, rates) && u in rates && i < |g[u]|
    ensures Interval(g[u][i], rates[u]) > 0
    ensures var r, v := NewRate(g, rates, u, i), g[u][i].dst;
            && Positive(r) && Divides(Interval(g[u][i], rates[u]), r.y) && (v in rates ==> Divides(rates[v].y, r.y))
  {
    var e, v, r := g[u][i], g[u][i].dst, NewRate(g, rates, u, i);
    var _, _, _ := IntervalExact(e, rates[u]);
    if v in rates { LcmProduct(Interval(e, rates[u]), rates[v].y); } else { DividesSelf(r.y); }
    ArrivalsExact(e, rates[u], r.y);
  }

  lemma NewRateOk(g: Graph, init: map<nat, Rate>, rho: map<nat, Rate>, rates: map<nat, Rate>, u: nat, i: nat)
    requires GraphOk(g) && Balanced(g, init, rho) && RatesOk(g, init, rho, rates) && u in rates && i < |g[u]|
    ensures var r, v := NewRate(g, rates, u, i), g[u][i].dst;
            && Positive(r) && v in rho && Same(r, rho[v]) && Divides(Interval(g[u][i], rates[u]), r.y)
            && (v in rates ==> Same(rates[v], r) && Divides(rates[v].y, r.y))
  {
    NewRateDivides(g, rates, u, i);
    var e, v, r := g[u][i], g[u][i].dst, NewRate(g, rates, u, i);
    ArrivalsExact(e, rates[u], r.y);
    MatchCarries(e, rates[u], rho[u], r, rho[v]);
    if v in rates { SameTrans(rates[v], r, rho[v]); }
  }

  /** With a longer interval at v there are no more common multiples. */
  lemma FewerMultiples(g: Graph, init: map<nat, Rate>, rates: map<nat, Rate>, v: nat, r: Rate, w: nat, m: nat)
    requires GraphOk(g) && v < |g| && Positive(r) && RatesPositive(g, rates)
    requires v in rates ==> Same(rates[v], r) && Divides(rates[v].y, r.y)
    requires CommonMultiple(g, init, rates[v := r], w, m)
    ensures CommonMultiple(g, init, rates, w, m)
  {
    forall u, i | u in rates && 0 <= i < |g[u]| && g[u][i].dst == w ensures Asks(g, rates, u, i, m) {
      assert Asks(g, rates[v := r], u, i, m);
      if u == v {
        IntervalGrows(g[u][i], rates[v], r);
        DividesTrans(Interval(g[u][i], rates[v]), Interval(g[u][i], r), m);
      }
    }
  }

  lemma LeastKept(g: Graph, init: map<nat, Rate>, rho: map<nat, Rate>, rates: map<nat, Rate>, u: nat, i: nat, w: nat)
    requires GraphOk(g) && Balanced(g, init, rho) && RatesOk(g, init, rho, rates)
    requires u in rates && i < |g[u]| && g[u][i].dst != u
    requires w in rates ==> Least(g, init, rates, w)
    requires w in rates || w == g[u][i].dst
    ensures var rates' := rates[g[u][i].dst := NewRate(g, rates, u, i)];
            RatesPositive(g, rates') && Least(g, init, rates', w)
  {
    NewRateOk(g, init, rho, rates, u, i);
    var e, v, r := g[u][i], g[u][i].dst, NewRate(g, rates, u, i);
    var rates' := rates[v := r];
    forall m | CommonMultiple(g, init, rates', w, m) ensures Divides(rates'[w].y, m) {
      FewerMultiples(g, init, rates, v, r, w, m);
      if w == v {
        assert Asks(g, rates', u, i, m);
        var _, _, _ := IntervalExact(e, rates[u]);
        if v in rates { LcmLeast(Interval(e, rates[u]), rates[v].y, m); }
      }
    }
  }

  lemma SatisfiedKept(g: Graph, rates: map<nat, Rate>, v: nat, r: Rate, u: nat, i: nat)
    requires GraphOk(g) && u < |g| && i < |g[u]| && u in rates && u != v
    requires Positive(rates[u]) && Satisfied(g, rates, u, i)
    requires v in rates ==> Divides(rates[v].y, r.y)
    ensures Satisfied(g, rates[v := r], u, i)
  {
    if g[u][i].dst == v { DividesTrans(Interval(g[u][i], rates[u]), rates[v].y, r.y); }
  }

  lemma GroundedKept(g: Graph, init: map<nat, Rate>, rates: map<nat, Rate>, u: nat, i: nat, r: Rate)
    requires GraphOk(g) && Grounded(g, init, rates) && u in rates && u < |g| && i < |g[u]|
    ensures Grounded(g, init, rates[g[u][i].dst := r])
  {
    forall s | ClosedSet(g, init, s) ensures rates[g[u][i].dst := r].Keys <= s {
      assert rates.Keys <= s;
      assert u in s && g[u][i].dst in s;
    }
  }

  /** A new rate on a balanced graph is right, and its interval is not too long. */
  lemma RaiseTight(g: Graph, init: map<nat, Rate>, rho: map<nat, Rate>, rates: map<nat, Rate>, u: nat, i: nat)
    requires GraphOk(g) && RatesPositive(g, rates) && Tight(g, init, rho, rates)
    requires u in rates && i < |g[u]| && g[u][i].dst != u
    ensures var rates' := rates[g[u][i].dst := NewRate(g, rates, u, i)];
            RatesPositive(g, rates') && Tight(g, init, rho, rates')
  {
    NewRateOk(g, init, rho, rates, u, i);
    var rates' := rates[g[u][i].dst := NewRate(g, rates, u, i)];
    forall w | w in rates' ensures Least(g, init, rates', w) { LeastKept(g, init, rho, rates, u, i, w); }
  }

  /** Putting the new rate into the map and its node on the list keeps everything. */
  lemma Raise(g: Graph, init: map<nat, Rate>, rates: map<nat, Rate>, listed: set<nat>, u: nat, i: nat)
    requires Work(g, init, rates, listed) && u in listed && i < |g[u]| && g[u][i].dst != u
    ensures var v := g[u][i].dst;
            && Work(g, init, rates[v := NewRate(g, rates, u, i)], listed + {v})
            && Satisfied(g, rates[v := NewRate(g, rates, u, i)], u, i)
  {
    NewRateDivides(g, rates, u, i);
    var v, r := g[u][i].dst, NewRate(g, rates, u, i);
    var rates' := rates[v := r];
    forall x, j | x in rates' && x !in listed + {v} && 0 <= j < |g[x]| ensures Satisfied(g, rates', x, j) {
      SatisfiedKept(g, rates, v, r, x, j);
    }
    GroundedKept(g, init, rates, u, i, r);
    if v in init { DividesTrans(init[v].y, rates[v].y, r.y); }
  }

  // ------------------------------------------------------------------ the measure

  /** The number of non-empty paths that start at u. */
  function Paths(g: Graph, rank: seq<nat>, u: nat): nat
    requires Ranked(g, rank) && u < |g|
    decreases |g| - rank[u], |g[u]| + 1
  {
    PathsVia(g, rank, u, |g[u]|)
  }

  /** Those that begin with one of the first i edges. */
  function PathsVia(g: Graph, rank: seq<nat>, u: nat, i: nat): nat
    requires Ranked(g, rank) && u < |g| && i <= |g[u]|
    decreases |g| - rank[u], i
  {
    if i == 0 then 0 else PathsVia(g, rank, u, i - 1) + 1 + Paths(g, rank, g[u][i - 1].dst)
  }

  /** What is left to do: for every listed node itself and the paths that go on from it. */
  function Load(g: Graph, rank: seq<nat>, listed: set<nat>, n: nat): nat
    requires Ranked(g, rank) && n <= |g|
  {
    if n == 0 then 0 else Load(g, rank, listed, n - 1) + if n - 1 in listed then 1 + Paths(g, rank, n - 1) else 0
  }

  lemma {:induction false} LoadWithout(g: Graph, rank: seq<nat>, listed: set<nat>, v: nat, n: nat)
    requires Ranked(g, rank) && v < |g| && n <= |g| && v in listed
    ensures Load(g, rank, listed, n) == Load(g, rank, listed - {v}, n) + if v < n then 1 + Paths(g, rank, v) else 0
  {
    if n > 0 { LoadWithout(g, rank, listed, v, n - 1); }
  }

  lemma LoadWith(g: Graph, rank: seq<nat>, listed: set<nat>, v: nat)
    requires Ranked(g, rank) && v < |g|
    ensures Load(g, rank, listed + {v}, |g|) <= Load(g, rank, listed, |g|) + 1 + Paths(g, rank, v)
  {
    if v in listed {
      assert listed + {v} == listed;
    } else {
      LoadWithout(g, rank, listed + {v}, v, |g|);
      assert listed + {v} - {v} == listed;
    }
  }

  // ----------------------------------------------------------------- the worklist

  /** Exactly the nodes that can be reached have rates, and each interval is a multiple of all that is asked for. */
  ghost predicate Settled(g: Graph, init: map<nat, Rate>, rates: map<nat, Rate>) {
    && GraphOk(g) && RatesPositive(g, rates)
    && ClosedSet(g, init, rates.Keys) && Grounded(g, init, rates)
    && (forall v :: v in rates ==> CommonMultiple(g, init, rates, v, rates[v].y))
  }

  /** Every rate is the one that the given rates and the edges call for: its interval is their least common multiple. */
  ghost predicate Solves(g: Graph, init: map<nat, Rate>, rho: map<nat, Rate>, rates: map<nat, Rate>) {
    Settled(g, init, rates) && Tight(g, init, rho, rates)
  }

  lemma EmptyListSettled(g: Graph, init: map<nat, Rate>, rates: map<nat, Rate>)
    requires Work(g, init, rates, {})
    ensures Settled(g, init, rates)
  {
    forall u, i | u in rates.Keys && u < |g| && 0 <= i < |g[u]| ensures g[u][i].dst in rates.Keys {
      assert Satisfied(g, rates, u, i);
    }
    forall v | v in rates ensures CommonMultiple(g, init, rates, v, rates[v].y) {
      forall u, i | u in rates && 0 <= i < |g[u]| && g[u][i].dst == v ensures Asks(g, rates, u, i, rates[v].y) {
        assert Satisfied(g, rates, u, i);
      }
    }
  }

  lemma StartWorks(g: Graph, init: map<nat, Rate>)
    requires GraphOk(g) && RatesPositive(g, init)
    ensures Work(g, init, init, init.Keys)
  {
    forall v | v in init ensures Divides(init[v].y, init[v].y) { DividesSelf(init[v].y); }
  }

  /** Edge i out of u has been seen: keep the interval if it is long enough, else raise it. */
  lemma LongEnough(g: Graph, rates: map<nat, Rate>, u: nat, i: nat)
    requires GraphOk(g) && u < |g| && i < |g[u]| && u in rates && Positive(rates[u])
    requires g[u][i].dst in rates && rates[g[u][i].dst].y > 0 && NewRate(g, rates, u, i).y == rates[g[u][i].dst].y
    ensures Satisfied(g, rates, u, i)
  {
    var _, _, _ := IntervalExact(g[u][i], rates[u]);
    LcmProduct(Interval(g[u][i], rates[u]), rates[g[u][i].dst].y);
  }

  /** The first i edges out of u have been taken into account. */
  ghost predicate SatisfiedTo(g: Graph, rates: map<nat, Rate>, u: nat, i: nat)
    requires GraphOk(g) && u < |g| && i <= |g[u]| && u in rates && Positive(rates[u])
  {
    forall j :: 0 <= j < i ==> Satisfied(g, rates, u, j)
  }

  lemma RaiseAfter(g: Graph, init: map<nat, Rate>, rates: map<nat, Rate>, listed: set<nat>, u: nat, i: nat)
    requires Work(g, init, rates, listed) && u in listed && i < |g[u]| && g[u][i].dst != u
    requires SatisfiedTo(g, rates, u, i)
    ensures var v := g[u][i].dst;
            && Work(g, init, rates[v := NewRate(g, rates, u, i)], listed + {v})
            && SatisfiedTo(g, rates[v := NewRate(g, rates, u, i)], u, i + 1)
  {
    var v, r := g[u][i].dst, NewRate(g, rates, u, i);
    NewRateDivides(g, rates, u, i);
    Raise(g, init, rates, listed, u, i);
    var rates' := rates[v := r];
    forall j | 0 <= j < i ensures Satisfied(g, rates', u, j) { SatisfiedKept(g, rates, v, r, u, j); }
  }

  /** The body of the loop over the successors, lines 754 to 773. */
  method SpreadOver(g: Graph, n: nat, i: nat, rates0: map<nat, Rate>, tovisit0: set<nat>, ghost init: map<nat, Rate>,
                    ghost rho: map<nat, Rate>)
    returns (rates: map<nat, Rate>, tovisit: set<nat>)
    requires Work(g, init, rates0, tovisit0 + {n}) && n !in tovisit0 && i < |g[n]| && g[n][i].dst != n
    requires SatisfiedTo(g, rates0, n, i) && (Balanced(g, init, rho) ==> Tight(g, init, rho, rates0))
    ensures Work(g, init, rates, tovisit + {n}) && n !in tovisit
    ensures SatisfiedTo(g, rates, n, i + 1) && (Balanced(g, init, rho) ==> Tight(g, init, rho, rates))
    ensures tovisit == tovisit0 || tovisit == tovisit0 + {g[n][i].dst}
  {
    rates, tovisit := rates0, tovisit0;
    var e, here := g[n][i], rates[n];
    NewRateDivides(g, rates, n, i);
    if Balanced(g, init, rho) { RaiseTight(g, init, rho, rates, n, i); }
    var y := (e.consume * here.y) / Gcd(e.produce * here.x, e.consume);
    if e.dst in rates {
      var oldRate := rates[e.dst];
      y := Lcm(y, oldRate.y);
      if y != oldRate.y {
        RaiseAfter(g, init, rates, tovisit + {n}, n, i);
        rates := rates[e.dst := Rate(y, (y * e.produce * here.x) / (e.consume * here.y))];
        tovisit := tovisit + {e.dst};
        assert tovisit + {n} == tovisit0 + {n} + {e.dst};
      } else {
        LongEnough(g, rates, n, i);
      }
    } else {
      RaiseAfter(g, init, rates, tovisit + {n}, n, i);
      rates := rates[e.dst := Rate(y, (y * e.produce * here.x) / (e.consume * here.y))];
      tovisit := tovisit + {e.dst};
      assert tovisit + {n} == tovisit0 + {n} + {e.dst};
    }
  }

  lemma Finished(g: Graph, init: map<nat, Rate>, rates: map<nat, Rate>, listed: set<nat>, n: nat)
    requires Work(g, init, rates, listed + {n}) && n in rates && SatisfiedTo(g, rates, n, |g[n]|)
    ensures Work(g, init, rates, listed)
  {
  }

  /**
    Whatever node is taken from the list, the loop ends, and every interval is a multiple of what the edges ask for; on
    a balanced graph the result is the solution.
   */
  method ParseGraphRates(g: Graph, init: map<nat, Rate>, ghost rank: seq<nat>, ghost rho: map<nat, Rate>)
    returns (rates: map<nat, Rate>)
    requires GraphOk(g) && Ranked(g, rank) && RatesPositive(g, init)
    ensures Settled(g, init, rates)
    ensures Balanced(g, init, rho) ==> Solves(g, init, rho, rates)
  {
    rates := init;
    var tovisit := init.Keys;
    StartWorks(g, init);

    while tovisit != {}
      invariant Work(g, init, rates, tovisit)
      invariant Balanced(g, init, rho) ==> Tight(g, init, rho, rates)
      decreases Load(g, rank, tovisit, |g|)
    {
      ghost var before := Load(g, rank, tovisit, |g|);
      var n: nat :| n in tovisit;
      LoadWithout(g, rank, tovisit, n, |g|);
      assert tovisit == tovisit - {n} + {n};
      tovisit := tovisit - {n};

      var i := 0;
      while i < |g[n]|
        invariant i <= |g[n]| && Work(g, init, rates, tovisit + {n}) && n !in tovisit && SatisfiedTo(g, rates, n, i)
        invariant Balanced(g, init, rho) ==> Tight(g, init, rho, rates)
        invariant Load(g, rank, tovisit, |g|) + Paths(g, rank, n) - PathsVia(g, rank, n, i) < before
      {
        LoadWith(g, rank, tovisit, g[n][i].dst);
        rates, tovisit := SpreadOver(g, n, i, rates, tovisit, init, rho);
        i := i + 1;
      }
      Finished(g, init, rates, tovisit, n);
    }
    EmptyListSettled(g, init, rates);
  }

  // ------------------------------------------------------------ order independence

  lemma {:induction false} AgreeAt(g: Graph, init: map<nat, Rate>, rank: seq<nat>, rho: map<nat, Rate>,
                                   a: map<nat, Rate>, b: map<nat, Rate>, v: nat)
    requires Ranked(g, rank) && Solves(g, init, rho, a) && Solves(g, init, rho, b) && a.Keys == b.Keys && v in a
    ensures a[v] == b[v]
    decreases rank[v]
  {
    forall u, i | u in a && 0 <= i < |g[u]| && g[u][i].dst == v ensures a[u] == b[u] {
      AgreeAt(g, init, rank, rho, a, b, u);
    }
    TransferMultiple(g, init, a, b, v, a[v].y);
    TransferMultiple(g, init, b, a, v, b[v].y);
    DividesBoth(a[v].y, b[v].y);
    Cancel(rho[v].y, a[v].x, b[v].x);
  }

  lemma TransferMultiple(g: Graph, init: map<nat, Rate>, a: map<nat, Rate>, b: map<nat, Rate>, v: nat, m: nat)
    requires GraphOk(g) && RatesPositive(g, a) && RatesPositive(g, b) && a.Keys == b.Keys
    requires forall u, i :: u in a && 0 <= i < |g[u]| && g[u][i].dst == v ==> a[u] == b[u]
    requires CommonMultiple(g, init, a, v, m)
    ensures CommonMultiple(g, init, b, v, m)
  {
    forall u, i | u in b && 0 <= i < |g[u]| && g[u][i].dst == v ensures Asks(g, b, u, i, m) {
      assert Asks(g, a, u, i, m);
    }
  }

  /** There is only one solution, so the result does not depend on the order in which nodes are taken from the list. */
  lemma SolutionUnique(g: Graph, init: map<nat, Rate>, rank: seq<nat>, rho: map<nat, Rate>, a: map<nat, Rate>,
                       b: map<nat, Rate>)
    requires Ranked(g, rank) && Solves(g, init, rho, a) && Solves(g, init, rho, b)
    ensures a == b
  {
    assert a.Keys <= b.Keys && b.Keys <= a.Keys;
    forall v | v in a ensures a[v] == b[v] { AgreeAt(g, init, rank, rho, a, b, v); }
  }

  // ------------------------------------------------------- comparing predecessors

  /** An edge into the node, and the node it comes from. */
  datatype InEdge = InEdge(src: nat, e: Edge)

  /** Two edges ask for the same rate at the node. */
  predicate Agree(a: InEdge, b: InEdge, rates: map<nat, Rate>)
    requires a.src in rates && b.src in rates
  {
    var ra, rb := rates[a.src], rates[b.src];
    (a.e.produce * ra.x) * (b.e.consume * rb.y) == (b.e.produce * rb.x) * (a.e.consume * ra.y)
  }

  /** Neighbours that agree all agree. */
  lemma {:induction false} NeighboursSuffice(ins: seq<InEdge>, rates: map<nat, Rate>, i: nat, j: nat)
    requires forall k :: 0 <= k < |ins| ==> ins[k].src in rates && Positive(rates[ins[k].src]) && EdgePositive(ins[k].e)
    requires forall k :: 0 < k < |ins| ==> Agree(ins[k - 1], ins[k], rates)
    requires i <= j < |ins|
    ensures Agree(ins[i], ins[j], rates)
  {
    if i < j {
      NeighboursSuffice(ins, rates, i, j - 1);
      var a, b, c := ins[i], ins[j - 1], ins[j];
      assert Agree(b, c, rates);
      var asked := (x: InEdge) requires x.src in rates =>
        Rate(x.e.consume * rates[x.src].y, x.e.produce * rates[x.src].x);
      assert Positive(asked(b));
      SameTrans(asked(a), asked(c), asked(b));
    }
  }

  /** The comparison after scaling, as the code makes it. */
  lemma ScaledCompare(a: nat, b: nat, c: nat, d: nat, scale: nat)
    requires scale > 0
    ensures Same(Rate(a * scale, b), Rate(c * scale, d)) <==> a * d == c * b
  {
    Swap(b, c, scale);
    Swap(d, a, scale);
    if b * (c * scale) == d * (a * scale) { Cancel(scale, b * c, d * a); }
  }

  /** The product of the intervals of the nodes that edges come from. */
  function Product(known: seq<InEdge>, rates: map<nat, Rate>): nat
    requires forall k :: 0 <= k < |known| ==> known[k].src in rates
  {
    if known == [] then 1 else Product(known[..|known| - 1], rates) * rates[known[|known| - 1].src].y
  }

  /** The predecessors whose rates are known, and the product of their intervals; `at` says where they are. */
  method KnownPredecessors(preds: seq<InEdge>, rates: map<nat, Rate>)
    returns (known: seq<InEdge>, scale: nat, ghost at: seq<nat>)
    requires forall k :: 0 <= k < |preds| && preds[k].src in rates ==> Positive(rates[preds[k].src])
    ensures scale > 0 && |at| == |known|
    ensures forall k :: 0 <= k < |known| ==> at[k] < |preds| && preds[at[k]] == known[k] && known[k].src in rates
    ensures scale == Product(known, rates)
    ensures forall k, l :: 0 <= k < l < |at| ==> at[k] < at[l]
    ensures forall k: nat :: k < |preds| && preds[k].src in rates ==> k in at
  {
    scale, known, at := 1, [], [];
    var i := 0;
    while i < |preds|
      invariant i <= |preds| && scale > 0 && |at| == |known|
      invariant forall k :: 0 <= k < |known| ==> at[k] < i && preds[at[k]] == known[k] && known[k].src in rates
      invariant scale == Product(known, rates)
      invariant forall k, l :: 0 <= k < l < |at| ==> at[k] < at[l]
      invariant forall k: nat :: k < i && preds[k].src in rates ==> k in at
    {
      if preds[i].src in rates {
        scale := scale * rates[preds[i].src].y;
        assert (known + [preds[i]])[..|known|] == known;
        known := known + [preds[i]];
        at := at + [i];
      }
      i := i + 1;
    }
  }

  /** Lines 655 to 682: every one of them is compared with the one before it. */
  method CompareNeighbours(known: seq<InEdge>, rates: map<nat, Rate>, scale: nat) returns (valid: bool)
    requires scale > 0 && forall k :: 0 <= k < |known| ==> known[k].src in rates
    ensures valid <==> forall k :: 0 < k < |known| ==> Agree(known[k - 1], known[k], rates)
  {
    valid := true;
    var i := 1;
    while i < |known|
      invariant 1 <= i && (i <= |known| || |known| == 0)
      invariant valid <==> forall k :: 0 < k < i && k < |known| ==> Agree(known[k - 1], known[k], rates)
    {
      var prev, cur := known[i - 1], known[i];
      var p, c := rates[prev.src], rates[cur.src];
      var a := Rate(prev.e.produce * p.x * scale, p.y * prev.e.consume);
      var b := Rate(cur.e.produce * c.x * scale, c.y * cur.e.consume);
      ScaledCompare(prev.e.produce * p.x, p.y * prev.e.consume, cur.e.produce * c.x, c.y * cur.e.consume, scale);
      if a.x * b.y != b.x * a.y {
        valid := false;
      }
      i := i + 1;
    }
  }

  /** The rates of the predecessors are found valid exactly if all of them that are known agree pairwise. */
  method ValidateRate(preds: seq<InEdge>, rates: map<nat, Rate>) returns (valid: bool)
    requires forall k :: 0 <= k < |preds| ==>
               EdgePositive(preds[k].e) && (preds[k].src in rates ==> Positive(rates[preds[k].src]))
    ensures valid <==> forall i, j :: 0 <= i < j < |preds| && preds[i].src in rates && preds[j].src in rates ==>
              Agree(preds[i], preds[j], rates)
  {
    var known, scale, at := KnownPredecessors(preds, rates);
    valid := CompareNeighbours(known, rates, scale);
    if valid {
      forall i, j | 0 <= i < j < |preds| && preds[i].src in rates && preds[j].src in rates
        ensures Agree(preds[i], preds[j], rates)
      {
        var k :| 0 <= k < |at| && at[k] == i;
        var l :| 0 <= l < |at| && at[l] == j;
        NeighboursSuffice(known, rates, k, l);
      }
    }
  }

  /** On a balanced graph the comparison never finds a disagreement, whatever rates have been computed so far. */
  lemma BalancedAgrees(g: Graph, init: map<nat, Rate>, rho: map<nat, Rate>, rates: map<nat, Rate>, u: nat, i: nat,
                       w: nat, j: nat)
    requires GraphOk(g) && Balanced(g, init, rho) && RatesOk(g, init, rho, rates)
    requires u in rates && i < |g[u]| && w in rates && j < |g[w]| && g[u][i].dst == g[w][j].dst
    ensures Agree(InEdge(u, g[u][i]), InEdge(w, g[w][j]), rates)
  {
    var a, b, v := g[u][i], g[w][j], g[u][i].dst;
    var ra := Rate(a.consume * rates[u].y, a.produce * rates[u].x);
    var rb := Rate(b.consume * rates[w].y, b.produce * rates[w].x);
    MatchCarries(a, rates[u], rho[u], ra, rho[v]);
    MatchCarries(b, rates[w], rho[w], rb, rho[v]);
    SameTrans(ra, rb, rho[v]);
  }
}
