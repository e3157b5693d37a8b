/**
  When a pipeline drains in all its runs, with the lock-free evaluation in its real steps: if and only if there
  is no token to lose. For every other pipeline a run is built in which a node scans its empty edges, its
  producers then do all their rounds and terminate, and the node leaves early.
 */
module TokenEarly {
  import opened TokenModel
  import opened TokenRely
  import opened TokenRounds
  import opened TokenRest
  import opened TokenDrain
  import F = TokenConservation
  import T = TokenTermination

  // -------------------------------------------------------------- no token to lose

  lemma NothingReady(c: Config, rank: seq<nat>, s: State, e: nat)
    requires Pipeline(c, rank) && RoundsInv(c, s) && c.client.k == 0 && e < |c.g.edges|
    ensures !Ready(c.g, s, e)
  {
    SentAtMost(c, rank, s, e);
    assert F.Balanced(c.g, s, e) && UnitEdge(c.g.edges[e]);
  }

  lemma {:induction false} NeverEarly(c: Config, rank: seq<nat>, run: seq<State>, i: nat)
    requires Pipeline(c, rank) && (c.client.k == 0 || c.g.edges == []) && Run(c, run) && i < |run|
    ensures !LeftEarly(c, run, i)
  {
    if i > 0 {
      NeverEarly(c, rank, run, i - 1);
      var s := run[i - 1];
      TokenRounds.RunKept(c, run, i - 1);
      forall e | 0 <= e < |c.g.edges| ensures !Ready(c.g, s, e) { NothingReady(c, rank, s, e); }
    }
  }

  // ------------------------------------------------------------------ the lost token

  /** A node all of whose producers are sources. */
  lemma {:induction false} BehindSources(c: Config, rank: seq<nat>, n: nat) returns (m: nat)
    requires Pipeline(c, rank) && n < |c.g.ins| && c.g.ins[n] != []
    ensures m < |c.g.ins| && c.g.ins[m] != [] && InsOk(c.g, m)
    ensures forall j :: 0 <= j < |c.g.ins[m]| ==>
              c.g.edges[c.g.ins[m][j]].producer < |c.g.ins| && c.g.ins[c.g.edges[c.g.ins[m][j]].producer] == []
    decreases rank[n]
  {
    assert InsOk(c.g, n);
    forall j | 0 <= j < |c.g.ins[n]| ensures EdgeOk(c.g, c.g.ins[n][j]) {}
    if j :| 0 <= j < |c.g.ins[n]| && c.g.ins[c.g.edges[c.g.ins[n][j]].producer] != [] {
      m := BehindSources(c, rank, c.g.edges[c.g.ins[n][j]].producer);
    } else {
      m := n;
    }
  }

  const FRESH: Thread := Thread(User, 0, 0, 0, false, [], 0, 0, 0, 0, false)

  function Start(g: Graph): State {
    State(seq(|g.edges|, e requires 0 <= e < |g.edges| => Flow(g.edges[e].init, g.edges[e].skips, 0, 0, false)),
          seq(|g.ins|, n => 0), seq(|g.ins|, n => FREE), seq(|g.ins|, n => FRESH))
  }

  /** Node n has scanned its first i edges and found none ready. */
  function Scanning(g: Graph, n: nat, i: nat): State
    requires n < |g.ins|
  {
    Set(Start(g), n, FRESH.(pc := QuickScan, i := i))
  }

  lemma {:induction false} Scans(c: Config, rank: seq<nat>, n: nat, i: nat) returns (run: seq<State>)
    requires Pipeline(c, rank) && !c.atomicQuick && n < |c.g.ins| && c.g.ins[n] != [] && i <= |c.g.ins[n]|
    ensures Run(c, run) && run[|run| - 1] == Scanning(c.g, n, i)
  {
    assert InsOk(c.g, n);
    if i == 0 {
      run := [Start(c.g)];
      Extend(c, run, Scanning(c.g, n, 0), n);
      run := run + [Scanning(c.g, n, 0)];
    } else {
      run := Scans(c, rank, n, i - 1);
      var s, e := Scanning(c.g, n, i - 1), c.g.ins[n][i - 1];
      assert UnitEdge(c.g.edges[e]) && !Ready(c.g, s, e);
      assert AfterQuick(c.g, s, n).th == Scanning(c.g, n, i).th;
      Extend(c, run, Scanning(c.g, n, i), n);
      run := run + [Scanning(c.g, n, i)];
    }
  }

  /** Node n stands between its scan and the first test, and the other nodes with in-edges have not begun. */
  predicate Parked(c: Config, s: State, n: nat) {
    && |s.th| == |c.g.ins| && n < |c.g.ins| && s.th[n].pc.QuickTest1? && s.th[n].fired == 0 && s.th[n].quits == 0
    && forall x :: 0 <= x < |c.g.ins| && c.g.ins[x] != [] && x != n ==> s.th[x].pc.User?
  }

  lemma Parks(c: Config, rank: seq<nat>, n: nat) returns (run: seq<State>)
    requires Pipeline(c, rank) && !c.atomicQuick && n < |c.g.ins| && c.g.ins[n] != []
    ensures Run(c, run) && Parked(c, run[|run| - 1], n)
  {
    run := Scans(c, rank, n, |c.g.ins[n]|);
    var s := Scanning(c.g, n, |c.g.ins[n]|);
    assert InsOk(c.g, n);
    Extend(c, run, AfterQuick(c.g, s, n), n);
    run := run + [AfterQuick(c.g, s, n)];
  }

  /** As long as a source has not terminated, some source has a step. */
  lemma SourceSteps(c: Config, s: State, n: nat, x: nat) returns (y: nat)
    requires c.client.Loop? && RoundsInv(c, s) && Parked(c, s, n)
    requires x < |c.g.ins| && c.g.ins[x] == [] && !s.th[x].stopped
    ensures y < |c.g.ins| && c.g.ins[y] == [] && exists s' :: ThreadStep(c, s, s', y)
  {
    var t := s.th[x];
    y := x;
    assert SourceOk(c.client.k, t) && ThreadOk(c.g, s, x);
    if t.pc.User? {
      CallsNext(c, s, x);
    } else if Waking(t.pc) {
      HolderSteps(c, s, x);
    } else if t.pc.WakeNext? && t.wake != [] {
      var l := t.wake[0];
      assert HolderOk(c.g, s, l);
      if s.lock[l] == FREE {
        LockSteps(c, s, x);
      } else {
        y := s.lock[l];
        HolderSteps(c, s, y);
      }
    } else {
      CallSteps(c, s, x);
    }
  }

  lemma CallsNext(c: Config, s: State, x: nat)
    requires c.client.Loop? && Basic(c.g, s) && x < |c.g.ins| && c.g.ins[x] == []
    requires SourceOk(c.client.k, s.th[x]) && s.th[x].pc.User? && !s.th[x].stopped
    ensures exists s' :: ThreadStep(c, s, s', x)
  {
    var quit := s.th[x].completed == c.client.k;
    assert CallProduce(c, s, AfterCall(s, x, quit), x, quit);
    assert ThreadStep(c, s, AfterCall(s, x, quit), x);
  }

  lemma StaysParked(c: Config, s: State, s': State, n: nat, y: nat)
    requires Parked(c, s, n) && ThreadStep(c, s, s', y) && c.g.ins[y] == [] && c.g.ins[n] != []
    ensures Parked(c, s', n)
  {
    forall x | 0 <= x < |c.g.ins| && x != y
      ensures |s'.th| == |c.g.ins| && (s'.th[x] == s.th[x] || s.th[x].pc.Asleep?)
    {
      OthersRely(c, s, s', y, x);
    }
    OthersRely(c, s, s', y, n);
  }

  /** All sources run to their end. */
  lemma {:induction false} SourcesFinish(c: Config, rank: seq<nat>, run: seq<State>, n: nat)
    returns (longer: seq<State>)
    requires Pipeline(c, rank) && Run(c, run) && n < |c.g.ins| && c.g.ins[n] != []
    requires Parked(c, run[|run| - 1], n)
    ensures Run(c, longer) && Parked(c, longer[|longer| - 1], n)
    ensures forall x :: 0 <= x < |c.g.ins| && c.g.ins[x] == [] ==> longer[|longer| - 1].th[x].stopped
    decreases if Sized(c.g, run[|run| - 1]) then Measure(c, run[|run| - 1]) else 0
  {
    var s := run[|run| - 1];
    TokenRounds.RunKept(c, run, |run| - 1);
    LoadNotNegative(c, rank, s, |s.th|);
    longer := run;
    if x :| 0 <= x < |c.g.ins| && c.g.ins[x] == [] && !s.th[x].stopped {
      var y := SourceSteps(c, s, n, x);
      var s' :| ThreadStep(c, s, s', y);
      StepLowers(c, s, s', y);
      StaysParked(c, s, s', n, y);
      Extend(c, run, s', y);
      longer := SourcesFinish(c, rank, run + [s'], n);
    }
  }

  /** Every edge into the parked node has signaled and holds k tokens. */
  lemma EdgeFull(c: Config, s: State, n: nat, e: nat)
    requires c.client.Loop? && RoundsInv(c, s) && Parked(c, s, n)
    requires e in c.g.ins[n] && e < |c.g.edges| && UnitEdge(c.g.edges[e])
    requires c.g.edges[e].producer < |c.g.ins| && c.g.ins[c.g.edges[e].producer] == []
    requires s.th[c.g.edges[e].producer].stopped
    ensures s.es[e].over && s.es[e].pending == c.client.k
  {
    var p := c.g.edges[e].producer;
    assert InsOk(c.g, n) && OutsOk(c.g, p) && EdgeOk(c.g, e) && T.OverOk(c.g, s, p) && SourceOk(c.client.k, s.th[p]);
    var j :| 0 <= j < |c.g.outs[p]| && c.g.outs[p][j] == e;
    var i :| 0 <= i < |c.g.ins[n]| && c.g.ins[n][i] == e;
    assert F.SentOk(c.g, s, p) && F.PassOk(c.g, s, n) && F.EdgePassOk(s.th[n], s.es[e], i) && F.Balanced(c.g, s, e);
  }

  /** The parked node now passes both tests. */
  lemma Leaves(c: Config, s: State, n: nat)
    requires c.client.Loop? && c.client.k > 0 && RoundsInv(c, s) && Parked(c, s, n) && c.g.ins[n] != [] && InsOk(c.g, n)
    requires forall j :: 0 <= j < |c.g.ins[n]| ==>
               && UnitEdge(c.g.edges[c.g.ins[n][j]])
               && s.es[c.g.ins[n][j]].over && s.es[c.g.ins[n][j]].pending == c.client.k
    ensures var s1 := AfterQuick(c.g, s, n);
            && ThreadStep(c, s, s1, n) && Sized(c.g, s1) && ThreadStep(c, s1, AfterQuick(c.g, s1, n), n)
            && LeavesEarly(c, s1, AfterQuick(c.g, s1, n), n)
  {
    assert T.CountOk(c.g, s, n);
    T.CountIsAllOver(c.g, s, n);
    T.ForwardCounted(c.g, c.g.ins[n], 0);
    var s1 := AfterQuick(c.g, s, n);
    assert s1.th[n].pc.QuickTest2? && s1.es == s.es && Ready(c.g, s1, c.g.ins[n][0]);
  }

  lemma {:induction false} EarlyInLonger(c: Config, run: seq<State>, longer: seq<State>, i: nat, j: nat)
    requires run <= longer && i < |run| && i <= j < |longer| && LeftEarly(c, run, i)
    ensures LeftEarly(c, longer, j)
    decreases j
  {
    if i < j {
      EarlyInLonger(c, run, longer, i, j - 1);
    } else if LeftEarly(c, run, i - 1) {
      EarlyInLonger(c, run, longer, i - 1, i - 1);
    }
  }

  /** If there is a token to lose, a run loses it. */
  lemma LosesToken(c: Config, rank: seq<nat>) returns (run: seq<State>)
    requires Pipeline(c, rank) && !c.atomicQuick && c.client.k > 0 && c.g.edges != []
    ensures Run(c, run) && AtRest(c, run[|run| - 1]) && !AllDrained(c, run[|run| - 1])
  {
    assert EdgeOk(c.g, 0);
    var n := BehindSources(c, rank, c.g.edges[0].consumer);
    var parked := Parks(c, rank, n);
    var full := SourcesFinish(c, rank, parked, n);
    var early := LeavesNow(c, rank, full, n);
    run := ComesToRest(c, rank, early);
    EarlyInLonger(c, early, run, |early| - 1, |run| - 1);
    DrainsIffNobodyLeftEarly(c, rank, run, |run| - 1);
  }

  lemma LeavesNow(c: Config, rank: seq<nat>, run: seq<State>, n: nat) returns (early: seq<State>)
    requires Pipeline(c, rank) && c.client.k > 0 && Run(c, run) && Parked(c, run[|run| - 1], n)
    requires c.g.ins[n] != [] && InsOk(c.g, n)
    requires forall j :: 0 <= j < |c.g.ins[n]| ==>
               c.g.edges[c.g.ins[n][j]].producer < |c.g.ins| && c.g.ins[c.g.edges[c.g.ins[n][j]].producer] == []
    requires forall x :: 0 <= x < |c.g.ins| && c.g.ins[x] == [] ==> run[|run| - 1].th[x].stopped
    ensures Run(c, early) && LeftEarly(c, early, |early| - 1)
  {
    var s := run[|run| - 1];
    TokenRounds.RunKept(c, run, |run| - 1);
    forall j | 0 <= j < |c.g.ins[n]|
      ensures UnitEdge(c.g.edges[c.g.ins[n][j]]) && s.es[c.g.ins[n][j]].over
      ensures s.es[c.g.ins[n][j]].pending == c.client.k
    {
      EdgeFull(c, s, n, c.g.ins[n][j]);
    }
    Leaves(c, s, n);
    var s1 := AfterQuick(c.g, s, n);
    var s2 := AfterQuick(c.g, s1, n);
    Extend(c, run, s1, n);
    Extend(c, run + [s1], s2, n);
    early := run + [s1] + [s2];
    assert SomeoneLeavesEarly(c, early[|early| - 2], early[|early| - 1]);
  }

  /**
    The lock-free evaluation in its real steps: a pipeline drains in all its runs if and only if its sources
    complete no round or it has no edge.
   */
  lemma AlwaysDrainsIffNoToken(c: Config, rank: seq<nat>)
    requires Pipeline(c, rank) && !c.atomicQuick
    ensures (forall run, i: nat :: Run(c, run) && i < |run| && AtRest(c, run[i]) ==> AllDrained(c, run[i]))
            <==> c.client.k == 0 || c.g.edges == []
  {
    if c.client.k == 0 || c.g.edges == [] {
      forall run, i: nat | Run(c, run) && i < |run| && AtRest(c, run[i]) ensures AllDrained(c, run[i]) {
        NeverEarly(c, rank, run, i);
        DrainsIffNobodyLeftEarly(c, rank, run, i);
      }
    } else {
      var run := LosesToken(c, rank);
    }
  }
}
