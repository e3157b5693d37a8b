/**
  The rounds of a pipeline: a forward DAG of unit-rate edges on which every source completes k times and then
  terminates. In every run no edge carries, and no node fires, more than k times, and every
  step lowers a measure, so that every run comes to rest.
 */
module TokenRounds {
  import opened TokenModel
  import opened TokenRely
  import F = TokenConservation
  import T = TokenTermination
  import Y = TokenCycle
  import Modular

  predicate UnitEdge(d: Edge) {
    !d.backedge && d.produce == d.consume == d.threshold == 1 && d.init == 0 && d.skips == 0
  }

  /** A graph of unit edges without backedges, acyclic by the given ranks, driven by the loop of the examples. */
  predicate Pipeline(c: Config, rank: seq<nat>) {
    && GraphOk(c.g) && c.client.Loop?
    && (forall e :: 0 <= e < |c.g.edges| ==> UnitEdge(c.g.edges[e]))
    && |rank| == |c.g.ins|
    && (forall e :: 0 <= e < |c.g.edges| && c.g.edges[e].producer < |rank| && c.g.edges[e].consumer < |rank| ==>
          rank[c.g.edges[e].producer] < rank[c.g.edges[e].consumer])
  }

  /** The thread of a node without in-edges completes at most k times, and terminates after the k-th. */
  predicate SourceOk(k: nat, t: Thread) {
    && (t.pc.User? || Producing(t.pc))
    && (if Producing(t.pc) && !t.quit then t.completed < k else t.completed <= k)
    && (T.Terminating(t) ==> t.completed == k)
  }

  predicate RoundsInv(c: Config, s: State)
    requires c.client.Loop?
  {
    && Y.CycleInv(c.g, s)
    && (forall n :: 0 <= n < |c.g.ins| && c.g.ins[n] == [] ==> SourceOk(c.client.k, s.th[n]))
  }

  lemma OwnSource(c: Config, s: State, s': State, n: nat)
    requires c.client.Loop? && ThreadStep(c, s, s', n) && c.g.ins[n] == [] && SourceOk(c.client.k, s.th[n])
    requires T.OverOk(c.g, s, n)
    ensures Sized(c.g, s') && SourceOk(c.client.k, s'.th[n])
  {
    assert InsOk(c.g, n) && OutsOk(c.g, n);
    if WakeStep(c.g, s, s', n) { WakeCounts(c.g, s, s', n); }
    else if SendStep(c.g, s, s', n) {}
  }

  lemma NextKept(c: Config, s: State, s': State)
    requires c.client.Loop? && RoundsInv(c, s) && Next(c, s, s')
    ensures RoundsInv(c, s')
  {
    Y.NextKept(c, s, s');
    var t: nat :| ThreadStep(c, s, s', t) || SpuriousWake(c, s, s', t);
    forall n | 0 <= n < |c.g.ins| && c.g.ins[n] == [] ensures SourceOk(c.client.k, s'.th[n]) {
      assert SourceOk(c.client.k, s.th[n]) && T.OverOk(c.g, s, n);
      if SpuriousWake(c, s, s', t) {
      } else if n == t {
        OwnSource(c, s, s', n);
      } else {
        OthersRely(c, s, s', t, n);
      }
    }
  }

  lemma {:induction false} RunKept(c: Config, run: seq<State>, i: nat)
    requires c.client.Loop? && Run(c, run) && i < |run|
    ensures RoundsInv(c, run[i])
  {
    if i == 0 {
      Y.RunKept(c, run, 0);
    } else {
      RunKept(c, run, i - 1);
      assert StepAt(c, run, i - 1);
      NextKept(c, run[i - 1], run[i]);
    }
  }

  // ------------------------------------------------------------- at most k rounds

  /** Deliveries never get ahead of firings, nor firings of the deliveries on an in-edge. */
  lemma {:induction false} SentAtMost(c: Config, rank: seq<nat>, s: State, e: nat)
    requires Pipeline(c, rank) && RoundsInv(c, s) && e < |c.g.edges|
    ensures EdgeOk(c.g, e) && s.es[e].sent <= c.client.k
    decreases rank[c.g.edges[e].producer], 1
  {
    assert EdgeOk(c.g, e);
    var p := c.g.edges[e].producer;
    assert OutsOk(c.g, p) && F.SentOk(c.g, s, p);
    var j :| 0 <= j < |c.g.outs[p]| && c.g.outs[p][j] == e;
    if c.g.ins[p] == [] {
      assert SourceOk(c.client.k, s.th[p]);
    } else {
      FiredAtMost(c, rank, s, p);
      assert Y.AlternateOk(s.th[p]);
    }
  }

  /** The thread of a node with in-edges has fired, or is about to have fired, at most k times. */
  lemma {:induction false} FiredAtMost(c: Config, rank: seq<nat>, s: State, n: nat)
    requires Pipeline(c, rank) && RoundsInv(c, s) && n < |c.g.ins| && c.g.ins[n] != []
    ensures s.th[n].fired <= c.client.k
    ensures s.th[n].pc.Skip? && !s.th[n].quit ==> s.th[n].fired < c.client.k
    decreases rank[n], 0
  {
    assert InsOk(c.g, n);
    var e := c.g.ins[n][0];
    assert EdgeOk(c.g, e) && UnitEdge(c.g.edges[e]);
    SentAtMost(c, rank, s, e);
    assert F.PassOk(c.g, s, n) && F.EdgePassOk(s.th[n], s.es[e], 0) && F.Balanced(c.g, s, e);
  }

  // ------------------------------------------------------------------ the measure

  /** All lengths together bound each of them. */
  function Lengths(lists: seq<seq<nat>>): nat {
    if lists == [] then 0 else Lengths(lists[..|lists| - 1]) + |lists[|lists| - 1]|
  }

  lemma {:induction false} LengthAtMost(lists: seq<seq<nat>>, n: nat)
    requires n < |lists|
    ensures |lists[n]| <= Lengths(lists)
  {
    if n < |lists| - 1 { LengthAtMost(lists[..|lists| - 1], n); }
  }

  function Degree(g: Graph): nat {
    Lengths(g.ins) + Lengths(g.outs)
  }

  /** Steps that a woken consumer may make under its lock before it sleeps again, with m edges at most. */
  function Rescan(m: nat): nat {
    m + 5
  }

  /** Steps to wake one node, and those of the node woken. */
  function WakeCost(m: nat): nat {
    m + Rescan(m) + 6
  }

  /** Steps of one call of `pgm_complete` or `pgm_terminate`. */
  function CallCost(m: nat): nat {
    m * (WakeCost(m) + 1) + 3
  }

  /** Steps of one call of `pgm_wait`. */
  function WaitCost(m: nat): nat {
    4 * m + 16
  }

  /** What is left of the current call. */
  function Rest(m: nat, t: Thread): int {
    match t.pc
    case User => 0
    case QuickScan => 4 * m + 14 - t.i
    case QuickTest1 => 3 * m + 13
    case QuickTest2 => 3 * m + 12
    case Acquire => 3 * m + 11
    case LockedScan => 3 * m + 10 - t.i
    case LockedTest1 => 2 * m + 9
    case LockedTest2 => 2 * m + 8
    case CvWait => 2 * m + 7
    case Asleep => 2 * m + 6
    case Release => 2 * m + 5
    case Consume => 2 * m + 3 - t.i
    case Skip => m + 1 - t.i
    case Produce => (m - t.i) * (WakeCost(m) + 1) + |t.wake| * WakeCost(m) + 2
    case WakeNext => |t.wake| * WakeCost(m) + 1
    case WakeScan => |t.wake| * WakeCost(m) + Rescan(m) + 5 + m - t.i
    case WakeSignal => |t.wake| * WakeCost(m) + Rescan(m) + 3
    case WakeUnlock => |t.wake| * WakeCost(m) + 2
  }

  /** What is left of the round that the current call belongs to, and of the last one, in which the node terminates. */
  function Further(m: nat, t: Thread): int {
    if t.pc.User? then
      if t.stopped then 0
      else WaitCost(m) + CallCost(m) + if t.fired > t.completed then CallCost(m) else 0
    else if Producing(t.pc) then
      if t.quit then 0 else WaitCost(m) + CallCost(m)
    else CallCost(m)
  }

  /** What a thread with (`inner`) or without in-edges has left to do. */
  function Work(k: nat, m: nat, inner: bool, t: Thread): int {
    if inner then (k - t.fired) * (WaitCost(m) + CallCost(m)) + Further(m, t) + Rest(m, t)
    else (k - t.completed) * CallCost(m) + (if t.pc.User? && !t.stopped then CallCost(m) else 0) + Rest(m, t)
  }

  lemma Less(a: int, b: int)
    ensures (a - 1) * b == a * b - b && (a + 1) * b == a * b + b
  {
  }

  /** No node has more than m edges on a side. */
  predicate AtMost(g: Graph, m: nat) {
    forall x :: 0 <= x < |g.ins| && x < |g.outs| ==> |g.ins[x]| <= m && |g.outs[x]| <= m
  }

  /** A delivery or signal on one more edge; it may put the consumer on the list. */
  lemma SendRest(m: nat, t: Thread, t': Thread)
    requires t.pc.Produce? && t'.pc.Produce? && t'.i == t.i + 1 && |t'.wake| <= |t.wake| + 1
    ensures Rest(m, t') < Rest(m, t)
  {
    Less(m - t.i, WakeCost(m) + 1);
    Less(|t.wake|, WakeCost(m));
    Modular.Gap(WakeCost(m), |t'.wake|, |t.wake| + 1);
  }

  lemma SendDone(m: nat, t: Thread)
    requires t.pc.Produce? && t.i <= m
    ensures Rest(m, t.(pc := WakeNext)) < Rest(m, t)
  {
    Product(m - t.i, WakeCost(m) + 1);
  }

  lemma SendLowers(g: Graph, s: State, s': State, n: nat, m: nat)
    requires GraphOk(g) && Sized(g, s) && n < |g.ins| && ThreadOk(g, s, n) && SendStep(g, s, s', n) && AtMost(g, m)
    ensures Sized(g, s') && Producing(s'.th[n].pc) && Rest(m, s'.th[n]) < Rest(m, s.th[n])
    ensures s'.th[n] == s.th[n].(pc := s'.th[n].pc, i := s'.th[n].i, wake := s'.th[n].wake)
  {
    if s.th[n].i < |g.outs[n]| {
      assert EdgeOk(g, g.outs[n][s.th[n].i]);
      SendRest(m, s.th[n], s'.th[n]);
    } else {
      SendDone(m, s.th[n]);
    }
  }

  /** Taking the next node off the list pays for waking it. */
  lemma WakeRest(m: nat, t: Thread, t': Thread)
    requires t.pc.WakeNext? && t.wake != [] && t'.wake == t.wake[1..]
    requires (t'.pc.WakeScan? || t'.pc.WakeSignal?) && t'.i == 0
    ensures Rest(m, t') < Rest(m, t)
  {
    Less(|t.wake|, WakeCost(m));
  }

  lemma WakeLowers(g: Graph, s: State, s': State, n: nat, m: nat)
    requires GraphOk(g) && Sized(g, s) && n < |g.ins| && ThreadOk(g, s, n) && WakeStep(g, s, s', n) && AtMost(g, m)
    requires !s.th[n].pc.WakeNext? || s.th[n].wake != []
    ensures Sized(g, s') && Producing(s'.th[n].pc)
    ensures Rest(m, s'.th[n]) + (if s.th[n].pc.WakeSignal? then Rescan(m) else 0) < Rest(m, s.th[n])
  {
    if s.th[n].pc.WakeNext? {
      WakeRest(m, s.th[n], s'.th[n]);
    } else {
      assert |g.ins[s.th[n].target]| <= m;
      WakingRest(m, s.th[n], s'.th[n]);
    }
  }

  lemma WakingRest(m: nat, t: Thread, t': Thread)
    requires Waking(t.pc) && t'.wake == t.wake && (t.pc.WakeScan? ==> t.i <= m)
    requires
      match t.pc
      case WakeScan => if t'.pc.WakeScan? then t'.i == t.i + 1 else t'.pc.WakeSignal? || t'.pc.WakeUnlock?
      case WakeSignal => t'.pc.WakeUnlock?
      case _ => t'.pc.WakeNext?
    ensures Rest(m, t') + (if t.pc.WakeSignal? then Rescan(m) else 0) < Rest(m, t)
  {
  }

  lemma WaitLowers(g: Graph, s: State, s': State, n: nat, m: nat)
    requires GraphOk(g) && Sized(g, s) && n < |g.ins| && ThreadOk(g, s, n) && AtMost(g, m)
    requires QuickStep(g, s, s', n) || LockedStep(g, s, s', n)
    ensures Sized(g, s') && Rest(m, s'.th[n]) < Rest(m, s.th[n])
  {
    match s.th[n].pc
    case QuickScan =>
    case QuickTest1 =>
    case QuickTest2 =>
    case Acquire =>
    case LockedScan =>
    case LockedTest1 =>
    case LockedTest2 =>
    case CvWait =>
    case _ =>
  }

  lemma CallLowers(c: Config, s: State, s': State, n: nat, m: nat)
    requires c.client.Loop? && GraphOk(c.g) && Sized(c.g, s) && n < |c.g.ins| && ThreadOk(c.g, s, n)
    requires if c.g.ins[n] == [] then SourceOk(c.client.k, s.th[n]) else Y.AlternateOk(s.th[n])
    requires CallWait(c, s, s', n) || CallProduce(c, s, s', n, false) || CallProduce(c, s, s', n, true)
    ensures Sized(c.g, s')
    ensures Work(c.client.k, m, c.g.ins[n] != [], s'.th[n]) < Work(c.client.k, m, c.g.ins[n] != [], s.th[n])
  {
    assert s.th[n].wake == [];
    if CallWait(c, s, s', n) {
      assert s'.th[n].fired == s.th[n].fired && !Producing(s'.th[n].pc) && !s'.th[n].pc.User?;
      assert Rest(m, s'.th[n]) < WaitCost(m);
    } else {
      assert s'.th[n].pc.Produce? && s'.th[n].i == 0 && s'.th[n].fired == s.th[n].fired;
      assert Rest(m, s'.th[n]) == m * (WakeCost(m) + 1) + 2;
    }
  }

  lemma ConsumeLowers(c: Config, s: State, s': State, n: nat, m: nat)
    requires c.client.Loop? && GraphOk(c.g) && Sized(c.g, s) && n < |c.g.ins| && ThreadOk(c.g, s, n)
    requires c.g.ins[n] != [] && Y.AlternateOk(s.th[n]) && |c.g.ins[n]| <= m
    requires ConsumeStep(c.g, s, s', n) && !s.th[n].stopped
    ensures Sized(c.g, s') && Work(c.client.k, m, true, s'.th[n]) < Work(c.client.k, m, true, s.th[n])
  {
    assert InsOk(c.g, n) && s.th[n].wake == [];
    if s.th[n].i < |c.g.ins[n]| {
    } else if s.th[n].pc.Consume? {
    } else if s.th[n].quit {
      assert Rest(m, s'.th[n]) == m * (WakeCost(m) + 1) + 2;
    } else {
      Less(c.client.k - s.th[n].fired, WaitCost(m) + CallCost(m));
    }
  }

  /** The return from `pgm_complete` or `pgm_terminate`. */
  lemma ReturnLowers(k: nat, m: nat, inner: bool, t: Thread, t': Thread)
    requires t.pc.WakeNext? && t.wake == []
    requires if inner then Y.AlternateOk(t) else SourceOk(k, t)
    requires t' == if t.quit then t.(pc := User, stopped := true) else t.(pc := User, completed := t.completed + 1)
    ensures !t.stopped ==> Work(k, m, inner, t') < Work(k, m, inner, t)
  {
    Less(k - t.completed, CallCost(m));
  }

  lemma OwnWakeLowers(c: Config, s: State, s': State, n: nat, m: nat)
    requires c.client.Loop? && GraphOk(c.g) && Sized(c.g, s) && n < |c.g.ins| && WakeStep(c.g, s, s', n)
    requires ThreadOk(c.g, s, n) && !s.th[n].stopped && AtMost(c.g, m)
    requires if c.g.ins[n] == [] then SourceOk(c.client.k, s.th[n]) else Y.AlternateOk(s.th[n])
    ensures Sized(c.g, s')
    ensures var inner := c.g.ins[n] != [];
            Work(c.client.k, m, inner, s'.th[n]) + (if s.th[n].pc.WakeSignal? then Rescan(m) else 0)
            < Work(c.client.k, m, inner, s.th[n])
  {
    if s.th[n].pc.WakeNext? && s.th[n].wake == [] {
      ReturnLowers(c.client.k, m, c.g.ins[n] != [], s.th[n], s'.th[n]);
    } else {
      WakeCounts(c.g, s, s', n);
      WakeLowers(c.g, s, s', n, m);
    }
  }

  lemma OwnLowers(c: Config, s: State, s': State, n: nat, m: nat)
    requires c.client.Loop? && ThreadStep(c, s, s', n) && ThreadOk(c.g, s, n) && T.OverOk(c.g, s, n) && AtMost(c.g, m)
    requires if c.g.ins[n] == [] then SourceOk(c.client.k, s.th[n]) else Y.AlternateOk(s.th[n])
    ensures Sized(c.g, s')
    ensures var inner := c.g.ins[n] != [];
            Work(c.client.k, m, inner, s'.th[n]) + (if s.th[n].pc.WakeSignal? then Rescan(m) else 0)
            < Work(c.client.k, m, inner, s.th[n])
  {
    assert InsOk(c.g, n) && OutsOk(c.g, n);
    if ConsumeStep(c.g, s, s', n) {
      ConsumeLowers(c, s, s', n, m);
    } else if SendStep(c.g, s, s', n) {
      SendLowers(c.g, s, s', n, m);
    } else if WakeStep(c.g, s, s', n) {
      OwnWakeLowers(c, s, s', n, m);
    } else if QuickStep(c.g, s, s', n) || LockedStep(c.g, s, s', n) {
      WaitCounts(c.g, s, s', n);
      WaitLowers(c.g, s, s', n, m);
      Y.WaitNotUser(c.g, s, s', n);
    } else {
      CallLowers(c, s, s', n, m);
    }
  }

  /** Another thread changes only by being woken, which costs no more than waking it has gained. */
  lemma OthersWork(c: Config, s: State, s': State, n: nat)
    requires ThreadStep(c, s, s', n)
    ensures Sized(c.g, s')
    ensures s'.th == s.th[n := s'.th[n]] ||
            (s.th[n].pc.WakeSignal? && s.th[n].target < |s.th| && s.th[n].target != n &&
             s.th[s.th[n].target].pc.Asleep? &&
             s'.th == s.th[n := s'.th[n]][s.th[n].target := s.th[s.th[n].target].(pc := Acquire)])
  {
    assert InsOk(c.g, n);
    if WakeStep(c.g, s, s', n) {
    } else if SendStep(c.g, s, s', n) {
    } else if ConsumeStep(c.g, s, s', n) {
    } else if QuickStep(c.g, s, s', n) {
    } else if LockedStep(c.g, s, s', n) {
    } else if CallWait(c, s, s', n) {
    }
  }

  /** What the first `len` threads have left to do. */
  function Load(c: Config, th: seq<Thread>, len: nat): int
    requires c.client.Loop? && len <= |th| && |th| == |c.g.ins|
  {
    if len == 0 then 0
    else Load(c, th, len - 1) + Work(c.client.k, Degree(c.g), c.g.ins[len - 1] != [], th[len - 1])
  }

  lemma {:induction false} LoadPut(c: Config, th: seq<Thread>, n: nat, t: Thread, len: nat)
    requires c.client.Loop? && n < |th| && len <= |th| && |th| == |c.g.ins|
    ensures var k, m, inner := c.client.k, Degree(c.g), c.g.ins[n] != [];
            Load(c, th[n := t], len) ==
            Load(c, th, len) + if n < len then Work(k, m, inner, t) - Work(k, m, inner, th[n]) else 0
  {
    if len > 0 { LoadPut(c, th, n, t, len - 1); }
  }

  /** The measure: what all threads have left to do. */
  function Measure(c: Config, s: State): int
    requires c.client.Loop? && Sized(c.g, s)
  {
    Load(c, s.th, |s.th|)
  }

  lemma DegreeBounds(g: Graph)
    requires |g.ins| == |g.outs|
    ensures AtMost(g, Degree(g))
  {
    forall x | 0 <= x < |g.ins| ensures |g.ins[x]| <= Degree(g) && |g.outs[x]| <= Degree(g) {
      LengthAtMost(g.ins, x);
      LengthAtMost(g.outs, x);
    }
  }

  lemma LoadLowers(c: Config, th: seq<Thread>, th': seq<Thread>, n: nat)
    requires c.client.Loop? && |th| == |th'| == |c.g.ins| && n < |th|
    requires var inner, m := c.g.ins[n] != [], Degree(c.g);
             Work(c.client.k, m, inner, th'[n]) + (if th[n].pc.WakeSignal? then Rescan(m) else 0)
             < Work(c.client.k, m, inner, th[n])
    requires th' == th[n := th'[n]] ||
             (th[n].pc.WakeSignal? && th[n].target < |th| && th[n].target != n && c.g.ins[th[n].target] != [] &&
              th[th[n].target].pc.Asleep? && th' == th[n := th'[n]][th[n].target := th[th[n].target].(pc := Acquire)])
    ensures Load(c, th', |th|) < Load(c, th, |th|)
  {
    LoadPut(c, th, n, th'[n], |th|);
    if th' != th[n := th'[n]] {
      var x := th[n].target;
      LoadPut(c, th[n := th'[n]], x, th[x].(pc := Acquire), |th|);
      WokenWork(c.client.k, Degree(c.g), th[x]);
    }
  }

  lemma WokenWork(k: nat, m: nat, t: Thread)
    requires t.pc.Asleep?
    ensures Work(k, m, true, t.(pc := Acquire)) == Work(k, m, true, t) + Rescan(m)
  {
  }

  /** Every step of a thread lowers the measure; only a spurious wake-up raises it. */
  lemma StepLowers(c: Config, s: State, s': State, n: nat)
    requires c.client.Loop? && RoundsInv(c, s) && ThreadStep(c, s, s', n)
    ensures Sized(c.g, s') && Measure(c, s') < Measure(c, s)
  {
    DegreeBounds(c.g);
    assert T.OverOk(c.g, s, n);
    OwnLowers(c, s, s', n, Degree(c.g));
    OthersWork(c, s, s', n);
    if s'.th != s.th[n := s'.th[n]] {
      assert c.g.ins[s.th[n].target] == [] ==> SourceOk(c.client.k, s.th[s.th[n].target]);
    }
    LoadLowers(c, s.th, s'.th, n);
  }

  lemma PartsNotNegative(k: nat, m: nat, inner: bool, t: Thread)
    requires Rest(m, t) >= 0 && if inner then t.fired <= k else t.completed <= k
    ensures Work(k, m, inner, t) >= 0
  {
    if inner {
      Product(k - t.fired, WaitCost(m) + CallCost(m));
    } else {
      Product(k - t.completed, CallCost(m));
    }
  }

  lemma Product(a: nat, b: nat)
    ensures a * b >= 0
  {
  }

  lemma WorkNotNegative(c: Config, rank: seq<nat>, s: State, n: nat)
    requires Pipeline(c, rank) && RoundsInv(c, s) && n < |c.g.ins|
    ensures Work(c.client.k, Degree(c.g), c.g.ins[n] != [], s.th[n]) >= 0
  {
    DegreeBounds(c.g);
    assert ThreadOk(c.g, s, n);
    if c.g.ins[n] == [] {
      assert SourceOk(c.client.k, s.th[n]);
    } else {
      FiredAtMost(c, rank, s, n);
    }
    RestNotNegative(c.g, n, Degree(c.g), s.th[n]);
    PartsNotNegative(c.client.k, Degree(c.g), c.g.ins[n] != [], s.th[n]);
  }

  lemma RestNotNegative(g: Graph, n: nat, m: nat, t: Thread)
    requires |g.ins| == |g.outs| && n < |g.ins| && InRange(g, n, t) && AtMost(g, m)
    ensures Rest(m, t) >= 0
  {
    Product(|t.wake|, WakeCost(m));
    if t.pc.Produce? {
      Product(m - t.i, WakeCost(m) + 1);
    } else if t.pc.WakeScan? {
      assert |g.ins[t.target]| <= m;
    }
  }

  lemma {:induction false} LoadNotNegative(c: Config, rank: seq<nat>, s: State, len: nat)
    requires Pipeline(c, rank) && RoundsInv(c, s) && len <= |s.th|
    ensures Load(c, s.th, len) >= 0
  {
    if len > 0 {
      LoadNotNegative(c, rank, s, len - 1);
      WorkNotNegative(c, rank, s, len - 1);
    }
  }

  // ------------------------------------------------------------------------ rest

  /** No thread has a step left; sleeping threads have none unless they are woken. */
  ghost predicate AtRest(c: Config, s: State) {
    forall n: nat, s' :: !ThreadStep(c, s, s', n)
  }

  lemma Extend(c: Config, run: seq<State>, s: State, n: nat)
    requires Run(c, run) && ThreadStep(c, run[|run| - 1], s, n)
    ensures Run(c, run + [s])
  {
    var r := run + [s];
    forall k | 0 <= k < |r| - 1 ensures StepAt(c, r, k) {
      if k < |run| - 1 { assert StepAt(c, run, k); }
    }
  }

  /** A run that is not at rest goes on, and has less to do then. */
  lemma GoesOn(c: Config, rank: seq<nat>, run: seq<State>) returns (s': State)
    requires Pipeline(c, rank) && Run(c, run) && !AtRest(c, run[|run| - 1])
    ensures Run(c, run + [s']) && Sized(c.g, run[|run| - 1]) && Sized(c.g, s')
    ensures 0 <= Measure(c, s') < Measure(c, run[|run| - 1])
  {
    var s := run[|run| - 1];
    RunKept(c, run, |run| - 1);
    var n: nat, next :| ThreadStep(c, s, next, n);
    s' := next;
    StepLowers(c, s, s', n);
    Extend(c, run, s', n);
    MeasureNotNegative(c, rank, run + [s']);
  }

  lemma MeasureNotNegative(c: Config, rank: seq<nat>, run: seq<State>)
    requires Pipeline(c, rank) && Run(c, run)
    ensures Sized(c.g, run[|run| - 1]) && Measure(c, run[|run| - 1]) >= 0
  {
    RunKept(c, run, |run| - 1);
    LoadNotNegative(c, rank, run[|run| - 1], |run[|run| - 1].th|);
  }

  /**
    Every run can be continued to a state of rest, and without spurious wake-ups within as many steps as the measure
    says.
   */
  lemma {:induction false} ComesToRest(c: Config, rank: seq<nat>, run: seq<State>) returns (longer: seq<State>)
    requires Pipeline(c, rank) && Run(c, run)
    ensures Run(c, longer) && run <= longer && AtRest(c, longer[|longer| - 1])
    ensures Sized(c.g, run[|run| - 1]) && |longer| - |run| <= Measure(c, run[|run| - 1])
    decreases if Sized(c.g, run[|run| - 1]) then Measure(c, run[|run| - 1]) else 0
  {
    MeasureNotNegative(c, rank, run);
    longer := run;
    if !AtRest(c, run[|run| - 1]) {
      var s' := GoesOn(c, rank, run);
      longer := ComesToRest(c, rank, run + [s']);
    }
  }
}
