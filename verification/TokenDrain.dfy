/**
  The drain theorem: on a forward DAG of unit-rate edges, where every source completes k times and then
  terminates, a graph that has come to rest has fired every node exactly k times and terminated
  it, if and only if no node has left early: on the lock-free path, by the test of
  `nr_terminate_signals`, while an edge was ready again that the scan had found not ready.
 */
module TokenDrain {
  import opened TokenModel
  import opened TokenRely
  import opened TokenRounds
  import opened TokenRest
  import W = TokenWakeup
  import F = TokenConservation
  import T = TokenTermination
  import Y = TokenCycle

  /** The program points of `pgm_wait` before it has consumed or decided to terminate. */
  predicate Waiting(pc: Pc) {
    || pc.QuickScan? || pc.QuickTest1? || pc.QuickTest2?
    || pc.Acquire? || pc.LockedScan? || pc.LockedTest1? || pc.LockedTest2? || pc.CvWait? || pc.Asleep?
  }

  /** The guard at 3361 lets node n leave although a forward edge into it is ready. */
  predicate LeavesEarly(c: Config, s: State, s': State, n: nat) {
    && Sized(c.g, s) && n < |c.g.ins| && InsOk(c.g, n) && QuickStep(c.g, s, s', n)
    && s.th[n].pc.QuickTest2? && s.terms[n] == ForwardIns(c.g, c.g.ins[n]) && !NoForwardReady(c.g, s, n)
  }

  ghost predicate SomeoneLeavesEarly(c: Config, s: State, s': State) {
    exists n: nat :: LeavesEarly(c, s, s', n)
  }

  /** Thread t of a node with (`inner`) or without in-edges follows the loop, and leaves only after k rounds. */
  predicate LoopOk(k: nat, inner: bool, t: Thread) {
    && (if inner then Y.AlternateOk(t) else SourceOk(k, t))
    && (T.Leaving(t) ==> t.completed == k && (inner ==> t.fired == k))
  }

  /** The producer of an edge is in `pgm_complete` and still has to wake node n. */
  predicate Owes(s: State, p: nat, n: nat) {
    p < |s.th| && Producing(s.th[p].pc) && !s.th[p].quit && n in s.th[p].wake
  }

  /**
    An edge that the scan under the lock found not ready, and that is ready now, has a producer that still has to
    wake n.
   */
  predicate BlockedOk(g: Graph, s: State, n: nat)
    requires Sized(g, s) && n < |g.ins| && InsOk(g, n)
  {
    var t := s.th[n];
    (t.pc.LockedScan? && t.fwd == 0) || t.pc.LockedTest1? || t.pc.LockedTest2? ==>
      forall j :: 0 <= j < |g.ins[n]| && (t.pc.LockedScan? ==> j < t.i) && Ready(g, s, g.ins[n][j]) ==>
        Owes(s, g.edges[g.ins[n][j]].producer, n)
  }

  predicate DrainInv(c: Config, s: State)
    requires c.client.Loop?
  {
    && W.WakeInv(c.g, s) && RoundsInv(c, s)
    && (forall n :: 0 <= n < |c.g.ins| ==> LoopOk(c.client.k, c.g.ins[n] != [], s.th[n]))
    && (forall n :: 0 <= n < |c.g.ins| ==> BlockedOk(c.g, s, n))
  }

  // ------------------------------------------------------------ scan and lock

  lemma OwnBlocked(c: Config, rank: seq<nat>, s: State, s': State, n: nat)
    requires Pipeline(c, rank) && ThreadStep(c, s, s', n)
    requires ThreadOk(c.g, s, n) && BlockedOk(c.g, s, n) && Sized(c.g, s')
    ensures BlockedOk(c.g, s', n)
  {
    assert InsOk(c.g, n);
    if LockedStep(c.g, s, s', n) {
      match s.th[n].pc
      case LockedScan => OwnBlockedScan(c, rank, s, s', n);
      case LockedTest1 => assert s'.es == s.es;
      case _ =>
    } else {
      W.NotCommitted(c, s, s', n);
    }
  }

  lemma OwnBlockedScan(c: Config, rank: seq<nat>, s: State, s': State, n: nat)
    requires Pipeline(c, rank) && Sized(c.g, s) && n < |c.g.ins| && LockedStep(c.g, s, s', n) && s.th[n].pc.LockedScan?
    requires ThreadOk(c.g, s, n) && BlockedOk(c.g, s, n)
    ensures Sized(c.g, s') && BlockedOk(c.g, s', n)
  {
    assert InsOk(c.g, n) && s'.es == s.es;
    forall j | 0 <= j < |c.g.ins[n]| && (s'.th[n].pc.LockedScan? ==> j < s'.th[n].i)
      && ((s'.th[n].pc.LockedScan? && s'.th[n].fwd == 0) || s'.th[n].pc.LockedTest1? || s'.th[n].pc.LockedTest2?)
      && Ready(c.g, s', c.g.ins[n][j])
      ensures Owes(s', c.g.edges[c.g.ins[n][j]].producer, n)
    {
      assert Ready(c.g, s, c.g.ins[n][j]);
      assert UnitEdge(c.g.edges[c.g.ins[n][j]]);
      assert Owes(s, c.g.edges[c.g.ins[n][j]].producer, n);
    }
  }

  /** A producer can neither pay its debt to n, nor forget it, while n holds its lock. */
  lemma DebtStays(c: Config, s: State, s': State, t: nat, p: nat, n: nat)
    requires ThreadStep(c, s, s', t) && t != n && n < |c.g.ins| && Owes(s, p, n) && s.lock[n] == n
    ensures Owes(s', p, n)
  {
    if t != p { OthersRely(c, s, s', t, p); }
    else if SendStep(c.g, s, s', t) {}
    else if WakeStep(c.g, s, s', t) {}
  }

  lemma OtherBlocked(c: Config, rank: seq<nat>, s: State, s': State, t: nat, n: nat)
    requires Pipeline(c, rank) && ThreadStep(c, s, s', t) && t != n && n < |c.g.ins|
    requires ThreadOk(c.g, s, n) && BlockedOk(c.g, s, n) && ThreadOk(c.g, s, t)
    ensures Sized(c.g, s') && BlockedOk(c.g, s', n)
  {
    OthersRely(c, s, s', t, n);
    assert InsOk(c.g, n);
    var h := s'.th[n];
    if (h.pc.LockedScan? && h.fwd == 0) || h.pc.LockedTest1? || h.pc.LockedTest2? {
      forall j | 0 <= j < |c.g.ins[n]| && (h.pc.LockedScan? ==> j < h.i) && Ready(c.g, s', c.g.ins[n][j])
        ensures Owes(s', c.g.edges[c.g.ins[n][j]].producer, n)
      {
        var e := c.g.ins[n][j];
        if Ready(c.g, s, e) { DebtStays(c, s, s', t, c.g.edges[e].producer, n); }
        else { ReadyMakesDebt(c, s, s', t, e, n); }
      }
    }
  }

  /** Only the send loop makes an edge ready. */
  lemma OnlySendingReadies(c: Config, s: State, s': State, t: nat, e: nat)
    requires ThreadStep(c, s, s', t) && e < |c.g.edges| && c.g.edges[e].consumer != t
    ensures Sized(c.g, s')
    ensures Ready(c.g, s', e) && !Ready(c.g, s, e) ==> SendStep(c.g, s, s', t)
  {
    assert InsOk(c.g, t);
    if SendStep(c.g, s, s', t) {}
    else if WakeStep(c.g, s, s', t) { WakeCounts(c.g, s, s', t); }
    else if QuickStep(c.g, s, s', t) || LockedStep(c.g, s, s', t) { WaitCounts(c.g, s, s', t); }
    else if ConsumeStep(c.g, s, s', t) {}
    else if CallWait(c, s, s', t) {}
  }

  /** Making an edge ready puts its consumer on the list. */
  lemma ReadyMakesDebt(c: Config, s: State, s': State, t: nat, e: nat, n: nat)
    requires ThreadStep(c, s, s', t) && t != n && n < |c.g.ins| && Sized(c.g, s')
    requires e < |c.g.edges| && c.g.edges[e].consumer == n && !Ready(c.g, s, e) && Ready(c.g, s', e)
    ensures Owes(s', c.g.edges[e].producer, n)
  {
    OnlySendingReadies(c, s, s', t, e);
    assert OutsOk(c.g, t) && EdgeOk(c.g, e);
  }

  // ----------------------------------------------------------------- the loop

  /** A drained node whose producers have all terminated has seen as many tokens as they have sent: k. */
  lemma Drained(c: Config, rank: seq<nat>, s: State, n: nat)
    requires Pipeline(c, rank) && DrainInv(c, s) && n < |c.g.ins| && c.g.ins[n] != []
    requires Waiting(s.th[n].pc) || s.th[n].pc.User?
    requires !s.th[n].stopped && T.AllOver(c.g, s, n) && NoForwardReady(c.g, s, n)
    ensures s.th[n].fired == c.client.k
  {
    var e := c.g.ins[n][0];
    assert InsOk(c.g, n) && EdgeOk(c.g, e) && UnitEdge(c.g.edges[e]);
    var p := c.g.edges[e].producer;
    assert OutsOk(c.g, p);
    var j :| 0 <= j < |c.g.outs[p]| && c.g.outs[p][j] == e;
    assert T.OverOk(c.g, s, n) && T.OverOk(c.g, s, p) && s.es[e].over;
    assert F.PassOk(c.g, s, n) && s.es[e].taken == s.th[n].fired;
    assert F.SentOk(c.g, s, p) && s.es[e].sent == s.th[p].completed;
    assert F.Balanced(c.g, s, e) && !Ready(c.g, s, e);
    assert LoopOk(c.client.k, c.g.ins[p] != [], s.th[p]);
  }

  /** Leaving under the lock is leaving drained: a producer in debt could not have terminated. */
  lemma LockedExitDrained(c: Config, rank: seq<nat>, s: State, n: nat)
    requires Pipeline(c, rank) && DrainInv(c, s) && n < |c.g.ins| && s.th[n].pc.LockedTest2?
    requires s.terms[n] == ForwardIns(c.g, c.g.ins[n])
    ensures InsOk(c.g, n) && T.AllOver(c.g, s, n) && NoForwardReady(c.g, s, n)
  {
    T.CountIsAllOver(c.g, s, n);
    assert BlockedOk(c.g, s, n);
    forall j | 0 <= j < |c.g.ins[n]| ensures !Ready(c.g, s, c.g.ins[n][j]) {
      assert UnitEdge(c.g.edges[c.g.ins[n][j]]);
      T.SignaledByProducer(c.g, s, c.g.ins[n][j]);
    }
  }

  lemma OwnLoopRest(c: Config, s: State, s': State, n: nat)
    requires c.client.Loop? && ThreadStep(c, s, s', n) && T.OverOk(c.g, s, n)
    requires !CallWait(c, s, s', n) && !LockedStep(c.g, s, s', n) && !QuickStep(c.g, s, s', n)
    requires ThreadOk(c.g, s, n) && LoopOk(c.client.k, c.g.ins[n] != [], s.th[n])
    ensures Sized(c.g, s')
    ensures T.Leaving(s'.th[n]) ==>
              s'.th[n].completed == c.client.k && (c.g.ins[n] != [] ==> s'.th[n].fired == c.client.k)
  {
    assert InsOk(c.g, n) && OutsOk(c.g, n);
    if WakeStep(c.g, s, s', n) { WakeCounts(c.g, s, s', n); }
    else if SendStep(c.g, s, s', n) {}
    else if ConsumeStep(c.g, s, s', n) {}
  }

  lemma OwnLoop(c: Config, rank: seq<nat>, s: State, s': State, n: nat)
    requires Pipeline(c, rank) && DrainInv(c, s) && ThreadStep(c, s, s', n) && !LeavesEarly(c, s, s', n)
    ensures Sized(c.g, s')
    ensures T.Leaving(s'.th[n]) ==>
              s'.th[n].completed == c.client.k && (c.g.ins[n] != [] ==> s'.th[n].fired == c.client.k)
  {
    assert InsOk(c.g, n) && T.OverOk(c.g, s, n);
    assert LoopOk(c.client.k, c.g.ins[n] != [], s.th[n]);
    if CallWait(c, s, s', n) { OwnLoopCall(c, rank, s, s', n); }
    else if LockedStep(c.g, s, s', n) { OwnLoopLocked(c, rank, s, s', n); }
    else if QuickStep(c.g, s, s', n) { OwnLoopQuick(c, rank, s, s', n); }
    else { OwnLoopRest(c, s, s', n); }
  }

  lemma OwnLoopCall(c: Config, rank: seq<nat>, s: State, s': State, n: nat)
    requires Pipeline(c, rank) && DrainInv(c, s) && n < |c.g.ins| && InsOk(c.g, n) && CallWait(c, s, s', n)
    ensures Sized(c.g, s')
    ensures T.Leaving(s'.th[n]) ==>
              s'.th[n].completed == c.client.k && (c.g.ins[n] != [] ==> s'.th[n].fired == c.client.k)
  {
    assert LoopOk(c.client.k, c.g.ins[n] != [], s.th[n]) && T.OverOk(c.g, s, n);
    if Exhausted(c.g, s, n) {
      assert T.CountOk(c.g, s, n);
      T.CountIsAllOver(c.g, s, n);
      Drained(c, rank, s, n);
    }
  }

  lemma OwnLoopLocked(c: Config, rank: seq<nat>, s: State, s': State, n: nat)
    requires Pipeline(c, rank) && DrainInv(c, s) && n < |c.g.ins| && InsOk(c.g, n) && LockedStep(c.g, s, s', n)
    requires T.OverOk(c.g, s, n)
    ensures Sized(c.g, s')
    ensures T.Leaving(s'.th[n]) ==>
              s'.th[n].completed == c.client.k && (c.g.ins[n] != [] ==> s'.th[n].fired == c.client.k)
  {
    assert LoopOk(c.client.k, c.g.ins[n] != [], s.th[n]);
    if s.th[n].pc.LockedTest2? && s.terms[n] == ForwardIns(c.g, c.g.ins[n]) {
      LockedExitDrained(c, rank, s, n);
      Drained(c, rank, s, n);
    }
    WaitCounts(c.g, s, s', n);
  }

  lemma OwnLoopQuick(c: Config, rank: seq<nat>, s: State, s': State, n: nat)
    requires Pipeline(c, rank) && DrainInv(c, s) && n < |c.g.ins| && InsOk(c.g, n) && QuickStep(c.g, s, s', n)
    requires T.OverOk(c.g, s, n) && !LeavesEarly(c, s, s', n)
    ensures Sized(c.g, s')
    ensures T.Leaving(s'.th[n]) ==>
              s'.th[n].completed == c.client.k && (c.g.ins[n] != [] ==> s'.th[n].fired == c.client.k)
  {
    assert LoopOk(c.client.k, c.g.ins[n] != [], s.th[n]);
    if s.th[n].pc.QuickTest2? && s.terms[n] == ForwardIns(c.g, c.g.ins[n]) {
      assert T.CountOk(c.g, s, n);
      T.CountIsAllOver(c.g, s, n);
      Drained(c, rank, s, n);
    }
    WaitCounts(c.g, s, s', n);
  }

  // ------------------------------------------------------------ the invariant

  lemma NextKept(c: Config, rank: seq<nat>, s: State, s': State)
    requires Pipeline(c, rank) && DrainInv(c, s) && Next(c, s, s') && !SomeoneLeavesEarly(c, s, s')
    ensures DrainInv(c, s')
  {
    W.NextKept(c, s, s');
    TokenRounds.NextKept(c, s, s');
    var t: nat :| ThreadStep(c, s, s', t) || SpuriousWake(c, s, s', t);
    forall n | 0 <= n < |c.g.ins|
      ensures LoopOk(c.client.k, c.g.ins[n] != [], s'.th[n]) && BlockedOk(c.g, s', n)
    {
      ThreadKept(c, rank, s, s', t, n);
    }
  }

  lemma ThreadKept(c: Config, rank: seq<nat>, s: State, s': State, t: nat, n: nat)
    requires Pipeline(c, rank) && DrainInv(c, s) && RoundsInv(c, s') && n < |c.g.ins|
    requires (ThreadStep(c, s, s', t) && !LeavesEarly(c, s, s', t)) || SpuriousWake(c, s, s', t)
    ensures LoopOk(c.client.k, c.g.ins[n] != [], s'.th[n]) && BlockedOk(c.g, s', n)
  {
    assert LoopOk(c.client.k, c.g.ins[n] != [], s.th[n]) && BlockedOk(c.g, s, n) && ThreadOk(c.g, s, n);
    if SpuriousWake(c, s, s', t) {
      SpuriousBlocked(c, s, s', t, n);
    } else if n == t {
      OwnLoop(c, rank, s, s', n);
      OwnBlocked(c, rank, s, s', n);
    } else {
      OthersRely(c, s, s', t, n);
      OtherBlocked(c, rank, s, s', t, n);
    }
  }

  lemma SpuriousBlocked(c: Config, s: State, s': State, t: nat, n: nat)
    requires Basic(c.g, s) && SpuriousWake(c, s, s', t) && n < |c.g.ins| && BlockedOk(c.g, s, n)
    ensures Sized(c.g, s') && BlockedOk(c.g, s', n)
  {
    assert ThreadOk(c.g, s, t) && InsOk(c.g, n);
    assert forall p: nat :: Owes(s, p, n) ==> Owes(s', p, n);
    assert forall j :: 0 <= j < |c.g.ins[n]| ==> Ready(c.g, s', c.g.ins[n][j]) == Ready(c.g, s, c.g.ins[n][j]);
  }

  /** Some step before state i of the run was an early leave. */
  ghost predicate LeftEarly(c: Config, run: seq<State>, i: nat)
    requires i < |run|
  {
    i > 0 && (LeftEarly(c, run, i - 1) || SomeoneLeavesEarly(c, run[i - 1], run[i]))
  }

  lemma {:induction false} RunKept(c: Config, rank: seq<nat>, run: seq<State>, i: nat)
    requires Pipeline(c, rank) && Run(c, run) && i < |run| && !LeftEarly(c, run, i)
    ensures DrainInv(c, run[i])
  {
    if i == 0 {
      TokenRounds.RunKept(c, run, 0);
      W.RunKept(c, run, 0);
    } else {
      RunKept(c, rank, run, i - 1);
      assert StepAt(c, run, i - 1);
      NextKept(c, rank, run[i - 1], run[i]);
    }
  }

  // ----------------------------------------------------------------- progress

  /** The loop always has a next call, until the node has terminated. */
  lemma UserSteps(c: Config, rank: seq<nat>, s: State, n: nat)
    requires Pipeline(c, rank) && DrainInv(c, s) && n < |c.g.ins| && s.th[n].pc.User? && !s.th[n].stopped
    ensures exists s' :: ThreadStep(c, s, s', n)
  {
    var t := s.th[n];
    assert InsOk(c.g, n) && LoopOk(c.client.k, c.g.ins[n] != [], t);
    if c.g.ins[n] == [] || t.completed < t.fired {
      var quit := c.g.ins[n] == [] && t.completed == c.client.k;
      var s' := AfterCall(s, n, quit);
      assert CallProduce(c, s, s', n, quit);
      assert ThreadStep(c, s, s', n);
    } else {
      assert ThreadStep(c, s, AfterWaitCall(c, s, n), n);
    }
  }

  /** At rest every thread is asleep or has terminated. */
  lemma RestingThread(c: Config, rank: seq<nat>, s: State, n: nat)
    requires Pipeline(c, rank) && DrainInv(c, s) && AtRest(c, s) && n < |c.g.ins|
    ensures s.th[n].pc.Asleep? || (s.th[n].pc.User? && s.th[n].stopped)
    ensures s.th[n].wake == []
  {
    StillThread(c, s, n);
    if s.th[n].pc.User? && !s.th[n].stopped { UserSteps(c, rank, s, n); }
  }

  // ------------------------------------------------------------ drain theorem


  /** The state of an edge whose producer has terminated. */
  lemma EdgeAtRest(c: Config, rank: seq<nat>, s: State, e: nat)
    requires Pipeline(c, rank) && DrainInv(c, s) && e < |c.g.edges|
    requires var n, p := c.g.edges[e].consumer, c.g.edges[e].producer;
             n < |s.th| && s.th[n].pc.Asleep? && p < |s.th| && s.th[p].stopped
    ensures s.es[e].over && s.es[e].pending == c.client.k - s.th[c.g.edges[e].consumer].fired >= 0
    ensures s.es[e].skips == 0
  {
    var n, p := c.g.edges[e].consumer, c.g.edges[e].producer;
    assert EdgeOk(c.g, e) && UnitEdge(c.g.edges[e]) && InsOk(c.g, n) && OutsOk(c.g, p);
    var i :| 0 <= i < |c.g.ins[n]| && c.g.ins[n][i] == e;
    var j :| 0 <= j < |c.g.outs[p]| && c.g.outs[p][j] == e;
    assert T.OverOk(c.g, s, n) && T.OverOk(c.g, s, p);
    assert F.PassOk(c.g, s, n) && F.SentOk(c.g, s, p) && F.Balanced(c.g, s, e);
    assert LoopOk(c.client.k, c.g.ins[p] != [], s.th[p]);
  }

  /** A node that sleeps behind producers that have terminated could fire or terminate. */
  lemma CouldGoOn(c: Config, rank: seq<nat>, s: State, n: nat)
    requires Pipeline(c, rank) && DrainInv(c, s) && n < |c.g.ins| && InsOk(c.g, n) && s.th[n].pc.Asleep?
    requires forall j :: 0 <= j < |c.g.ins[n]| ==>
               c.g.edges[c.g.ins[n][j]].producer < |s.th| && s.th[c.g.edges[c.g.ins[n][j]].producer].stopped
    ensures AllReady(c.g, s, n) || Exhausted(c.g, s, n)
  {
    assert T.CountOk(c.g, s, n) && LoopOk(c.client.k, c.g.ins[n] != [], s.th[n]);
    T.CountIsAllOver(c.g, s, n);
    forall j | 0 <= j < |c.g.ins[n]|
      ensures UnitEdge(c.g.edges[c.g.ins[n][j]]) && s.es[c.g.ins[n][j]].over && s.es[c.g.ins[n][j]].skips == 0
      ensures s.es[c.g.ins[n][j]].pending == c.client.k - s.th[n].fired >= 0
    {
      EdgeAtRest(c, rank, s, c.g.ins[n][j]);
    }
    T.ForwardCounted(c.g, c.g.ins[n], 0);
    if s.th[n].fired < c.client.k {
      assert AllReady(c.g, s, n);
    } else {
      assert NoForwardReady(c.g, s, n);
    }
  }

  /** A node cannot sleep forever behind producers that have terminated. */
  lemma NotAsleep(c: Config, rank: seq<nat>, s: State, n: nat)
    requires Pipeline(c, rank) && DrainInv(c, s) && AtRest(c, s) && n < |c.g.ins| && InsOk(c.g, n)
    requires forall j :: 0 <= j < |c.g.ins[n]| ==>
               c.g.edges[c.g.ins[n][j]].producer < |s.th| && s.th[c.g.edges[c.g.ins[n][j]].producer].stopped
    ensures !s.th[n].pc.Asleep?
  {
    assert W.ReadyIsHeld(c.g, s, n) && W.ExhaustedIsHeld(c.g, s, n);
    NobodyHolds(c, s, n);
    if s.th[n].pc.Asleep? { CouldGoOn(c, rank, s, n); }
  }

  lemma {:induction false} Stopped(c: Config, rank: seq<nat>, s: State, n: nat)
    requires Pipeline(c, rank) && DrainInv(c, s) && AtRest(c, s) && n < |c.g.ins|
    ensures s.th[n].stopped
    decreases rank[n]
  {
    assert InsOk(c.g, n);
    forall j | 0 <= j < |c.g.ins[n]|
      ensures c.g.edges[c.g.ins[n][j]].producer < |s.th| && s.th[c.g.edges[c.g.ins[n][j]].producer].stopped
    {
      assert EdgeOk(c.g, c.g.ins[n][j]);
      Stopped(c, rank, s, c.g.edges[c.g.ins[n][j]].producer);
    }
    NotAsleep(c, rank, s, n);
    RestingThread(c, rank, s, n);
  }

  /**
    Every node has terminated, every source has completed k times, and every other node has fired and completed
    exactly k times.
   */
  predicate AllDrained(c: Config, s: State)
    requires c.client.Loop?
  {
    && |s.th| == |c.g.ins|
    && forall n :: 0 <= n < |c.g.ins| ==>
         s.th[n].stopped && s.th[n].completed == c.client.k && (c.g.ins[n] != [] ==> s.th[n].fired == c.client.k)
  }

  lemma RestDrained(c: Config, rank: seq<nat>, s: State)
    requires Pipeline(c, rank) && DrainInv(c, s) && AtRest(c, s)
    ensures AllDrained(c, s)
  {
    forall n | 0 <= n < |c.g.ins|
      ensures s.th[n].stopped && s.th[n].completed == c.client.k && (c.g.ins[n] != [] ==> s.th[n].fired == c.client.k)
    {
      Stopped(c, rank, s, n);
      assert LoopOk(c.client.k, c.g.ins[n] != [], s.th[n]);
    }
  }

  // ----------------------------------------------------------------- early leaves

  /** The thread has decided to terminate short of k rounds. */
  predicate Short(k: nat, t: Thread) {
    (t.quits > 0 || (t.pc.Skip? && t.quit)) && t.fired < k
  }

  /** A ready edge whose producers have all terminated holds what is missing. */
  lemma EarlyIsShort(c: Config, rank: seq<nat>, s: State, s': State, n: nat)
    requires Pipeline(c, rank) && DrainInv(c, s) && LeavesEarly(c, s, s', n)
    ensures Sized(c.g, s') && c.g.ins[n] != [] && Short(c.client.k, s'.th[n])
  {
    assert T.CountOk(c.g, s, n) && T.OverOk(c.g, s, n);
    T.CountIsAllOver(c.g, s, n);
    var i :| 0 <= i < |c.g.ins[n]| && !c.g.edges[c.g.ins[n][i]].backedge && Ready(c.g, s, c.g.ins[n][i]);
    var e := c.g.ins[n][i];
    T.SignaledByProducer(c.g, s, e);
    SentAll(c, s, e);
    assert UnitEdge(c.g.edges[e]) && F.PassOk(c.g, s, n) && F.EdgePassOk(s.th[n], s.es[e], i) && F.Balanced(c.g, s, e);
  }

  /** A producer that has signaled termination has delivered k times. */
  lemma SentAll(c: Config, s: State, e: nat)
    requires c.client.Loop? && DrainInv(c, s) && e < |c.g.edges| && s.es[e].over
    ensures s.es[e].sent == c.client.k
  {
    T.SignaledByProducer(c.g, s, e);
    assert EdgeOk(c.g, e);
    var p := c.g.edges[e].producer;
    assert OutsOk(c.g, p) && F.SentOk(c.g, s, p) && LoopOk(c.client.k, c.g.ins[p] != [], s.th[p]);
    var j :| 0 <= j < |c.g.outs[p]| && c.g.outs[p][j] == e;
  }

  lemma OwnShort(c: Config, s: State, s': State, n: nat)
    requires c.client.Loop? && ThreadStep(c, s, s', n) && T.OverOk(c.g, s, n) && Short(c.client.k, s.th[n])
    ensures Sized(c.g, s') && Short(c.client.k, s'.th[n])
  {
    assert InsOk(c.g, n);
    if WakeStep(c.g, s, s', n) { WakeCounts(c.g, s, s', n); }
    else if SendStep(c.g, s, s', n) {}
    else if ConsumeStep(c.g, s, s', n) {}
  }

  /** Some node with in-edges is short. */
  ghost predicate SomeoneShort(c: Config, s: State)
    requires c.client.Loop?
  {
    exists n: nat :: n < |c.g.ins| && c.g.ins[n] != [] && n < |s.th| && Short(c.client.k, s.th[n])
  }

  lemma ShortKept(c: Config, s: State, s': State)
    requires c.client.Loop? && RoundsInv(c, s) && Next(c, s, s') && SomeoneShort(c, s)
    ensures SomeoneShort(c, s')
  {
    var t: nat :| ThreadStep(c, s, s', t) || SpuriousWake(c, s, s', t);
    var n: nat :| n < |c.g.ins| && c.g.ins[n] != [] && n < |s.th| && Short(c.client.k, s.th[n]);
    assert T.OverOk(c.g, s, n);
    if ThreadStep(c, s, s', t) {
      if t == n { OwnShort(c, s, s', n); } else { OthersRely(c, s, s', t, n); }
    }
    assert Short(c.client.k, s'.th[n]);
  }

  lemma EarlyGivesShort(c: Config, rank: seq<nat>, s: State, s': State)
    requires Pipeline(c, rank) && DrainInv(c, s) && SomeoneLeavesEarly(c, s, s')
    ensures SomeoneShort(c, s')
  {
    var n: nat :| LeavesEarly(c, s, s', n);
    EarlyIsShort(c, rank, s, s', n);
  }

  /** The step from state i of a run to the next one. */
  lemma ShortNext(c: Config, rank: seq<nat>, run: seq<State>, i: nat)
    requires Pipeline(c, rank) && Run(c, run) && i + 1 < |run|
    ensures SomeoneShort(c, run[i]) ==> SomeoneShort(c, run[i + 1])
    ensures !LeftEarly(c, run, i) && SomeoneLeavesEarly(c, run[i], run[i + 1]) ==> SomeoneShort(c, run[i + 1])
  {
    assert StepAt(c, run, i);
    if SomeoneShort(c, run[i]) {
      TokenRounds.RunKept(c, run, i);
      ShortKept(c, run[i], run[i + 1]);
    } else if !LeftEarly(c, run, i) && SomeoneLeavesEarly(c, run[i], run[i + 1]) {
      RunKept(c, rank, run, i);
      EarlyGivesShort(c, rank, run[i], run[i + 1]);
    }
  }

  lemma {:induction false} EarlyStaysShort(c: Config, rank: seq<nat>, run: seq<State>, i: nat)
    requires Pipeline(c, rank) && Run(c, run) && i < |run| && LeftEarly(c, run, i)
    ensures SomeoneShort(c, run[i])
  {
    if LeftEarly(c, run, i - 1) { EarlyStaysShort(c, rank, run, i - 1); }
    ShortNext(c, rank, run, i - 1);
  }

  // -------------------------------------------------------------------- theorems

  /**
    Deadlock freedom and exact drain, with every evaluation edge by edge: a run that has come to rest has
    terminated every node after exactly k rounds if and only if no node has left early.
   */
  lemma DrainsIffNobodyLeftEarly(c: Config, rank: seq<nat>, run: seq<State>, i: nat)
    requires Pipeline(c, rank) && Run(c, run) && i < |run| && AtRest(c, run[i])
    ensures AllDrained(c, run[i]) <==> !LeftEarly(c, run, i)
  {
    if LeftEarly(c, run, i) {
      EarlyStaysShort(c, rank, run, i);
    } else {
      RunKept(c, rank, run, i);
      RestDrained(c, rank, run[i]);
    }
  }

  predicate NoneBetween(s: State) {
    forall n :: 0 <= n < |s.th| ==> !s.th[n].pc.QuickScan? && !s.th[n].pc.QuickTest1? && !s.th[n].pc.QuickTest2?
  }

  lemma StaysAtomic(c: Config, s: State, s': State)
    requires c.atomicQuick && Basic(c.g, s) && NoneBetween(s) && Next(c, s, s')
    ensures NoneBetween(s')
  {
    var t: nat :| ThreadStep(c, s, s', t) || SpuriousWake(c, s, s', t);
    if ThreadStep(c, s, s', t) {
      NotInBetween(c, s, s', t);
      forall n | 0 <= n < |c.g.ins| && n != t
        ensures !s'.th[n].pc.QuickScan? && !s'.th[n].pc.QuickTest1? && !s'.th[n].pc.QuickTest2?
      {
        OthersRely(c, s, s', t, n);
      }
    }
  }

  /** With an atomic lock-free evaluation nobody stands between its reads. */
  lemma {:induction false} NoneInBetween(c: Config, run: seq<State>, i: nat)
    requires c.atomicQuick && Run(c, run) && i < |run|
    ensures NoneBetween(run[i])
  {
    if i > 0 {
      NoneInBetween(c, run, i - 1);
      AtomicNext(c, run, i - 1);
    }
  }

  lemma AtomicNext(c: Config, run: seq<State>, i: nat)
    requires c.atomicQuick && Run(c, run) && i + 1 < |run| && NoneBetween(run[i])
    ensures NoneBetween(run[i + 1])
  {
    assert StepAt(c, run, i);
    F.RunBasic(c, run, i);
    StaysAtomic(c, run[i], run[i + 1]);
  }

  lemma NotInBetween(c: Config, s: State, s': State, n: nat)
    requires c.atomicQuick && ThreadStep(c, s, s', n)
    requires !s.th[n].pc.QuickScan? && !s.th[n].pc.QuickTest1? && !s.th[n].pc.QuickTest2?
    ensures Sized(c.g, s') && !s'.th[n].pc.QuickScan? && !s'.th[n].pc.QuickTest1? && !s'.th[n].pc.QuickTest2?
  {
    assert InsOk(c.g, n);
    if WakeStep(c.g, s, s', n) { WakeCounts(c.g, s, s', n); }
    else if LockedStep(c.g, s, s', n) { LockedNotBack(c.g, s, s', n); }
    else if ConsumeStep(c.g, s, s', n) {}
    else if SendStep(c.g, s, s', n) {}
    else if CallWait(c, s, s', n) {}
  }

  lemma LockedNotBack(g: Graph, s: State, s': State, n: nat)
    requires Sized(g, s) && n < |g.ins| && InsOk(g, n) && LockedStep(g, s, s', n)
    ensures Sized(g, s') && !s'.th[n].pc.QuickScan? && !s'.th[n].pc.QuickTest1? && !s'.th[n].pc.QuickTest2?
  {
    match s.th[n].pc
    case LockedScan =>
    case _ =>
  }

  lemma {:induction false} AtomicNeverEarly(c: Config, run: seq<State>, i: nat)
    requires c.atomicQuick && Run(c, run) && i < |run|
    ensures !LeftEarly(c, run, i)
  {
    if i > 0 {
      AtomicNeverEarly(c, run, i - 1);
      NoneInBetween(c, run, i - 1);
    }
  }

  /** If the lock-free evaluation is one step, every run that has come to rest has drained. */
  lemma DrainTheorem(c: Config, rank: seq<nat>, run: seq<State>, i: nat)
    requires Pipeline(c, rank) && c.atomicQuick && Run(c, run) && i < |run| && AtRest(c, run[i])
    ensures AllDrained(c, run[i])
  {
    AtomicNeverEarly(c, run, i);
    DrainsIffNobodyLeftEarly(c, rank, run, i);
  }
}
