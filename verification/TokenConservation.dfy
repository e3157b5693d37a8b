/**
  Tokens are conserved and never underflow: `nr_pending` is always what was there
  initially, plus what was delivered, minus what was taken.
 */
module TokenConservation {
  import opened TokenModel
  import opened TokenRely

  function Positive(x: int): nat {
    if x < 0 then 0 else x
  }

  /** The balance of an edge: a pass of the consumer uses up a skip as long as there are any, then tokens. */
  predicate Balanced(g: Graph, s: State, e: nat)
    requires Sized(g, s) && e < |g.edges|
  {
    var d, f := g.edges[e], s.es[e];
    && f.skips == Positive(d.skips - f.taken)
    && f.pending == d.init + d.produce * f.sent - d.consume * Positive(f.taken - d.skips)
    && f.pending >= 0
  }

  /** What the scans have established, up to the consumption: an edge found ready stays ready until it is consumed. */
  predicate ScanOk(g: Graph, s: State, n: nat)
    requires Sized(g, s) && n < |g.ins| && InsOk(g, n)
  {
    var t := s.th[n];
    && (t.pc.QuickScan? || t.pc.LockedScan? ==>
          t.nr == t.i ==> forall j :: 0 <= j < t.i && j < |g.ins[n]| ==> Ready(g, s, g.ins[n][j]))
    && (t.pc.Release? && !t.quit ==> AllReady(g, s, n))
    && (t.pc.Consume? ==> forall j :: t.i <= j < |g.ins[n]| ==> Ready(g, s, g.ins[n][j]))
  }

  /** How often the consumer, thread t, has passed an in-edge with flow f, listed at position j, to fire. */
  function Passes(t: Thread, f: Flow, j: nat): nat {
    match t.pc
    case Consume => t.fired + if j < t.i && f.skips == 0 then 1 else 0
    case Skip => t.fired + if !t.quit && (j < t.i || f.skips == 0) then 1 else 0
    case _ => t.fired
  }

  /** How often it has come by that edge to terminate, which uses up a skip if there is one and is no pass otherwise. */
  function Visits(t: Thread, j: nat): nat {
    t.quits + if t.pc.Skip? && t.quit && j < t.i then 1 else 0
  }

  /** Every firing is one pass of every in-edge; so is every visit to terminate, as long as skips are left. */
  predicate PassOk(g: Graph, s: State, n: nat)
    requires Sized(g, s) && n < |g.ins| && InsOk(g, n)
  {
    forall j :: 0 <= j < |g.ins[n]| ==> EdgePassOk(s.th[n], s.es[g.ins[n][j]], j)
  }

  predicate EdgePassOk(t: Thread, f: Flow, j: nat) {
    && Passes(t, f, j) <= f.taken <= Passes(t, f, j) + Visits(t, j)
    && (f.skips > 0 ==> f.taken == Passes(t, f, j) + Visits(t, j))
  }

  /** How often thread t has delivered on the out-edge listed at position j. */
  function Deliveries(t: Thread, j: nat): nat {
    t.completed + if !t.quit && ((t.pc.Produce? && j < t.i) || t.pc.WakeNext? || Waking(t.pc)) then 1 else 0
  }

  predicate SentOk(g: Graph, s: State, n: nat)
    requires Sized(g, s) && |g.outs| == |g.ins| && n < |g.ins| && OutsOk(g, n)
  {
    forall j :: 0 <= j < |g.outs[n]| ==> s.es[g.outs[n][j]].sent == Deliveries(s.th[n], j)
  }

  predicate FlowInv(g: Graph, s: State) {
    && Basic(g, s)
    && (forall e :: 0 <= e < |g.edges| ==> Balanced(g, s, e))
    && (forall n :: 0 <= n < |g.ins| ==> ScanOk(g, s, n) && PassOk(g, s, n) && SentOk(g, s, n))
  }

  // ------------------------------------------------------------------ balance

  /** Consuming an edge that is ready and has no skips takes tokens that are there. */
  lemma ConsumeBalanced(g: Graph, s: State, s': State, n: nat, e: nat)
    requires GraphOk(g) && Sized(g, s) && n < |g.ins| && ConsumeStep(g, s, s', n) && ScanOk(g, s, n)
    requires e < |g.edges| && Balanced(g, s, e)
    ensures Sized(g, s') && Balanced(g, s', e)
  {
    assert InsOk(g, n) && EdgeOk(g, e);
    var d, f := g.edges[e], s.es[e];
    if s.th[n].pc.Consume? && s.th[n].i < |g.ins[n]| && g.ins[n][s.th[n].i] == e && f.skips == 0 {
      assert Ready(g, s, e);
      assert Positive(f.taken + 1 - d.skips) == Positive(f.taken - d.skips) + 1;
    }
  }

  lemma SendBalanced(g: Graph, s: State, s': State, n: nat, e: nat)
    requires GraphOk(g) && Sized(g, s) && n < |g.ins| && SendStep(g, s, s', n) && e < |g.edges| && Balanced(g, s, e)
    ensures Sized(g, s') && Balanced(g, s', e)
  {
    assert EdgeOk(g, e);
    var d, f := g.edges[e], s.es[e];
    assert d.produce * (f.sent + 1) == d.produce * f.sent + d.produce;
  }

  lemma StepBalanced(c: Config, s: State, s': State, n: nat, e: nat)
    requires ThreadStep(c, s, s', n) && ScanOk(c.g, s, n) && e < |c.g.edges| && Balanced(c.g, s, e)
    ensures Sized(c.g, s') && Balanced(c.g, s', e)
  {
    if ConsumeStep(c.g, s, s', n) { ConsumeBalanced(c.g, s, s', n, e); }
    else if SendStep(c.g, s, s', n) { SendBalanced(c.g, s, s', n, e); }
    else { NoFlow(c, s, s', n); }
  }

  /** The other steps leave the edges alone. */
  lemma NoFlow(c: Config, s: State, s': State, n: nat)
    requires ThreadStep(c, s, s', n) && !ConsumeStep(c.g, s, s', n) && !SendStep(c.g, s, s', n)
    ensures Sized(c.g, s') && s'.es == s.es
  {
    if CallWait(c, s, s', n) {
    } else if QuickStep(c.g, s, s', n) {
    } else if LockedStep(c.g, s, s', n) {
    } else if WakeStep(c.g, s, s', n) {
    }
  }

  // ---------------------------------------------------------------- own steps

  lemma ConsumeKeepsScan(g: Graph, s: State, s': State, n: nat)
    requires GraphOk(g) && Sized(g, s) && n < |g.ins| && ConsumeStep(g, s, s', n) && ScanOk(g, s, n)
    ensures Sized(g, s') && ScanOk(g, s', n)
  {
    assert InsOk(g, n);
    var t := s.th[n];
    if t.i < |g.ins[n]| {
      assert forall j :: 0 <= j < |g.ins[n]| && j != t.i ==> s'.es[g.ins[n][j]] == s.es[g.ins[n][j]];
    } else {
      assert s'.es == s.es;
    }
  }

  /** `pgm_consume_tokens` and `pgm_consume_skips` together pass every in-edge once. */
  lemma ConsumeKeepsPass(g: Graph, s: State, s': State, n: nat)
    requires GraphOk(g) && Sized(g, s) && n < |g.ins| && ConsumeStep(g, s, s', n)
    requires ThreadOk(g, s, n) && PassOk(g, s, n)
    ensures Sized(g, s') && PassOk(g, s', n)
  {
    assert InsOk(g, n);
    var t := s.th[n];
    forall j | 0 <= j < |g.ins[n]| ensures EdgePassOk(s'.th[n], s'.es[g.ins[n][j]], j) {
      assert EdgePassOk(t, s.es[g.ins[n][j]], j);
      if j != t.i || t.i == |g.ins[n]| {
        assert s'.es[g.ins[n][j]] == s.es[g.ins[n][j]];
      }
    }
  }

  lemma QuickKeeps(g: Graph, s: State, s': State, n: nat)
    requires GraphOk(g) && Sized(g, s) && n < |g.ins| && QuickStep(g, s, s', n)
    requires ThreadOk(g, s, n) && ScanOk(g, s, n)
    ensures Sized(g, s') && s'.es == s.es && ScanOk(g, s', n)
  {
    assert InsOk(g, n) && s'.es == s.es;
    match s.th[n].pc
    case QuickScan =>
      if s.th[n].i < |g.ins[n]| {}
    case QuickTest1 =>
    case _ =>
  }

  lemma LockedKeeps(g: Graph, s: State, s': State, n: nat)
    requires |g.ins| == |g.outs| && Sized(g, s) && n < |g.ins| && InsOk(g, n) && LockedStep(g, s, s', n)
    requires ThreadOk(g, s, n) && ScanOk(g, s, n)
    ensures Sized(g, s') && s'.es == s.es && ScanOk(g, s', n)
  {
    match s.th[n].pc
    case Acquire =>
    case LockedScan =>
    case LockedTest1 =>
    case LockedTest2 =>
    case CvWait =>
    case _ =>
  }

  /** The send loop delivers once on every out-edge, in order. */
  lemma SendKeeps(g: Graph, s: State, s': State, n: nat)
    requires GraphOk(g) && Sized(g, s) && n < |g.ins| && SendStep(g, s, s', n) && ThreadOk(g, s, n) && SentOk(g, s, n)
    ensures Sized(g, s') && SentOk(g, s', n)
  {
    assert OutsOk(g, n);
  }

  lemma WaitCallKeeps(c: Config, s: State, s': State, n: nat)
    requires GraphOk(c.g) && Sized(c.g, s) && n < |c.g.ins| && InsOk(c.g, n) && CallWait(c, s, s', n)
    requires PassOk(c.g, s, n) && SentOk(c.g, s, n)
    ensures Sized(c.g, s') && s'.es == s.es && ScanOk(c.g, s', n) && PassOk(c.g, s', n) && SentOk(c.g, s', n)
  {
    assert s'.es == s.es && OutsOk(c.g, n);
    CallCountsKeep(c.g, s, s', n);
  }

  lemma CallCountsKeep(g: Graph, s: State, s': State, n: nat)
    requires GraphOk(g) && Sized(g, s) && Sized(g, s') && s'.es == s.es && n < |g.ins|
    requires var t, t' := s.th[n], s'.th[n];
             && t.pc.User? && t'.fired == t.fired && t'.quits == t.quits && t'.completed == t.completed
             && !t'.pc.WakeNext? && !Waking(t'.pc)
             && (t'.pc.Consume? || t'.pc.Skip? || t'.pc.Produce? ==> t'.i == 0) && (t'.pc.Skip? ==> t'.quit)
    requires PassOk(g, s, n) && SentOk(g, s, n)
    ensures PassOk(g, s', n) && SentOk(g, s', n)
  {
    assert InsOk(g, n) && OutsOk(g, n);
    forall j | 0 <= j < |g.ins[n]| ensures EdgePassOk(s'.th[n], s'.es[g.ins[n][j]], j) {
      assert EdgePassOk(s.th[n], s.es[g.ins[n][j]], j);
    }
  }

  lemma CallKeeps(c: Config, s: State, s': State, n: nat)
    requires GraphOk(c.g) && Sized(c.g, s) && n < |c.g.ins|
    requires CallWait(c, s, s', n) || CallProduce(c, s, s', n, false) || CallProduce(c, s, s', n, true)
    requires PassOk(c.g, s, n) && SentOk(c.g, s, n)
    ensures Sized(c.g, s') && ScanOk(c.g, s', n) && PassOk(c.g, s', n) && SentOk(c.g, s', n)
  {
    assert InsOk(c.g, n) && OutsOk(c.g, n);
    if CallWait(c, s, s', n) {
      WaitCallKeeps(c, s, s', n);
    } else {
      CallCountsKeep(c.g, s, s', n);
    }
  }

  lemma WaitKeeps(g: Graph, s: State, s': State, n: nat)
    requires GraphOk(g) && Sized(g, s) && n < |g.ins| && (QuickStep(g, s, s', n) || LockedStep(g, s, s', n))
    requires Sized(g, s') && s'.es == s.es && PassOk(g, s, n) && SentOk(g, s, n)
    ensures PassOk(g, s', n) && SentOk(g, s', n)
  {
    WaitCounts(g, s, s', n);
    CountsKeep(g, s, s', n);
  }

  lemma CountsKeep(g: Graph, s: State, s': State, n: nat)
    requires GraphOk(g) && Sized(g, s) && Sized(g, s') && s'.es == s.es && n < |g.ins|
    requires var t, t' := s.th[n], s'.th[n];
             && t'.fired == t.fired && t'.quits == t.quits && t'.completed == t.completed
             && !t.pc.Consume? && !t.pc.Skip? && !Producing(t.pc) && !Producing(t'.pc)
             && (t'.pc.Consume? || t'.pc.Skip? ==> t'.i == 0) && (t'.pc.Skip? ==> t'.quit)
    requires PassOk(g, s, n) && SentOk(g, s, n)
    ensures PassOk(g, s', n) && SentOk(g, s', n)
  {
    assert InsOk(g, n) && OutsOk(g, n);
  }

  lemma WakeKeeps(g: Graph, s: State, s': State, n: nat)
    requires GraphOk(g) && Sized(g, s) && n < |g.ins| && WakeStep(g, s, s', n)
    requires PassOk(g, s, n) && SentOk(g, s, n)
    ensures Sized(g, s') && ScanOk(g, s', n) && PassOk(g, s', n) && SentOk(g, s', n)
  {
    WakeCounts(g, s, s', n);
    WokenKeep(g, s, s', n);
  }

  lemma WokenKeep(g: Graph, s: State, s': State, n: nat)
    requires GraphOk(g) && Sized(g, s) && Sized(g, s') && s'.es == s.es && n < |g.ins|
    requires var t, t' := s.th[n], s'.th[n];
             && t'.fired == t.fired && t'.quits == t.quits
             && (t.pc.WakeNext? || Waking(t.pc)) && (t'.pc.WakeNext? || Waking(t'.pc) || t'.pc.User?)
             && t'.completed == t.completed + (if t'.pc.User? && !t.quit then 1 else 0) && t'.quit == t.quit
    requires PassOk(g, s, n) && SentOk(g, s, n)
    ensures ScanOk(g, s', n) && PassOk(g, s', n) && SentOk(g, s', n)
  {
    assert InsOk(g, n) && OutsOk(g, n);
  }

  lemma OwnKeeps(c: Config, s: State, s': State, n: nat)
    requires ThreadStep(c, s, s', n) && ThreadOk(c.g, s, n)
    requires ScanOk(c.g, s, n) && PassOk(c.g, s, n) && SentOk(c.g, s, n)
    ensures Sized(c.g, s') && ScanOk(c.g, s', n) && PassOk(c.g, s', n) && SentOk(c.g, s', n)
  {
    if ConsumeStep(c.g, s, s', n) {
      ConsumeKeepsScan(c.g, s, s', n);
      ConsumeKeepsPass(c.g, s, s', n);
      ConsumeKeepsSent(c.g, s, s', n);
    }
    else if SendStep(c.g, s, s', n) { SendKeeps(c.g, s, s', n); SendKeepsPass(c.g, s, s', n); }
    else if QuickStep(c.g, s, s', n) { QuickKeeps(c.g, s, s', n); WaitKeeps(c.g, s, s', n); }
    else if LockedStep(c.g, s, s', n) { LockedKeeps(c.g, s, s', n); WaitKeeps(c.g, s, s', n); }
    else if WakeStep(c.g, s, s', n) { WakeKeeps(c.g, s, s', n); }
    else { CallKeeps(c, s, s', n); }
  }

  lemma ConsumeKeepsSent(g: Graph, s: State, s': State, n: nat)
    requires GraphOk(g) && Sized(g, s) && n < |g.ins| && ConsumeStep(g, s, s', n) && SentOk(g, s, n)
    ensures Sized(g, s') && SentOk(g, s', n)
  {
    assert InsOk(g, n) && OutsOk(g, n);
  }

  lemma SendKeepsPass(g: Graph, s: State, s': State, n: nat)
    requires GraphOk(g) && Sized(g, s) && n < |g.ins| && SendStep(g, s, s', n) && PassOk(g, s, n)
    ensures Sized(g, s') && ScanOk(g, s', n) && PassOk(g, s', n)
  {
    assert InsOk(g, n) && OutsOk(g, n);
  }

  lemma OthersKeep(c: Config, s: State, s': State, n: nat)
    requires GraphOk(c.g) && Sized(c.g, s) && n < |c.g.ins| && Rely(c.g, s, s', n)
    requires ScanOk(c.g, s, n) && PassOk(c.g, s, n) && SentOk(c.g, s, n)
    ensures ScanOk(c.g, s', n) && PassOk(c.g, s', n) && SentOk(c.g, s', n)
  {
    assert InsOk(c.g, n) && OutsOk(c.g, n);
  }

  // ------------------------------------------------------------ the invariant

  lemma NextKeeps(c: Config, s: State, s': State)
    requires FlowInv(c.g, s) && Next(c, s, s')
    ensures FlowInv(c.g, s')
  {
    var t: nat :| ThreadStep(c, s, s', t) || SpuriousWake(c, s, s', t);
    if SpuriousWake(c, s, s', t) {
      SpuriousRely(c, s, s', t);
      forall n | 0 <= n < |c.g.ins| ensures ScanOk(c.g, s', n) && PassOk(c.g, s', n) && SentOk(c.g, s', n) {
        OthersKeep(c, s, s', n);
      }
      assert forall e :: 0 <= e < |c.g.edges| ==> Balanced(c.g, s', e) == Balanced(c.g, s, e);
    } else {
      BasicKept(c, s, s', t);
      forall n | 0 <= n < |c.g.ins| ensures ScanOk(c.g, s', n) && PassOk(c.g, s', n) && SentOk(c.g, s', n) {
        if n == t { OwnKeeps(c, s, s', n); } else { OthersRely(c, s, s', t, n); OthersKeep(c, s, s', n); }
      }
      forall e | 0 <= e < |c.g.edges| ensures Balanced(c.g, s', e) { StepBalanced(c, s, s', t, e); }
    }
  }

  lemma {:induction false} RunKeeps(c: Config, run: seq<State>, k: nat)
    requires Run(c, run) && k < |run|
    ensures FlowInv(c.g, run[k])
  {
    if k == 0 {
      BasicInit(c.g, run[0]);
      forall n | 0 <= n < |c.g.ins| ensures ScanOk(c.g, run[0], n) && PassOk(c.g, run[0], n) && SentOk(c.g, run[0], n) {
        assert InsOk(c.g, n) && OutsOk(c.g, n);
      }
    } else {
      RunKeeps(c, run, k - 1);
      assert StepAt(c, run, k - 1);
      NextKeeps(c, run[k - 1], run[k]);
    }
  }

  lemma RunBasic(c: Config, run: seq<State>, k: nat)
    requires Run(c, run) && k < |run|
    ensures Basic(c.g, run[k])
  {
    RunKeeps(c, run, k);
  }

  // ----------------------------------------------------------------- theorems

  /**
    In every state of every run the tokens on an edge are the initial ones, plus `nr_produce`
    for each delivery, minus `nr_consume` for each pass of the consumer beyond the initial
    skips, and never fewer than zero.
   */
  lemma TokensConserved(c: Config, run: seq<State>, k: nat, e: nat)
    requires Run(c, run) && k < |run| && e < |c.g.edges|
    ensures Basic(c.g, run[k])
    ensures var d, f := c.g.edges[e], run[k].es[e];
            && f.pending >= 0
            && f.pending == d.init + d.produce * f.sent - d.consume * Positive(f.taken - d.skips)
            && f.skips == Positive(d.skips - f.taken)
  {
    RunKeeps(c, run, k);
    assert Balanced(c.g, run[k], e);
  }

  /**
    The counts behind the balance, between calls. Every in-edge of a node has been passed once for each
    wait that returned 0. A wait that returned PGM_TERMINATE has passed it at most once, and each
    one has while skips are left. Every out-edge has received one delivery for each
    completed call of `pgm_complete`.
   */
  lemma FiringsCounted(c: Config, run: seq<State>, k: nat, n: nat)
    requires Run(c, run) && k < |run| && n < |c.g.ins|
    ensures Basic(c.g, run[k]) && InsOk(c.g, n) && OutsOk(c.g, n)
    ensures var t := run[k].th[n];
            && (t.pc == User ==>
                  forall j :: 0 <= j < |c.g.ins[n]| ==>
                    var f := run[k].es[c.g.ins[n][j]];
                    && t.fired <= f.taken <= t.fired + t.quits
                    && (f.skips > 0 ==> f.taken == t.fired + t.quits))
            && (t.pc == User ==>
                  forall j :: 0 <= j < |c.g.outs[n]| ==> run[k].es[c.g.outs[n][j]].sent == t.completed)
  {
    RunKeeps(c, run, k);
    assert InsOk(c.g, n) && OutsOk(c.g, n) && PassOk(c.g, run[k], n) && SentOk(c.g, run[k], n);
  }

  /**
    The subtraction in `pgm_consume_tokens` never underflows: the edge about to be consumed
    holds at least its threshold, hence at least `nr_consume`, however long ago the lock-free
    scan has looked at it.
   */
  lemma NoUnderflow(c: Config, run: seq<State>, k: nat, n: nat)
    requires Run(c, run) && k < |run| && n < |c.g.ins| && n < |run[k].th|
    requires run[k].th[n].pc == Consume && run[k].th[n].i < |c.g.ins[n]|
    ensures Basic(c.g, run[k]) && InsOk(c.g, n)
    ensures var e := c.g.ins[n][run[k].th[n].i];
            run[k].es[e].skips == 0 ==> run[k].es[e].pending >= c.g.edges[e].threshold >= c.g.edges[e].consume
  {
    RunKeeps(c, run, k);
    assert InsOk(c.g, n) && ScanOk(c.g, run[k], n);
    assert EdgeOk(c.g, c.g.ins[n][run[k].th[n].i]);
  }
}
