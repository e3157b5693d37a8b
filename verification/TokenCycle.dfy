/**
  Conservation around a cycle: what circulates on a cycle of unit-rate edges closed by a
  backedge is fixed by the initial tokens and skips.
 */
module TokenCycle {
  import opened TokenModel
  import opened TokenRely
  import F = TokenConservation
  import T = TokenTermination

  /** The program points of `pgm_wait`, the nested `pgm_terminate` excepted. */
  predicate InWait(pc: Pc) {
    !pc.User? && !Producing(pc)
  }

  /** A thread of a node with in-edges completes once after each wait that returned 0. */
  predicate AlternateOk(t: Thread) {
    && t.completed <= t.fired <= t.completed + 1
    && (InWait(t.pc) || t.quits > 0 ==> t.fired == t.completed)
    && (Producing(t.pc) && !t.quit ==> t.fired == t.completed + 1)
  }

  /**
    A wait that returns PGM_TERMINATE takes no tokens but still runs `pgm_consume_skips`:
    it passes an in-edge once more without firing if, and only if, a skip was left.
   */
  predicate QuitOk(g: Graph, s: State, n: nat)
    requires Sized(g, s) && n < |g.ins| && InsOk(g, n)
  {
    var t := s.th[n];
    t.quits > 0 || (t.pc.Skip? && t.quit) ==>
      forall j :: 0 <= j < |g.ins[n]| ==>
        var d, f := g.edges[g.ins[n][j]], s.es[g.ins[n][j]];
        f.taken == t.fired + if d.skips > t.fired && (t.pc.Skip? ==> j < t.i) then 1 else 0
  }

  predicate QuitInv(g: Graph, s: State) {
    && F.FlowInv(g, s) && T.TermInv(g, s)
    && (forall n :: 0 <= n < |g.ins| ==> QuitOk(g, s, n))
  }

  predicate CycleInv(g: Graph, s: State) {
    && QuitInv(g, s)
    && (forall n :: 0 <= n < |g.ins| && g.ins[n] != [] ==> AlternateOk(s.th[n]))
  }

  predicate Disciplined(c: Config) {
    c.client.Alternating? || c.client.Loop?
  }

  lemma OwnAlternate(c: Config, s: State, s': State, n: nat)
    requires Disciplined(c) && ThreadStep(c, s, s', n) && c.g.ins[n] != []
    requires ThreadOk(c.g, s, n) && T.OverOk(c.g, s, n) && AlternateOk(s.th[n])
    ensures Sized(c.g, s') && AlternateOk(s'.th[n])
  {
    assert InsOk(c.g, n) && OutsOk(c.g, n);
    if WakeStep(c.g, s, s', n) { WakeCounts(c.g, s, s', n); }
    else if QuickStep(c.g, s, s', n) || LockedStep(c.g, s, s', n) {
      WaitCounts(c.g, s, s', n);
      WaitNotUser(c.g, s, s', n);
    }
    else if SendStep(c.g, s, s', n) {}
    else if ConsumeStep(c.g, s, s', n) {}
    else if CallWait(c, s, s', n) {}
  }

  lemma WaitNotUser(g: Graph, s: State, s': State, n: nat)
    requires GraphOk(g) && Sized(g, s) && n < |g.ins| && (QuickStep(g, s, s', n) || LockedStep(g, s, s', n))
    ensures Sized(g, s') && InWait(s.th[n].pc) && InWait(s'.th[n].pc)
  {
    match s.th[n].pc
    case QuickScan =>
    case QuickTest1 =>
    case QuickTest2 =>
    case Acquire =>
    case LockedScan =>
    case LockedTest1 =>
    case LockedTest2 =>
    case CvWait =>
    case _ =>
  }

  lemma OwnQuit(c: Config, s: State, s': State, n: nat)
    requires !c.client.Anything? && F.FlowInv(c.g, s) && ThreadStep(c, s, s', n)
    requires T.OverOk(c.g, s, n) && QuitOk(c.g, s, n)
    ensures Sized(c.g, s') && QuitOk(c.g, s', n)
  {
    assert InsOk(c.g, n) && OutsOk(c.g, n) && F.PassOk(c.g, s, n) && ThreadOk(c.g, s, n);
    if ConsumeStep(c.g, s, s', n) { OwnQuitConsume(c.g, s, s', n); }
    else if WakeStep(c.g, s, s', n) { WakeCounts(c.g, s, s', n); }
    else if QuickStep(c.g, s, s', n) || LockedStep(c.g, s, s', n) { WaitCounts(c.g, s, s', n); }
    else if SendStep(c.g, s, s', n) { OwnQuitSend(c.g, s, s', n); }
    else if CallWait(c, s, s', n) {}
  }

  lemma OwnQuitSend(g: Graph, s: State, s': State, n: nat)
    requires GraphOk(g) && Sized(g, s) && n < |g.ins| && InsOk(g, n)
    requires OutsOk(g, n) && SendStep(g, s, s', n) && QuitOk(g, s, n)
    ensures Sized(g, s') && QuitOk(g, s', n)
  {
  }

  lemma OwnQuitConsume(g: Graph, s: State, s': State, n: nat)
    requires F.FlowInv(g, s) && n < |g.ins| && InsOk(g, n) && ConsumeStep(g, s, s', n)
    requires OutsOk(g, n) && T.OverOk(g, s, n) && QuitOk(g, s, n) && ThreadOk(g, s, n)
    ensures Sized(g, s') && QuitOk(g, s', n)
  {
    var t := s.th[n];
    if t.i < |g.ins[n]| {
      assert F.Balanced(g, s, g.ins[n][t.i]);
      assert forall j :: 0 <= j < |g.ins[n]| && j != t.i ==> s'.es[g.ins[n][j]] == s.es[g.ins[n][j]];
    }
  }

  lemma QuitKept(c: Config, s: State, s': State)
    requires !c.client.Anything? && QuitInv(c.g, s) && Next(c, s, s')
    ensures QuitInv(c.g, s')
  {
    F.NextKeeps(c, s, s');
    T.NextKept(c, s, s');
    var t: nat :| ThreadStep(c, s, s', t) || SpuriousWake(c, s, s', t);
    forall n | 0 <= n < |c.g.ins| ensures QuitOk(c.g, s', n) {
      assert InsOk(c.g, n) && QuitOk(c.g, s, n) && T.OverOk(c.g, s, n) && ThreadOk(c.g, s, n);
      if SpuriousWake(c, s, s', t) {
        SpuriousRely(c, s, s', t);
      } else if n == t {
        OwnQuit(c, s, s', n);
      } else {
        OthersRely(c, s, s', t, n);
      }
    }
  }

  lemma NextKept(c: Config, s: State, s': State)
    requires Disciplined(c) && CycleInv(c.g, s) && Next(c, s, s')
    ensures CycleInv(c.g, s')
  {
    QuitKept(c, s, s');
    var t: nat :| ThreadStep(c, s, s', t) || SpuriousWake(c, s, s', t);
    forall n | 0 <= n < |c.g.ins| && c.g.ins[n] != [] ensures AlternateOk(s'.th[n]) {
      assert AlternateOk(s.th[n]) && T.OverOk(c.g, s, n) && ThreadOk(c.g, s, n);
      if SpuriousWake(c, s, s', t) {
        SpuriousRely(c, s, s', t);
      } else if n == t {
        OwnAlternate(c, s, s', n);
      } else {
        OthersRely(c, s, s', t, n);
      }
    }
  }

  lemma {:induction false} RunQuits(c: Config, run: seq<State>, k: nat)
    requires !c.client.Anything? && Run(c, run) && k < |run|
    ensures QuitInv(c.g, run[k])
  {
    if k == 0 {
      F.RunKeeps(c, run, 0);
      T.RunKept(c, run, 0);
    } else {
      RunQuits(c, run, k - 1);
      assert StepAt(c, run, k - 1);
      QuitKept(c, run[k - 1], run[k]);
    }
  }

  lemma {:induction false} RunKept(c: Config, run: seq<State>, k: nat)
    requires Disciplined(c) && Run(c, run) && k < |run|
    ensures CycleInv(c.g, run[k])
  {
    if k == 0 {
      RunQuits(c, run, 0);
    } else {
      RunKept(c, run, k - 1);
      assert StepAt(c, run, k - 1);
      NextKept(c, run[k - 1], run[k]);
    }
  }

  // ----------------------------------------------------------------- theorems

  /**
    Where a terminated node makes no further call, the passes of its in-edges are exact: its firings, and after a
    wait that returned PGM_TERMINATE one more exactly on the edges with more skips than that.
   */
  lemma QuitsCounted(c: Config, run: seq<State>, k: nat, n: nat)
    requires !c.client.Anything? && Run(c, run) && k < |run| && n < |c.g.ins|
    ensures Basic(c.g, run[k]) && InsOk(c.g, n)
    ensures var t := run[k].th[n];
            t.pc == User ==>
              forall j :: 0 <= j < |c.g.ins[n]| ==>
                run[k].es[c.g.ins[n][j]].taken ==
                t.fired + if t.quits > 0 && c.g.edges[c.g.ins[n][j]].skips > t.fired then 1 else 0
  {
    RunQuits(c, run, k);
    assert InsOk(c.g, n) && QuitOk(c.g, run[k], n) && F.PassOk(c.g, run[k], n);
    forall j | 0 <= j < |c.g.ins[n]| && run[k].th[n].pc == User
      ensures F.EdgePassOk(run[k].th[n], run[k].es[c.g.ins[n][j]], j) {}
  }

  /** A closed walk of unit-rate edges: each ends where the next begins, the last where the first begins. */
  predicate Cycle(g: Graph, cyc: seq<nat>) {
    && cyc != []
    && (forall i :: 0 <= i < |cyc| ==> cyc[i] < |g.edges| && g.edges[cyc[i]].produce == g.edges[cyc[i]].consume == 1)
    && (forall i :: 0 <= i < |cyc| - 1 ==> g.edges[cyc[i]].consumer == g.edges[cyc[i + 1]].producer)
    && g.edges[cyc[|cyc| - 1]].consumer == g.edges[cyc[0]].producer
  }

  /** The edge that follows position i on the cycle. */
  function After(cyc: seq<nat>, i: nat): nat
    requires i < |cyc|
  {
    if i + 1 < |cyc| then cyc[i + 1] else cyc[0]
  }

  /**
    Firings of the node between two edges of the cycle that it has begun on the first and not yet delivered on the
    second.
   */
  function InHand(s: State, cyc: seq<nat>, i: nat): int
    requires i < |cyc| && forall k :: 0 <= k < |cyc| ==> cyc[k] < |s.es|
  {
    s.es[cyc[i]].taken - s.es[After(cyc, i)].sent
  }

  /** Tokens, remaining skips and firings in hand on the first `len` edges and the nodes behind them. */
  function Circulating(s: State, cyc: seq<nat>, len: nat): int
    requires len <= |cyc| && forall k :: 0 <= k < |cyc| ==> cyc[k] < |s.es|
  {
    if len == 0 then 0
    else Circulating(s, cyc, len - 1) + s.es[cyc[len - 1]].pending + s.es[cyc[len - 1]].skips + InHand(s, cyc, len - 1)
  }

  /** Initial tokens and skips of the first `len` edges. */
  function Initial(g: Graph, cyc: seq<nat>, len: nat): nat
    requires len <= |cyc| && forall k :: 0 <= k < |cyc| ==> cyc[k] < |g.edges|
  {
    if len == 0 then 0 else Initial(g, cyc, len - 1) + g.edges[cyc[len - 1]].init + g.edges[cyc[len - 1]].skips
  }

  lemma {:induction false} Telescope(g: Graph, s: State, cyc: seq<nat>, len: nat)
    requires F.FlowInv(g, s) && Cycle(g, cyc) && 0 < len <= |cyc|
    ensures Circulating(s, cyc, len) == Initial(g, cyc, len) + s.es[cyc[0]].sent - s.es[After(cyc, len - 1)].sent
  {
    assert F.Balanced(g, s, cyc[len - 1]);
    if len > 1 {
      Telescope(g, s, cyc, len - 1);
    } else {
      assert Circulating(s, cyc, 0) == 0 && Initial(g, cyc, 0) == 0;
    }
  }

  /** A node on the cycle has at most one firing in hand. */
  lemma HandBounds(g: Graph, s: State, cyc: seq<nat>, i: nat)
    requires CycleInv(g, s) && Cycle(g, cyc) && i < |cyc|
    ensures 0 <= InHand(s, cyc, i) <= 1
  {
    var e, e' := cyc[i], After(cyc, i);
    var n := g.edges[e].consumer;
    assert EdgeOk(g, e) && EdgeOk(g, e') && g.edges[e'].producer == n;
    assert InsOk(g, n) && OutsOk(g, n);
    var j :| 0 <= j < |g.ins[n]| && g.ins[n][j] == e;
    var k :| 0 <= k < |g.outs[n]| && g.outs[n][k] == e';
    assert AlternateOk(s.th[n]) && QuitOk(g, s, n) && F.PassOk(g, s, n) && F.SentOk(g, s, n) && T.OverOk(g, s, n);
  }

  lemma {:induction false} HoldsAtMost(g: Graph, s: State, cyc: seq<nat>, len: nat, i: nat)
    requires CycleInv(g, s) && Cycle(g, cyc) && i < len <= |cyc|
    ensures 0 <= s.es[cyc[i]].pending + s.es[cyc[i]].skips <= Circulating(s, cyc, len)
  {
    HandBounds(g, s, cyc, len - 1);
    assert F.Balanced(g, s, cyc[len - 1]);
    if i < len - 1 { HoldsAtMost(g, s, cyc, len - 1, i); } else { NotNegative(g, s, cyc, len - 1); }
  }

  lemma {:induction false} NotNegative(g: Graph, s: State, cyc: seq<nat>, len: nat)
    requires CycleInv(g, s) && Cycle(g, cyc) && len <= |cyc|
    ensures Circulating(s, cyc, len) >= 0
  {
    if len > 0 {
      HandBounds(g, s, cyc, len - 1);
      assert F.Balanced(g, s, cyc[len - 1]);
      NotNegative(g, s, cyc, len - 1);
    }
  }

  /**
    In every state of every run of alternating clients, around every cycle of unit-rate edges:
    pending tokens, remaining skips and firings not yet delivered add up to the initial tokens and
    skips. So no edge on the cycle ever holds more tokens than that.
   */
  lemma CycleConserved(c: Config, run: seq<State>, k: nat, cyc: seq<nat>, i: nat)
    requires Disciplined(c) && Run(c, run) && k < |run| && Cycle(c.g, cyc) && i < |cyc|
    ensures Basic(c.g, run[k])
    ensures Circulating(run[k], cyc, |cyc|) == Initial(c.g, cyc, |cyc|)
    ensures 0 <= InHand(run[k], cyc, i) <= 1
    ensures run[k].es[cyc[i]].pending <= Initial(c.g, cyc, |cyc|)
  {
    RunKept(c, run, k);
    Telescope(c.g, run[k], cyc, |cyc|);
    HandBounds(c.g, run[k], cyc, i);
    HoldsAtMost(c.g, run[k], cyc, |cyc|, i);
  }

  /**
    What "in hand" is. While a node has not been told to terminate it is the firings it has not
    completed. A node that was told to terminate has fired as often as it has completed, and
    what it has in hand, for good, is the skip that the last wait used up without firing: one
    exactly if the edge had more skips than the node had firings.
   */
  lemma HandMeaning(c: Config, run: seq<State>, k: nat, cyc: seq<nat>, i: nat)
    requires Disciplined(c) && Run(c, run) && k < |run| && Cycle(c.g, cyc) && i < |cyc|
    ensures Basic(c.g, run[k]) && c.g.edges[cyc[i]].consumer < |run[k].th|
    ensures var t := run[k].th[c.g.edges[cyc[i]].consumer];
            && (t.pc == User && t.quits == 0 ==> InHand(run[k], cyc, i) == t.fired - t.completed)
            && (t.quits > 0 ==> t.fired == t.completed &&
                                InHand(run[k], cyc, i) == if c.g.edges[cyc[i]].skips > t.fired then 1 else 0)
  {
    RunKept(c, run, k);
    var g, s := c.g, run[k];
    var e, e' := cyc[i], After(cyc, i);
    var n := g.edges[e].consumer;
    assert EdgeOk(g, e) && EdgeOk(g, e') && InsOk(g, n) && OutsOk(g, n);
    var j :| 0 <= j < |g.ins[n]| && g.ins[n][j] == e;
    var m :| 0 <= m < |g.outs[n]| && g.outs[n][m] == e';
    assert AlternateOk(s.th[n]) && QuitOk(g, s, n) && F.PassOk(g, s, n) && F.SentOk(g, s, n) && T.OverOk(g, s, n);
  }
}
