/**
  Termination travels forward: a node is told to terminate only after all its
  forward ancestors have terminated.
 */
module TokenTermination {
  import opened TokenModel
  import opened TokenRely

  /** The thread is inside the `pgm_terminate` of its node, or has returned from it. */
  predicate Terminating(t: Thread) {
    (Producing(t.pc) && t.quit) || t.stopped
  }

  /** The thread has decided to terminate: its current wait will return, or has returned, PGM_TERMINATE. */
  predicate Leaving(t: Thread) {
    Terminating(t) || ((t.pc.Release? || t.pc.Skip?) && t.quit)
  }

  /** The number of forward edges of a list that have signaled termination. */
  function Signaled(g: Graph, es: seq<Flow>, ins: seq<nat>): nat
    requires |es| == |g.edges|
  {
    if ins == [] then 0
    else Signaled(g, es, ins[..|ins| - 1]) +
         var e := ins[|ins| - 1];
         if e < |g.edges| && !g.edges[e].backedge && es[e].over then 1 else 0
  }

  lemma {:induction false} SignaledAll(g: Graph, es: seq<Flow>, ins: seq<nat>)
    requires |es| == |g.edges|
    ensures Signaled(g, es, ins) <= ForwardIns(g, ins)
    ensures Signaled(g, es, ins) == ForwardIns(g, ins) <==>
            forall j :: 0 <= j < |ins| && ins[j] < |es| && !g.edges[ins[j]].backedge ==> es[ins[j]].over
  {
    if ins != [] {
      var init := ins[..|ins| - 1];
      SignaledAll(g, es, init);
      assert forall j :: 0 <= j < |init| ==> ins[j] == init[j];
    }
  }

  /** Setting the flag of a listed forward edge counts one more, of an unlisted edge none. */
  lemma {:induction false} SignaledOneMore(g: Graph, es: seq<Flow>, es': seq<Flow>, ins: seq<nat>, e: nat)
    requires |es| == |es'| == |g.edges| && e < |es| && !g.edges[e].backedge
    requires forall j, k :: 0 <= j < k < |ins| ==> ins[j] != ins[k]
    requires !es[e].over && es'[e].over
    requires forall d :: 0 <= d < |es| && d != e ==> es'[d].over == es[d].over
    ensures Signaled(g, es', ins) == Signaled(g, es, ins) + (if e in ins then 1 else 0)
  {
    if ins != [] {
      var init := ins[..|ins| - 1];
      SignaledOneMore(g, es, es', init, e);
      assert e in ins <==> e in init || e == ins[|ins| - 1];
    }
  }

  lemma {:induction false} SignaledSame(g: Graph, es: seq<Flow>, es': seq<Flow>, ins: seq<nat>)
    requires |es| == |es'| == |g.edges|
    requires forall d :: 0 <= d < |es| ==> es'[d].over == es[d].over
    ensures Signaled(g, es', ins) == Signaled(g, es, ins)
  {
    if ins != [] { SignaledSame(g, es, es', ins[..|ins| - 1]); }
  }

  lemma {:induction false} ForwardCounted(g: Graph, ins: seq<nat>, j: nat)
    requires j < |ins| && ins[j] < |g.edges| && !g.edges[ins[j]].backedge
    ensures ForwardIns(g, ins) > 0
  {
    if j < |ins| - 1 { ForwardCounted(g, ins[..|ins| - 1], j); }
  }

  /** Terminating signals every forward out-edge once, in order. */
  predicate OverOk(g: Graph, s: State, n: nat)
    requires Sized(g, s) && |g.outs| == |g.ins| && n < |g.ins| && OutsOk(g, n)
  {
    var t := s.th[n];
    && (t.stopped ==> t.pc == User)
    && (t.quits > 0 ==> Terminating(t))
    && (forall j :: 0 <= j < |g.outs[n]| ==>
          (s.es[g.outs[n][j]].over <==>
             !g.edges[g.outs[n][j]].backedge && Terminating(t) && (t.pc.Produce? ==> j < t.i)))
  }

  /** `nr_terminate_signals` counts the forward in-edges that have signaled. */
  predicate CountOk(g: Graph, s: State, n: nat)
    requires Sized(g, s) && n < |g.ins|
  {
    s.terms[n] == Signaled(g, s.es, g.ins[n])
  }

  predicate AllOver(g: Graph, s: State, n: nat)
    requires Sized(g, s) && n < |g.ins| && InsOk(g, n)
  {
    forall j :: 0 <= j < |g.ins[n]| && !g.edges[g.ins[n][j]].backedge ==> s.es[g.ins[n][j]].over
  }

  /** A node that is not a source leaves only when all its forward in-edges have signaled. */
  predicate LeaveOk(g: Graph, s: State, n: nat)
    requires Sized(g, s) && n < |g.ins| && InsOk(g, n)
  {
    Leaving(s.th[n]) && !Source(g, n) ==> AllOver(g, s, n)
  }

  predicate TermInv(g: Graph, s: State) {
    && Basic(g, s)
    && (forall n :: 0 <= n < |g.ins| ==> OverOk(g, s, n) && CountOk(g, s, n) && LeaveOk(g, s, n))
  }

  /** Every step either sets the flag of no edge, or is a terminate signal on one forward edge. */
  lemma FlagsOrSignal(c: Config, s: State, s': State, t: nat) returns (signal: bool, e: nat)
    requires ThreadStep(c, s, s', t) && OverOk(c.g, s, t) && ThreadOk(c.g, s, t)
    ensures Sized(c.g, s')
    ensures !signal ==> s'.terms == s.terms && forall d :: 0 <= d < |s.es| ==> s'.es[d].over == s.es[d].over
    ensures signal ==>
              && e < |s.es| && !c.g.edges[e].backedge && !s.es[e].over && s'.es[e].over
              && (forall d :: 0 <= d < |s.es| && d != e ==> s'.es[d].over == s.es[d].over)
              && c.g.edges[e].consumer < |s.terms|
              && s'.terms == s.terms[c.g.edges[e].consumer := s.terms[c.g.edges[e].consumer] + 1]
  {
    signal, e := false, 0;
    var h := s.th[t];
    assert InsOk(c.g, t) && OutsOk(c.g, t);
    if SendStep(c.g, s, s', t) {
      if h.i < |c.g.outs[t]| && h.quit && !c.g.edges[c.g.outs[t][h.i]].backedge {
        signal, e := true, c.g.outs[t][h.i];
      }
    } else if ConsumeStep(c.g, s, s', t) {
    } else if QuickStep(c.g, s, s', t) || LockedStep(c.g, s, s', t) {
      WaitCounts(c.g, s, s', t);
    } else if WakeStep(c.g, s, s', t) {
      WakeCounts(c.g, s, s', t);
    } else if CallWait(c, s, s', t) {
    }
  }

  lemma CountKept(c: Config, s: State, s': State, t: nat, n: nat)
    requires ThreadStep(c, s, s', t) && OverOk(c.g, s, t) && ThreadOk(c.g, s, t)
    requires n < |c.g.ins| && CountOk(c.g, s, n)
    ensures Sized(c.g, s') && CountOk(c.g, s', n)
  {
    var signal, e := FlagsOrSignal(c, s, s', t);
    assert InsOk(c.g, n) && (0 <= e < |c.g.edges| ==> EdgeOk(c.g, e));
    if signal { SignaledOneMore(c.g, s.es, s'.es, c.g.ins[n], e); } else { SignaledSame(c.g, s.es, s'.es, c.g.ins[n]); }
  }

  lemma OwnOver(c: Config, s: State, s': State, n: nat)
    requires !c.client.Anything? && ThreadStep(c, s, s', n) && ThreadOk(c.g, s, n) && OverOk(c.g, s, n)
    ensures Sized(c.g, s') && OverOk(c.g, s', n)
  {
    assert InsOk(c.g, n) && OutsOk(c.g, n);
    if SendStep(c.g, s, s', n) { OwnOverSending(c.g, s, s', n); }
    else if WakeStep(c.g, s, s', n) { WakeCounts(c.g, s, s', n); }
    else if QuickStep(c.g, s, s', n) || LockedStep(c.g, s, s', n) { WaitCounts(c.g, s, s', n); }
    else if ConsumeStep(c.g, s, s', n) {}
    else if CallWait(c, s, s', n) {}
  }

  lemma OwnOverSending(g: Graph, s: State, s': State, n: nat)
    requires GraphOk(g) && Sized(g, s) && n < |g.ins| && SendStep(g, s, s', n) && ThreadOk(g, s, n) && OverOk(g, s, n)
    ensures Sized(g, s') && OverOk(g, s', n)
  {
    assert OutsOk(g, n);
  }

  /** The test of `nr_terminate_signals` against the number of forward in-edges is the test that all have signaled. */
  lemma CountIsAllOver(g: Graph, s: State, n: nat)
    requires GraphOk(g) && Sized(g, s) && n < |g.ins| && CountOk(g, s, n)
    ensures InsOk(g, n)
    ensures s.terms[n] == ForwardIns(g, g.ins[n]) <==> AllOver(g, s, n)
  {
    assert InsOk(g, n);
    SignaledAll(g, s.es, g.ins[n]);
  }

  /** Whoever decides to leave has counted all signals. */
  lemma WaitLeaves(g: Graph, s: State, s': State, n: nat)
    requires GraphOk(g) && Sized(g, s) && n < |g.ins| && InsOk(g, n)
    requires (QuickStep(g, s, s', n) || LockedStep(g, s, s', n))
    ensures Sized(g, s') && (Leaving(s'.th[n]) ==> Leaving(s.th[n]) || s.terms[n] == ForwardIns(g, g.ins[n]))
  {
    match s.th[n].pc
    case QuickScan =>
    case QuickTest1 =>
    case QuickTest2 =>
    case Acquire =>
    case LockedScan =>
    case LockedTest1 =>
    case LockedTest2 =>
    case CvWait =>
    case _ =>
  }

  lemma OwnLeave(c: Config, s: State, s': State, n: nat)
    requires !c.client.Anything? && ThreadStep(c, s, s', n) && Sized(c.g, s')
    requires CountOk(c.g, s, n) && LeaveOk(c.g, s, n) && OverOk(c.g, s, n) && ThreadOk(c.g, s, n)
    ensures Leaving(s'.th[n]) && !Source(c.g, n) ==> AllOver(c.g, s, n)
  {
    CountIsAllOver(c.g, s, n);
    if QuickStep(c.g, s, s', n) || LockedStep(c.g, s, s', n) {
      WaitLeaves(c.g, s, s', n);
    } else if SendStep(c.g, s, s', n) {
    } else if ConsumeStep(c.g, s, s', n) {
    } else if WakeStep(c.g, s, s', n) {
    } else if CallWait(c, s, s', n) {
    }
  }

  lemma StepKept(c: Config, s: State, s': State, t: nat, n: nat)
    requires !c.client.Anything? && TermInv(c.g, s) && ThreadStep(c, s, s', t) && n < |c.g.ins|
    ensures Sized(c.g, s') && OverOk(c.g, s', n) && CountOk(c.g, s', n) && LeaveOk(c.g, s', n)
  {
    assert InsOk(c.g, n) && OutsOk(c.g, n) && CountOk(c.g, s, n) && LeaveOk(c.g, s, n) && OverOk(c.g, s, n);
    CountKept(c, s, s', t, n);
    var signal, e := FlagsOrSignal(c, s, s', t);
    if n == t {
      OwnOver(c, s, s', n);
      OwnLeave(c, s, s', n);
    } else {
      OthersRely(c, s, s', t, n);
    }
  }

  lemma SpuriousKept(c: Config, s: State, s': State, t: nat)
    requires TermInv(c.g, s) && SpuriousWake(c, s, s', t)
    ensures TermInv(c.g, s')
  {
    SpuriousRely(c, s, s', t);
    forall n | 0 <= n < |c.g.ins| ensures OverOk(c.g, s', n) && CountOk(c.g, s', n) && LeaveOk(c.g, s', n) {
      assert OverOk(c.g, s, n) && CountOk(c.g, s, n) && LeaveOk(c.g, s, n);
    }
  }

  lemma NextKept(c: Config, s: State, s': State)
    requires !c.client.Anything? && TermInv(c.g, s) && Next(c, s, s')
    ensures TermInv(c.g, s')
  {
    var t: nat :| ThreadStep(c, s, s', t) || SpuriousWake(c, s, s', t);
    if SpuriousWake(c, s, s', t) {
      SpuriousKept(c, s, s', t);
    } else {
      BasicKept(c, s, s', t);
      forall n | 0 <= n < |c.g.ins| ensures OverOk(c.g, s', n) && CountOk(c.g, s', n) && LeaveOk(c.g, s', n) {
        StepKept(c, s, s', t, n);
      }
    }
  }

  lemma {:induction false} NoneSignaled(g: Graph, es: seq<Flow>, ins: seq<nat>)
    requires |es| == |g.edges| && forall e :: 0 <= e < |es| ==> !es[e].over
    ensures Signaled(g, es, ins) == 0
  {
    if ins != [] { NoneSignaled(g, es, ins[..|ins| - 1]); }
  }

  lemma {:induction false} RunKept(c: Config, run: seq<State>, k: nat)
    requires !c.client.Anything? && Run(c, run) && k < |run|
    ensures TermInv(c.g, run[k])
  {
    if k == 0 {
      BasicInit(c.g, run[0]);
      forall n | 0 <= n < |c.g.ins|
        ensures OverOk(c.g, run[0], n) && CountOk(c.g, run[0], n) && LeaveOk(c.g, run[0], n)
      {
        assert InsOk(c.g, n) && OutsOk(c.g, n);
        NoneSignaled(c.g, run[0].es, c.g.ins[n]);
      }
    } else {
      RunKept(c, run, k - 1);
      assert StepAt(c, run, k - 1);
      NextKept(c, run[k - 1], run[k]);
    }
  }

  // ----------------------------------------------------------------- theorems

  /** A sequence of forward edges, each starting where the one before ends, from node a to node b. */
  predicate ForwardPath(g: Graph, path: seq<nat>, a: nat, b: nat) {
    if path == [] then a == b
    else
      var e := path[|path| - 1];
      e < |g.edges| && !g.edges[e].backedge && g.edges[e].consumer == b &&
      ForwardPath(g, path[..|path| - 1], a, g.edges[e].producer)
  }

  /** A signaled edge has a producer inside, or back from, its `pgm_terminate`. */
  lemma SignaledByProducer(g: Graph, s: State, e: nat)
    requires TermInv(g, s) && e < |g.edges| && s.es[e].over
    ensures var p := g.edges[e].producer;
            p < |s.th| && Terminating(s.th[p]) && (Producing(s.th[p].pc) ==> s.th[p].quit)
  {
    assert EdgeOk(g, e);
    var p := g.edges[e].producer;
    assert OutsOk(g, p);
    var k :| 0 <= k < |g.outs[p]| && g.outs[p][k] == e;
    assert OverOk(g, s, p);
  }

  lemma ProducersFirst(g: Graph, s: State, e: nat)
    requires TermInv(g, s) && e < |g.edges| && !g.edges[e].backedge
    requires g.edges[e].consumer < |s.th| && Leaving(s.th[g.edges[e].consumer])
    ensures g.edges[e].producer < |s.th| && Terminating(s.th[g.edges[e].producer])
  {
    assert EdgeOk(g, e);
    var n := g.edges[e].consumer;
    assert InsOk(g, n);
    var j :| 0 <= j < |g.ins[n]| && g.ins[n][j] == e;
    ForwardCounted(g, g.ins[n], j);
    assert LeaveOk(g, s, n);
    SignaledByProducer(g, s, e);
  }

  lemma {:induction false} AncestorsFirst(g: Graph, s: State, path: seq<nat>, a: nat, n: nat)
    requires TermInv(g, s) && n < |g.ins| && ForwardPath(g, path, a, n) && path != [] && Leaving(s.th[n])
    ensures a < |s.th| && Terminating(s.th[a])
  {
    var e := path[|path| - 1];
    ProducersFirst(g, s, e);
    if |path| > 1 { AncestorsFirst(g, s, path[..|path| - 1], a, g.edges[e].producer); }
  }

  /**
    If only sources call `pgm_terminate` themselves and a terminated node makes no further
    call, then in every state of every run a node that has decided to terminate has only
    forward ancestors that are already inside, or back from, their own `pgm_terminate`.
   */
  lemma TerminationOrder(c: Config, run: seq<State>, k: nat, path: seq<nat>, a: nat, n: nat)
    requires !c.client.Anything? && Run(c, run) && k < |run| && n < |c.g.ins| && n < |run[k].th|
    requires ForwardPath(c.g, path, a, n) && path != [] && Leaving(run[k].th[n])
    ensures a < |run[k].th| && Terminating(run[k].th[a])
  {
    RunKept(c, run, k);
    AncestorsFirst(c.g, run[k], path, a, n);
  }

  /**
    `nr_terminate_signals` is the number of forward in-edges that have been signaled, so it equals their number iff
    all have.
   */
  lemma SignalsCounted(c: Config, run: seq<State>, k: nat, n: nat)
    requires !c.client.Anything? && Run(c, run) && k < |run| && n < |c.g.ins|
    ensures Basic(c.g, run[k]) && InsOk(c.g, n)
    ensures run[k].terms[n] == Signaled(c.g, run[k].es, c.g.ins[n]) <= ForwardIns(c.g, c.g.ins[n])
    ensures run[k].terms[n] == ForwardIns(c.g, c.g.ins[n]) <==> AllOver(c.g, run[k], n)
  {
    RunKept(c, run, k);
    assert CountOk(c.g, run[k], n);
    CountIsAllOver(c.g, run[k], n);
    SignaledAll(c.g, run[k].es, c.g.ins[n]);
  }
}
