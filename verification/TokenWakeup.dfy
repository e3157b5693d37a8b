/**
  No wake-up is lost: whenever a consumer sleeps although it could fire or
  could terminate, some producer still has it on its list of nodes to wake.
 */
module TokenWakeup {
  import opened TokenModel
  import opened TokenRely

  /** Thread p still has node c in `to_wake`, or is examining c and has found every edge ready so far. */
  predicate Holds(s: State, p: nat, c: nat)
    requires p < |s.th|
  {
    var t := s.th[p];
    || c in t.wake
    || (t.pc.WakeScan? && t.target == c && t.nr == t.i)
    || (t.pc.WakeSignal? && t.target == c)
  }

  /** The same for a thread inside `pgm_terminate`, which signals without examining. */
  predicate HoldsQuitting(s: State, p: nat, c: nat)
    requires p < |s.th|
  {
    var t := s.th[p];
    t.quit && (c in t.wake || (t.pc.WakeSignal? && t.target == c))
  }

  /** The consumer has seen an edge that was not ready, under its lock, and has not looked again since. */
  predicate Committed(t: Thread) {
    t.pc.Asleep? || t.pc.CvWait? || t.pc.LockedTest1? || t.pc.LockedTest2? || (t.pc.LockedScan? && t.nr < t.i)
  }

  predicate ReadyIsHeld(g: Graph, s: State, c: nat)
    requires Sized(g, s) && c < |g.ins| && InsOk(g, c)
  {
    Committed(s.th[c]) && AllReady(g, s, c) ==> exists p: nat :: p < |s.th| && Holds(s, p, c)
  }

  predicate ExhaustedIsHeld(g: Graph, s: State, c: nat)
    requires Sized(g, s) && c < |g.ins| && InsOk(g, c)
  {
    (s.th[c].pc.CvWait? || s.th[c].pc.Asleep?) && Exhausted(g, s, c) ==>
      exists p: nat :: p < |s.th| && HoldsQuitting(s, p, c)
  }

  /** A forward edge counted as ready by the scan under the lock is still ready. */
  predicate CountedIsReady(g: Graph, s: State, c: nat)
    requires Sized(g, s) && c < |g.ins| && InsOk(g, c)
  {
    s.th[c].pc.LockedScan? && s.th[c].fwd > 0 ==> !NoForwardReady(g, s, c)
  }

  predicate WakeInv(g: Graph, s: State) {
    && Basic(g, s)
    && forall c :: 0 <= c < |g.ins| ==>
         CountedIsReady(g, s, c) && ReadyIsHeld(g, s, c) && ExhaustedIsHeld(g, s, c)
  }

  // ------------------------------------------------------ steps of the consumer

  /** The consumer's own steps leave every holder of the consumer alone. */
  lemma HoldersUntouched(c: Config, s: State, s': State, n: nat, p: nat)
    requires ThreadStep(c, s, s', n) && ThreadOk(c.g, s, n) && !Producing(s.th[n].pc)
    requires p < |s.th| && Sized(c.g, s')
    ensures Holds(s, p, n) ==> Holds(s', p, n)
    ensures HoldsQuitting(s, p, n) ==> HoldsQuitting(s', p, n)
  {
    if p != n { OthersRely(c, s, s', n, p); }
  }

  lemma ConsumerReady(g: Graph, s: State, s': State, n: nat)
    requires GraphOk(g) && Sized(g, s) && n < |g.ins| && ThreadOk(g, s, n) && InsOk(g, n)
    requires LockedStep(g, s, s', n)
    ensures Sized(g, s')
    ensures Committed(s'.th[n]) && AllReady(g, s', n) ==> Committed(s.th[n]) && AllReady(g, s, n)
  {
    match s.th[n].pc
    case Acquire =>
    case LockedScan => assert s'.es == s.es;
    case LockedTest1 =>
    case LockedTest2 =>
    case CvWait =>
    case _ =>
  }

  lemma ConsumerExhausted(g: Graph, s: State, s': State, n: nat)
    requires GraphOk(g) && Sized(g, s) && n < |g.ins| && ThreadOk(g, s, n) && InsOk(g, n)
    requires LockedStep(g, s, s', n) && CountedIsReady(g, s, n)
    ensures Sized(g, s') && CountedIsReady(g, s', n)
    ensures (s'.th[n].pc.CvWait? || s'.th[n].pc.Asleep?) && Exhausted(g, s', n) ==>
              (s.th[n].pc.CvWait? || s.th[n].pc.Asleep?) && Exhausted(g, s, n)
  {
    match s.th[n].pc
    case Acquire =>
    case LockedScan => assert s'.es == s.es;
    case LockedTest1 =>
    case LockedTest2 =>
    case CvWait =>
    case _ =>
  }

  // ------------------------------------------------------ steps of a producer

  /** A producer that makes the last edge of c ready puts c on its list. */
  lemma SendHolds(g: Graph, s: State, s': State, t: nat, c: nat)
    requires GraphOk(g) && Sized(g, s) && t < |g.ins| && c < |g.ins| && t != c && SendStep(g, s, s', t)
    ensures Sized(g, s')
    ensures AllReady(g, s', c) ==> AllReady(g, s, c) || c in s'.th[t].wake
    ensures Exhausted(g, s', c) ==> Exhausted(g, s, c) || (s'.th[t].quit && c in s'.th[t].wake)
    ensures Holds(s, t, c) ==> Holds(s', t, c)
    ensures HoldsQuitting(s, t, c) ==> HoldsQuitting(s', t, c)
  {
    assert InsOk(g, c) && OutsOk(g, t);
  }

  /** A producer drops c from its list only by signaling it, or by seeing that an edge of c is not ready. */
  lemma WakeHolds(g: Graph, s: State, s': State, t: nat, c: nat)
    requires GraphOk(g) && Sized(g, s) && t < |g.ins| && c < |g.ins| && t != c && WakeStep(g, s, s', t)
    requires ThreadOk(g, s, t) && ThreadOk(g, s, c)
    ensures Sized(g, s') && s'.es == s.es && s'.terms == s.terms
    ensures Holds(s, t, c) && AllReady(g, s, c) && Committed(s'.th[c]) ==> Holds(s', t, c)
    ensures HoldsQuitting(s, t, c) && (s'.th[c].pc.CvWait? || s'.th[c].pc.Asleep?) ==> HoldsQuitting(s', t, c)
  {
    assert InsOk(g, c);
    match s.th[t].pc
    case WakeNext =>
    case WakeScan =>
    case WakeSignal =>
    case _ =>
  }

  /** Steps outside `pgm_produce` touch no edge into another node. */
  lemma WaitersNeutral(c: Config, s: State, s': State, t: nat, n: nat)
    requires ThreadStep(c, s, s', t) && ThreadOk(c.g, s, t) && n < |c.g.ins| && n != t && !Producing(s.th[t].pc)
    ensures Sized(c.g, s') && s'.th[n] == s.th[n] && s'.terms == s.terms && InsOk(c.g, n)
    ensures forall j :: 0 <= j < |c.g.ins[n]| ==> s'.es[c.g.ins[n][j]] == s.es[c.g.ins[n][j]]
    ensures Holds(s, t, n) ==> Holds(s', t, n)
    ensures HoldsQuitting(s, t, n) ==> HoldsQuitting(s', t, n)
  {
    assert InsOk(c.g, t) && InsOk(c.g, n);
  }

  // ------------------------------------------------------------ the invariant

  lemma ReadyStays(g: Graph, s: State, s': State, n: nat)
    requires GraphOk(g) && Sized(g, s) && n < |g.ins| && Rely(g, s, s', n)
    ensures forall j :: 0 <= j < |g.ins[n]| && Ready(g, s, g.ins[n][j]) ==> Ready(g, s', g.ins[n][j])
    ensures CountedIsReady(g, s, n) ==> CountedIsReady(g, s', n)
  {
    if !NoForwardReady(g, s, n) {
      var j :| 0 <= j < |g.ins[n]| && !g.edges[g.ins[n][j]].backedge && Ready(g, s, g.ins[n][j]);
      assert Ready(g, s', g.ins[n][j]);
    }
  }

  /** What another thread's step means for a committed consumer. */
  lemma OtherHolds(c: Config, s: State, s': State, t: nat, n: nat)
    requires ThreadStep(c, s, s', t) && n < |c.g.ins| && n != t && ThreadOk(c.g, s, t) && ThreadOk(c.g, s, n)
    ensures Sized(c.g, s')
    ensures Committed(s'.th[n]) && AllReady(c.g, s', n) && !Holds(s', t, n) ==> AllReady(c.g, s, n) && !Holds(s, t, n)
    ensures (s'.th[n].pc.CvWait? || s'.th[n].pc.Asleep?) && Exhausted(c.g, s', n) && !HoldsQuitting(s', t, n) ==>
              Exhausted(c.g, s, n) && !HoldsQuitting(s, t, n)
  {
    if SendStep(c.g, s, s', t) { SendHolds(c.g, s, s', t, n); }
    else if WakeStep(c.g, s, s', t) { WakeHolds(c.g, s, s', t, n); }
    else {
      WaitersNeutral(c, s, s', t, n);
      assert InsOk(c.g, n);
      assert forall j :: 0 <= j < |c.g.ins[n]| ==> Ready(c.g, s, c.g.ins[n][j]) == Ready(c.g, s', c.g.ins[n][j]);
    }
  }

  /** Threads that do not step keep what they hold. */
  lemma StillHolds(c: Config, s: State, s': State, t: nat, p: nat, n: nat)
    requires ThreadStep(c, s, s', t) && p < |c.g.ins| && p != t && Sized(c.g, s')
    ensures Holds(s, p, n) ==> Holds(s', p, n)
    ensures HoldsQuitting(s, p, n) ==> HoldsQuitting(s', p, n)
  {
    OthersRely(c, s, s', t, p);
  }

  lemma OtherReadyKept(c: Config, s: State, s': State, t: nat, n: nat)
    requires ThreadStep(c, s, s', t) && n < |c.g.ins| && n != t && ThreadOk(c.g, s, t) && ThreadOk(c.g, s, n)
    requires InsOk(c.g, n) && ReadyIsHeld(c.g, s, n) && Sized(c.g, s')
    ensures ReadyIsHeld(c.g, s', n)
  {
    OthersRely(c, s, s', t, n);
    OtherHolds(c, s, s', t, n);
    if Committed(s'.th[n]) && AllReady(c.g, s', n) && !Holds(s', t, n) {
      assert Committed(s.th[n]) && AllReady(c.g, s, n);
      var p: nat :| p < |s.th| && Holds(s, p, n);
      StillHolds(c, s, s', t, p, n);
    }
  }

  lemma OtherExhaustedKept(c: Config, s: State, s': State, t: nat, n: nat)
    requires ThreadStep(c, s, s', t) && n < |c.g.ins| && n != t && ThreadOk(c.g, s, t) && ThreadOk(c.g, s, n)
    requires InsOk(c.g, n) && ExhaustedIsHeld(c.g, s, n) && Sized(c.g, s')
    ensures ExhaustedIsHeld(c.g, s', n)
  {
    OthersRely(c, s, s', t, n);
    OtherHolds(c, s, s', t, n);
    if (s'.th[n].pc.CvWait? || s'.th[n].pc.Asleep?) && Exhausted(c.g, s', n) && !HoldsQuitting(s', t, n) {
      assert (s.th[n].pc.CvWait? || s.th[n].pc.Asleep?) && Exhausted(c.g, s, n);
      var p: nat :| p < |s.th| && HoldsQuitting(s, p, n);
      StillHolds(c, s, s', t, p, n);
    }
  }

  lemma OtherKept(c: Config, s: State, s': State, t: nat, n: nat)
    requires WakeInv(c.g, s) && ThreadStep(c, s, s', t) && n < |c.g.ins| && n != t && Sized(c.g, s')
    ensures CountedIsReady(c.g, s', n) && ReadyIsHeld(c.g, s', n) && ExhaustedIsHeld(c.g, s', n)
  {
    assert ThreadOk(c.g, s, t) && ThreadOk(c.g, s, n);
    OthersRely(c, s, s', t, n);
    ReadyStays(c.g, s, s', n);
    OtherReadyKept(c, s, s', t, n);
    OtherExhaustedKept(c, s, s', t, n);
  }

  lemma QuickNotCommitted(g: Graph, s: State, s': State, n: nat)
    requires Sized(g, s) && n < |g.ins| && InsOk(g, n) && QuickStep(g, s, s', n)
    ensures Sized(g, s') && !Committed(s'.th[n]) && !s'.th[n].pc.LockedScan?
  {
    match s.th[n].pc
    case QuickScan =>
    case QuickTest1 =>
    case _ =>
  }

  lemma NotCommitted(c: Config, s: State, s': State, n: nat)
    requires ThreadStep(c, s, s', n) && !LockedStep(c.g, s, s', n)
    ensures Sized(c.g, s') && !Committed(s'.th[n]) && !s'.th[n].pc.LockedScan?
  {
    assert InsOk(c.g, n);
    if WakeStep(c.g, s, s', n) { WakeCounts(c.g, s, s', n); }
    else if QuickStep(c.g, s, s', n) { QuickNotCommitted(c.g, s, s', n); }
    else { CallNotCommitted(c, s, s', n); }
  }

  lemma CallNotCommitted(c: Config, s: State, s': State, n: nat)
    requires GraphOk(c.g) && Sized(c.g, s) && n < |c.g.ins| && InsOk(c.g, n)
    requires CallWait(c, s, s', n) || CallProduce(c, s, s', n, false) || CallProduce(c, s, s', n, true)
          || ConsumeStep(c.g, s, s', n) || SendStep(c.g, s, s', n)
    ensures Sized(c.g, s') && !Committed(s'.th[n]) && !s'.th[n].pc.LockedScan?
  {
    if CallWait(c, s, s', n) {
    } else if ConsumeStep(c.g, s, s', n) {
    } else if SendStep(c.g, s, s', n) {
    }
  }

  lemma OwnKept(c: Config, s: State, s': State, n: nat)
    requires WakeInv(c.g, s) && ThreadStep(c, s, s', n) && Sized(c.g, s')
    ensures CountedIsReady(c.g, s', n) && ReadyIsHeld(c.g, s', n) && ExhaustedIsHeld(c.g, s', n)
  {
    if LockedStep(c.g, s, s', n) {
      ConsumerReady(c.g, s, s', n);
      ConsumerExhausted(c.g, s, s', n);
      forall p: nat | p < |s.th|
        ensures Holds(s, p, n) ==> Holds(s', p, n)
        ensures HoldsQuitting(s, p, n) ==> HoldsQuitting(s', p, n)
      {
        HoldersUntouched(c, s, s', n, p);
      }
    } else {
      NotCommitted(c, s, s', n);
    }
  }

  lemma SpuriousKept(c: Config, s: State, s': State, n: nat)
    requires WakeInv(c.g, s) && SpuriousWake(c, s, s', n)
    ensures WakeInv(c.g, s')
  {
    SpuriousRely(c, s, s', n);
    forall m | 0 <= m < |c.g.ins|
      ensures CountedIsReady(c.g, s', m) && ReadyIsHeld(c.g, s', m) && ExhaustedIsHeld(c.g, s', m)
    {
      assert CountedIsReady(c.g, s, m) && ReadyIsHeld(c.g, s, m) && ExhaustedIsHeld(c.g, s, m);
      ReadyStays(c.g, s, s', m);
      assert AllReady(c.g, s', m) == AllReady(c.g, s, m) && Exhausted(c.g, s', m) == Exhausted(c.g, s, m);
      if Committed(s'.th[m]) && AllReady(c.g, s', m) {
        var p: nat :| p < |s.th| && Holds(s, p, m);
        assert Holds(s', p, m);
      }
      if (s'.th[m].pc.CvWait? || s'.th[m].pc.Asleep?) && Exhausted(c.g, s', m) {
        var p: nat :| p < |s.th| && HoldsQuitting(s, p, m);
        assert HoldsQuitting(s', p, m);
      }
    }
  }

  lemma NextKept(c: Config, s: State, s': State)
    requires WakeInv(c.g, s) && Next(c, s, s')
    ensures WakeInv(c.g, s')
  {
    var t: nat :| ThreadStep(c, s, s', t) || SpuriousWake(c, s, s', t);
    if SpuriousWake(c, s, s', t) {
      SpuriousKept(c, s, s', t);
    } else {
      BasicKept(c, s, s', t);
      forall n | 0 <= n < |c.g.ins|
        ensures CountedIsReady(c.g, s', n) && ReadyIsHeld(c.g, s', n) && ExhaustedIsHeld(c.g, s', n)
      {
        if n == t { OwnKept(c, s, s', n); } else { OtherKept(c, s, s', t, n); }
      }
    }
  }

  lemma {:induction false} RunKept(c: Config, run: seq<State>, k: nat)
    requires Run(c, run) && k < |run|
    ensures WakeInv(c.g, run[k])
  {
    if k == 0 {
      BasicInit(c.g, run[0]);
    } else {
      RunKept(c, run, k - 1);
      assert StepAt(c, run, k - 1);
      NextKept(c, run[k - 1], run[k]);
    }
  }

  /** An edge with neither the threshold nor a skip. */
  predicate Lacks(g: Graph, s: State, e: nat) {
    e < |g.edges| && e < |s.es| && s.es[e].pending < g.edges[e].threshold && s.es[e].skips == 0
  }

  /**
    In every state of every run, on every graph and whatever calls the threads make: if the
    thread of node n is asleep and every edge into n holds the threshold or has a skip left, some
    thread still has n on its list of nodes to wake. If it is asleep, no forward edge does, and
    all forward edges have signaled termination, a terminating thread has.
   */
  lemma NoLostWakeup(c: Config, run: seq<State>, k: nat, n: nat)
    requires Run(c, run) && k < |run| && n < |c.g.ins|
    ensures Basic(c.g, run[k]) && InsOk(c.g, n)
    ensures run[k].th[n].pc == Asleep && (forall j :: 0 <= j < |c.g.ins[n]| ==> !Lacks(c.g, run[k], c.g.ins[n][j])) ==>
              exists p: nat :: p < |run[k].th| && Holds(run[k], p, n)
    ensures run[k].th[n].pc == Asleep && run[k].terms[n] == ForwardIns(c.g, c.g.ins[n]) != 0
            && (forall j :: 0 <= j < |c.g.ins[n]| && !c.g.edges[c.g.ins[n][j]].backedge ==>
                  Lacks(c.g, run[k], c.g.ins[n][j])) ==>
              exists p: nat :: p < |run[k].th| && HoldsQuitting(run[k], p, n)
  {
    RunKept(c, run, k);
    assert InsOk(c.g, n) && ReadyIsHeld(c.g, run[k], n) && ExhaustedIsHeld(c.g, run[k], n);
  }
}
