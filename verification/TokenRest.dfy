/**
  The protocol cannot get stuck. When no call can go on, on any graph, with any rates and skips and whatever calls
  the threads make, every thread is between calls or asleep, every lock is free, and whoever sleeps lacks tokens on
  some edge.
 */
module TokenRest {
  import opened TokenModel
  import opened TokenRely
  import W = TokenWakeup
  import T = TokenTermination

  /** No thread that is inside a call has a step left; a thread between calls may begin one. */
  ghost predicate Still(c: Config, s: State) {
    forall n: nat, s' :: ThreadStep(c, s, s', n) ==> n < |s.th| && s.th[n].pc == User
  }

  /** A thread that holds a lock can always go on. */
  lemma HolderSteps(c: Config, s: State, n: nat)
    requires Basic(c.g, s) && n < |c.g.ins| && (Locking(s.th[n].pc) || Waking(s.th[n].pc))
    ensures exists s' :: ThreadStep(c, s, s', n)
  {
    assert InsOk(c.g, n) && ThreadOk(c.g, s, n);
    assert ThreadStep(c, s, if Locking(s.th[n].pc) then AfterLocked(c.g, s, n) else AfterWake(c.g, s, n), n);
  }

  /** A thread that wants a free lock can take it. */
  lemma LockSteps(c: Config, s: State, n: nat)
    requires Basic(c.g, s) && n < |c.g.ins|
    requires var t := s.th[n];
             || (t.pc.Acquire? && s.lock[n] == FREE)
             || (t.pc.WakeNext? && t.wake != [] && t.wake[0] < |s.lock| && s.lock[t.wake[0]] == FREE)
    ensures exists s' :: ThreadStep(c, s, s', n)
  {
    assert ThreadStep(c, s, if s.th[n].pc.Acquire? then AfterLocked(c.g, s, n) else AfterWake(c.g, s, n), n);
  }

  /** A thread inside a call that waits for nothing can go on. */
  lemma CallSteps(c: Config, s: State, n: nat)
    requires Basic(c.g, s) && n < |c.g.ins|
    requires
      || s.th[n].pc.QuickScan? || s.th[n].pc.QuickTest1? || s.th[n].pc.QuickTest2?
      || s.th[n].pc.Consume? || s.th[n].pc.Skip? || s.th[n].pc.Produce? || (s.th[n].pc.WakeNext? && s.th[n].wake == [])
    ensures exists s' :: ThreadStep(c, s, s', n)
  {
    var t := s.th[n];
    assert InsOk(c.g, n) && OutsOk(c.g, n);
    if t.pc.QuickScan? || t.pc.QuickTest1? || t.pc.QuickTest2? {
      assert ThreadStep(c, s, AfterQuick(c.g, s, n), n);
    } else if t.pc.Consume? || t.pc.Skip? {
      assert ThreadStep(c, s, AfterConsume(c.g, s, n), n);
    } else if t.pc.WakeNext? {
      assert ThreadStep(c, s, AfterWake(c.g, s, n), n);
    } else if t.i < |c.g.outs[n]| {
      assert EdgeOk(c.g, c.g.outs[n][t.i]);
      assert ThreadStep(c, s, AfterSend(c.g, s, n, c.g.outs[n][t.i]), n);
    } else {
      assert ThreadStep(c, s, Set(s, n, t.(pc := WakeNext)), n);
    }
  }

  lemma LocksFree(c: Config, s: State, n: nat)
    requires Basic(c.g, s) && Still(c, s) && n < |c.g.ins|
    ensures s.lock[n] == FREE
  {
    assert HolderOk(c.g, s, n);
    if s.lock[n] != FREE {
      HolderSteps(c, s, s.lock[n]);
    }
  }

  lemma StillThread(c: Config, s: State, n: nat)
    requires Basic(c.g, s) && Still(c, s) && n < |c.g.ins|
    ensures s.th[n].pc.User? || s.th[n].pc.Asleep?
    ensures s.th[n].wake == []
  {
    var t := s.th[n];
    assert ThreadOk(c.g, s, n);
    forall m | 0 <= m < |c.g.ins| ensures s.lock[m] == FREE { LocksFree(c, s, m); }
    if Locking(t.pc) || Waking(t.pc) {
      HolderSteps(c, s, n);
    } else if t.pc.Acquire? || (t.pc.WakeNext? && t.wake != []) {
      LockSteps(c, s, n);
    } else if !t.pc.User? && !t.pc.Asleep? {
      CallSteps(c, s, n);
    }
  }

  lemma NobodyHolds(c: Config, s: State, n: nat)
    requires Basic(c.g, s) && Still(c, s)
    ensures forall p: nat :: p < |s.th| ==> !W.Holds(s, p, n) && !W.HoldsQuitting(s, p, n)
  {
    forall p: nat | p < |s.th| ensures !W.Holds(s, p, n) && !W.HoldsQuitting(s, p, n) { StillThread(c, s, p); }
  }

  /** Nobody sleeps although every edge into its node holds the threshold or has a skip left. */
  lemma NoReadySleeper(c: Config, run: seq<State>, k: nat, n: nat)
    requires Run(c, run) && k < |run| && n < |c.g.ins| && Still(c, run[k])
    ensures Basic(c.g, run[k]) && run[k].lock[n] == FREE
    ensures run[k].th[n].pc == User || run[k].th[n].pc == Asleep
    ensures run[k].th[n].pc == Asleep ==>
              exists j :: 0 <= j < |c.g.ins[n]| && W.Lacks(c.g, run[k], c.g.ins[n][j])
  {
    W.NoLostWakeup(c, run, k, n);
    LocksFree(c, run[k], n);
    StillThread(c, run[k], n);
    NobodyHolds(c, run[k], n);
  }

  /**
    Nobody sleeps behind producers that have all terminated, unless some forward edge into its node could still
    serve it.
   */
  lemma NoExhaustedSleeper(c: Config, run: seq<State>, k: nat, n: nat)
    requires !c.client.Anything? && Run(c, run) && k < |run| && n < |c.g.ins| && Still(c, run[k])
    ensures Basic(c.g, run[k]) && InsOk(c.g, n)
    ensures run[k].th[n].pc == Asleep && !Source(c.g, n) && T.AllOver(c.g, run[k], n) ==>
              exists j :: 0 <= j < |c.g.ins[n]| && !c.g.edges[c.g.ins[n][j]].backedge
                          && !W.Lacks(c.g, run[k], c.g.ins[n][j])
  {
    W.NoLostWakeup(c, run, k, n);
    T.SignalsCounted(c, run, k, n);
    NobodyHolds(c, run[k], n);
  }
}
