/**
  What one thread can rely on while the others run, and the bookkeeping
  invariants of the token protocol: index ranges and lock ownership.
 */
module TokenRely {
  import opened TokenModel

  /** The program points inside `pgm_produce`. */
  predicate Producing(pc: Pc) {
    pc.Produce? || pc.WakeNext? || Waking(pc)
  }

  /**
    Everything a step of another thread may do to node n: wake its thread, add tokens to its in-edges and
    count terminate signals; it delivers nothing on n's out-edges. Only the thread of n itself
    lowers `nr_pending` or `nr_skips` of an edge into n.
   */
  predicate Rely(g: Graph, s: State, s': State, n: nat)
    requires Sized(g, s) && |g.outs| == |g.ins| && n < |g.ins| && InsOk(g, n) && OutsOk(g, n)
  {
    && Sized(g, s')
    && (s'.th[n] == s.th[n] || (s.th[n].pc == Asleep && s'.th[n] == s.th[n].(pc := Acquire)))
    && s'.terms[n] >= s.terms[n]
    && (forall j :: 0 <= j < |g.ins[n]| ==>
          && s'.es[g.ins[n][j]].pending >= s.es[g.ins[n][j]].pending
          && s'.es[g.ins[n][j]].skips == s.es[g.ins[n][j]].skips
          && s'.es[g.ins[n][j]].taken == s.es[g.ins[n][j]].taken)
    && (forall j :: 0 <= j < |g.outs[n]| ==>
          && s'.es[g.outs[n][j]].sent == s.es[g.outs[n][j]].sent
          && s'.es[g.outs[n][j]].over == s.es[g.outs[n][j]].over)
  }

  lemma WaitersRely(c: Config, s: State, s': State, t: nat, n: nat)
    requires GraphOk(c.g) && Sized(c.g, s) && t < |c.g.ins| && n < |c.g.ins| && t != n
    requires CallWait(c, s, s', t) || QuickStep(c.g, s, s', t) || LockedStep(c.g, s, s', t)
          || ConsumeStep(c.g, s, s', t)
    ensures Rely(c.g, s, s', n)
  {
    assert InsOk(c.g, n) && OutsOk(c.g, n) && InsOk(c.g, t);
  }

  lemma ProducersRely(g: Graph, s: State, s': State, t: nat, n: nat)
    requires GraphOk(g) && Sized(g, s) && t < |g.ins| && n < |g.ins| && t != n
    requires SendStep(g, s, s', t) || WakeStep(g, s, s', t)
    ensures Rely(g, s, s', n)
  {
    assert InsOk(g, n) && OutsOk(g, n) && OutsOk(g, t);
  }

  /** Any step of any other thread respects `Rely`. */
  lemma OthersRely(c: Config, s: State, s': State, t: nat, n: nat)
    requires ThreadStep(c, s, s', t) && n < |c.g.ins| && t != n
    ensures Rely(c.g, s, s', n)
  {
    if SendStep(c.g, s, s', t) || WakeStep(c.g, s, s', t) { ProducersRely(c.g, s, s', t, n); }
    else if CallWait(c, s, s', t) || QuickStep(c.g, s, s', t) || LockedStep(c.g, s, s', t)
         || ConsumeStep(c.g, s, s', t) {
      WaitersRely(c, s, s', t, n);
    }
  }

  // ------------------------------------------------------------- bookkeeping

  /** Index ranges of the thread of node n. */
  predicate InRange(g: Graph, n: nat, t: Thread)
    requires |g.ins| == |g.outs| && n < |g.ins|
  {
    && (forall k :: 0 <= k < |t.wake| ==> t.wake[k] < |g.ins|)
    && (!Producing(t.pc) ==> t.wake == [])
    && (t.pc.QuickScan? || t.pc.LockedScan? || t.pc.Consume? || t.pc.Skip? ==> t.i <= |g.ins[n]|)
    && (t.pc.Consume? ==> !t.quit)
    && (t.pc.Produce? ==> t.i <= |g.outs[n]|)
    && (Waking(t.pc) ==> t.target < |g.ins|)
    && (t.pc.WakeScan? ==> t.i <= |g.ins[t.target]|)
    && (t.pc.QuickScan? || t.pc.LockedScan? || t.pc.WakeScan? ==> t.nr <= t.i)
  }

  /** Index ranges, and the locks the thread of n holds. */
  predicate ThreadOk(g: Graph, s: State, n: nat)
    requires |g.ins| == |g.outs| && Sized(g, s) && n < |g.ins|
  {
    var t := s.th[n];
    && InRange(g, n, t)
    && (Locking(t.pc) ==> s.lock[n] == n)
    && (Waking(t.pc) ==> s.lock[t.target] == n)
  }

  /** A lock that is taken is held by a thread at a program point that says so. */
  predicate HolderOk(g: Graph, s: State, n: nat)
    requires Sized(g, s) && n < |g.ins|
  {
    s.lock[n] != FREE ==>
      && 0 <= s.lock[n] < |g.ins|
      && var t := s.th[s.lock[n]];
      (s.lock[n] == n && Locking(t.pc)) || (Waking(t.pc) && t.target == n)
  }

  predicate Basic(g: Graph, s: State) {
    && GraphOk(g) && Sized(g, s)
    && (forall n :: 0 <= n < |g.ins| ==> ThreadOk(g, s, n))
    && (forall n :: 0 <= n < |g.ins| ==> HolderOk(g, s, n))
  }

  /** A thread at program point Locking or Waking keeps the lock whatever another thread does. */
  lemma LocksStay(c: Config, s: State, s': State, t: nat)
    requires ThreadStep(c, s, s', t) && ThreadOk(c.g, s, t)
    ensures Sized(c.g, s')
    ensures forall n :: 0 <= n < |c.g.ins| && s.lock[n] != FREE && s.lock[n] != t ==> s'.lock[n] == s.lock[n]
    ensures forall n :: 0 <= n < |c.g.ins| && s.lock[n] == FREE ==> s'.lock[n] == FREE || s'.lock[n] == t
  {
    assert InsOk(c.g, t) && OutsOk(c.g, t);
  }

  lemma OwnQuickOk(g: Graph, s: State, s': State, n: nat)
    requires |g.ins| == |g.outs| && Sized(g, s) && n < |g.ins| && InsOk(g, n) && ThreadOk(g, s, n)
    requires QuickStep(g, s, s', n)
    ensures Sized(g, s') && ThreadOk(g, s', n)
  {
    match s.th[n].pc
    case QuickScan => assert ThreadOk(g, s', n);
    case QuickTest1 => assert ThreadOk(g, s', n);
    case _ =>
  }

  lemma OwnConsumeOk(g: Graph, s: State, s': State, n: nat)
    requires |g.ins| == |g.outs| && Sized(g, s) && n < |g.ins| && InsOk(g, n) && ThreadOk(g, s, n)
    requires ConsumeStep(g, s, s', n)
    ensures Sized(g, s') && ThreadOk(g, s', n)
  {
    match s.th[n].pc
    case Consume => assert ThreadOk(g, s', n);
    case _ =>
  }

  lemma OwnLockedOk(g: Graph, s: State, s': State, n: nat)
    requires |g.ins| == |g.outs| && Sized(g, s) && n < |g.ins| && InsOk(g, n) && ThreadOk(g, s, n)
    requires LockedStep(g, s, s', n)
    ensures Sized(g, s') && ThreadOk(g, s', n)
  {
    match s.th[n].pc
    case Acquire => assert ThreadOk(g, s', n);
    case LockedScan => assert ThreadOk(g, s', n);
    case LockedTest1 => assert ThreadOk(g, s', n);
    case LockedTest2 => assert ThreadOk(g, s', n);
    case CvWait => assert ThreadOk(g, s', n);
    case _ =>
  }

  lemma OwnSendOk(g: Graph, s: State, s': State, n: nat)
    requires GraphOk(g) && Sized(g, s) && n < |g.ins| && ThreadOk(g, s, n) && SendStep(g, s, s', n)
    ensures Sized(g, s') && ThreadOk(g, s', n)
  {
  }

  lemma OwnWakeOk(g: Graph, s: State, s': State, n: nat)
    requires GraphOk(g) && Sized(g, s) && n < |g.ins| && ThreadOk(g, s, n) && WakeStep(g, s, s', n)
    ensures Sized(g, s') && ThreadOk(g, s', n)
  {
    match s.th[n].pc
    case WakeNext => assert ThreadOk(g, s', n);
    case WakeScan => assert ThreadOk(g, s', n);
    case WakeSignal => assert ThreadOk(g, s', n);
    case _ =>
  }

  lemma OwnThreadOk(c: Config, s: State, s': State, n: nat)
    requires ThreadStep(c, s, s', n) && ThreadOk(c.g, s, n)
    ensures Sized(c.g, s') && ThreadOk(c.g, s', n)
  {
    if SendStep(c.g, s, s', n) { OwnSendOk(c.g, s, s', n); }
    else if WakeStep(c.g, s, s', n) { OwnWakeOk(c.g, s, s', n); }
    else if QuickStep(c.g, s, s', n) { OwnQuickOk(c.g, s, s', n); }
    else if ConsumeStep(c.g, s, s', n) { OwnConsumeOk(c.g, s, s', n); }
    else if LockedStep(c.g, s, s', n) { OwnLockedOk(c.g, s, s', n); }
  }

  /** Locks change hands only together with the program counter of the thread that takes or releases them. */
  lemma HoldersKept(c: Config, s: State, s': State, t: nat, n: nat)
    requires ThreadStep(c, s, s', t) && ThreadOk(c.g, s, t) && Sized(c.g, s') && ThreadOk(c.g, s', t)
    requires n < |c.g.ins| && HolderOk(c.g, s, n)
    ensures HolderOk(c.g, s', n)
  {
    assert InsOk(c.g, t) && OutsOk(c.g, t);
    if s.lock[n] != t && s.lock[n] != FREE {
      LocksStay(c, s, s', t);
      OthersRely(c, s, s', t, s.lock[n]);
    } else {
      OwnLocks(c, s, s', t, n);
    }
  }

  lemma OwnLocks(c: Config, s: State, s': State, t: nat, n: nat)
    requires ThreadStep(c, s, s', t) && ThreadOk(c.g, s, t) && Sized(c.g, s')
    requires n < |c.g.ins| && HolderOk(c.g, s, n) && (s.lock[n] == t || s.lock[n] == FREE)
    ensures HolderOk(c.g, s', n)
  {
    assert InsOk(c.g, t) && OutsOk(c.g, t);
  }

  lemma BasicKept(c: Config, s: State, s': State, t: nat)
    requires Basic(c.g, s) && ThreadStep(c, s, s', t)
    ensures Basic(c.g, s')
  {
    LocksStay(c, s, s', t);
    OwnThreadOk(c, s, s', t);
    forall n | 0 <= n < |c.g.ins| && n != t ensures ThreadOk(c.g, s', n) {
      assert ThreadOk(c.g, s, n);
      OthersRely(c, s, s', t, n);
    }
    forall n | 0 <= n < |c.g.ins| ensures HolderOk(c.g, s', n) { HoldersKept(c, s, s', t, n); }
  }

  lemma SpuriousRely(c: Config, s: State, s': State, n: nat)
    requires Basic(c.g, s) && SpuriousWake(c, s, s', n)
    ensures Basic(c.g, s') && s'.es == s.es && s'.terms == s.terms
    ensures forall m :: 0 <= m < |c.g.ins| ==> Rely(c.g, s, s', m)
  {
    forall m | 0 <= m < |c.g.ins| ensures ThreadOk(c.g, s', m) { assert ThreadOk(c.g, s, m); }
    forall m | 0 <= m < |c.g.ins| ensures HolderOk(c.g, s', m) { assert HolderOk(c.g, s, m); }
  }

  lemma BasicInit(g: Graph, s: State)
    requires Init(g, s)
    ensures Basic(g, s)
  {
    forall n | 0 <= n < |g.ins| ensures ThreadOk(g, s, n) && HolderOk(g, s, n) {}
  }

  // ------------------------------------------------- summaries of own steps

  /** Waiting without consuming leaves the counts of the thread alone and ends in front of an in-edge loop. */
  lemma WaitCounts(g: Graph, s: State, s': State, n: nat)
    requires GraphOk(g) && Sized(g, s) && n < |g.ins| && (QuickStep(g, s, s', n) || LockedStep(g, s, s', n))
    ensures Sized(g, s') && s'.es == s.es && s'.terms == s.terms
    ensures var t, t' := s.th[n], s'.th[n];
            && t'.fired == t.fired && t'.quits == t.quits && t'.completed == t.completed && t'.stopped == t.stopped
            && !t.pc.Consume? && !t.pc.Skip? && !Producing(t.pc) && !Producing(t'.pc)
            && (t'.pc.Consume? || t'.pc.Skip? ==> t'.i == 0) && (t'.pc.Skip? ==> t'.quit)
  {
    match s.th[n].pc
    case QuickScan =>
    case QuickTest1 =>
    case QuickTest2 =>
    case Acquire =>
    case LockedScan =>
    case LockedTest1 =>
    case LockedTest2 =>
    case CvWait =>
    case _ =>
  }

  /** Waking ends in the return from `pgm_produce`, where the call is counted. */
  lemma WakeCounts(g: Graph, s: State, s': State, n: nat)
    requires GraphOk(g) && Sized(g, s) && n < |g.ins| && WakeStep(g, s, s', n)
    ensures Sized(g, s') && s'.es == s.es && s'.terms == s.terms
    ensures var t, t' := s.th[n], s'.th[n];
            && t'.fired == t.fired && t'.quits == t.quits
            && (t.pc.WakeNext? || Waking(t.pc)) && (t'.pc.WakeNext? || Waking(t'.pc) || t'.pc.User?)
            && t'.stopped == (t.stopped || (t'.pc.User? && t.quit))
            && t'.completed == t.completed + (if t'.pc.User? && !t.quit then 1 else 0) && t'.quit == t.quit
  {
    match s.th[n].pc
    case WakeNext =>
    case WakeScan =>
    case WakeSignal =>
    case _ =>
  }
}
