/**
  What the calls of the token protocol conclude from the edges they look at, on any graph with any rates and skips:
  when a wait fires, when it ends in termination, and which consumers a completion wakes.
 */
module TokenAnswers {
  import opened TokenModel
  import opened TokenRely
  import opened TokenWakeup

  // ------------------------------------------------------------- termination

  /** The program points of one evaluation of the edges into a node. */
  predicate Evaluating(pc: Pc) {
    pc.QuickScan? || pc.QuickTest1? || pc.QuickTest2? || pc.LockedScan? || pc.LockedTest1? || pc.LockedTest2?
  }

  /** The thread of n is about to look at the j-th edge into n. */
  predicate LooksAt(s: State, n: nat, j: nat) {
    n < |s.th| && (s.th[n].pc.QuickScan? || s.th[n].pc.LockedScan?) && s.th[n].i == j
  }

  /** In the evaluation that node n is in, the j-th edge into n was lacking when the thread looked at it. */
  ghost predicate FoundLacking(g: Graph, run: seq<State>, k: nat, n: nat, j: nat)
    requires k < |run| && n < |g.ins| && j < |g.ins[n]|
  {
    && k > 0 && n < |run[k - 1].th| && n < |run[k].th| && Evaluating(run[k - 1].th[n].pc)
    && (|| (LooksAt(run[k - 1], n, j) && run[k].th[n].i == j + 1 && Lacks(g, run[k - 1], g.ins[n][j]))
        || FoundLacking(g, run, k - 1, n, j))
  }

  /** The evaluation has found every forward edge lacking that it has looked at. */
  ghost predicate AllLacking(g: Graph, run: seq<State>, k: nat, n: nat)
    requires k < |run| && n < |g.ins| && n < |run[k].th| && InsOk(g, n)
  {
    var t := run[k].th[n];
    Evaluating(t.pc) && t.fwd == 0 ==>
      forall j :: 0 <= j < |g.ins[n]| && (t.pc.QuickScan? || t.pc.LockedScan? ==> j < t.i)
                  && !g.edges[g.ins[n][j]].backedge ==>
        FoundLacking(g, run, k, n, j)
  }

  /** What the thread of n knows when it tests `nr_terminate_signals`. */
  predicate Tested(s: State, n: nat) {
    && n < |s.th| && n < |s.terms| && s.terms[n] >= 0
    && var t := s.th[n];
    && (t.pc.QuickTest1? || t.pc.QuickTest2? || t.pc.LockedTest1? || t.pc.LockedTest2? ==> t.fwd == 0)
    && (t.pc.QuickTest2? || t.pc.LockedTest2? ==> s.terms[n] > 0)
  }

  lemma TestedKept(c: Config, s: State, s': State, n: nat)
    requires Basic(c.g, s) && Next(c, s, s') && n < |c.g.ins| && Tested(s, n)
    ensures Tested(s', n)
  {
    var t: nat :| ThreadStep(c, s, s', t) || SpuriousWake(c, s, s', t);
    if SpuriousWake(c, s, s', t) {
    } else if t != n {
      OthersRely(c, s, s', t, n);
    } else {
      OwnTested(c, s, s', n);
    }
  }

  lemma OwnTested(c: Config, s: State, s': State, n: nat)
    requires ThreadStep(c, s, s', n) && Tested(s, n)
    ensures Tested(s', n)
  {
    assert InsOk(c.g, n) && OutsOk(c.g, n);
    if QuickStep(c.g, s, s', n) || LockedStep(c.g, s, s', n) { EvaluationTested(c.g, s, s', n); }
    else if SendStep(c.g, s, s', n) {}
    else { BeginsNew(c, s, s', n); }
  }

  lemma EvaluationTested(g: Graph, s: State, s': State, n: nat)
    requires Sized(g, s) && n < |g.ins| && InsOk(g, n) && Tested(s, n)
    requires QuickStep(g, s, s', n) || LockedStep(g, s, s', n)
    ensures Tested(s', n)
  {
    match s.th[n].pc
    case QuickScan =>
    case LockedScan =>
    case _ =>
  }

  lemma {:induction false} RunTested(c: Config, run: seq<State>, k: nat, n: nat)
    requires Run(c, run) && k < |run| && n < |c.g.ins|
    ensures Tested(run[k], n)
  {
    if k > 0 {
      RunTested(c, run, k - 1, n);
      RunBasic(c, run, k - 1);
      assert StepAt(c, run, k - 1);
      TestedKept(c, run[k - 1], run[k], n);
    }
  }

  lemma RunBasic(c: Config, run: seq<State>, k: nat)
    requires Run(c, run) && k < |run|
    ensures Basic(c.g, run[k])
  {
    TokenWakeup.RunKept(c, run, k);
  }

  /** Steps that do not concern the evaluation of node n. */
  lemma StaysFound(g: Graph, run: seq<State>, k: nat, n: nat)
    requires k + 1 < |run| && n < |g.ins| && InsOk(g, n) && n < |run[k].th| && n < |run[k + 1].th|
    requires Evaluating(run[k].th[n].pc) && AllLacking(g, run, k, n) && run[k + 1].th[n] == run[k].th[n]
    ensures AllLacking(g, run, k + 1, n)
  {
  }

  /** A step of the evaluation itself. */
  lemma OwnFound(c: Config, run: seq<State>, k: nat, n: nat)
    requires k + 1 < |run| && n < |c.g.ins| && Basic(c.g, run[k]) && InsOk(c.g, n)
    requires QuickStep(c.g, run[k], run[k + 1], n) || LockedStep(c.g, run[k], run[k + 1], n)
    requires AllLacking(c.g, run, k, n)
    ensures n < |run[k + 1].th| && AllLacking(c.g, run, k + 1, n)
  {
    var s, s' := run[k], run[k + 1];
    var t, t' := s.th[n], s'.th[n];
    assert ThreadOk(c.g, s, n);
    if Evaluating(t'.pc) && t'.fwd == 0 && !t.pc.Acquire? {
      forall j | 0 <= j < |c.g.ins[n]| && (t'.pc.QuickScan? || t'.pc.LockedScan? ==> j < t'.i)
                 && !c.g.edges[c.g.ins[n][j]].backedge
        ensures FoundLacking(c.g, run, k + 1, n, j)
      {
        Looked(c.g, s, s', n, j);
      }
    }
  }

  lemma Looked(g: Graph, s: State, s': State, n: nat, j: nat)
    requires GraphOk(g) && Sized(g, s) && n < |g.ins| && InsOk(g, n) && ThreadOk(g, s, n)
    requires QuickStep(g, s, s', n) || (LockedStep(g, s, s', n) && !s.th[n].pc.Acquire?)
    requires n < |s'.th| && Evaluating(s'.th[n].pc) && s'.th[n].fwd == 0
    requires j < |g.ins[n]| && !g.edges[g.ins[n][j]].backedge
    requires s'.th[n].pc.QuickScan? || s'.th[n].pc.LockedScan? ==> j < s'.th[n].i
    ensures Evaluating(s.th[n].pc) && s.th[n].fwd == 0
    ensures || (LooksAt(s, n, j) && s'.th[n].i == j + 1 && Lacks(g, s, g.ins[n][j]))
            || (s.th[n].pc.QuickScan? || s.th[n].pc.LockedScan? ==> j < s.th[n].i)
  {
    match s.th[n].pc
    case QuickScan =>
    case LockedScan =>
    case _ =>
  }

  lemma StepFound(c: Config, run: seq<State>, k: nat, n: nat)
    requires k + 1 < |run| && n < |c.g.ins| && Basic(c.g, run[k]) && InsOk(c.g, n) && Next(c, run[k], run[k + 1])
    requires AllLacking(c.g, run, k, n)
    ensures n < |run[k + 1].th| && AllLacking(c.g, run, k + 1, n)
  {
    var s, s' := run[k], run[k + 1];
    var t: nat :| ThreadStep(c, s, s', t) || SpuriousWake(c, s, s', t);
    if SpuriousWake(c, s, s', t) {
      if Evaluating(s.th[n].pc) { StaysFound(c.g, run, k, n); }
    } else if t != n {
      OthersRely(c, s, s', t, n);
      if Evaluating(s.th[n].pc) { StaysFound(c.g, run, k, n); }
    } else if QuickStep(c.g, s, s', n) || LockedStep(c.g, s, s', n) {
      OwnFound(c, run, k, n);
    } else {
      BeginsNew(c, s, s', n);
    }
  }

  /** Any other step of the thread leads to no evaluation, or to the beginning of one. */
  lemma BeginsNew(c: Config, s: State, s': State, n: nat)
    requires ThreadStep(c, s, s', n) && !QuickStep(c.g, s, s', n) && !LockedStep(c.g, s, s', n)
    ensures n < |s'.th|
    ensures Evaluating(s'.th[n].pc) ==> s'.th[n].pc.QuickScan? && s'.th[n].i == 0
  {
    assert InsOk(c.g, n);
    if WakeStep(c.g, s, s', n) { WakeCounts(c.g, s, s', n); }
    else if CallWait(c, s, s', n) {}
    else if ConsumeStep(c.g, s, s', n) {}
    else if SendStep(c.g, s, s', n) {}
  }

  lemma {:induction false} RunFound(c: Config, run: seq<State>, k: nat, n: nat)
    requires Run(c, run) && k < |run| && n < |c.g.ins|
    ensures n < |run[k].th| && InsOk(c.g, n) && AllLacking(c.g, run, k, n)
  {
    if k > 0 {
      RunFound(c, run, k - 1, n);
      RunBasic(c, run, k - 1);
      assert StepAt(c, run, k - 1);
      StepFound(c, run, k - 1, n);
    }
  }

  /** The step by which a wait ends in termination. */
  predicate Concludes(s: State, s': State, n: nat) {
    && n < |s.th| && n < |s'.th| && Evaluating(s.th[n].pc)
    && (s'.th[n].pc.Skip? || s'.th[n].pc.Release?) && s'.th[n].quit
  }

  /**
    A wait ends in termination only if every forward edge lacked tokens when this evaluation looked at it, and if
    `nr_terminate_signals` then is the number of forward edges and not 0.
   */
  lemma TerminatesOnlyUnserved(c: Config, run: seq<State>, k: nat, n: nat)
    requires Run(c, run) && k + 1 < |run| && n < |c.g.ins| && Concludes(run[k], run[k + 1], n)
    ensures InsOk(c.g, n) && Sized(c.g, run[k])
    ensures run[k].terms[n] == ForwardIns(c.g, c.g.ins[n]) > 0
    ensures forall j :: 0 <= j < |c.g.ins[n]| && !c.g.edges[c.g.ins[n][j]].backedge ==> FoundLacking(c.g, run, k, n, j)
  {
    RunFound(c, run, k, n);
    RunTested(c, run, k, n);
    RunBasic(c, run, k);
    assert StepAt(c, run, k);
    ConcludesFrom(c, run[k], run[k + 1], n);
  }

  lemma ConcludesFrom(c: Config, s: State, s': State, n: nat)
    requires Basic(c.g, s) && Next(c, s, s') && n < |c.g.ins| && Concludes(s, s', n)
    ensures s.th[n].pc.QuickTest2? || s.th[n].pc.LockedTest2?
    ensures s.terms[n] == ForwardIns(c.g, c.g.ins[n])
  {
    var t: nat :| ThreadStep(c, s, s', t) || SpuriousWake(c, s, s', t);
    if SpuriousWake(c, s, s', t) {
    } else if t != n {
      OthersRely(c, s, s', t, n);
    } else {
      OwnConclusion(c, s, s', n);
    }
  }

  lemma OwnConclusion(c: Config, s: State, s': State, n: nat)
    requires ThreadStep(c, s, s', n) && Concludes(s, s', n)
    ensures s.th[n].pc.QuickTest2? || s.th[n].pc.LockedTest2?
    ensures s.terms[n] == ForwardIns(c.g, c.g.ins[n])
  {
    assert InsOk(c.g, n);
    match s.th[n].pc
    case QuickScan =>
    case QuickTest1 =>
    case LockedScan =>
    case LockedTest1 =>
    case _ =>
  }

  // ---------------------------------------------------------------- wake-ups

  /** The first i edges into node n lack nothing. */
  predicate Served(g: Graph, s: State, n: nat, i: nat)
    requires n < |g.ins|
  {
    forall j :: 0 <= j < i && j < |g.ins[n]| ==> !Lacks(g, s, g.ins[n][j])
  }

  /** A completing thread p that examines a sleeper has counted edges that lack nothing still. */
  predicate Examined(g: Graph, s: State, p: nat)
    requires p < |s.th|
  {
    var t := s.th[p];
    (t.pc.WakeScan? || t.pc.WakeSignal?) && !t.quit && t.target < |g.ins| && t.target < |s.th|
    && s.th[t.target].pc.Asleep? ==>
      if t.pc.WakeScan? then t.nr == t.i ==> Served(g, s, t.target, t.i)
      else Served(g, s, t.target, |g.ins[t.target]|)
  }

  /** A step of p itself. */
  lemma OwnExamined(c: Config, s: State, s': State, p: nat)
    requires Basic(c.g, s) && ThreadStep(c, s, s', p) && Examined(c.g, s, p)
    ensures p < |s'.th| && Examined(c.g, s', p)
  {
    if WakeStep(c.g, s, s', p) {
      assert ThreadOk(c.g, s, p);
      WakeExamined(c.g, s, s', p);
    } else {
      ExaminesOnlyAfter(c, s, s', p);
    }
  }

  lemma ExaminesOnlyAfter(c: Config, s: State, s': State, p: nat)
    requires ThreadStep(c, s, s', p) && !WakeStep(c.g, s, s', p)
    ensures p < |s'.th| && !s'.th[p].pc.WakeScan? && !s'.th[p].pc.WakeSignal?
  {
    assert InsOk(c.g, p);
    if QuickStep(c.g, s, s', p) || LockedStep(c.g, s, s', p) {
    } else if SendStep(c.g, s, s', p) {
    } else if ConsumeStep(c.g, s, s', p) {
    }
  }

  lemma WakeExamined(g: Graph, s: State, s': State, p: nat)
    requires GraphOk(g) && Sized(g, s) && p < |g.ins| && ThreadOk(g, s, p) && WakeStep(g, s, s', p) && Examined(g, s, p)
    ensures p < |s'.th| && Examined(g, s', p)
  {
    match s.th[p].pc
    case WakeNext =>
    case WakeScan => assert s'.es == s.es;
    case WakeSignal =>
    case _ =>
  }

  /** A step of another thread: the target does not fall asleep while p holds its lock, and its edges lose nothing. */
  lemma OtherExamined(c: Config, s: State, s': State, u: nat, p: nat)
    requires Basic(c.g, s) && ThreadStep(c, s, s', u) && p < |c.g.ins| && p != u && Examined(c.g, s, p)
    ensures p < |s'.th| && Examined(c.g, s', p)
  {
    OthersRely(c, s, s', u, p);
    var n := s.th[p].target;
    if Waking(s.th[p].pc) {
      assert ThreadOk(c.g, s, p) && InsOk(c.g, n);
      if u == n {
        assert ThreadOk(c.g, s, n);
        NoFallingAsleep(c, s, s', n);
      } else {
        OthersRely(c, s, s', u, n);
      }
    }
  }

  lemma NoFallingAsleep(c: Config, s: State, s': State, n: nat)
    requires ThreadStep(c, s, s', n) && !Locking(s.th[n].pc)
    ensures n < |s'.th| && !s'.th[n].pc.Asleep?
  {
    assert InsOk(c.g, n);
    if LockedStep(c.g, s, s', n) {
    } else {
      NotCommitted(c, s, s', n);
    }
  }

  lemma NextExamined(c: Config, s: State, s': State, p: nat)
    requires Basic(c.g, s) && Next(c, s, s') && p < |c.g.ins| && Examined(c.g, s, p)
    ensures p < |s'.th| && Examined(c.g, s', p)
  {
    var t: nat :| ThreadStep(c, s, s', t) || SpuriousWake(c, s, s', t);
    if SpuriousWake(c, s, s', t) {
    } else if t == p {
      OwnExamined(c, s, s', p);
    } else {
      OtherExamined(c, s, s', t, p);
    }
  }

  lemma {:induction false} RunExamined(c: Config, run: seq<State>, k: nat, p: nat)
    requires Run(c, run) && k < |run| && p < |c.g.ins|
    ensures p < |run[k].th| && Examined(c.g, run[k], p)
  {
    if k > 0 {
      RunExamined(c, run, k - 1, p);
      RunBasic(c, run, k - 1);
      assert StepAt(c, run, k - 1);
      NextExamined(c, run[k - 1], run[k], p);
    }
  }

  /**
    A sleeper is woken by a completion only when no edge into its node lacks tokens, by a termination whatever the
    edges, or spuriously.
   */
  lemma WokenForAReason(c: Config, run: seq<State>, k: nat, n: nat)
    requires Run(c, run) && k + 1 < |run| && n < |c.g.ins|
    ensures Basic(c.g, run[k]) && n < |run[k + 1].th|
    ensures run[k].th[n].pc == Asleep && run[k + 1].th[n].pc != Asleep ==>
              || SpuriousWake(c, run[k], run[k + 1], n)
              || (exists p: nat :: p < |run[k].th| && HoldsQuitting(run[k], p, n) && run[k].th[p].pc.WakeSignal?)
              || forall j :: 0 <= j < |c.g.ins[n]| ==> !Lacks(c.g, run[k], c.g.ins[n][j])
  {
    RunBasic(c, run, k);
    assert StepAt(c, run, k);
    var s, s' := run[k], run[k + 1];
    var p: nat :| ThreadStep(c, s, s', p) || SpuriousWake(c, s, s', p);
    if ThreadStep(c, s, s', p) {
      RunExamined(c, run, k, p);
      WokenBy(c, s, s', p, n);
    }
  }

  lemma WokenBy(c: Config, s: State, s': State, p: nat, n: nat)
    requires Basic(c.g, s) && ThreadStep(c, s, s', p) && n < |c.g.ins|
    ensures n < |s'.th|
    ensures s.th[n].pc == Asleep && s'.th[n].pc != Asleep ==> s.th[p].pc.WakeSignal? && s.th[p].target == n
  {
    assert InsOk(c.g, p);
    if WakeStep(c.g, s, s', p) {
      match s.th[p].pc
      case WakeNext =>
      case WakeScan =>
      case _ =>
    } else if p != n {
      assert ThreadOk(c.g, s, p);
      if !Producing(s.th[p].pc) { WaitersNeutral(c, s, s', p, n); }
    }
  }

  // ------------------------------------------------------------- single steps

  /** A completion delivers `nr_produce` tokens and will examine the consumer exactly if they reach the threshold. */
  lemma ExaminesIffCrossed(c: Config, s: State, s': State, n: nat)
    requires ThreadStep(c, s, s', n) && s.th[n].pc == Produce && !s.th[n].quit && s.th[n].i < |c.g.outs[n]|
    ensures var e := c.g.outs[n][s.th[n].i];
            && e < |c.g.edges| && |s'.es| == |s.es| && n < |s'.th|
            && s'.es[e].pending == s.es[e].pending + c.g.edges[e].produce
            && s'.th[n].wake == s.th[n].wake +
               if s.es[e].pending < c.g.edges[e].threshold <= s'.es[e].pending then [c.g.edges[e].consumer] else []
  {
    assert OutsOk(c.g, n);
  }

  /** A wait that finds no edge lacking fires without the lock. */
  lemma FiresWithoutLock(c: Config, s: State, s': State, n: nat)
    requires Basic(c.g, s) && ThreadStep(c, s, s', n) && s.th[n].pc == QuickScan && s.th[n].nr == s.th[n].i
    requires Served(c.g, s, n, |c.g.ins[n]|)
    ensures n < |s'.th| && s'.lock == s.lock
    ensures s'.th[n].pc == Consume || (s'.th[n].pc == QuickScan && s'.th[n].nr == s'.th[n].i == s.th[n].i + 1)
  {
    assert InsOk(c.g, n) && ThreadOk(c.g, s, n);
  }
}
