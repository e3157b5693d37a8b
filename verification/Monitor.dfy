/**
  The lock and the condition variable of a node, as the token protocol uses them, and the projections that show
  both what the protocol does to them and that the implementations do nothing else.
 */
module Monitor {
  import CV = CondVar
  import M = TokenModel
  import R = TokenRely
  import Q = QueueLock
  import T = TicketLock

  const FREE: int := -1

  /** Where the node's own thread is: inside with the lock, waiting for a signal, or neither. */
  datatype Phase = Outside | Inside | Waiting

  datatype View = View(lock: int, owner: Phase)

  /** What may happen to the lock alone: a thread takes it when it is free, or the holder gives it back. */
  predicate LockMove(h: int, h': int) {
    h' == h || h == FREE || h' == FREE
  }

  /**
    What may happen to the monitor of the node with thread `me`: `me` enters or leaves; `me` gives the lock back and
    begins to wait in one step; a thread that holds the lock signals, or nobody does, and the waiting
    ends; another thread takes the lock or gives it back; or nothing.
   */
  predicate Move(me: int, v: View, v': View) {
    || v' == v
    || (v == View(FREE, Outside) && v' == View(me, Inside))
    || (v == View(me, Inside) && v' == View(FREE, Outside))
    || (v == View(me, Inside) && v' == View(FREE, Waiting))
    || (v.owner == Waiting && v' == v.(owner := Outside))
    || (v.lock == FREE && v'.lock != FREE && v'.lock != me && v'.owner == v.owner)
    || (v.lock != FREE && v.lock != me && v'.lock == FREE && v'.owner == v.owner)
  }

  // -------------------------------------------------------------- the token protocol

  /** The monitor of node n in a state of the token protocol. */
  function NodeView(s: M.State, n: nat): View
    requires n < |s.th| && n < |s.lock|
  {
    View(s.lock[n],
         if s.th[n].pc.Asleep? then Waiting
         else if M.Locking(s.th[n].pc) || (M.Waking(s.th[n].pc) && s.th[n].target == n) then Inside
         else Outside)
  }

  /** A signal is sent by the holder of the lock. */
  predicate Signaled(s: M.State, s': M.State, n: nat)
    requires n < |s.th| && n < |s.lock| && n < |s'.th| && n < |s'.lock|
  {
    s.th[n].pc.Asleep? && !s'.th[n].pc.Asleep?
  }

  lemma OwnLockedMove(g: M.Graph, s: M.State, s': M.State, n: nat)
    requires |g.ins| == |g.outs| && M.Sized(g, s) && n < |g.ins| && M.InsOk(g, n) && M.LockedStep(g, s, s', n)
    requires R.ThreadOk(g, s, n)
    ensures M.Sized(g, s') && Move(n, NodeView(s, n), NodeView(s', n))
  {
    match s.th[n].pc
    case Acquire =>
    case LockedScan =>
    case LockedTest1 =>
    case LockedTest2 =>
    case CvWait =>
    case _ =>
  }

  lemma OwnWakeMove(g: M.Graph, s: M.State, s': M.State, n: nat)
    requires M.GraphOk(g) && M.Sized(g, s) && n < |g.ins| && M.WakeStep(g, s, s', n) && R.ThreadOk(g, s, n)
    requires R.HolderOk(g, s, n)
    ensures M.Sized(g, s') && Move(n, NodeView(s, n), NodeView(s', n))
  {
    match s.th[n].pc
    case WakeNext =>
    case WakeScan =>
    case WakeSignal =>
    case _ =>
  }

  lemma OwnMove(c: M.Config, s: M.State, s': M.State, n: nat)
    requires M.ThreadStep(c, s, s', n) && R.ThreadOk(c.g, s, n) && R.HolderOk(c.g, s, n)
    requires M.Sized(c.g, s') && R.ThreadOk(c.g, s', n) && R.HolderOk(c.g, s', n)
    ensures Move(n, NodeView(s, n), NodeView(s', n))
  {
    assert M.InsOk(c.g, n) && M.OutsOk(c.g, n);
    if M.LockedStep(c.g, s, s', n) {
      OwnLockedMove(c.g, s, s', n);
    } else if M.WakeStep(c.g, s, s', n) {
      OwnWakeMove(c.g, s, s', n);
    } else {
      OwnOtherMove(c, s, s', n);
    }
  }

  /** Outside the monitor, neither holding nor waiting. */
  predicate Away(pc: M.Pc) {
    !pc.Asleep? && !M.Locking(pc) && !M.Waking(pc)
  }

  /** The other steps of a node's own thread take place outside. */
  lemma OwnOtherMove(c: M.Config, s: M.State, s': M.State, n: nat)
    requires M.ThreadStep(c, s, s', n) && !M.LockedStep(c.g, s, s', n) && !M.WakeStep(c.g, s, s', n)
    requires M.Sized(c.g, s')
    ensures s'.lock == s.lock && Away(s.th[n].pc) && Away(s'.th[n].pc)
  {
    assert M.InsOk(c.g, n);
    if M.QuickStep(c.g, s, s', n) {
      QuickAway(c.g, s, s', n);
    } else if M.ConsumeStep(c.g, s, s', n) {
    } else if M.SendStep(c.g, s, s', n) {
    } else {
      CallAway(c, s, s', n);
    }
  }

  lemma QuickAway(g: M.Graph, s: M.State, s': M.State, n: nat)
    requires M.Sized(g, s) && n < |g.ins| && M.InsOk(g, n) && M.QuickStep(g, s, s', n)
    ensures M.Sized(g, s') && s'.lock == s.lock && Away(s.th[n].pc) && Away(s'.th[n].pc)
  {
    match s.th[n].pc
    case QuickScan =>
    case _ =>
  }

  lemma CallAway(c: M.Config, s: M.State, s': M.State, n: nat)
    requires M.Sized(c.g, s) && n < |c.g.ins| && M.InsOk(c.g, n)
    requires M.CallWait(c, s, s', n) || M.CallProduce(c, s, s', n, false) || M.CallProduce(c, s, s', n, true)
    ensures M.Sized(c.g, s') && s'.lock == s.lock && Away(s.th[n].pc) && Away(s'.th[n].pc)
  {
  }

  lemma OtherMove(c: M.Config, s: M.State, s': M.State, t: nat, n: nat)
    requires M.ThreadStep(c, s, s', t) && t != n && n < |c.g.ins| && R.ThreadOk(c.g, s, t)
    requires R.ThreadOk(c.g, s, n) && R.HolderOk(c.g, s, n) && M.Sized(c.g, s') && R.HolderOk(c.g, s', n)
    ensures Move(n, NodeView(s, n), NodeView(s', n))
    ensures Signaled(s, s', n) ==> s.lock[n] == t
  {
    R.OthersRely(c, s, s', t, n);
    R.LocksStay(c, s, s', t);
    if s.th[n].pc.Asleep? && !s'.th[n].pc.Asleep? { SignalerHolds(c, s, s', t, n); }
  }

  /** Another thread that wakes the owner holds its lock. */
  lemma SignalerHolds(c: M.Config, s: M.State, s': M.State, t: nat, n: nat)
    requires M.ThreadStep(c, s, s', t) && t != n && n < |c.g.ins| && R.ThreadOk(c.g, s, t) && M.Sized(c.g, s')
    requires s.th[n].pc.Asleep? && !s'.th[n].pc.Asleep?
    ensures s.lock[n] == t && s'.lock == s.lock
  {
    assert M.InsOk(c.g, t);
    if M.WakeStep(c.g, s, s', t) {
      match s.th[t].pc
      case WakeSignal =>
      case _ =>
    }
  }

  /**
    Every step of the protocol is a move of every node's monitor, and a sleeper is woken only by a holder of the lock,
    or spuriously.
   */
  lemma ProtocolMoves(c: M.Config, s: M.State, s': M.State, n: nat)
    requires R.Basic(c.g, s) && M.Next(c, s, s') && n < |c.g.ins|
    ensures M.Sized(c.g, s') && Move(n, NodeView(s, n), NodeView(s', n))
    ensures Signaled(s, s', n) ==> s.lock[n] != FREE || M.SpuriousWake(c, s, s', n)
  {
    var t: nat :| M.ThreadStep(c, s, s', t) || M.SpuriousWake(c, s, s', t);
    if M.ThreadStep(c, s, s', t) { ThreadMoves(c, s, s', t, n); } else { R.SpuriousRely(c, s, s', t); }
  }

  lemma ThreadMoves(c: M.Config, s: M.State, s': M.State, t: nat, n: nat)
    requires R.Basic(c.g, s) && M.ThreadStep(c, s, s', t) && n < |c.g.ins|
    ensures M.Sized(c.g, s') && Move(n, NodeView(s, n), NodeView(s', n))
    ensures Signaled(s, s', n) ==> s.lock[n] != FREE
  {
    R.BasicKept(c, s, s', t);
    if t == n { OwnMove(c, s, s', n); } else { OtherMove(c, s, s', t, n); }
  }

  // -------------------------------------------------------- the condition variable

  /** The monitor that the futex condition variable implements, thread 0 being the node's own. */
  function CvView(s: CV.State): View
    requires |s.th| > 0
  {
    View(s.lock, if CV.Waiting(s) then Waiting else if CV.Inside(s.th[0].pc) then Inside else Outside)
  }

  lemma SignalMove(c: CV.Config, s: CV.State, s': CV.State, w: nat, u: nat)
    requires CV.Basic(c, s) && CV.SignalStep(c, s, s', w, u) && |s.th| == |s'.th| > 0
    ensures Move(0, CvView(s), CvView(s'))
    ensures CV.Waiting(s) && !CV.Waiting(s') ==> s.lock == w
  {
    assert CV.ThreadOk(c, s, w) && CV.ThreadOk(c, s, 0);
  }

  lemma WaiterMove(c: CV.Config, s: CV.State, s': CV.State, w: nat)
    requires c.solo && CV.Basic(c, s) && CV.Basic(c, s') && CV.Window(s, c.mod - 1) && |s.th| == |s'.th| > 0
    requires CV.WaitStep(c, s, s', w) || CV.LockStep(s, s', w) || CV.UnlockStep(s, s', w) || CV.Spurious(s, s', w)
    ensures Move(0, CvView(s), CvView(s'))
    ensures CV.Waiting(s) && !CV.Waiting(s') ==> CV.Spurious(s, s', 0)
  {
    assert CV.ThreadOk(c, s, w) && CV.ThreadOk(c, s, 0) && CV.ThreadOk(c, s', 0);
    if s.th[w].pc.Futex? { CV.Compared(c, s, w); }
  }

  /**
    Every step of the implementation is a move of the monitor, and the waiting ends only by a signal of the holder, or
    spuriously.
   */
  lemma CondVarMoves(c: CV.Config, run: seq<CV.State>, k: nat)
    requires c.solo && c.mod > 0 && CV.Bounded(c, run, c.mod - 1) && k + 1 < |run| && |run[0].th| > 0
    ensures |run[k].th| == |run[k + 1].th| > 0 && Move(0, CvView(run[k]), CvView(run[k + 1]))
    ensures CV.Waiting(run[k]) && !CV.Waiting(run[k + 1]) ==> run[k].lock != FREE || CV.Spurious(run[k], run[k + 1], 0)
  {
    CV.RunBasic(c, run, k);
    CV.RunBasic(c, run, k + 1);
    assert CV.StepAt(c, run, k);
    StepMoves(c, run[k], run[k + 1]);
  }

  lemma StepMoves(c: CV.Config, s: CV.State, s': CV.State)
    requires c.solo && CV.Basic(c, s) && CV.Basic(c, s') && CV.Window(s, c.mod - 1)
    requires CV.Next(c, s, s') && |s.th| == |s'.th| > 0
    ensures Move(0, CvView(s), CvView(s'))
    ensures CV.Waiting(s) && !CV.Waiting(s') ==> s.lock != FREE || CV.Spurious(s, s', 0)
  {
    if w: nat, u: nat :| CV.SignalStep(c, s, s', w, u) {
      SignalMove(c, s, s', w, u);
    } else {
      var w: nat :|
        CV.WaitStep(c, s, s', w) || CV.LockStep(s, s', w) || CV.UnlockStep(s, s', w) || CV.Spurious(s, s', w);
      WaiterMove(c, s, s', w);
    }
  }

  // ----------------------------------------------------------------------- the locks

  /** Who owns the queue lock. */
  function QueueHolder(s: Q.State): int
    requires s.left <= |s.entered|
  {
    if s.left < |s.entered| then s.entered[s.left] else FREE
  }

  /** Every step of the queue lock is a move of a lock whose holder is the thread that owns it. */
  lemma QueueLockMoves(run: seq<Q.State>, i: nat)
    requires Q.Run(run) && i + 1 < |run|
    ensures Q.QueueOk(run[i]) && Q.QueueOk(run[i + 1]) && LockMove(QueueHolder(run[i]), QueueHolder(run[i + 1]))
    ensures forall t :: 0 <= t < |run[i].pc| ==> (Q.Owning(run[i].pc[t]) <==> QueueHolder(run[i]) == t)
  {
    Q.RunKeeps(run, i);
    Q.RunKeeps(run, i + 1);
    assert Q.StepAt(run, i);
    QueueMove(run[i], run[i + 1]);
    forall t | 0 <= t < |run[i].pc| ensures Q.Owning(run[i].pc[t]) <==> QueueHolder(run[i]) == t {
      QueueOwner(run[i], t);
    }
  }

  lemma QueueOwner(s: Q.State, t: nat)
    requires Q.QueueOk(s) && t < |s.pc| && Q.ThreadOk(s, t)
    ensures Q.Owning(s.pc[t]) <==> QueueHolder(s) == t
  {
    if s.left < |s.entered| { assert s.entered[s.left] == s.order[s.left]; }
  }

  lemma QueueMove(s: Q.State, s': Q.State)
    requires Q.QueueOk(s) && Q.QueueOk(s') && Q.Next(s, s')
    ensures LockMove(QueueHolder(s), QueueHolder(s'))
  {
  }

  /** Who owns the ticket lock. */
  function TicketHolder(s: T.State): int {
    if T.Inside(s) then s.order[s.served] else FREE
  }

  /** Every step of the ticket lock is a move of a lock whose holder is the thread inside. */
  lemma TicketLockMoves(half: nat, threads: nat, run: seq<T.State>, k: nat)
    requires T.Run(half, threads, run) && threads <= half && k + 1 < |run|
    ensures LockMove(TicketHolder(run[k]), TicketHolder(run[k + 1]))
    ensures forall w :: 0 <= w < |run[k].th| ==> (run[k].th[w].pc.Critical? <==> TicketHolder(run[k]) == w)
  {
    T.RunKeeps(half, threads, run, k);
    T.RunKeeps(half, threads, run, k + 1);
    assert T.StepAt(half, run, k);
    TicketMove(half, run[k], run[k + 1]);
    forall w | 0 <= w < |run[k].th| ensures run[k].th[w].pc.Critical? <==> TicketHolder(run[k]) == w {
      assert T.ThreadOk(half, run[k], w);
    }
  }

  lemma TicketMove(half: nat, s: T.State, s': T.State)
    requires T.Inv(half, s) && T.Inv(half, s') && T.Next(half, s, s')
    ensures LockMove(TicketHolder(s), TicketHolder(s'))
  {
    var w: nat :| T.ThreadStep(half, s, s', w);
    assert T.ThreadOk(half, s, w);
    if s'.served < |s'.order| { assert T.TicketOk(s', s'.served); }
  }
}
