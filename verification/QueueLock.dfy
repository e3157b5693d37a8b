/**
  The MCS queue lock of include/queuelock.h as a step machine: every load,
  store and compare-and-swap of `__ql_lock` and `__ql_unlock` is one step, and
  the steps of any number of threads interleave freely.

  A queue node is an address, and address 0 is the null pointer. A caller may
  hand any node to `__ql_lock` that no other thread is using, so a node is
  reused by the same or by another thread after it has been released, and a
  node nobody uses may be overwritten at any time (a stack frame that went away).
 */
module QueueLock {
  type Tid = nat
  type Node = nat

  const NULL: Node := 0

  /** The next statement a thread executes; the numbers are lines of the source. */
  datatype Pc =
    | Idle
    | ClearNext    // 50
    | SetBlocked   // 51
    | ReadTail     // 56
    | SwapTail     // 57
    | Link         // 63
    | Spin         // 66
    | Critical
    | TestNext     // 87, first operand
    | Release      // 87, second operand
    | AwaitNext    // 92
    | RecheckGone  // 99, reached through a successful swap at 87
    | RecheckNext  // 99, reached otherwise
    | LoadNext     // 102, the load of self->next
    | Unblock      // 102, the store

  /**
    Shared memory: `tail`, and `next` and `blocked` of every node.
    Per thread: program counter, own node, and the locals holding the node read
    from the tail (`prev`) and the node read from self->next (`succ`).
    History: `user[n]` is the thread between its call of `ql_lock` with node n
    and its return from `ql_unlock`; `order` and `entered` list the threads in the
    order of their successful swaps of the tail and of their entries into the
    critical section; `ticket[t]` is the position of t's latest swap in `order`;
    `left` counts the threads that have left the queue.
   */
  datatype State = State(
    tail: Node,
    next: seq<Node>,
    blocked: seq<bool>,
    pc: seq<Pc>,
    self: seq<Node>,
    prev: seq<Node>,
    succ: seq<Node>,
    user: seq<int>,
    ticket: seq<nat>,
    order: seq<Tid>,
    entered: seq<Tid>,
    left: nat)

  const NOBODY: int := -1

  predicate Sized(s: State) {
    && |s.next| == |s.blocked| == |s.user| > 0
    && |s.pc| == |s.self| == |s.prev| == |s.succ| == |s.ticket|
  }

  predicate Init(s: State) {
    && Sized(s)
    && s.tail == NULL
    && (forall t :: 0 <= t < |s.pc| ==> s.pc[t] == Idle)
    && (forall n :: 0 <= n < |s.user| ==> s.user[n] == NOBODY)
    && s.order == [] && s.entered == [] && s.left == 0
  }

  /** A call of `ql_lock` with a node `n` that is not in use. */
  predicate CallLock(s: State, s': State, t: Tid, n: Node) {
    && Sized(s) && t < |s.pc| && s.pc[t] == Idle && 0 < n < |s.user| && s.user[n] == NOBODY
    && s' == s.(pc := s.pc[t := ClearNext], self := s.self[t := n], user := s.user[n := t])
  }

  /** Anything may happen to the memory of a node that is not in use. */
  predicate Scribble(s: State, s': State, n: Node, next: Node, blocked: bool) {
    && Sized(s) && n < |s.user| && s.user[n] == NOBODY
    && s' == s.(next := s.next[n := next], blocked := s.blocked[n := blocked])
  }

  /** Thread t is inside `ql_lock` or `ql_unlock` or between them, and the nodes it is about to access are there. */
  predicate ThreadCan(s: State, t: Tid) {
    && Sized(s) && t < |s.pc| && s.pc[t] != Idle && s.self[t] < |s.next|
    && (s.pc[t] == Link ==> s.prev[t] < |s.next|)
    && (s.pc[t] == Unblock ==> s.succ[t] < |s.next|)
  }

  function AfterThread(s: State, t: Tid): State
    requires ThreadCan(s, t)
  {
    var me := s.self[t];
    match s.pc[t]
    case Idle => s
    case ClearNext => s.(pc := s.pc[t := SetBlocked], next := s.next[me := NULL])
    case SetBlocked => s.(pc := s.pc[t := ReadTail], blocked := s.blocked[me := true])
    case ReadTail => s.(pc := s.pc[t := SwapTail], prev := s.prev[t := s.tail])
    case SwapTail =>
      if s.tail != s.prev[t] then
        s.(pc := s.pc[t := ReadTail])
      else if s.tail != NULL then
        s.(pc := s.pc[t := Link], tail := me, order := s.order + [t], ticket := s.ticket[t := |s.order|])
      else
        s.(pc := s.pc[t := Critical], tail := me, order := s.order + [t], ticket := s.ticket[t := |s.order|],
           entered := s.entered + [t])
    case Link => s.(pc := s.pc[t := Spin], next := s.next[s.prev[t] := me])
    case Spin => if s.blocked[me] then s else s.(pc := s.pc[t := Critical], entered := s.entered + [t])
    case Critical => s.(pc := s.pc[t := TestNext])
    case TestNext => s.(pc := s.pc[t := if s.next[me] == NULL then Release else RecheckNext])
    case Release =>
      if s.tail == me then s.(pc := s.pc[t := RecheckGone], tail := NULL, left := s.left + 1)
      else s.(pc := s.pc[t := AwaitNext])
    case AwaitNext => if s.next[me] == NULL then s else s.(pc := s.pc[t := RecheckNext])
    case RecheckGone =>
      if s.next[me] == NULL then s.(pc := s.pc[t := Idle], user := s.user[me := NOBODY])
      else s.(pc := s.pc[t := LoadNext])
    case RecheckNext =>
      if s.next[me] == NULL then s.(pc := s.pc[t := Idle], user := s.user[me := NOBODY])
      else s.(pc := s.pc[t := LoadNext])
    case LoadNext => s.(pc := s.pc[t := Unblock], succ := s.succ[t := s.next[me]])
    case Unblock =>
      s.(pc := s.pc[t := Idle], user := s.user[me := NOBODY], left := s.left + 1,
         blocked := s.blocked[s.succ[t] := false])
  }

  /** One step of thread `t` inside `ql_lock` or `ql_unlock`, or its call of `ql_unlock`. */
  predicate ThreadStep(s: State, s': State, t: Tid) {
    ThreadCan(s, t) && s' == AfterThread(s, t)
  }

  ghost predicate Next(s: State, s': State) {
    || (exists t: Tid, n: Node :: CallLock(s, s', t, n))
    || (exists n: Node, next: Node, blocked :: Scribble(s, s', n, next, blocked))
    || (exists t: Tid :: ThreadStep(s, s', t))
  }

  ghost predicate StepAt(run: seq<State>, i: nat)
    requires i < |run| - 1
  {
    Next(run[i], run[i + 1])
  }

  ghost predicate Run(run: seq<State>) {
    && |run| > 0
    && Init(run[0])
    && forall i :: 0 <= i < |run| - 1 ==> StepAt(run, i)
  }

  // ---------------------------------------------------------------- invariant

  /** The program points of threads in the queue: from the swap of the tail to the hand-over. */
  predicate InQueue(pc: Pc) {
    pc.Link? || pc.Spin? || Owning(pc)
  }

  /** The program points from the entry into the critical section up to leaving the queue. */
  predicate Owning(pc: Pc) {
    pc.Critical? || pc.TestNext? || pc.Release? || pc.AwaitNext? || pc.RecheckNext? || pc.LoadNext? || pc.Unblock?
  }

  /** The queue is the part of `order` that has not left, and entries are a prefix of the swaps. */
  predicate QueueOk(s: State) {
    && Sized(s)
    && s.left <= |s.entered| <= s.left + 1
    && s.left <= |s.order|
    && s.entered <= s.order
    && (forall i :: 0 <= i < |s.order| ==> s.order[i] < |s.pc|)
    && (forall i :: s.left <= i < |s.order| ==> InQueue(s.pc[s.order[i]]) && s.ticket[s.order[i]] == i)
    && s.tail == if s.left == |s.order| then NULL else s.self[s.order[|s.order| - 1]]
  }

  /** A thread owns the node it uses, and its program counter says where it stands and what its node holds. */
  predicate ThreadOk(s: State, t: Tid)
    requires QueueOk(s) && t < |s.pc|
  {
    var me, k := s.self[t], s.ticket[t];
    s.pc[t] != Idle ==>
      && 0 < me < |s.user| && s.user[me] == t
      && (InQueue(s.pc[t]) ==>
            s.left <= k < |s.order| && s.order[k] == t && (k + 1 == |s.order| ==> s.next[me] == NULL))
      && (Owning(s.pc[t]) ==> k == s.left && |s.entered| == s.left + 1)
      && match s.pc[t]
         case SetBlocked => s.next[me] == NULL
         case ReadTail => s.next[me] == NULL && s.blocked[me]
         case SwapTail => s.next[me] == NULL && s.blocked[me]
         case Link =>
           && s.left < k && s.blocked[me] && s.prev[t] == s.self[s.order[k - 1]]
           && s.prev[t] < |s.next| && s.next[s.prev[t]] == NULL
         case Spin =>
           && (s.blocked[me] <==> s.left < k)
           && (s.left == k ==> |s.entered| == s.left)
           && (s.left < k ==> s.self[s.order[k - 1]] < |s.next| && s.next[s.self[s.order[k - 1]]] == me)
         case AwaitNext => k + 1 < |s.order|
         case RecheckGone => s.next[me] == NULL
         case RecheckNext => s.next[me] != NULL
         case LoadNext => s.next[me] != NULL
         case Unblock => s.next[me] != NULL && s.succ[t] == s.self[s.order[k + 1]]
         case _ => true
  }

  predicate Inv(s: State) {
    QueueOk(s) && forall t :: 0 <= t < |s.pc| ==> ThreadOk(s, t)
  }

  /** A thread and its predecessor in the queue. */
  lemma Around(s: State, t: Tid)
    requires Inv(s) && t < |s.pc|
    ensures ThreadOk(s, t)
    ensures InQueue(s.pc[t]) && s.left < s.ticket[t] ==> ThreadOk(s, s.order[s.ticket[t] - 1])
  {
  }

  /** The tail is the node of the last thread in the queue. */
  lemma Tail(s: State)
    requires Inv(s)
    ensures s.tail == NULL <==> s.left == |s.order|
    ensures s.left < |s.order| ==> ThreadOk(s, s.order[|s.order| - 1])
  {
    if s.left < |s.order| { assert ThreadOk(s, s.order[|s.order| - 1]); }
  }

  lemma CallLockKeeps(s: State, s': State, t: Tid, n: Node)
    requires Inv(s) && CallLock(s, s', t, n)
    ensures Inv(s')
  {
    assert QueueOk(s');
    forall u | 0 <= u < |s'.pc| ensures ThreadOk(s', u) { Around(s, u); }
  }

  lemma ScribbleKeeps(s: State, s': State, n: Node, next: Node, blocked: bool)
    requires Inv(s) && Scribble(s, s', n, next, blocked)
    ensures Inv(s')
  {
    assert QueueOk(s');
    forall u | 0 <= u < |s'.pc| ensures ThreadOk(s', u) { Around(s, u); }
  }

  /**
    Only thread t moved, on its own side of the queue; it wrote at most its own node, and only before it was queued.
   */
  predicate Local(s: State, s': State, t: Tid)
    requires Sized(s) && t < |s.pc|
  {
    && Sized(s') && |s'.pc| == |s.pc| && |s'.next| == |s.next|
    && s' == s.(pc := s'.pc, prev := s'.prev, succ := s'.succ, next := s'.next, blocked := s'.blocked)
    && (forall u :: 0 <= u < |s.pc| && u != t ==>
          s'.pc[u] == s.pc[u] && s'.prev[u] == s.prev[u] && s'.succ[u] == s.succ[u])
    && (forall n :: 0 <= n < |s.next| && (n != s.self[t] || InQueue(s.pc[t])) ==>
          s'.next[n] == s.next[n] && s'.blocked[n] == s.blocked[n])
    && s.pc[t] != Idle && InQueue(s'.pc[t]) == InQueue(s.pc[t])
  }

  lemma LocalKeepsQueue(s: State, s': State, t: Tid)
    requires Inv(s) && t < |s.pc| && Local(s, s', t)
    ensures QueueOk(s')
  {
  }

  /** What is known of a thread depends on its own variables, on its node and on the link to it. */
  lemma SameForThread(s: State, s': State, u: Tid)
    requires QueueOk(s) && QueueOk(s') && u < |s.pc| == |s'.pc| && |s'.next| == |s.next| && ThreadOk(s, u)
    requires s'.left == s.left && s'.order == s.order && s'.entered == s.entered
    requires s'.ticket == s.ticket && s'.self == s.self && s'.user == s.user
    requires s'.pc[u] == s.pc[u] && s'.prev[u] == s.prev[u] && s'.succ[u] == s.succ[u]
    requires s.pc[u] != Idle ==>
               s'.next[s.self[u]] == s.next[s.self[u]] && s'.blocked[s.self[u]] == s.blocked[s.self[u]]
    requires InQueue(s.pc[u]) && s.left < s.ticket[u] && s.self[s.order[s.ticket[u] - 1]] < |s.next| ==>
               s'.next[s.self[s.order[s.ticket[u] - 1]]] == s.next[s.self[s.order[s.ticket[u] - 1]]]
    ensures ThreadOk(s', u)
  {
  }

  lemma LocalKeepsOther(s: State, s': State, t: Tid, u: Tid)
    requires QueueOk(s) && t < |s.pc| && Local(s, s', t) && QueueOk(s') && ThreadOk(s, t)
    requires u < |s.pc| && u != t && ThreadOk(s, u)
    requires InQueue(s.pc[u]) && s.left < s.ticket[u] ==> ThreadOk(s, s.order[s.ticket[u] - 1])
    ensures ThreadOk(s', u)
  {
    if s.pc[u] != Idle {
      assert s'.next[s.self[u]] == s.next[s.self[u]] && s'.blocked[s.self[u]] == s.blocked[s.self[u]];
      if InQueue(s.pc[u]) && s.left < s.ticket[u] {
        var p := s.self[s.order[s.ticket[u] - 1]];
        assert s'.next[p] == s.next[p];
      }
    }
    SameForThread(s, s', u);
  }

  lemma LocalKeeps(s: State, s': State, t: Tid)
    requires Inv(s) && t < |s.pc| && Local(s, s', t) && QueueOk(s') && ThreadOk(s', t)
    ensures Inv(s')
  {
    assert ThreadOk(s, t);
    forall u | 0 <= u < |s'.pc| && u != t ensures ThreadOk(s', u) {
      Around(s, u);
      LocalKeepsOther(s, s', t, u);
    }
  }

  /** The steps of `ql_lock` before the queue is joined, and those of the owner that change nothing shared. */
  predicate Quiet(s: State, t: Tid)
    requires Sized(s) && t < |s.pc|
  {
    match s.pc[t]
    case SwapTail => s.tail != s.prev[t]
    case Release => s.tail != s.self[t]
    case ClearNext => true
    case SetBlocked => true
    case ReadTail => true
    case Critical => true
    case TestNext => true
    case AwaitNext => true
    case RecheckNext => true
    case LoadNext => true
    case _ => false
  }

  lemma QuietIsLocal(s: State, s': State, t: Tid)
    requires Sized(s) && ThreadStep(s, s', t) && Quiet(s, t)
    requires s.pc[t] == RecheckNext ==> s.next[s.self[t]] != NULL
    ensures Local(s, s', t)
  {
  }

  /** The successor of an owner that sees one is the thread behind it in the queue. */
  lemma Successor(s: State, t: Tid)
    requires Inv(s) && t < |s.pc| && s.pc[t] == LoadNext
    ensures ThreadOk(s, t) && s.left + 1 < |s.order| && s.next[s.self[t]] == s.self[s.order[s.left + 1]]
  {
    assert ThreadOk(s, t);
    assert ThreadOk(s, s.order[s.left + 1]);
  }

  lemma QuietKeepsOwn(s: State, s': State, t: Tid)
    requires QueueOk(s) && ThreadStep(s, s', t) && Quiet(s, t) && ThreadOk(s, t) && QueueOk(s')
    requires s.pc[t] == LoadNext ==> s.left + 1 < |s.order| && s.next[s.self[t]] == s.self[s.order[s.left + 1]]
    ensures ThreadOk(s', t)
  {
    if Joining(s.pc[t]) { JoiningKeepsOwn(s, s', t); } else { OwnerKeepsOwn(s, s', t); }
  }

  /** The program points of `ql_lock` before the queue is joined. */
  predicate Joining(pc: Pc) {
    pc.ClearNext? || pc.SetBlocked? || pc.ReadTail? || pc.SwapTail?
  }

  lemma JoiningKeepsOwn(s: State, s': State, t: Tid)
    requires QueueOk(s) && ThreadStep(s, s', t) && Quiet(s, t) && Joining(s.pc[t]) && ThreadOk(s, t) && QueueOk(s')
    ensures ThreadOk(s', t)
  {
  }

  lemma OwnerKeepsOwn(s: State, s': State, t: Tid)
    requires QueueOk(s) && ThreadStep(s, s', t) && Quiet(s, t) && !Joining(s.pc[t]) && ThreadOk(s, t) && QueueOk(s')
    requires s.pc[t] == LoadNext ==> s.left + 1 < |s.order| && s.next[s.self[t]] == s.self[s.order[s.left + 1]]
    ensures ThreadOk(s', t)
  {
    if s.pc[t].LoadNext? { LoadKeepsOwn(s, s', t); } else { LooksKeepOwn(s, s', t); }
  }

  lemma LoadKeepsOwn(s: State, s': State, t: Tid)
    requires QueueOk(s) && ThreadStep(s, s', t) && s.pc[t] == LoadNext && ThreadOk(s, t) && QueueOk(s')
    requires s.left + 1 < |s.order| && s.next[s.self[t]] == s.self[s.order[s.left + 1]]
    ensures ThreadOk(s', t)
  {
    assert s' == s.(pc := s.pc[t := Unblock], succ := s.succ[t := s.next[s.self[t]]]);
  }

  lemma LooksKeepOwn(s: State, s': State, t: Tid)
    requires QueueOk(s) && ThreadStep(s, s', t) && Quiet(s, t) && !Joining(s.pc[t]) && ThreadOk(s, t) && QueueOk(s')
    requires s.pc[t] != LoadNext
    ensures ThreadOk(s', t)
  {
    match s.pc[t]
    case Critical => assert s' == s.(pc := s.pc[t := TestNext]);
    case TestNext => assert s' == s.(pc := s.pc[t := s'.pc[t]]);
    case Release => assert s' == s.(pc := s.pc[t := AwaitNext]);
    case AwaitNext => assert s' == s || s' == s.(pc := s.pc[t := RecheckNext]);
    case RecheckNext => assert s' == s.(pc := s.pc[t := LoadNext]);
    case _ =>
  }

  lemma QuietKeeps(s: State, s': State, t: Tid)
    requires Inv(s) && ThreadStep(s, s', t) && Quiet(s, t)
    ensures Inv(s')
  {
    assert ThreadOk(s, t);
    QuietIsLocal(s, s', t);
    LocalKeepsQueue(s, s', t);
    if s.pc[t] == LoadNext { Successor(s, t); }
    QuietKeepsOwn(s, s', t);
    LocalKeeps(s, s', t);
  }

  lemma FirstSwapKeeps(s: State, s': State, t: Tid)
    requires Inv(s) && ThreadStep(s, s', t) && s.pc[t] == SwapTail && s.tail == s.prev[t] == NULL
    ensures Inv(s')
  {
    Tail(s);
    Around(s, t);
    assert QueueOk(s');
    forall u | 0 <= u < |s'.pc| ensures ThreadOk(s', u) { Around(s, u); }
  }

  lemma LaterSwapKeepsOwn(s: State, s': State, t: Tid)
    requires Inv(s) && ThreadStep(s, s', t) && s.pc[t] == SwapTail && s.tail == s.prev[t] != NULL
    ensures QueueOk(s') && ThreadOk(s', t)
  {
    Tail(s);
    assert ThreadOk(s, t);
  }

  lemma LaterSwapKeeps(s: State, s': State, t: Tid)
    requires Inv(s) && ThreadStep(s, s', t) && s.pc[t] == SwapTail && s.tail == s.prev[t] != NULL
    ensures Inv(s')
  {
    LaterSwapKeepsOwn(s, s', t);
    forall u | 0 <= u < |s'.pc| && u != t ensures ThreadOk(s', u) { Around(s, u); }
  }

  lemma LinkKeepsOther(s: State, s': State, t: Tid, p: Tid, u: Tid)
    requires QueueOk(s) && ThreadStep(s, s', t) && s.pc[t] == Link && QueueOk(s')
    requires ThreadOk(s, t) && p == s.order[s.ticket[t] - 1] && ThreadOk(s, p)
    requires u < |s.pc| && u != t && ThreadOk(s, u)
    requires InQueue(s.pc[u]) && s.left < s.ticket[u] ==> ThreadOk(s, s.order[s.ticket[u] - 1])
    ensures ThreadOk(s', u)
  {
    if s.pc[u] == Idle {
    } else if u == p {
    } else {
      assert s'.next[s.self[u]] == s.next[s.self[u]];
      if InQueue(s.pc[u]) && s.left < s.ticket[u] {
        assert s.ticket[u] != s.ticket[t] && s.order[s.ticket[u] - 1] != p;
      }
    }
  }

  lemma LinkKeeps(s: State, s': State, t: Tid)
    requires Inv(s) && ThreadStep(s, s', t) && s.pc[t] == Link
    ensures Inv(s')
  {
    Around(s, t);
    assert QueueOk(s') && ThreadOk(s', t);
    forall u | 0 <= u < |s'.pc| && u != t ensures ThreadOk(s', u) {
      Around(s, u);
      LinkKeepsOther(s, s', t, s.order[s.ticket[t] - 1], u);
    }
  }

  lemma SpinKeeps(s: State, s': State, t: Tid)
    requires Inv(s) && ThreadStep(s, s', t) && s.pc[t] == Spin
    ensures Inv(s')
  {
    Around(s, t);
    assert QueueOk(s');
    forall u | 0 <= u < |s'.pc| ensures ThreadOk(s', u) { Around(s, u); }
  }

  lemma ReleaseKeeps(s: State, s': State, t: Tid)
    requires Inv(s) && ThreadStep(s, s', t) && s.pc[t] == Release && s.tail == s.self[t]
    ensures Inv(s')
  {
    Tail(s);
    assert ThreadOk(s, t);
    assert s.tail == s.self[t] <==> s.left + 1 == |s.order|;
    assert QueueOk(s');
    forall u | 0 <= u < |s'.pc| ensures ThreadOk(s', u) { Around(s, u); }
  }

  lemma RecheckGoneKeeps(s: State, s': State, t: Tid)
    requires Inv(s) && ThreadStep(s, s', t) && s.pc[t] == RecheckGone
    ensures Inv(s')
  {
    Around(s, t);
    assert QueueOk(s');
    forall u | 0 <= u < |s'.pc| ensures ThreadOk(s', u) { Around(s, u); }
  }

  lemma UnblockKeeps(s: State, s': State, t: Tid)
    requires Inv(s) && ThreadStep(s, s', t) && s.pc[t] == Unblock
    ensures Inv(s')
  {
    Around(s, t);
    assert ThreadOk(s, s.order[s.left + 1]);
    assert QueueOk(s');
    forall u | 0 <= u < |s'.pc| ensures ThreadOk(s', u) { Around(s, u); }
  }

  lemma ThreadStepKeeps(s: State, s': State, t: Tid)
    requires Inv(s) && ThreadStep(s, s', t)
    ensures Inv(s')
  {
    if Quiet(s, t) { QuietKeeps(s, s', t); return; }
    match s.pc[t]
    case SwapTail => if s.tail == NULL { FirstSwapKeeps(s, s', t); } else { LaterSwapKeeps(s, s', t); }
    case Link => LinkKeeps(s, s', t);
    case Spin => SpinKeeps(s, s', t);
    case Release => ReleaseKeeps(s, s', t);
    case RecheckGone => RecheckGoneKeeps(s, s', t);
    case Unblock => UnblockKeeps(s, s', t);
    case _ =>
  }

  lemma NextKeeps(s: State, s': State)
    requires Inv(s) && Next(s, s')
    ensures Inv(s')
  {
    if t: Tid, n: Node :| CallLock(s, s', t, n) {
      CallLockKeeps(s, s', t, n);
    } else if n: Node, next: Node, blocked :| Scribble(s, s', n, next, blocked) {
      ScribbleKeeps(s, s', n, next, blocked);
    } else {
      var t: Tid :| ThreadStep(s, s', t);
      ThreadStepKeeps(s, s', t);
    }
  }

  lemma InitOk(s: State)
    requires Init(s)
    ensures Inv(s)
  {
  }

  lemma {:induction false} RunKeeps(run: seq<State>, i: nat)
    requires Run(run) && i < |run|
    ensures Inv(run[i])
  {
    if i == 0 {
      InitOk(run[0]);
    } else {
      RunKeeps(run, i - 1);
      assert StepAt(run, i - 1);
      NextKeeps(run[i - 1], run[i]);
    }
  }

  // ----------------------------------------------------------------- theorems

  /** In every state of every run at most one thread is between its entry and its exit. */
  lemma MutualExclusion(run: seq<State>, i: nat, t: Tid, u: Tid)
    requires Run(run) && i < |run| && t < |run[i].pc| && u < |run[i].pc|
    requires Owning(run[i].pc[t]) && Owning(run[i].pc[u])
    ensures t == u
  {
    RunKeeps(run, i);
    assert ThreadOk(run[i], t) && ThreadOk(run[i], u);
  }

  /**
    First come, first served: in every state of every run the threads have
    entered the critical section exactly in the order in which they swapped
    themselves into the tail, however often the same node address came back.
   */
  lemma EntryOrderIsSwapOrder(run: seq<State>, i: nat)
    requires Run(run) && i < |run|
    ensures run[i].entered <= run[i].order
    ensures run[i].left <= |run[i].entered| <= run[i].left + 1
  {
    RunKeeps(run, i);
  }

  /**
    Every store through a pointer hits the node of a thread that is queued at
    that moment: prev->next = self writes to the immediate predecessor, and
    self->next->blocked = 0 to the immediate successor of the head.
   */
  lemma StoresHitQueuedNodes(run: seq<State>, i: nat, t: Tid)
    requires Run(run) && i < |run| && t < |run[i].pc|
    ensures Inv(run[i])
    ensures run[i].pc[t] == Link ==>
              exists u: Tid :: u < |run[i].pc| && InQueue(run[i].pc[u]) && run[i].ticket[u] + 1 == run[i].ticket[t]
                               && run[i].self[u] == run[i].prev[t]
    ensures run[i].pc[t] == Unblock ==>
              exists u: Tid :: u < |run[i].pc| && InQueue(run[i].pc[u]) && run[i].ticket[u] == run[i].ticket[t] + 1
                               && run[i].self[u] == run[i].succ[t]
  {
    RunKeeps(run, i);
    var s := run[i];
    assert ThreadOk(s, t);
    if s.pc[t] == Link {
      assert InQueue(s.pc[s.order[s.ticket[t] - 1]]);
    } else if s.pc[t] == Unblock {
      assert InQueue(s.pc[s.order[s.ticket[t] + 1]]);
    }
  }

  /** The step thread `t` is about to take is not another turn of a spin loop. */
  predicate Moves(s: State, t: Tid)
    requires QueueOk(s) && t < |s.pc| && ThreadOk(s, t)
  {
    match s.pc[t]
    case Idle => false
    case Spin => !s.blocked[s.self[t]]
    case AwaitNext => s.next[s.self[t]] != NULL
    case _ => true
  }

  // --------------------------------------------------------- every call enters

  /** How often a thread occurs in a list. */
  function Times(q: seq<Tid>, t: Tid): nat {
    if q == [] then 0 else Times(q[..|q| - 1], t) + if q[|q| - 1] == t then 1 else 0
  }

  lemma TimesMore(q: seq<Tid>, u: Tid, t: Tid)
    ensures Times(q + [u], t) == Times(q, t) + if u == t then 1 else 0
  {
    assert (q + [u])[..|q|] == q;
  }

  ghost predicate Called(s: State, s': State, t: Tid) {
    exists n: Node :: CallLock(s, s', t, n)
  }

  /** The number of calls of `ql_lock` by thread t in the first i steps of a run. */
  ghost function Calls(run: seq<State>, i: nat, t: Tid): nat
    requires i < |run|
  {
    if i == 0 then 0 else Calls(run, i - 1, t) + if Called(run[i - 1], run[i], t) then 1 else 0
  }

  /** A call that has not entered the critical section yet. */
  predicate Entering(pc: Pc) {
    Joining(pc) || pc.Link? || pc.Spin?
  }

  function One(b: bool): nat {
    if b then 1 else 0
  }

  /** One step keeps the balance of calls, swaps and entries of thread t. */
  lemma StepBalanced(s: State, s': State, t: Tid)
    requires Inv(s) && Next(s, s') && t < |s.pc|
    ensures |s'.pc| == |s.pc|
    ensures Times(s'.order, t) + One(Joining(s'.pc[t])) ==
            Times(s.order, t) + One(Joining(s.pc[t])) + One(Called(s, s', t))
    ensures Times(s'.entered, t) + One(Entering(s'.pc[t])) ==
            Times(s.entered, t) + One(Entering(s.pc[t])) + One(Called(s, s', t))
  {
    if u: Tid, n: Node :| CallLock(s, s', u, n) {
      assert u == t ==> Called(s, s', t);
    } else if n: Node, next: Node, blocked :| Scribble(s, s', n, next, blocked) {
    } else {
      var u: Tid :| ThreadStep(s, s', u);
      ThreadBalanced(s, s', u, t);
    }
  }

  lemma ThreadBalanced(s: State, s': State, u: Tid, t: Tid)
    requires Inv(s) && ThreadStep(s, s', u) && t < |s.pc|
    ensures |s'.pc| == |s.pc| && !Called(s, s', t)
    ensures Times(s'.order, t) + One(Joining(s'.pc[t])) == Times(s.order, t) + One(Joining(s.pc[t]))
    ensures Times(s'.entered, t) + One(Entering(s'.pc[t])) == Times(s.entered, t) + One(Entering(s.pc[t]))
  {
    assert ThreadOk(s, u);
    Records(s, s', u);
    if t != u { assert s'.pc[t] == s.pc[t]; }
    TimesMore(s.order, u, t);
    TimesMore(s.entered, u, t);
  }

  /** A thread is put on record when it stops joining, and when it stops entering. */
  lemma Records(s: State, s': State, u: Tid)
    requires QueueOk(s) && ThreadStep(s, s', u) && ThreadOk(s, u)
    ensures |s'.pc| == |s.pc| && s'.pc == s.pc[u := s'.pc[u]] && s.pc[u] != Idle
    ensures Joining(s'.pc[u]) ==> Joining(s.pc[u])
    ensures s'.order == if Joining(s.pc[u]) && !Joining(s'.pc[u]) then s.order + [u] else s.order
    ensures Entering(s'.pc[u]) ==> Entering(s.pc[u])
    ensures s'.entered == if Entering(s.pc[u]) && !Entering(s'.pc[u]) then s.entered + [u] else s.entered
  {
  }

  /**
    A call of `ql_lock` ends only by entering, and no thread enters without a call: in every state of every run a
    thread has swapped itself in, and entered, exactly once for each of its calls, except for the call it is in.
   */
  lemma {:induction false} EveryCallEnters(run: seq<State>, i: nat, t: Tid)
    requires Run(run) && i < |run| && t < |run[0].pc|
    ensures |run[i].pc| == |run[0].pc|
    ensures Calls(run, i, t) == Times(run[i].order, t) + One(Joining(run[i].pc[t]))
    ensures Calls(run, i, t) == Times(run[i].entered, t) + One(Entering(run[i].pc[t]))
  {
    if i > 0 {
      EveryCallEnters(run, i - 1, t);
      RunKeeps(run, i - 1);
      assert StepAt(run, i - 1);
      StepBalanced(run[i - 1], run[i], t);
    }
  }

  /** The tail changes only when a thread joins or leaves the queue. */
  lemma TailChanges(s: State, s': State)
    requires Inv(s) && Next(s, s')
    ensures |s'.order| + s'.left >= |s.order| + s.left
    ensures s'.tail != s.tail ==> |s'.order| + s'.left > |s.order| + s.left
  {
    if u: Tid :| ThreadStep(s, s', u) { assert ThreadOk(s, u); }
  }

  /** Thread t has read the tail, and has not tried to swap since: it still knows what it read. */
  lemma ReadStays(s: State, s': State, t: Tid)
    requires Inv(s) && Next(s, s') && t < |s.pc|
    requires s.pc[t] == ReadTail || s.pc[t] == SwapTail
    ensures |s'.pc| == |s.pc| == |s'.prev|
    ensures s'.pc[t] == SwapTail ==> s'.prev[t] == if s.pc[t] == ReadTail then s.tail else s.prev[t]
    ensures s.pc[t] == ReadTail && s'.pc[t] == SwapTail ==> s'.tail == s.tail
  {
    if u: Tid, n: Node :| CallLock(s, s', u, n) {
    } else if n: Node, next: Node, blocked :| Scribble(s, s', n, next, blocked) {
    } else {
      var u: Tid :| ThreadStep(s, s', u);
      if u != t { OthersStay(s, s', u, t); }
    }
  }

  lemma OthersStay(s: State, s': State, u: Tid, t: Tid)
    requires ThreadStep(s, s', u) && t < |s.pc| && t != u
    ensures |s'.pc| == |s.pc| == |s'.prev| && s'.pc[t] == s.pc[t] && s'.prev[t] == s.prev[t]
  {
  }

  /**
    A swap fails only if another thread has joined or left the queue since the tail was read, so the retries of
    `ql_lock` cost nothing unless somebody else gets ahead.
   */
  lemma {:induction false} FailedSwapMeansProgress(run: seq<State>, j: nat, i: nat, t: Tid)
    requires Run(run) && j < i < |run| && t < |run[0].pc|
    requires forall m :: j <= m <= i ==> |run[m].pc| == |run[m].prev| == |run[0].pc|
    requires run[j].pc[t] == ReadTail && forall m :: j < m <= i ==> run[m].pc[t] == SwapTail
    ensures run[i].prev[t] == run[j].tail
    ensures |run[i].order| + run[i].left >= |run[j].order| + run[j].left
    ensures run[i].tail != run[i].prev[t] ==> |run[i].order| + run[i].left > |run[j].order| + run[j].left
  {
    RunKeeps(run, i - 1);
    assert StepAt(run, i - 1);
    TailChanges(run[i - 1], run[i]);
    ReadStays(run[i - 1], run[i], t);
    if j + 1 < i { FailedSwapMeansProgress(run, j, i - 1, t); }
  }

  /** The steps left until a thread has returned from `ql_unlock`, each turn of a loop being one. */
  function StepsLeft(pc: Pc): nat {
    match pc
    case ClearNext => 13
    case SetBlocked => 12
    case ReadTail => 11
    case SwapTail => 10
    case Link => 9
    case Spin => 8
    case Critical => 7
    case TestNext => 6
    case Release => 5
    case AwaitNext => 4
    case RecheckGone => 3
    case RecheckNext => 3
    case LoadNext => 2
    case Unblock => 1
    case Idle => 0
  }

  /**
    A thread inside a call always has a step, and every step brings it closer to its return, except a turn of a spin
    loop and a failed swap, after which it reads the tail again.
   */
  lemma CallsEnd(s: State, t: Tid)
    requires Inv(s) && t < |s.pc| && s.pc[t] != Idle
    ensures ThreadCan(s, t) && ThreadOk(s, t) && |AfterThread(s, t).pc| == |s.pc|
    ensures var s' := AfterThread(s, t);
            if s.pc[t] == SwapTail && s.tail != s.prev[t] then s'.pc[t] == ReadTail
            else if Moves(s, t) then StepsLeft(s'.pc[t]) < StepsLeft(s.pc[t])
            else s' == s
  {
    assert ThreadOk(s, t);
    if s.pc[t] == Unblock { assert ThreadOk(s, s.order[s.left + 1]); }
  }

  // ------------------------------------------------------------------ hand-over

  /** An owner that sees its successor hands over without touching the tail, in four steps of its own. */
  lemma HandsOverDirectly(s: State, t: Tid)
    requires Inv(s) && t < |s.pc| && s.pc[t] == TestNext && s.self[t] < |s.next| && s.next[s.self[t]] != NULL
    ensures ThreadCan(s, t) && ThreadOk(s, t) && s.left + 1 < |s.order|
    ensures var heir := s.self[s.order[s.left + 1]];
            var s1 := s.(pc := s.pc[t := RecheckNext]);
            var s2 := s.(pc := s.pc[t := LoadNext]);
            var s3 := s.(pc := s.pc[t := Unblock], succ := s.succ[t := heir]);
            && ThreadStep(s, s1, t) && ThreadStep(s1, s2, t) && ThreadStep(s2, s3, t)
            && heir < |s.blocked| && ThreadCan(s3, t) && AfterThread(s3, t).blocked == s.blocked[heir := false]
  {
    Heir(s, t);
  }

  lemma Heir(s: State, t: Tid)
    requires Inv(s) && t < |s.pc| && s.pc[t] == TestNext && s.self[t] < |s.next| && s.next[s.self[t]] != NULL
    ensures ThreadOk(s, t) && s.left + 1 < |s.order|
    ensures s.next[s.self[t]] == s.self[s.order[s.left + 1]] < |s.next|
  {
    assert ThreadOk(s, t);
    assert ThreadOk(s, s.order[s.left + 1]);
  }

  /** Upper bound on the steps of the head and of its successor until the head has left the queue. */
  function HandOff(s: State): nat
    requires QueueOk(s) && s.left < |s.order|
  {
    (if Linked(s) then 0 else 1) + HeadRest(s.pc[s.order[s.left]])
  }

  /** The thread behind the head has linked itself. */
  predicate Linked(s: State)
    requires QueueOk(s)
  {
    s.left + 1 < |s.order| && s.pc[s.order[s.left + 1]] != Link
  }

  /** The steps that the head has to make until it leaves the queue. */
  function HeadRest(pc: Pc): nat {
    match pc
    case Spin => 8
    case Critical => 7
    case TestNext => 6
    case Release => 5
    case AwaitNext => 4
    case RecheckNext => 3
    case LoadNext => 2
    case _ => 1
  }

  /** A non-empty queue can always move: its head can, or the thread right behind the head is about to link itself. */
  lemma SomeoneMoves(run: seq<State>, i: nat)
    requires Run(run) && i < |run| && run[i].left < |run[i].order|
    ensures Inv(run[i])
    ensures var s := run[i];
            || Moves(s, s.order[s.left])
            || (s.left + 1 < |s.order| && s.pc[s.order[s.left + 1]] == Link && Moves(s, s.order[s.left + 1]))
  {
    RunKeeps(run, i);
    var s := run[i];
    assert ThreadOk(s, s.order[s.left]);
    if s.left + 1 < |s.order| { assert ThreadOk(s, s.order[s.left + 1]); }
  }

  lemma HandOffOfHead(s: State, s': State, t: Tid)
    requires Inv(s) && ThreadStep(s, s', t) && s.left < |s.order| && s'.left == s.left && Inv(s')
    requires t == s.order[s.left]
    ensures HandOff(s') <= HandOff(s)
    ensures Moves(s, t) ==> HandOff(s') < HandOff(s)
  {
    assert ThreadOk(s, t);
  }

  lemma HandOffOfOthers(s: State, s': State, t: Tid)
    requires QueueOk(s) && ThreadStep(s, s', t) && s.left < |s.order| && s'.left == s.left && QueueOk(s')
    requires ThreadOk(s, t) && t != s.order[s.left]
    ensures HandOff(s') <= HandOff(s)
    ensures s.left + 1 < |s.order| && t == s.order[s.left + 1] && s.pc[t] == Link ==> HandOff(s') < HandOff(s)
  {
    assert s'.order[s.left] == s.order[s.left] && s'.pc[s.order[s.left]] == s.pc[s.order[s.left]];
    LinkStays(s, s', t);
  }

  lemma LinkStays(s: State, s': State, t: Tid)
    requires QueueOk(s) && ThreadStep(s, s', t) && s'.left == s.left && QueueOk(s')
    ensures Linked(s) ==> Linked(s')
    ensures s.left + 1 < |s.order| && t == s.order[s.left + 1] && s.pc[t] == Link ==> Linked(s')
  {
    if s.left + 1 < |s.order| {
      assert s'.order[s.left + 1] == s.order[s.left + 1];
      if t != s.order[s.left + 1] { assert s'.pc[s.order[s.left + 1]] == s.pc[s.order[s.left + 1]]; }
    }
  }

  /**
    Bounded hand-off. As long as the head stays, no step of anyone moves it
    further from leaving, and every step by which the head moves, or its
    successor links itself, brings it closer.
   */
  lemma HandOffShrinks(s: State, s': State, t: Tid)
    requires Inv(s) && ThreadStep(s, s', t) && s.left < |s.order| && s'.left == s.left
    ensures Inv(s')
    ensures HandOff(s') <= HandOff(s)
    ensures t == s.order[s.left] && Moves(s, t) ==> HandOff(s') < HandOff(s)
    ensures s.left + 1 < |s.order| && t == s.order[s.left + 1] && s.pc[t] == Link ==> HandOff(s') < HandOff(s)
  {
    ThreadStepKeeps(s, s', t);
    if t == s.order[s.left] { HandOffOfHead(s, s', t); } else { HandOffOfOthers(s, s', t); }
  }
}
