/**
  The token, wake-up and termination protocol of src/pgm.cpp for graphs of
  condition-variable edges: `pgm_wait`, `pgm_complete` and `pgm_terminate` as
  interleaved micro-steps of one thread per node.

  Every edge visited by a scan, every atomic add or subtract, every read of
  `nr_terminate_signals`, every lock operation and every signal is one step.
  The node lock is an abstract mutex and the condition variable an abstract
  one that may also wake its waiter for no reason.
 */
module TokenModel {

  /** The attributes of an edge, `skips` being its initial `nr_skips`. */
  datatype Edge = Edge(
    producer: nat, consumer: nat, backedge: bool,
    produce: nat, consume: nat, threshold: nat, init: nat, skips: nat)

  /** Nodes are numbered; `ins[n]` and `outs[n]` list the edges into and out of node n. */
  datatype Graph = Graph(edges: seq<Edge>, ins: seq<seq<nat>>, outs: seq<seq<nat>>)

  /** What a successful `__pgm_init_edge` checks: 1986-1989, 2001; forward edges have no skips (2047-2051). */
  predicate EdgeOk(g: Graph, e: nat)
    requires e < |g.edges|
  {
    var d := g.edges[e];
    && d.producer < |g.ins| && d.consumer < |g.ins|
    && 0 < d.produce && 0 < d.consume <= d.threshold
    && (!d.backedge ==> d.skips == 0)
  }

  /** The in-list of a node holds edges whose consumer it is, each once. */
  predicate InsOk(g: Graph, n: nat)
    requires n < |g.ins|
  {
    && (forall j :: 0 <= j < |g.ins[n]| ==> g.ins[n][j] < |g.edges| && g.edges[g.ins[n][j]].consumer == n)
    && (forall j, k :: 0 <= j < k < |g.ins[n]| ==> g.ins[n][j] != g.ins[n][k])
  }

  predicate OutsOk(g: Graph, n: nat)
    requires n < |g.outs|
  {
    && (forall j :: 0 <= j < |g.outs[n]| ==> g.outs[n][j] < |g.edges| && g.edges[g.outs[n][j]].producer == n)
    && (forall j, k :: 0 <= j < k < |g.outs[n]| ==> g.outs[n][j] != g.outs[n][k])
  }

  predicate GraphOk(g: Graph) {
    && |g.ins| == |g.outs|
    && (forall n :: 0 <= n < |g.ins| ==> InsOk(g, n))
    && (forall n :: 0 <= n < |g.outs| ==> OutsOk(g, n))
    && (forall e :: 0 <= e < |g.edges| ==>
          EdgeOk(g, e) && e in g.ins[g.edges[e].consumer] && e in g.outs[g.edges[e].producer])
  }

  /** The number of forward edges into a node: nr_in_signaled - nr_in_signaled_backedges. */
  function ForwardIns(g: Graph, ins: seq<nat>): nat {
    if ins == [] then 0
    else ForwardIns(g, ins[..|ins| - 1]) +
         if ins[|ins| - 1] < |g.edges| && !g.edges[ins[|ins| - 1]].backedge then 1 else 0
  }

  /** A node without forward in-edges. */
  predicate Source(g: Graph, n: nat)
    requires n < |g.ins|
  {
    ForwardIns(g, g.ins[n]) == 0
  }

  /** Which calls the threads make; each kind is a special case of the one before. */
  datatype Client =
    | Anything         // any call at any time
    | Dataflow         // only sources call pgm_terminate, and a terminated node makes no further call
    | Alternating      // as well, a node with in-edges completes once after each wait that returned 0
    | Loop(k: nat)     // as well, a node without in-edges completes k times, then terminates

  datatype Call = Wait | Complete | Terminate

  /** `atomicQuick`: the lock-free evaluation of 3353-3361 is one step instead of many. */
  datatype Config = Config(g: Graph, client: Client, atomicQuick: bool)

  /** The next statement of a thread; the numbers are lines of src/pgm.cpp. */
  datatype Pc =
    | User
    | QuickScan    // 3353-3355
    | QuickTest1   // 3360
    | QuickTest2   // 3361
    | Acquire      // 3368, or the return from pgm_cv_wait
    | LockedScan   // 3372-3374
    | LockedTest1  // 3376
    | LockedTest2  // 3377
    | CvWait       // 3383
    | Asleep
    | Release      // 3385
    | Consume      // 3405-3412
    | Skip         // 3393-3400
    | Produce      // 3827-3854
    | WakeNext     // 3856-3860
    | WakeScan     // 3861
    | WakeSignal   // 3862
    | WakeUnlock   // 3863

  /**
    An edge at run time: `nr_pending` and `nr_skips`. The rest is history: `sent` deliveries,
    `taken` times the consumer has passed the edge, either by taking tokens or by using up a
    skip, and `over`, set by the terminate signal.
   */
  datatype Flow = Flow(pending: int, skips: nat, sent: nat, taken: nat, over: bool)

  /**
    A node's thread: the program counter, the loop index and the two counters of
    `pgm_nr_ready_edges`, whether the current call ends in termination, the part of
    `to_wake` not yet begun, and the node being woken. The rest is history: `fired` counts
    waits that returned 0, `quits` waits that returned PGM_TERMINATE, `completed` finished
    calls of pgm_complete, and `stopped` is set when pgm_terminate has returned.
   */
  datatype Thread = Thread(
    pc: Pc, i: nat, nr: nat, fwd: nat, quit: bool, wake: seq<nat>, target: nat,
    fired: nat, quits: nat, completed: nat, stopped: bool)

  /** Per node also `nr_terminate_signals` and the holder of the lock, -1 if it is free. */
  datatype State = State(es: seq<Flow>, terms: seq<int>, lock: seq<int>, th: seq<Thread>)

  const FREE: int := -1

  predicate Sized(g: Graph, s: State) {
    |s.es| == |g.edges| && |s.terms| == |s.lock| == |s.th| == |g.ins|
  }

  predicate Init(g: Graph, s: State) {
    && GraphOk(g) && Sized(g, s)
    && (forall e :: 0 <= e < |g.edges| ==> s.es[e] == Flow(g.edges[e].init, g.edges[e].skips, 0, 0, false))
    && (forall n :: 0 <= n < |g.ins| ==>
          && s.terms[n] == 0 && s.lock[n] == FREE && s.th[n].pc == User && s.th[n].wake == []
          && s.th[n].fired == 0 && s.th[n].quits == 0 && s.th[n].completed == 0 && !s.th[n].stopped)
  }

  /** The test on an edge in `pgm_nr_ready_edges`. */
  predicate Ready(g: Graph, s: State, e: nat)
    requires Sized(g, s) && e < |g.edges|
  {
    s.es[e].pending >= g.edges[e].threshold || s.es[e].skips > 0
  }

  predicate AllReady(g: Graph, s: State, n: nat)
    requires Sized(g, s) && n < |g.ins| && InsOk(g, n)
  {
    forall j :: 0 <= j < |g.ins[n]| ==> Ready(g, s, g.ins[n][j])
  }

  predicate NoForwardReady(g: Graph, s: State, n: nat)
    requires Sized(g, s) && n < |g.ins| && InsOk(g, n)
  {
    forall j :: 0 <= j < |g.ins[n]| && !g.edges[g.ins[n][j]].backedge ==> !Ready(g, s, g.ins[n][j])
  }

  /** No forward edge is ready and every forward edge has signaled termination. */
  predicate Exhausted(g: Graph, s: State, n: nat)
    requires Sized(g, s) && n < |g.ins| && InsOk(g, n)
  {
    NoForwardReady(g, s, n) && s.terms[n] != 0 && s.terms[n] == ForwardIns(g, g.ins[n])
  }

  predicate May(c: Config, t: Thread, n: nat, call: Call)
    requires n < |c.g.ins|
  {
    c.client.Anything? ||
    (!t.stopped &&
     match call
     case Wait => c.client.Dataflow? || (c.g.ins[n] != [] && t.fired == t.completed)
     case Complete => c.client.Dataflow? || (c.g.ins[n] != [] && t.completed < t.fired) ||
                      (c.g.ins[n] == [] && (c.client.Loop? ==> t.completed < c.client.k))
     case Terminate => Source(c.g, n) && (c.client.Loop? ==> c.g.ins[n] == [] && t.completed == c.client.k))
  }

  /** Only thread n changes. */
  function Set(s: State, n: nat, t: Thread): State
    requires n < |s.th|
  {
    s.(th := s.th[n := t])
  }

  /** Entering `pgm_wait`; without in-edges both statuses stay "exhausted and terminate" (3773-3788). */
  function AfterWaitCall(c: Config, s: State, n: nat): State
    requires Sized(c.g, s) && n < |c.g.ins| && InsOk(c.g, n)
  {
    var t := s.th[n];
    Set(s, n,
      if c.g.ins[n] == [] then t.(pc := Skip, i := 0, quit := true)
      else if !c.atomicQuick then t.(pc := QuickScan, i := 0, nr := 0, fwd := 0)
      else if AllReady(c.g, s, n) then t.(pc := Consume, i := 0, quit := false)
      else if Exhausted(c.g, s, n) then t.(pc := Skip, i := 0, quit := true)
      else t.(pc := Acquire))
  }

  predicate CallWait(c: Config, s: State, s': State, n: nat)
    requires Sized(c.g, s) && n < |c.g.ins| && InsOk(c.g, n)
  {
    s.th[n].pc == User && May(c, s.th[n], n, Wait) && s' == AfterWaitCall(c, s, n)
  }

  /** Entering `pgm_complete` or `pgm_terminate`. */
  function AfterCall(s: State, n: nat, quit: bool): State
    requires n < |s.th|
  {
    Set(s, n, s.th[n].(pc := Produce, i := 0, quit := quit))
  }

  predicate CallProduce(c: Config, s: State, s': State, n: nat, quit: bool)
    requires Sized(c.g, s) && n < |c.g.ins|
  {
    s.th[n].pc == User && May(c, s.th[n], n, if quit then Terminate else Complete) && s' == AfterCall(s, n, quit)
  }

  /** Thread t after one turn of the loop of `pgm_nr_ready_edges`, at in-edge e. */
  function Scanned(g: Graph, s: State, t: Thread, e: nat): Thread
    requires Sized(g, s) && e < |g.edges|
  {
    if Ready(g, s, e) then t.(i := t.i + 1, nr := t.nr + 1, fwd := if g.edges[e].backedge then t.fwd else t.fwd + 1)
    else t.(i := t.i + 1)
  }

  /** The steps of `pgm_wait_for_tokens` without the lock. */
  function AfterQuick(g: Graph, s: State, n: nat): State
    requires Sized(g, s) && n < |g.ins| && InsOk(g, n)
  {
    var t := s.th[n];
    Set(s, n,
      match t.pc
      case QuickScan =>
        if t.i < |g.ins[n]| then Scanned(g, s, t, g.ins[n][t.i])
        else if t.nr == |g.ins[n]| then t.(pc := Consume, i := 0, quit := false)
        else t.(pc := if t.fwd == 0 then QuickTest1 else Acquire)
      case QuickTest1 => t.(pc := if s.terms[n] != 0 then QuickTest2 else Acquire)
      case QuickTest2 =>
        if s.terms[n] == ForwardIns(g, g.ins[n]) then t.(pc := Skip, i := 0, quit := true) else t.(pc := Acquire)
      case _ => t)
  }

  predicate QuickStep(g: Graph, s: State, s': State, n: nat)
    requires Sized(g, s) && n < |g.ins| && InsOk(g, n)
  {
    && (s.th[n].pc.QuickScan? || s.th[n].pc.QuickTest1? || s.th[n].pc.QuickTest2?)
    && s' == AfterQuick(g, s, n)
  }

  /** The steps of `pgm_wait_for_tokens` around the lock; a sleeping thread has none. */
  function AfterLocked(g: Graph, s: State, n: nat): State
    requires Sized(g, s) && n < |g.ins| && InsOk(g, n)
  {
    var t := s.th[n];
    match t.pc
    case Acquire => Set(s, n, t.(pc := LockedScan, i := 0, nr := 0, fwd := 0)).(lock := s.lock[n := n])
    case LockedScan =>
      Set(s, n,
        if t.i < |g.ins[n]| then Scanned(g, s, t, g.ins[n][t.i])
        else if t.nr == |g.ins[n]| then t.(pc := Release, quit := false)
        else t.(pc := if t.fwd == 0 then LockedTest1 else CvWait))
    case LockedTest1 => Set(s, n, t.(pc := if s.terms[n] != 0 then LockedTest2 else CvWait))
    case LockedTest2 =>
      Set(s, n, if s.terms[n] == ForwardIns(g, g.ins[n]) then t.(pc := Release, quit := true) else t.(pc := CvWait))
    case CvWait => Set(s, n, t.(pc := Asleep)).(lock := s.lock[n := FREE])
    case Release => Set(s, n, t.(pc := if t.quit then Skip else Consume, i := 0)).(lock := s.lock[n := FREE])
    case _ => s
  }

  predicate LockedStep(g: Graph, s: State, s': State, n: nat)
    requires Sized(g, s) && n < |g.ins| && InsOk(g, n)
  {
    && ((s.th[n].pc.Acquire? && s.lock[n] == FREE) || Locking(s.th[n].pc))
    && s' == AfterLocked(g, s, n)
  }

  /** The program points at which a thread holds its own node's lock. */
  predicate Locking(pc: Pc) {
    pc.LockedScan? || pc.LockedTest1? || pc.LockedTest2? || pc.CvWait? || pc.Release?
  }

  /** The rest of `pgm_wait`: `pgm_consume_tokens`, `pgm_consume_skips` and the nested `pgm_terminate`. */
  function AfterConsume(g: Graph, s: State, n: nat): State
    requires Sized(g, s) && n < |g.ins| && InsOk(g, n)
  {
    var t := s.th[n];
    if t.i < |g.ins[n]| then
      var e := g.ins[n][t.i];
      var f := s.es[e];
      Set(s, n, t.(i := t.i + 1)).(es := s.es[e :=
        if t.pc.Consume? && f.skips == 0 then f.(pending := f.pending - g.edges[e].consume, taken := f.taken + 1)
        else if t.pc.Skip? && f.skips > 0 then f.(skips := f.skips - 1, taken := f.taken + 1)
        else f])
    else
      Set(s, n, if t.pc.Consume? then t.(pc := Skip, i := 0)
                else if t.quit then t.(pc := Produce, i := 0, quits := t.quits + 1)
                else t.(pc := User, fired := t.fired + 1))
  }

  predicate ConsumeStep(g: Graph, s: State, s': State, n: nat)
    requires Sized(g, s) && n < |g.ins| && InsOk(g, n)
  {
    (s.th[n].pc.Consume? || s.th[n].pc.Skip?) && s' == AfterConsume(g, s, n)
  }

  /** One turn of the send loop of `pgm_produce`, on out-edge e. */
  function AfterSend(g: Graph, s: State, n: nat, e: nat): State
    requires Sized(g, s) && n < |g.ins| && e < |g.edges| && EdgeOk(g, e)
  {
    var t, d, f := s.th[n], g.edges[e], s.es[e];
    if t.quit && d.backedge then
      Set(s, n, t.(i := t.i + 1))
    else if t.quit then
      Set(s, n, t.(i := t.i + 1, wake := t.wake + [d.consumer]))
        .(terms := s.terms[d.consumer := s.terms[d.consumer] + 1], es := s.es[e := f.(over := true)])
    else
      var crossed := f.pending < d.threshold && f.pending + d.produce >= d.threshold;
      Set(s, n, t.(i := t.i + 1, wake := if crossed then t.wake + [d.consumer] else t.wake))
        .(es := s.es[e := f.(pending := f.pending + d.produce, sent := f.sent + 1)])
  }

  /** The send loop of `pgm_produce`. */
  predicate SendStep(g: Graph, s: State, s': State, n: nat)
    requires GraphOk(g) && Sized(g, s) && n < |g.ins|
  {
    var t := s.th[n];
    && t.pc == Produce
    && if t.i < |g.outs[n]| then
         var e := g.outs[n][t.i];
         e < |g.edges| && EdgeOk(g, e) && s' == AfterSend(g, s, n, e)
       else s' == Set(s, n, t.(pc := WakeNext))
  }

  /** The program points at which a thread holds the lock of the node it is waking. */
  predicate Waking(pc: Pc) {
    pc.WakeScan? || pc.WakeSignal? || pc.WakeUnlock?
  }

  /** The steps of `pgm_produce` after the send loop. */
  function AfterWake(g: Graph, s: State, n: nat): State
    requires GraphOk(g) && Sized(g, s) && n < |g.ins|
    requires s.th[n].pc.WakeNext? && s.th[n].wake != [] ==> s.th[n].wake[0] < |g.ins|
    requires Waking(s.th[n].pc) ==> s.th[n].target < |g.ins| && InsOk(g, s.th[n].target)
  {
    var t := s.th[n];
    match t.pc
    case WakeNext =>
      if t.wake == [] then
        Set(s, n, if t.quit then t.(pc := User, stopped := true) else t.(pc := User, completed := t.completed + 1))
      else
        var c := t.wake[0];
        Set(s, n, t.(pc := if t.quit then WakeSignal else WakeScan, wake := t.wake[1..], target := c, i := 0, nr := 0))
          .(lock := s.lock[c := n])
    case WakeScan =>
      Set(s, n,
        if t.i < |g.ins[t.target]| then Scanned(g, s, t, g.ins[t.target][t.i])
        else t.(pc := if t.nr == |g.ins[t.target]| then WakeSignal else WakeUnlock))
    case WakeSignal =>
      var c := s.th[t.target];
      Set(if c.pc == Asleep then Set(s, t.target, c.(pc := Acquire)) else s, n, t.(pc := WakeUnlock))
    case WakeUnlock => Set(s, n, t.(pc := WakeNext)).(lock := s.lock[t.target := FREE])
    case _ => s
  }

  predicate WakeStep(g: Graph, s: State, s': State, n: nat)
    requires GraphOk(g) && Sized(g, s) && n < |g.ins|
  {
    var t := s.th[n];
    && (t.pc.WakeNext? || Waking(t.pc))
    && (t.pc.WakeNext? && t.wake != [] ==> t.wake[0] < |g.ins| && s.lock[t.wake[0]] == FREE)
    && (Waking(t.pc) ==> t.target < |g.ins| && InsOk(g, t.target))
    && s' == AfterWake(g, s, n)
  }

  /** A step of thread n, whichever call it is in. */
  predicate ThreadStep(c: Config, s: State, s': State, n: nat) {
    && GraphOk(c.g) && Sized(c.g, s) && n < |c.g.ins|
    && (|| CallWait(c, s, s', n)
        || CallProduce(c, s, s', n, false)
        || CallProduce(c, s, s', n, true)
        || QuickStep(c.g, s, s', n)
        || LockedStep(c.g, s, s', n)
        || ConsumeStep(c.g, s, s', n)
        || SendStep(c.g, s, s', n)
        || WakeStep(c.g, s, s', n))
  }

  /** A condition variable may return without a signal. */
  predicate SpuriousWake(c: Config, s: State, s': State, n: nat) {
    && Sized(c.g, s) && n < |c.g.ins| && s.th[n].pc == Asleep
    && s' == Set(s, n, s.th[n].(pc := Acquire))
  }

  ghost predicate Next(c: Config, s: State, s': State) {
    exists n: nat :: ThreadStep(c, s, s', n) || SpuriousWake(c, s, s', n)
  }

  ghost predicate StepAt(c: Config, run: seq<State>, k: nat)
    requires k < |run| - 1
  {
    Next(c, run[k], run[k + 1])
  }

  ghost predicate Run(c: Config, run: seq<State>) {
    && |run| > 0
    && Init(c.g, run[0])
    && forall k :: 0 <= k < |run| - 1 ==> StepAt(c, run, k)
  }
}
