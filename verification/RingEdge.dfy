/**
  Two nodes joined by one ring-buffer edge, across the layers of src/pgm.cpp: the producer writes an
  element and then sends its size as tokens; the consumer waits for tokens, reads an element, and only then
  takes its tokens off the count. Every access to a shared field is one step. The ring is the bounded queue
  that module RingQueue shows it to be, and the lock and the condition variable are abstract.
 */
module RingEdge {
  import Modular
  import opened Base

  type Elem = seq<Byte>

  /**
    Element size, token threshold, capacity, and the elements that the producer completes with before it terminates.
   */
  datatype Config = Config(size: nat, threshold: nat, capacity: nat, input: seq<Elem>)

  /** What `__pgm_init_edge` demands of a ring edge. */
  predicate ConfigOk(c: Config) {
    c.size > 0 && c.threshold >= c.size && c.capacity > 0
  }

  datatype PPc =
    | PIdle
    | PWrite   // 3486
    | PTokens  // 3417
    | PLock    // 3860, after a completion
    | PWake    // 3861-3862
    | PUnlock  // 3863
    | PCommand // 3488
    | PSignal  // 3850
    | PLastLock   // 3860, after the termination
    | PLastWake   // 3861-3862
    | PLastUnlock // 3863
    | PDone

  datatype CPc =
    | CIdle
    | CScan     // 3353-3355
    | CTerm     // 3359-3361
    | CLock     // 3368
    | CRescan   // 3372-3374
    | CReterm   // 3375-3377
    | CSleep    // 3383, gives the lock back
    | CAsleep
    | CRelock
    | CUnlock   // 3385
    | CCommand  // 3631, the command
    | CEmpty    // 3631, the ring
    | CRead     // 3632
    | CDecide   // 3790-3803
    | CConsume  // 3410
    | CDone     // PGM_TERMINATE has been returned

  /** `out`: the token wait ended in exhaustion; `end`: so did the data wait. */
  datatype State = State(
    queue: seq<Elem>, pending: int, command: bool, signals: nat, lock: int, p: PPc, c: CPc, out: bool, end: bool,
    sent: nat, got: seq<Elem>)

  const FREE := 0
  const PRODUCER := 1
  const CONSUMER := 2

  predicate Init(c: Config, s: State) {
    ConfigOk(c) && s == State([], 0, false, 0, FREE, PIdle, CIdle, false, false, 0, [])
  }

  /** The producer's next step; a step that leaves the state alone is a wait. */
  function AfterProducer(c: Config, s: State): State {
    match s.p
    case PIdle => s.(p := if s.sent < |c.input| then PWrite else PCommand)
    case PWrite =>
      if |s.queue| < c.capacity && s.sent < |c.input| then
        s.(p := PTokens, queue := s.queue + [c.input[s.sent]], sent := s.sent + 1)
      else s
    case PTokens =>
      s.(p := if s.pending < c.threshold && s.pending + c.size >= c.threshold then PLock else PIdle,
         pending := s.pending + c.size)
    case PLock => if s.lock == FREE then s.(p := PWake, lock := PRODUCER) else s
    case PWake => s.(p := PUnlock, c := if s.pending >= c.threshold && s.c.CAsleep? then CRelock else s.c)
    case PUnlock => s.(p := PIdle, lock := FREE)
    case PCommand => s.(p := PSignal, command := true)
    case PSignal => s.(p := PLastLock, signals := s.signals + 1)
    case PLastLock => if s.lock == FREE then s.(p := PLastWake, lock := PRODUCER) else s
    case PLastWake => s.(p := PLastUnlock, c := if s.c.CAsleep? then CRelock else s.c)
    case PLastUnlock => s.(p := PDone, lock := FREE)
    case PDone => s
  }

  function AfterConsumer(c: Config, s: State): State {
    match s.c
    case CIdle => s.(c := CScan, out := false, end := false)
    case CScan => s.(c := if s.pending >= c.threshold then CCommand else CTerm)
    case CTerm => if s.signals == 1 then s.(c := CCommand, out := true) else s.(c := CLock)
    case CLock => if s.lock == FREE then s.(c := CRescan, lock := CONSUMER) else s
    case CRescan => s.(c := if s.pending >= c.threshold then CUnlock else CReterm)
    case CReterm => if s.signals == 1 then s.(c := CUnlock, out := true) else s.(c := CSleep)
    case CSleep => s.(c := CAsleep, lock := FREE)
    case CAsleep => s
    case CRelock => if s.lock == FREE then s.(c := CRescan, lock := CONSUMER) else s
    case CUnlock => s.(c := CCommand, lock := FREE)
    case CCommand => s.(c := if s.command then CEmpty else CRead)
    case CEmpty => if s.queue == [] then s.(c := CDecide, end := true) else s.(c := CRead)
    case CRead => if s.queue == [] then s else s.(c := CDecide, queue := s.queue[1..], got := s.got + [s.queue[0]])
    case CDecide => s.(c := if s.out && s.end then CDone else CConsume)
    case CConsume => s.(c := CIdle, pending := s.pending - c.size)
    case CDone => s
  }

  /** The condition variable may return without a signal. */
  predicate Spurious(s: State, s': State) {
    s.c.CAsleep? && s' == s.(c := CRelock)
  }

  predicate Next(c: Config, s: State, s': State) {
    s' == AfterProducer(c, s) || s' == AfterConsumer(c, s) || Spurious(s, s')
  }

  predicate StepAt(c: Config, run: seq<State>, k: nat)
    requires k < |run| - 1
  {
    Next(c, run[k], run[k + 1])
  }

  predicate Run(c: Config, run: seq<State>) {
    && |run| > 0
    && Init(c, run[0])
    && forall k :: 0 <= k < |run| - 1 ==> StepAt(c, run, k)
  }

  /** Neither thread can do anything but wait. */
  predicate AtRest(c: Config, s: State) {
    AfterProducer(c, s) == s && AfterConsumer(c, s) == s
  }

  // --------------------------------------------------------------- invariants

  /** The element just written has not been announced yet. */
  function Unannounced(s: State): int {
    if s.p.PTokens? then 1 else 0
  }

  /** The tokens of the element just read have not been taken off yet. */
  function Unsettled(s: State): int {
    if (s.c.CDecide? && !s.end) || s.c.CConsume? then 1 else 0
  }

  /** Elements go through in order, and the count is exact up to the two windows. */
  predicate FlowOk(c: Config, s: State) {
    && s.sent <= |c.input| && s.got + s.queue == c.input[..s.sent] && Unannounced(s) <= |s.queue| <= c.capacity
    && s.pending == c.size * (|s.queue| - Unannounced(s) + Unsettled(s))
    && (s.p.PWrite? ==> s.sent < |c.input|)
  }

  /** The producer has begun to terminate. */
  predicate Ending(s: State) {
    s.p.PSignal? || Signaled(s)
  }

  predicate Signaled(s: State) {
    s.p.PLastLock? || s.p.PLastWake? || s.p.PLastUnlock? || s.p.PDone?
  }

  predicate EndOk(c: Config, s: State) {
    && (s.command <==> Ending(s)) && s.signals == (if Signaled(s) then 1 else 0)
    && (Ending(s) || s.p.PCommand? ==> s.sent == |c.input|)
  }

  /** The token wait is over. */
  predicate Waited(s: State) {
    s.c.CUnlock? || s.c.CCommand? || s.c.CEmpty? || s.c.CRead?
  }

  /** After the wait there is an announced element to read, unless the producer has terminated. */
  predicate WaitOk(s: State) {
    && (Waited(s) ==> |s.queue| > Unannounced(s) || (s.out && !s.c.CRead?))
    && (s.out && !s.c.CIdle? ==> Signaled(s))
    && (s.end ==> s.c.CIdle? || ((s.c.CDecide? || s.c.CDone?) && s.out && s.queue == []))
    && (s.c.CConsume? ==> !s.end) && (s.c.CDone? ==> s.end)
  }

  predicate LockOk(s: State) {
    && FREE <= s.lock <= CONSUMER
    && ((s.p.PWake? || s.p.PUnlock? || s.p.PLastWake? || s.p.PLastUnlock?) <==> s.lock == PRODUCER)
    && ((s.c.CRescan? || s.c.CReterm? || s.c.CSleep? || s.c.CUnlock?) <==> s.lock == CONSUMER)
  }

  /** The consumer falls asleep, or sleeps, only if it is not to go on, or the producer is about to wake it. */
  predicate SleepOk(c: Config, s: State) {
    && (s.c.CReterm? || s.c.CSleep? || s.c.CAsleep? ==> s.pending < c.threshold || s.p.PLock? || s.p.PWake?)
    && (s.c.CSleep? || s.c.CAsleep? ==> !Signaled(s) || s.p.PLastLock? || s.p.PLastWake?)
  }

  predicate Inv(c: Config, s: State) {
    ConfigOk(c) && FlowOk(c, s) && EndOk(c, s) && WaitOk(s) && LockOk(s) && SleepOk(c, s)
  }

  lemma ProducerFlow(c: Config, s: State, s': State)
    requires Inv(c, s) && s' == AfterProducer(c, s)
    ensures FlowOk(c, s')
  {
    if s.p.PWrite? && s' != s {
      assert c.input[..s'.sent] == c.input[..s.sent] + [c.input[s.sent]];
      assert s.got + s'.queue == (s.got + s.queue) + [c.input[s.sent]];
    } else if s.p.PTokens? {
      assert s'.pending == c.size * (|s.queue| + Unsettled(s));
    }
  }

  lemma ConsumerFlow(c: Config, s: State, s': State)
    requires FlowOk(c, s) && WaitOk(s) && s' == AfterConsumer(c, s)
    ensures FlowOk(c, s')
  {
    if s.c.CRead? {
      ReadFlow(c, s, s');
    } else if s.c.CConsume? {
      ConsumeFlow(c, s, s');
    } else {
      assert s'.queue == s.queue && s'.got == s.got && s'.pending == s.pending && Unsettled(s') == Unsettled(s);
    }
  }

  lemma ReadFlow(c: Config, s: State, s': State)
    requires FlowOk(c, s) && WaitOk(s) && s' == AfterConsumer(c, s) && s.c.CRead?
    ensures FlowOk(c, s')
  {
    assert s'.got + s'.queue == s.got + s.queue;
    assert |s'.queue| + Unsettled(s') == |s.queue| + Unsettled(s);
  }

  lemma ConsumeFlow(c: Config, s: State, s': State)
    requires FlowOk(c, s) && s' == AfterConsumer(c, s) && s.c.CConsume?
    ensures FlowOk(c, s')
  {
    assert s'.pending == c.size * (|s.queue| - Unannounced(s));
  }

  /** Tokens for an element stand for an element in the queue. */
  lemma TokensMeanElement(c: Config, s: State)
    requires ConfigOk(c) && FlowOk(c, s) && s.pending >= c.threshold && Unsettled(s) == 0
    ensures |s.queue| > Unannounced(s)
  {
    assert c.size * 0 == 0;
  }

  lemma ConsumerWait(c: Config, s: State, s': State)
    requires Inv(c, s) && s' == AfterConsumer(c, s)
    ensures WaitOk(s')
  {
    if (s.c.CScan? || s.c.CRescan?) && s.pending >= c.threshold { TokensMeanElement(c, s); }
  }

  lemma ProducerKeeps(c: Config, s: State, s': State)
    requires Inv(c, s) && s' == AfterProducer(c, s)
    ensures EndOk(c, s') && WaitOk(s') && LockOk(s') && SleepOk(c, s')
  {
    match s.p
    case PWrite =>
    case PTokens =>
    case PWake =>
    case PLastWake =>
    case _ =>
  }

  lemma ConsumerEnds(c: Config, s: State, s': State)
    requires EndOk(c, s) && s' == AfterConsumer(c, s)
    ensures EndOk(c, s')
  {
  }

  lemma ConsumerLocks(c: Config, s: State, s': State)
    requires LockOk(s) && s' == AfterConsumer(c, s)
    ensures LockOk(s')
  {
    match s.c
    case CLock =>
    case CRescan =>
    case CReterm =>
    case CSleep =>
    case CRelock =>
    case CUnlock =>
    case _ =>
  }

  lemma ConsumerSleeps(c: Config, s: State, s': State)
    requires EndOk(c, s) && SleepOk(c, s) && s' == AfterConsumer(c, s)
    ensures SleepOk(c, s')
  {
    match s.c
    case CRescan =>
    case CReterm =>
    case CSleep =>
    case _ =>
  }

  lemma NextKeeps(c: Config, s: State, s': State)
    requires Inv(c, s) && Next(c, s, s')
    ensures Inv(c, s')
  {
    if s' == AfterProducer(c, s) {
      ProducerFlow(c, s, s');
      ProducerKeeps(c, s, s');
    } else if s' == AfterConsumer(c, s) {
      ConsumerFlow(c, s, s');
      ConsumerWait(c, s, s');
      ConsumerEnds(c, s, s');
      ConsumerLocks(c, s, s');
      ConsumerSleeps(c, s, s');
    }
  }

  lemma {:induction false} RunKeeps(c: Config, run: seq<State>, k: nat)
    requires Run(c, run) && k < |run|
    ensures Inv(c, run[k])
  {
    if k > 0 {
      RunKeeps(c, run, k - 1);
      assert StepAt(c, run, k - 1);
      NextKeeps(c, run[k - 1], run[k]);
    }
  }

  // ----------------------------------------------------------------- theorems

  /**
    The token count is the size of the elements in the ring, less one just written, plus one just read: it never goes
    below zero.
   */
  lemma CountExact(c: Config, run: seq<State>, k: nat)
    requires Run(c, run) && k < |run|
    ensures run[k].pending == c.size * (|run[k].queue| - Unannounced(run[k]) + Unsettled(run[k]))
    ensures run[k].pending >= 0 && (run[k].c.CConsume? ==> run[k].pending >= c.size)
    ensures run[k].pending <= c.size * |run[k].queue| <==> Unsettled(run[k]) <= Unannounced(run[k])
  {
    RunKeeps(c, run, k);
    var s := run[k];
    var n := |s.queue| - Unannounced(s);
    Modular.Gap(c.size, |s.queue|, n + Unsettled(s));
    Modular.Gap(c.size, n + Unsettled(s), |s.queue|);
    Modular.Gap(c.size, 0, n + Unsettled(s));
  }

  /** The consumer is woken with tokens for an element, after the termination, or spuriously. */
  lemma WokenForAReason(c: Config, run: seq<State>, k: nat)
    requires Run(c, run) && k + 1 < |run| && run[k].c.CAsleep? && !run[k + 1].c.CAsleep?
    ensures Spurious(run[k], run[k + 1]) || Signaled(run[k]) || run[k].pending >= c.threshold
  {
    assert StepAt(c, run, k);
  }

  /**
    The locks are taken only where they are needed: by a producer exactly if its tokens reach the threshold, and by a
    consumer exactly if it finds neither enough tokens nor the termination.
   */
  lemma LockedIffNeeded(c: Config, s: State)
    ensures s.p.PTokens? ==>
              var s' := AfterProducer(c, s);
              s'.pending == s.pending + c.size && s'.p == if s.pending < c.threshold <= s'.pending then PLock else PIdle
    ensures s.c.CScan? && s.pending >= c.threshold ==> AfterConsumer(c, s) == s.(c := CCommand)
    ensures s.c.CScan? && s.pending < c.threshold ==>
              var s' := AfterConsumer(c, s);
              AfterConsumer(c, s') == if s.signals == 1 then s.(c := CCommand, out := true) else s.(c := CLock)
  {
  }

  /** The ring is looked at for its end only after the producer has said that it terminates. */
  lemma {:induction false} EndOnlyOnCommand(c: Config, run: seq<State>, k: nat)
    requires Run(c, run) && k < |run|
    ensures run[k].c.CEmpty? || run[k].end ==> run[k].command
  {
    if k > 0 {
      EndOnlyOnCommand(c, run, k - 1);
      assert StepAt(c, run, k - 1);
      CommandStays(c, run[k - 1], run[k]);
    }
  }

  lemma CommandStays(c: Config, s: State, s': State)
    requires Next(c, s, s') && (s.c.CEmpty? || s.end ==> s.command)
    ensures s'.c.CEmpty? || s'.end ==> s'.command
  {
    if s' == AfterProducer(c, s) { ProducerCommands(c, s); } else if s' == AfterConsumer(c, s) { ConsumerObeys(c, s); }
  }

  lemma ProducerCommands(c: Config, s: State)
    ensures var s' := AfterProducer(c, s);
            (s'.c.CEmpty? ==> s.c.CEmpty?) && s'.end == s.end && (s.command ==> s'.command)
  {
  }

  lemma ConsumerObeys(c: Config, s: State)
    ensures var s' := AfterConsumer(c, s);
            s'.command == s.command && (s'.c.CEmpty? ==> s.command) && (s'.end ==> s.end || s.c.CEmpty?)
  {
  }

  /** The read after a token wait finds an element, so it never spins. */
  lemma ReadNeverSpins(c: Config, run: seq<State>, k: nat)
    requires Run(c, run) && k < |run|
    ensures run[k].c.CRead? ==> AfterConsumer(c, run[k]) != run[k]
  {
    RunKeeps(c, run, k);
  }

  /** Elements are read in order, and PGM_TERMINATE is returned only once every one has been. */
  lemma TerminatesOnceDrained(c: Config, run: seq<State>, k: nat)
    requires Run(c, run) && k < |run|
    ensures run[k].got <= c.input
    ensures run[k].c.CDone? ==> run[k].got == c.input && run[k].queue == [] && run[k].pending == 0
  {
    RunKeeps(c, run, k);
    var s := run[k];
    assert s.got == (s.got + s.queue)[..|s.got|] == c.input[..|s.got|];
    if s.c.CDone? {
      assert s.got + [] == s.got && c.input[..|c.input|] == c.input;
      assert c.size * 0 == 0;
    }
  }

  lemma Extend(c: Config, run: seq<State>, s: State)
    requires Run(c, run) && Next(c, run[|run| - 1], s)
    ensures Run(c, run + [s])
  {
    var r := run + [s];
    forall k | 0 <= k < |r| - 1 ensures StepAt(c, r, k) { if k < |run| - 1 { assert StepAt(c, run, k); } }
  }

  lemma Prefix(c: Config, run: seq<State>, n: nat)
    requires Run(c, run) && 0 < n <= |run|
    ensures Run(c, run[..n])
  {
    forall k | 0 <= k < n - 1 ensures StepAt(c, run[..n], k) { assert StepAt(c, run, k); }
  }

  /** The producer takes n steps. */
  lemma {:induction false} ProducerRuns(c: Config, run: seq<State>, n: nat) returns (longer: seq<State>)
    requires Run(c, run)
    ensures Run(c, longer) && longer[|longer| - 1] == Producers(c, run[|run| - 1], n)
    decreases n
  {
    longer := run;
    if n > 0 {
      var s := AfterProducer(c, run[|run| - 1]);
      Extend(c, run, s);
      longer := ProducerRuns(c, run + [s], n - 1);
    }
  }

  function Producers(c: Config, s: State, n: nat): State
    decreases n
  {
    if n == 0 then s else Producers(c, AfterProducer(c, s), n - 1)
  }

  lemma {:induction false} ConsumerRuns(c: Config, run: seq<State>, n: nat) returns (longer: seq<State>)
    requires Run(c, run)
    ensures Run(c, longer) && longer[|longer| - 1] == Consumers(c, run[|run| - 1], n)
    decreases n
  {
    longer := run;
    if n > 0 {
      var s := AfterConsumer(c, run[|run| - 1]);
      Extend(c, run, s);
      longer := ConsumerRuns(c, run + [s], n - 1);
    }
  }

  function Consumers(c: Config, s: State, n: nat): State
    decreases n
  {
    if n == 0 then s else Consumers(c, AfterConsumer(c, s), n - 1)
  }

  // -------------------------------------------------------------- coming to rest

  /**
    What the producer has left to do for its current element; waking the consumer is dearer than what it does before
    it sleeps again.
   */
  function ProducerRest(p: PPc): nat {
    match p
    case PIdle => 11
    case PWrite => 10
    case PTokens => 19
    case PLock => 18
    case PWake => 17
    case PUnlock => 12
    case PCommand => 9
    case PSignal => 8
    case PLastLock => 7
    case PLastWake => 6
    case PLastUnlock => 1
    case PDone => 0
  }

  function ConsumerRest(pc: CPc, end: bool): nat {
    match pc
    case CIdle => 14
    case CScan => 13
    case CTerm => 12
    case CLock => 11
    case CRelock => 11
    case CRescan => 10
    case CReterm => 9
    case CSleep => 8
    case CAsleep => 7
    case CUnlock => 6
    case CCommand => 5
    case CEmpty => 4
    case CRead => 3
    case CDecide => if end then 1 else 16
    case CConsume => 15
    case CDone => 0
  }

  function Measure(c: Config, s: State): int {
    10 * (|c.input| - s.sent) + ProducerRest(s.p) + 14 * (|c.input| - |s.got|) + ConsumerRest(s.c, s.end)
  }

  lemma ProducerLowers(c: Config, s: State, s': State)
    requires s' != s && s' == AfterProducer(c, s)
    ensures Measure(c, s') < Measure(c, s)
  {
    match s.p
    case PIdle =>
    case PWrite =>
    case PTokens =>
    case PLock =>
    case PWake =>
    case PUnlock =>
    case PCommand =>
    case PSignal =>
    case PLastLock =>
    case PLastWake =>
    case PLastUnlock =>
    case PDone =>
  }

  lemma ConsumerLowers(c: Config, s: State, s': State)
    requires s' != s && s' == AfterConsumer(c, s) && (s.c.CDecide? && s.end ==> s.out)
    ensures Measure(c, s') < Measure(c, s)
  {
    match s.c
    case CIdle =>
    case CScan =>
    case CTerm =>
    case CLock =>
    case CRescan =>
    case CReterm =>
    case CSleep =>
    case CAsleep =>
    case CRelock =>
    case CUnlock =>
    case CCommand =>
    case CEmpty =>
    case CRead =>
    case CDecide =>
    case CConsume =>
    case CDone =>
  }

  /** Every step that is not a wait lowers the measure; only a spurious wake-up raises it. */
  lemma StepLowers(c: Config, s: State, s': State)
    requires Inv(c, s) && s' != s && (s' == AfterProducer(c, s) || s' == AfterConsumer(c, s))
    ensures Measure(c, s') < Measure(c, s)
  {
    if s' == AfterProducer(c, s) { ProducerLowers(c, s, s'); } else { ConsumerLowers(c, s, s'); }
  }

  lemma MeasureNotNegative(c: Config, s: State)
    requires FlowOk(c, s)
    ensures Measure(c, s) >= 0
  {
    assert |s.got| + |s.queue| == s.sent;
  }

  /** Every run can be continued to a state of rest, within as many steps as the measure says. */
  lemma {:induction false} ComesToRest(c: Config, run: seq<State>) returns (longer: seq<State>)
    requires Run(c, run)
    ensures Run(c, longer) && run <= longer && AtRest(c, longer[|longer| - 1])
    ensures |longer| - |run| <= Measure(c, run[|run| - 1])
    decreases Measure(c, run[|run| - 1])
  {
    var s := run[|run| - 1];
    RunKeeps(c, run, |run| - 1);
    MeasureNotNegative(c, s);
    longer := run;
    if !AtRest(c, s) {
      var s' := if AfterProducer(c, s) != s then AfterProducer(c, s) else AfterConsumer(c, s);
      StepLowers(c, s, s');
      Extend(c, run, s');
      longer := ComesToRest(c, run + [s']);
    }
  }

  /** Threads that can only wait have finished, or wait for each other: the ring is full but short of the threshold. */
  predicate Stuck(c: Config, s: State) {
    && s.p.PWrite? && s.c.CAsleep? && |s.queue| == c.capacity
    && c.size * c.capacity < c.threshold && |c.input| > c.capacity
  }

  lemma RestMeans(c: Config, s: State)
    requires Inv(c, s) && AtRest(c, s)
    ensures (s.p.PDone? && s.c.CDone?) || Stuck(c, s)
  {
    assert s.p.PWrite? || s.p.PLock? || s.p.PLastLock? || s.p.PDone?;
    assert s.c.CLock? || s.c.CRelock? || s.c.CAsleep? || s.c.CDone?;
    if s.p.PWrite? { assert |s.got| + |s.queue| == s.sent; }
  }

  /** The state after k elements have gone into the ring while the consumer sleeps. */
  function Filled(c: Config, k: nat): State
    requires k <= |c.input|
  {
    State(c.input[..k], c.size * k, false, 0, FREE, PIdle, CAsleep, false, false, k, [])
  }

  lemma FallAsleep(c: Config) returns (run: seq<State>)
    requires ConfigOk(c)
    ensures Run(c, run) && run[|run| - 1] == Filled(c, 0)
  {
    var s := State([], 0, false, 0, FREE, PIdle, CIdle, false, false, 0, []);
    run := ConsumerRuns(c, [s], 7);
    var s1, s2, s3 := s.(c := CScan), s.(c := CTerm), s.(c := CLock);
    var s4, s5 := s.(c := CRescan, lock := CONSUMER), s.(c := CReterm, lock := CONSUMER);
    var s6, s7 := s.(c := CSleep, lock := CONSUMER), s.(c := CAsleep);
    assert Consumers(c, s, 7) == Consumers(c, s1, 6) == Consumers(c, s2, 5) == Consumers(c, s3, 4);
    assert Consumers(c, s3, 4) == Consumers(c, s4, 3) == Consumers(c, s5, 2);
    assert Consumers(c, s5, 2) == Consumers(c, s6, 1) == Consumers(c, s7, 0);
    assert c.size * 0 == 0 && c.input[..0] == [];
  }

  lemma {:induction false} FillUp(c: Config, k: nat) returns (run: seq<State>)
    requires ConfigOk(c) && c.size * c.capacity < c.threshold && k <= c.capacity && k <= |c.input|
    ensures Run(c, run) && run[|run| - 1] == Filled(c, k)
  {
    if k == 0 {
      run := FallAsleep(c);
    } else {
      run := FillUp(c, k - 1);
      var s := Filled(c, k - 1);
      run := ProducerRuns(c, run, 3);
      var a := s.(p := PWrite);
      var b := a.(p := PTokens, queue := c.input[..k], sent := k);
      assert c.input[..k] == c.input[..k - 1] + [c.input[k - 1]];
      assert c.size * k == c.size * (k - 1) + c.size;
      Modular.Gap(c.size, k, c.capacity);
      assert AfterProducer(c, s) == a && AfterProducer(c, a) == b && AfterProducer(c, b) == Filled(c, k);
      assert Producers(c, s, 3) == Producers(c, a, 2) == Producers(c, b, 1) == Producers(c, Filled(c, k), 0);
    }
  }

  ghost predicate Drains(c: Config, s: State) {
    AtRest(c, s) ==> s.p.PDone? && s.c.CDone? && s.got == c.input
  }

  /**
    Both threads always finish with every element read, if and only if a full ring reaches the threshold or never
    fills.
   */
  lemma DrainsIffThresholdFits(c: Config)
    requires ConfigOk(c)
    ensures (forall run, k: nat :: Run(c, run) && k < |run| ==> Drains(c, run[k])) <==>
              c.threshold <= c.size * c.capacity || |c.input| <= c.capacity
  {
    if c.threshold <= c.size * c.capacity || |c.input| <= c.capacity {
      forall run, k: nat | Run(c, run) && k < |run| ensures Drains(c, run[k]) {
        RunKeeps(c, run, k);
        TerminatesOnceDrained(c, run, k);
        if AtRest(c, run[k]) { RestMeans(c, run[k]); }
      }
    } else {
      var run := FillUp(c, c.capacity);
      var s := Filled(c, c.capacity).(p := PWrite);
      Extend(c, run, s);
      assert AtRest(c, s) && (run + [s])[|run|] == s;
      assert !Drains(c, (run + [s])[|run|]);
    }
  }

  // ------------------------------------------------ when the count exceeds the ring

  predicate Exceeds(c: Config, s: State) {
    s.pending > c.size * |s.queue|
  }

  /** Where a full ring is short of the threshold and the input does not fit, the consumer never reads. */
  predicate NeverRead(c: Config, s: State) {
    s.got == [] && Unsettled(s) == 0 && !Waited(s) && !Ending(s) && !s.p.PCommand? && !s.c.CDecide? && !s.c.CDone?
  }

  lemma StaysUnread(c: Config, s: State, s': State)
    requires Inv(c, s) && NeverRead(c, s) && Next(c, s, s')
    requires c.size * c.capacity < c.threshold && |c.input| > c.capacity
    ensures NeverRead(c, s')
  {
    assert |s.got| + |s.queue| == s.sent;
    Modular.Gap(c.size, |s.queue| - Unannounced(s), c.capacity);
  }

  lemma UnsettledNext(c: Config, s: State, s': State)
    requires WaitOk(s) && Next(c, s, s') && (Unsettled(s) > 0 ==> s.got != [])
    ensures Unsettled(s') > 0 ==> s'.got != []
  {
    if s' == AfterProducer(c, s) {
      ProducerReadsNothing(c, s);
    } else if s' == AfterConsumer(c, s) {
      ReadBeforeSettled(c, s);
    }
  }

  lemma ProducerReadsNothing(c: Config, s: State)
    ensures var s' := AfterProducer(c, s); s'.got == s.got && (Unsettled(s') > 0 ==> Unsettled(s) > 0)
  {
  }

  lemma ReadBeforeSettled(c: Config, s: State)
    requires WaitOk(s)
    ensures var s' := AfterConsumer(c, s);
            |s.got| <= |s'.got| && (Unsettled(s') > 0 ==> Unsettled(s) > 0 || |s'.got| > |s.got|)
  {
  }

  /** The tokens of a read that is not settled are those of an element. */
  lemma {:induction false} UnsettledIsRead(c: Config, run: seq<State>, k: nat)
    requires Run(c, run) && k < |run|
    ensures Unsettled(run[k]) > 0 ==> run[k].got != []
  {
    if k > 0 {
      UnsettledIsRead(c, run, k - 1);
      RunKeeps(c, run, k - 1);
      assert StepAt(c, run, k - 1);
      UnsettledNext(c, run[k - 1], run[k]);
    }
  }

  lemma {:induction false} RunUnread(c: Config, run: seq<State>, k: nat)
    requires Run(c, run) && k < |run| && c.size * c.capacity < c.threshold && |c.input| > c.capacity
    ensures NeverRead(c, run[k])
  {
    if k > 0 {
      RunUnread(c, run, k - 1);
      RunKeeps(c, run, k - 1);
      assert StepAt(c, run, k - 1);
      StaysUnread(c, run[k - 1], run[k]);
    }
  }

  lemma NeverExceeds(c: Config, run: seq<State>, k: nat)
    requires Run(c, run) && k < |run|
    requires c.input == [] || (c.size * c.capacity < c.threshold && |c.input| > c.capacity)
    ensures !Exceeds(c, run[k])
  {
    UnsettledIsRead(c, run, k);
    if c.input != [] { RunUnread(c, run, k); }
    RunKeeps(c, run, k);
    CountExact(c, run, k);
    assert |run[k].got| + |run[k].queue| == run[k].sent;
  }

  lemma FirstRead(c: Config, s: State, s': State)
    requires Inv(c, s) && Next(c, s, s') && s.got == [] && s'.got != []
    ensures s'.c.CDecide? && !s'.end
  {
  }

  /** The state after a read, or after the producer has announced what it was writing then. */
  lemma ReadExceeds(c: Config, run: seq<State>) returns (longer: seq<State>)
    requires Run(c, run) && run[|run| - 1].c.CDecide? && !run[|run| - 1].end
    ensures Run(c, longer) && Exceeds(c, longer[|longer| - 1])
  {
    longer := run;
    var s := run[|run| - 1];
    if s.p.PTokens? {
      Extend(c, run, AfterProducer(c, s));
      longer := run + [AfterProducer(c, s)];
    }
    CountExact(c, longer, |longer| - 1);
  }

  lemma {:induction false} AfterFirstRead(c: Config, run: seq<State>, k: nat) returns (longer: seq<State>)
    requires Run(c, run) && k < |run| && run[k].got != []
    ensures Run(c, longer) && Exceeds(c, longer[|longer| - 1])
  {
    if run[k - 1].got != [] {
      longer := AfterFirstRead(c, run, k - 1);
    } else {
      RunKeeps(c, run, k - 1);
      assert StepAt(c, run, k - 1);
      FirstRead(c, run[k - 1], run[k]);
      Prefix(c, run, k + 1);
      longer := ReadExceeds(c, run[..k + 1]);
    }
  }

  /** Some run makes the count exceed the bytes in the ring if and only if there is an element and the ring drains. */
  lemma ExceedsIffSomethingRead(c: Config)
    requires ConfigOk(c)
    ensures (exists run, k: nat :: Run(c, run) && k < |run| && Exceeds(c, run[k]))
            <==> c.input != [] && (c.threshold <= c.size * c.capacity || |c.input| <= c.capacity)
  {
    if c.input != [] && (c.threshold <= c.size * c.capacity || |c.input| <= c.capacity) {
      DrainsIffThresholdFits(c);
      var run := ComesToRest(c, [State([], 0, false, 0, FREE, PIdle, CIdle, false, false, 0, [])]);
      assert Drains(c, run[|run| - 1]);
      var longer := AfterFirstRead(c, run, |run| - 1);
    } else {
      forall run, k: nat | Run(c, run) && k < |run| ensures !Exceeds(c, run[k]) { NeverExceeds(c, run, k); }
    }
  }
}
