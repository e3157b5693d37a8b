/**
  The condition variable of include/condvar.h as a step machine over a lock, a sequence word that wraps
  around at `mod` (2^32), a count of registered waiters, and the kernel's futex queue. The lock is
  abstract: a thread takes it when it is free.
 */
module CondVar {
  import Modular

  datatype Pc =
    | Out
    | Holding  // holds the lock, in no call
    | WCount   // 45: has read `seq`
    | WUnlock  // 46
    | Futex    // 47: the kernel compares `seq` with what was read
    | Asleep   // 47: in the futex queue
    | Relock   // 48
    | WLeave   // 49
    | SBump    // 76
    | SWake    // 78

  /** `snap` is the sequence word as read; `at` is history: the number of signals sent when it was read. */
  datatype Thread = Thread(pc: Pc, snap: nat, at: nat)

  /**
    History: `bumps` counts the signals sent; `targets` are the threads that the last one found on their way to sleep.
   */
  datatype State = State(word: nat, waiters: int, lock: int, th: seq<Thread>, bumps: nat, targets: set<nat>)

  const FREE: int := -1

  /** With `solo`, only thread 0 waits: the owner of the node. */
  datatype Config = Config(mod: nat, solo: bool)

  predicate Init(c: Config, s: State) {
    && c.mod > 0 && s.word == 0 && s.waiters == 0 && s.lock == FREE && s.bumps == 0 && s.targets == {}
    && forall w :: 0 <= w < |s.th| ==> s.th[w].pc == Out
  }

  function Put(s: State, w: nat, t: Thread): State
    requires w < |s.th|
  {
    s.(th := s.th[w := t])
  }

  /** In cv_wait, unlocked, and not yet past the futex call. */
  predicate Due(t: Thread) {
    t.pc.Futex? || t.pc.Asleep?
  }

  function DueSet(th: seq<Thread>): set<nat> {
    set w: nat | w < |th| && Due(th[w])
  }

  predicate LockStep(s: State, s': State, w: nat) {
    && w < |s.th| && s.lock == FREE && (s.th[w].pc.Out? || s.th[w].pc.Relock?)
    && s' == Put(s, w, s.th[w].(pc := if s.th[w].pc.Out? then Holding else WLeave)).(lock := w)
  }

  predicate UnlockStep(s: State, s': State, w: nat) {
    && w < |s.th| && (s.th[w].pc.Holding? || s.th[w].pc.WUnlock?)
    && s' == Put(s, w, s.th[w].(pc := if s.th[w].pc.Holding? then Out else Futex)).(lock := FREE)
  }

  predicate WaitStep(c: Config, s: State, s': State, w: nat) {
    && w < |s.th| && (c.solo ==> w == 0)
    && var t := s.th[w];
    match t.pc
    case Holding => s' == Put(s, w, Thread(WCount, s.word, s.bumps))
    case WCount => s' == Put(s, w, t.(pc := WUnlock)).(waiters := s.waiters + 1)
    case Futex => s' == Put(s, w, t.(pc := if s.word == t.snap then Asleep else Relock))
    case WLeave => s' == Put(s, w, t.(pc := Holding)).(waiters := s.waiters - 1)
    case _ => false
  }

  /** A sleeper may return without a signal. */
  predicate Spurious(s: State, s': State, w: nat) {
    && w < |s.th| && s.th[w].pc.Asleep?
    && s' == Put(s, w, s.th[w].(pc := Relock))
  }

  /** The wake takes one thread out of the futex queue, if there is one; `u` is the one. */
  predicate SignalStep(c: Config, s: State, s': State, w: nat, u: nat) {
    && w < |s.th| && c.mod > 0
    && var t := s.th[w];
    match t.pc
    case Holding => s' == if s.waiters > 0 then Put(s, w, t.(pc := SBump)) else s
    case SBump =>
      s' == Put(s, w, t.(pc := SWake)).(word := (s.word + 1) % c.mod, bumps := s.bumps + 1, targets := DueSet(s.th))
    case SWake =>
      if exists v :: 0 <= v < |s.th| && s.th[v].pc.Asleep? then
        && u < |s.th| && s.th[u].pc.Asleep?
        && s' == Put(Put(s, w, t.(pc := Holding)), u, s.th[u].(pc := Relock))
      else
        s' == Put(s, w, t.(pc := Holding))
    case _ => false
  }

  ghost predicate Next(c: Config, s: State, s': State) {
    || (exists w: nat :: LockStep(s, s', w))
    || (exists w: nat :: UnlockStep(s, s', w))
    || (exists w: nat :: WaitStep(c, s, s', w))
    || (exists w: nat :: Spurious(s, s', w))
    || (exists w: nat, u: nat :: SignalStep(c, s, s', w, u))
  }

  ghost predicate StepAt(c: Config, run: seq<State>, k: nat)
    requires k < |run| - 1
  {
    Next(c, run[k], run[k + 1])
  }

  ghost predicate Run(c: Config, run: seq<State>) {
    && |run| > 0
    && Init(c, run[0])
    && forall k :: 0 <= k < |run| - 1 ==> StepAt(c, run, k)
  }

  // ------------------------------------------------------------- registration

  predicate Inside(pc: Pc) {
    pc.Holding? || pc.WCount? || pc.WUnlock? || pc.WLeave? || pc.SBump? || pc.SWake?
  }

  predicate Registered(pc: Pc) {
    pc.WUnlock? || pc.Futex? || pc.Asleep? || pc.Relock? || pc.WLeave?
  }

  /** One thread, counted if it is registered. */
  function Here(pc: Pc): nat {
    if Registered(pc) then 1 else 0
  }

  function Count(th: seq<Thread>): nat {
    if th == [] then 0 else Count(th[..|th| - 1]) + Here(th[|th| - 1].pc)
  }

  lemma {:induction false} CountPut(th: seq<Thread>, w: nat, t: Thread)
    requires w < |th|
    ensures Count(th[w := t]) == Count(th) - Here(th[w].pc) + Here(t.pc)
  {
    var init := th[..|th| - 1];
    if w == |th| - 1 {
      assert th[w := t][..w] == init;
    } else {
      CountPut(init, w, t);
      assert th[w := t][..|th| - 1] == init[w := t];
    }
  }

  lemma {:induction false} CountSome(th: seq<Thread>, w: nat)
    requires w < |th| && Registered(th[w].pc)
    ensures Count(th) > 0
  {
    if w < |th| - 1 { CountSome(th[..|th| - 1], w); }
  }

  /** The holder of the lock is between the add to the word and the wake. */
  predicate Sending(s: State) {
    0 <= s.lock < |s.th| && s.th[s.lock].pc.SWake?
  }

  predicate ThreadOk(c: Config, s: State, w: nat)
    requires w < |s.th| && c.mod > 0
  {
    var t := s.th[w];
    && (Inside(t.pc) <==> s.lock == w)
    && (t.pc.WCount? || t.pc.WUnlock? ==> t.at == s.bumps)
    && (t.pc.WCount? || t.pc.WUnlock? || Due(t) ==> t.at <= s.bumps && t.snap == t.at % c.mod)
    && (Due(t) && Sending(s) ==> t.at < s.bumps)
    && (c.solo && w != 0 ==> !Registered(t.pc) && !t.pc.WCount?)
  }

  /** The waiter count is exact, and the word counts the signals. */
  predicate Basic(c: Config, s: State) {
    && c.mod > 0 && s.word == s.bumps % c.mod && s.waiters == Count(s.th)
    && (forall w :: 0 <= w < |s.th| ==> ThreadOk(c, s, w))
  }

  /** Past the futex call, or certain to pass it without sleeping. */
  predicate Runnable(s: State, w: nat) {
    && w < |s.th|
    && (s.th[w].pc.Futex? ==> s.th[w].snap != s.word) && !s.th[w].pc.Asleep?
  }

  /** During a signal whoever was on the way to sleep is asleep or will not sleep, and nobody else is on that way. */
  predicate Aimed(s: State) {
    Sending(s) ==>
      && (forall w: nat :: w < |s.th| && Due(s.th[w]) ==> w in s.targets)
      && (forall w: nat :: w in s.targets ==> w < |s.th| && (s.th[w].pc.Asleep? || Runnable(s, w)))
  }

  /** No signaled sleeper is left to itself: its signal is still being sent. */
  predicate NoMissed(s: State) {
    forall w: nat :: w < |s.th| && s.th[w].pc.Asleep? && s.th[w].at < s.bumps ==> Sending(s)
  }

  /** At most `limit` signals fall between a thread's reading of the word and the kernel's comparison. */
  predicate Window(s: State, limit: nat) {
    forall w :: 0 <= w < |s.th| && s.th[w].pc.Futex? ==> s.bumps - s.th[w].at <= limit
  }

  // --------------------------------------------------------------- every step

  lemma InitKept(c: Config, s: State)
    requires Init(c, s)
    ensures Basic(c, s)
  {
    NobodyIn(s.th);
    Modular.Unique(0, c.mod, 0, 0);
  }

  lemma {:induction false} NobodyIn(th: seq<Thread>)
    requires forall w :: 0 <= w < |th| ==> th[w].pc == Out
    ensures Count(th) == 0
  {
    if th != [] { NobodyIn(th[..|th| - 1]); }
  }

  lemma OneMoves(c: Config, s: State, s': State, w: nat)
    requires Basic(c, s) && w < |s.th| == |s'.th| && s'.th == s.th[w := s'.th[w]]
    requires s'.bumps == s.bumps && s'.word == s.word
    requires s'.lock == (if Inside(s'.th[w].pc) then w else if Inside(s.th[w].pc) then FREE else s.lock)
    requires Inside(s'.th[w].pc) ==> s.lock == FREE || s.lock == w
    requires s'.waiters == s.waiters - Here(s.th[w].pc) + Here(s'.th[w].pc)
    requires ThreadOk(c, s', w) && !s'.th[w].pc.SWake?
    ensures Basic(c, s')
  {
    CountPut(s.th, w, s'.th[w]);
    assert ThreadOk(c, s, w);
    forall u | 0 <= u < |s.th| ensures ThreadOk(c, s', u) { assert ThreadOk(c, s, u); }
  }

  lemma BumpBasic(c: Config, s: State, s': State, w: nat, u: nat)
    requires Basic(c, s) && w < |s.th| && s.th[w].pc.SBump? && SignalStep(c, s, s', w, u)
    ensures Basic(c, s')
  {
    Modular.Next(s.bumps, c.mod);
    CountPut(s.th, w, s'.th[w]);
    assert ThreadOk(c, s, w);
    forall v | 0 <= v < |s.th| ensures ThreadOk(c, s', v) { assert ThreadOk(c, s, v); }
  }

  lemma WakeBasic(c: Config, s: State, s': State, w: nat, u: nat)
    requires Basic(c, s) && w < |s.th| && s.th[w].pc.SWake? && SignalStep(c, s, s', w, u)
    ensures Basic(c, s')
  {
    var mid := Put(s, w, s.th[w].(pc := Holding));
    assert ThreadOk(c, s, w);
    OneMoves(c, s, mid, w);
    if s' != mid {
      assert ThreadOk(c, s, u);
      OneMoves(c, mid, s', u);
    }
  }

  lemma QuietBasic(c: Config, s: State, s': State, w: nat)
    requires Basic(c, s) && (LockStep(s, s', w) || UnlockStep(s, s', w) || Spurious(s, s', w))
    ensures Basic(c, s') && |s'.th| == |s.th|
  {
    assert ThreadOk(c, s, w);
    OneMoves(c, s, s', w);
  }

  lemma WaitBasic(c: Config, s: State, s': State, w: nat)
    requires Basic(c, s) && WaitStep(c, s, s', w)
    ensures Basic(c, s') && |s'.th| == |s.th|
  {
    assert ThreadOk(c, s, w);
    OneMoves(c, s, s', w);
  }

  lemma SignalBasic(c: Config, s: State, s': State, w: nat, u: nat)
    requires Basic(c, s) && SignalStep(c, s, s', w, u)
    ensures Basic(c, s') && |s'.th| == |s.th|
  {
    if s.th[w].pc.SBump? {
      BumpBasic(c, s, s', w, u);
    } else if s.th[w].pc.SWake? {
      WakeBasic(c, s, s', w, u);
    } else if s' != s {
      assert ThreadOk(c, s, w);
      OneMoves(c, s, s', w);
    }
  }

  lemma BasicKept(c: Config, s: State, s': State)
    requires Basic(c, s) && Next(c, s, s')
    ensures Basic(c, s') && |s'.th| == |s.th|
  {
    if w: nat :| WaitStep(c, s, s', w) {
      WaitBasic(c, s, s', w);
    } else if w: nat, u: nat :| SignalStep(c, s, s', w, u) {
      SignalBasic(c, s, s', w, u);
    } else {
      var w: nat :| LockStep(s, s', w) || UnlockStep(s, s', w) || Spurious(s, s', w);
      QuietBasic(c, s, s', w);
    }
  }

  /** What the kernel finds: the word is unchanged exactly if no signal came, given that fewer than `mod` did. */
  lemma Compared(c: Config, s: State, w: nat)
    requires Basic(c, s) && w < |s.th| && Due(s.th[w]) && s.bumps - s.th[w].at < c.mod
    ensures s.th[w].snap == s.word <==> s.th[w].at == s.bumps
  {
    assert ThreadOk(c, s, w);
    if s.th[w].snap == s.word { Modular.Same(c.mod, s.th[w].at, s.bumps); }
  }

  lemma BumpAims(c: Config, s: State, s': State, w: nat, u: nat)
    requires Basic(c, s) && Basic(c, s') && Window(s', c.mod - 1)
    requires w < |s.th| && s.th[w].pc.SBump? && SignalStep(c, s, s', w, u)
    ensures Aimed(s')
  {
    forall v: nat | v in s'.targets ensures v < |s'.th| && (s'.th[v].pc.Asleep? || Runnable(s', v)) {
      assert ThreadOk(c, s, v);
      if s'.th[v].pc.Futex? { Compared(c, s', v); }
    }
  }

  /** While the lock is held for the signal, others only go past the futex call. */
  lemma StaysAimed(c: Config, s: State, s': State, w: nat)
    requires Basic(c, s) && Aimed(s) && Sending(s')
    requires WaitStep(c, s, s', w) || Spurious(s, s', w)
    ensures Aimed(s')
  {
    assert ThreadOk(c, s, w);
  }

  /** Nobody else begins a signal, and nobody takes or gives back the lock. */
  lemma LockKeptFrom(c: Config, s: State, s': State, w: nat)
    requires Basic(c, s) && (LockStep(s, s', w) || UnlockStep(s, s', w))
    ensures !Sending(s')
  {
    assert ThreadOk(c, s, w);
  }

  lemma NotYetSending(c: Config, s: State, s': State, w: nat, u: nat)
    requires Basic(c, s) && SignalStep(c, s, s', w, u) && !s.th[w].pc.SBump?
    ensures !Sending(s')
  {
    assert ThreadOk(c, s, w);
  }

  lemma AimedKept(c: Config, s: State, s': State)
    requires Basic(c, s) && Basic(c, s') && Window(s', c.mod - 1) && Aimed(s) && Next(c, s, s')
    ensures Aimed(s')
  {
    if w: nat, u: nat :| SignalStep(c, s, s', w, u) {
      if s.th[w].pc.SBump? { BumpAims(c, s, s', w, u); } else { NotYetSending(c, s, s', w, u); }
    } else if w: nat :| LockStep(s, s', w) {
      LockKeptFrom(c, s, s', w);
    } else if w: nat :| UnlockStep(s, s', w) {
      LockKeptFrom(c, s, s', w);
    } else if Sending(s') {
      var w: nat :| WaitStep(c, s, s', w) || Spurious(s, s', w);
      StaysAimed(c, s, s', w);
    }
  }

  lemma SignalMissesNone(c: Config, s: State, s': State, w: nat, u: nat)
    requires c.solo && Basic(c, s) && NoMissed(s) && SignalStep(c, s, s', w, u)
    ensures NoMissed(s')
  {
    assert ThreadOk(c, s, w);
    forall v: nat | v < |s'.th| && s'.th[v].pc.Asleep? && s'.th[v].at < s'.bumps ensures Sending(s') {
      assert ThreadOk(c, s, v);
      if u < |s.th| { assert ThreadOk(c, s, u); }
    }
  }

  lemma OthersMissNone(c: Config, s: State, s': State, w: nat)
    requires Basic(c, s) && Window(s, c.mod - 1) && NoMissed(s)
    requires WaitStep(c, s, s', w) || LockStep(s, s', w) || UnlockStep(s, s', w) || Spurious(s, s', w)
    ensures NoMissed(s')
  {
    assert ThreadOk(c, s, w);
    if s.th[w].pc.Futex? { Compared(c, s, w); }
  }

  lemma MissedKept(c: Config, s: State, s': State)
    requires c.solo && Basic(c, s) && Window(s, c.mod - 1) && NoMissed(s) && Next(c, s, s')
    ensures NoMissed(s')
  {
    if w: nat, u: nat :| SignalStep(c, s, s', w, u) {
      SignalMissesNone(c, s, s', w, u);
    } else {
      var w: nat :| WaitStep(c, s, s', w) || LockStep(s, s', w) || UnlockStep(s, s', w) || Spurious(s, s', w);
      OthersMissNone(c, s, s', w);
    }
  }

  // ----------------------------------------------------------------- theorems

  /** A run in which no more than `limit` signals ever fall into the window of a waiter. */
  ghost predicate Bounded(c: Config, run: seq<State>, limit: nat) {
    Run(c, run) && forall k :: 0 <= k < |run| ==> Window(run[k], limit)
  }

  lemma {:induction false} RunBasic(c: Config, run: seq<State>, k: nat)
    requires Run(c, run) && k < |run|
    ensures Basic(c, run[k]) && |run[k].th| == |run[0].th|
  {
    if k == 0 {
      InitKept(c, run[0]);
    } else {
      RunBasic(c, run, k - 1);
      assert StepAt(c, run, k - 1);
      BasicKept(c, run[k - 1], run[k]);
    }
  }

  lemma {:induction false} RunAimed(c: Config, run: seq<State>, k: nat)
    requires c.mod > 0 && Bounded(c, run, c.mod - 1) && k < |run|
    ensures Aimed(run[k])
  {
    if k > 0 {
      RunBasic(c, run, k - 1);
      RunBasic(c, run, k);
      RunAimed(c, run, k - 1);
      assert StepAt(c, run, k - 1);
      AimedKept(c, run[k - 1], run[k]);
    }
  }

  ghost predicate SomeoneRegistered(s: State) {
    exists w :: 0 <= w < |s.th| && Registered(s.th[w].pc)
  }

  /**
    A signal is skipped exactly when no thread is registered as waiting; otherwise it is sent, by the thread that
    holds the lock.
   */
  lemma SkippedIffNobody(c: Config, run: seq<State>, k: nat, w: nat, s': State, u: nat)
    requires Run(c, run) && k < |run|
    ensures run[k].waiters > 0 <==> SomeoneRegistered(run[k])
    ensures 0 <= run[k].waiters <= |run[k].th|
    ensures w < |run[k].th| && run[k].th[w].pc == Holding && SignalStep(c, run[k], s', w, u) ==>
              && run[k].lock == w
              && s' == if SomeoneRegistered(run[k]) then Put(run[k], w, run[k].th[w].(pc := SBump)) else run[k]
  {
    RunBasic(c, run, k);
    CountNone(run[k].th);
    if w < |run[k].th| { assert ThreadOk(c, run[k], w); }
    if v :| 0 <= v < |run[k].th| && Registered(run[k].th[v].pc) { CountSome(run[k].th, v); }
  }

  /**
    The futex call of a waiter puts it to sleep exactly if no signal has been sent since it read the word, given that
    fewer were sent than the word counts; else it goes on to take the lock again.
   */
  lemma SleepsIffUnsignaled(c: Config, run: seq<State>, k: nat, w: nat, s': State)
    requires c.mod > 0 && Bounded(c, run, c.mod - 1) && k < |run|
    requires w < |run[k].th| && run[k].th[w].pc == Futex && WaitStep(c, run[k], s', w)
    ensures |s'.th| == |run[k].th|
    ensures s'.th[w].pc == if run[k].th[w].at == run[k].bumps then Asleep else Relock
  {
    RunBasic(c, run, k);
    assert Window(run[k], c.mod - 1);
    Compared(c, run[k], w);
  }

  /** The steps that a thread has left until it is back from `cv_wait` or `cv_signal`. */
  function StepsLeft(pc: Pc): nat {
    match pc
    case WCount => 6
    case WUnlock => 5
    case Futex => 4
    case Asleep => 3
    case Relock => 2
    case WLeave => 1
    case SBump => 2
    case SWake => 1
    case _ => 0
  }

  predicate OwnStep(c: Config, s: State, s': State, w: nat, u: nat) {
    LockStep(s, s', w) || UnlockStep(s, s', w) || WaitStep(c, s, s', w) || SignalStep(c, s, s', w, u)
  }

  /**
    A thread inside a call always has a step, unless it is asleep or waits for the lock, and every step brings it
    closer to its return.
   */
  lemma CallsEnd(c: Config, run: seq<State>, k: nat, w: nat)
    requires Run(c, run) && k < |run| && w < |run[k].th| && run[k].th[w].pc != Out && run[k].th[w].pc != Holding
    ensures run[k].th[w].pc != Asleep && (run[k].th[w].pc == Relock ==> run[k].lock == FREE) ==>
              exists s', u: nat :: OwnStep(c, run[k], s', w, u)
    ensures forall s', u: nat :: OwnStep(c, run[k], s', w, u) ==>
              |s'.th| == |run[k].th| && StepsLeft(s'.th[w].pc) < StepsLeft(run[k].th[w].pc)
  {
    RunBasic(c, run, k);
    var s, t := run[k], run[k].th[w];
    assert ThreadOk(c, s, w);
    match t.pc
    case WCount => assert OwnStep(c, s, Put(s, w, t.(pc := WUnlock)).(waiters := s.waiters + 1), w, 0);
    case WUnlock => assert OwnStep(c, s, Put(s, w, t.(pc := Futex)).(lock := FREE), w, 0);
    case Futex => assert OwnStep(c, s, Put(s, w, t.(pc := if s.word == t.snap then Asleep else Relock)), w, 0);
    case Relock => assert s.lock == FREE ==> OwnStep(c, s, Put(s, w, t.(pc := WLeave)).(lock := w), w, 0);
    case WLeave => assert OwnStep(c, s, Put(s, w, t.(pc := Holding)).(waiters := s.waiters - 1), w, 0);
    case SBump => SignalSteps(c, s, w);
    case SWake => SignalSteps(c, s, w);
    case _ =>
  }

  lemma SignalSteps(c: Config, s: State, w: nat)
    requires c.mod > 0 && w < |s.th| && (s.th[w].pc.SBump? || s.th[w].pc.SWake?)
    ensures exists s', u: nat :: OwnStep(c, s, s', w, u)
  {
    var t := s.th[w];
    if t.pc.SBump? {
      var s' := Put(s, w, t.(pc := SWake))
        .(word := (s.word + 1) % c.mod, bumps := s.bumps + 1, targets := DueSet(s.th));
      assert OwnStep(c, s, s', w, 0);
    } else if v :| 0 <= v < |s.th| && s.th[v].pc.Asleep? {
      assert OwnStep(c, s, Put(Put(s, w, t.(pc := Holding)), v, s.th[v].(pc := Relock)), w, v);
    } else {
      assert OwnStep(c, s, Put(s, w, t.(pc := Holding)), w, 0);
    }
  }

  lemma {:induction false} CountNone(th: seq<Thread>)
    ensures Count(th) <= |th|
    ensures Count(th) > 0 ==> exists w :: 0 <= w < |th| && Registered(th[w].pc)
  {
    if th != [] {
      var init := th[..|th| - 1];
      CountNone(init);
      if Count(init) > 0 {
        var w :| 0 <= w < |init| && Registered(init[w].pc);
        assert Registered(th[w].pc);
      }
    }
  }

  /** A signal that finds threads on their way to sleep, before the futex call or in it, leaves one of them running. */
  lemma SignalReaches(c: Config, run: seq<State>, k: nat, p: nat, u: nat)
    requires c.mod > 0 && Bounded(c, run, c.mod - 1) && k + 1 < |run|
    requires SignalStep(c, run[k], run[k + 1], p, u) && run[k].th[p].pc.SWake? && run[k].targets != {}
    ensures exists v: nat :: v in run[k].targets && Runnable(run[k + 1], v)
  {
    RunBasic(c, run, k);
    RunAimed(c, run, k);
    var s := run[k];
    assert ThreadOk(c, s, p);
    if v: nat :| v < |s.th| && s.th[v].pc.Asleep? {
      assert u in s.targets && Runnable(run[k + 1], u);
    } else {
      var v: nat :| v in s.targets;
      assert Runnable(run[k + 1], v);
    }
  }

  /**
    The one waiter is on the way to sleep and no signal has been sent to it: it waits in the sense of an abstract
    condition variable.
   */
  predicate Waiting(s: State) {
    |s.th| > 0 && Due(s.th[0]) && s.th[0].at == s.bumps
  }

  /** A step of the abstract condition variable. */
  predicate AbstractStep(s: State, s': State)
    requires |s.th| == |s'.th| > 0
  {
    && (Waiting(s') && !Waiting(s) ==> UnlockStep(s, s', 0) && s.th[0].pc.WUnlock?)
    && (Waiting(s) && !Waiting(s') ==> s'.bumps == s.bumps + 1 || Spurious(s, s', 0))
    && (Due(s.th[0]) && !Due(s'.th[0]) ==> !Waiting(s) || Spurious(s, s', 0))
    && (s'.bumps != s.bumps ==> !Waiting(s'))
  }

  /**
    With one waiter the condition variable is the abstract one, where to wait is to give back the lock and to
    begin waiting in one step, a signal ends the waiting in one step, and the waiter goes
    on only when it no longer waits, or spuriously.
   */
  lemma RefinesAbstract(c: Config, run: seq<State>, k: nat)
    requires c.solo && c.mod > 0 && Bounded(c, run, c.mod - 1) && k + 1 < |run| && |run[0].th| > 0
    ensures |run[k].th| == |run[k + 1].th| > 0 && AbstractStep(run[k], run[k + 1]) && NoMissed(run[k])
  {
    RunBasic(c, run, k);
    RunMissed(c, run, k);
    var s, s' := run[k], run[k + 1];
    assert StepAt(c, run, k);
    BasicKept(c, s, s');
    if w: nat, u: nat :| SignalStep(c, s, s', w, u) {
      SignalIsAbstract(c, s, s', w, u);
    } else {
      var w: nat :| WaitStep(c, s, s', w) || LockStep(s, s', w) || UnlockStep(s, s', w) || Spurious(s, s', w);
      OthersAreAbstract(c, s, s', w);
    }
  }

  lemma SignalIsAbstract(c: Config, s: State, s': State, w: nat, u: nat)
    requires Basic(c, s) && SignalStep(c, s, s', w, u) && |s.th| == |s'.th| > 0
    ensures AbstractStep(s, s')
  {
    assert ThreadOk(c, s, w) && ThreadOk(c, s, 0);
  }

  lemma OthersAreAbstract(c: Config, s: State, s': State, w: nat)
    requires c.solo && Basic(c, s) && Window(s, c.mod - 1) && |s.th| == |s'.th| > 0
    requires WaitStep(c, s, s', w) || LockStep(s, s', w) || UnlockStep(s, s', w) || Spurious(s, s', w)
    ensures AbstractStep(s, s')
  {
    assert ThreadOk(c, s, w) && ThreadOk(c, s, 0);
    if s.th[w].pc.Futex? { Compared(c, s, w); }
  }

  lemma {:induction false} RunMissed(c: Config, run: seq<State>, k: nat)
    requires c.solo && c.mod > 0 && Bounded(c, run, c.mod - 1) && k < |run|
    ensures NoMissed(run[k])
  {
    if k > 0 {
      RunBasic(c, run, k - 1);
      RunMissed(c, run, k - 1);
      assert StepAt(c, run, k - 1);
      MissedKept(c, run[k - 1], run[k]);
    }
  }

  // ------------------------------------------------- as many signals as the word counts

  /** Thread 0 is about to call futex, and thread 1 has sent b signals. */
  function Calm(c: Config, b: nat): State
    requires c.mod > 0
  {
    State(b % c.mod, 1, FREE, [Thread(Futex, 0, 0), Thread(Out, 0, 0)], b, if b == 0 then {} else {0})
  }

  lemma Extend(c: Config, run: seq<State>, limit: nat, s: State)
    requires Bounded(c, run, limit) && Next(c, run[|run| - 1], s) && Window(s, limit)
    ensures Bounded(c, run + [s], limit)
  {
    var r := run + [s];
    forall k | 0 <= k < |r| - 1 ensures StepAt(c, r, k) { if k < |run| - 1 { assert StepAt(c, run, k); } }
  }

  lemma GoToFutex(c: Config, limit: nat) returns (run: seq<State>)
    requires c.mod > 0
    ensures Bounded(c, run, limit) && run[|run| - 1] == Calm(c, 0)
  {
    Modular.Unique(0, c.mod, 0, 0);
    var out := Thread(Out, 0, 0);
    var s0 := State(0, 0, FREE, [out, out], 0, {});
    var s1 := s0.(lock := 0, th := [Thread(Holding, 0, 0), out]);
    var s2 := s1.(th := [Thread(WCount, 0, 0), out]);
    var s3 := s2.(waiters := 1, th := [Thread(WUnlock, 0, 0), out]);
    assert LockStep(s0, s1, 0) && WaitStep(c, s1, s2, 0) && WaitStep(c, s2, s3, 0) && UnlockStep(s3, Calm(c, 0), 0);
    run := [s0];
    Extend(c, run, limit, s1);
    Extend(c, run + [s1], limit, s2);
    Extend(c, run + [s1] + [s2], limit, s3);
    Extend(c, run + [s1] + [s2] + [s3], limit, Calm(c, 0));
    run := run + [s1] + [s2] + [s3] + [Calm(c, 0)];
  }

  lemma OneSignal(c: Config, run: seq<State>, limit: nat, b: nat) returns (longer: seq<State>)
    requires c.mod > 0 && Bounded(c, run, limit) && run[|run| - 1] == Calm(c, b) && b < limit
    ensures Bounded(c, longer, limit) && longer[|longer| - 1] == Calm(c, b + 1)
  {
    Modular.Next(b, c.mod);
    var waiter := Thread(Futex, 0, 0);
    var s0 := Calm(c, b);
    var s1 := s0.(lock := 1, th := [waiter, Thread(Holding, 0, 0)]);
    var s2 := s1.(th := [waiter, Thread(SBump, 0, 0)]);
    var s3 := s2.(th := [waiter, Thread(SWake, 0, 0)], word := (b + 1) % c.mod, bumps := b + 1, targets := {0});
    var s4 := s3.(th := [waiter, Thread(Holding, 0, 0)]);
    assert DueSet(s2.th) == {0};
    assert LockStep(s0, s1, 1) && SignalStep(c, s1, s2, 1, 0) && SignalStep(c, s2, s3, 1, 0);
    assert SignalStep(c, s3, s4, 1, 0) && UnlockStep(s4, Calm(c, b + 1), 1);
    Extend(c, run, limit, s1);
    Extend(c, run + [s1], limit, s2);
    Extend(c, run + [s1] + [s2], limit, s3);
    Extend(c, run + [s1] + [s2] + [s3], limit, s4);
    Extend(c, run + [s1] + [s2] + [s3] + [s4], limit, Calm(c, b + 1));
    longer := run + [s1] + [s2] + [s3] + [s4] + [Calm(c, b + 1)];
  }

  lemma {:induction false} ManySignals(c: Config, limit: nat, b: nat) returns (run: seq<State>)
    requires c.mod > 0 && b <= limit
    ensures Bounded(c, run, limit) && run[|run| - 1] == Calm(c, b)
  {
    run := GoToFutex(c, limit);
    if b > 0 {
      var shorter := ManySignals(c, limit, b - 1);
      run := OneSignal(c, shorter, limit, b - 1);
    }
  }

  /** After as many signals as the word counts the waiter goes to sleep, and nobody is about to wake it. */
  lemma WordComesRound(c: Config, limit: nat) returns (run: seq<State>)
    requires 0 < c.mod <= limit
    ensures Bounded(c, run, limit) && !NoMissed(run[|run| - 1])
  {
    run := ManySignals(c, limit, c.mod);
    var s := Calm(c, c.mod);
    Modular.Unique(c.mod, c.mod, 1, 0);
    var s' := s.(th := [Thread(Asleep, 0, 0), Thread(Out, 0, 0)]);
    assert WaitStep(c, s, s', 0);
    Extend(c, run, limit, s');
    run := run + [s'];
    assert s'.th[0].pc.Asleep? && !Sending(s');
  }

  /**
    No signal to the one waiter is ever missed if and only if fewer signals than the word counts fall into its window.
   */
  lemma NoneMissedIffWordSuffices(c: Config, limit: nat)
    requires c.solo && c.mod > 0
    ensures (forall run, k: nat :: Bounded(c, run, limit) && k < |run| ==> NoMissed(run[k])) <==> limit < c.mod
  {
    if limit < c.mod {
      forall run, k: nat | Bounded(c, run, limit) && k < |run| ensures NoMissed(run[k]) {
        forall j | 0 <= j < |run| ensures Window(run[j], c.mod - 1) { assert Window(run[j], limit); }
        RunMissed(c, run, k);
      }
    } else {
      var run := WordComesRound(c, limit);
    }
  }
}
