/**
  The ticket lock of include/ticketlock.h as a step machine: one word holds the owner counter in its
  low half and the next counter in its high half; each half counts modulo `half`, which is
  2^32, or 2^16 in the narrow layout.
 */
module TicketLock {
  import Modular

  datatype Pc =
    | Idle
    | Compare   // 49: the two halves of the word that the add returned
    | Spin      // 50: its next half and the current owner half
    | Critical  // between lock and unlock

  /**
    `mine` is the word that the add returned; `ticket` and `seen` are history: the number of adds and of releases
    before it.
   */
  datatype Thread = Thread(pc: Pc, mine: nat, ticket: nat, seen: nat)

  /** History: `order` lists the threads by their adds, `entered` by their entries, `served` counts the releases. */
  datatype State = State(data: nat, th: seq<Thread>, order: seq<nat>, entered: seq<nat>, served: nat)

  function Owner(half: nat, data: nat): nat
    requires half > 0
  {
    data % half
  }

  function Ticket(half: nat, data: nat): nat
    requires half > 0
  {
    data / half
  }

  predicate Init(half: nat, threads: nat, s: State) {
    && half > 0 && |s.th| == threads && (forall w :: 0 <= w < threads ==> s.th[w].pc == Idle)
    && s.data == 0 && s.order == [] && s.entered == [] && s.served == 0
  }

  function Put(s: State, w: nat, t: Thread): State
    requires w < |s.th|
  {
    s.(th := s.th[w := t])
  }

  /** Line 48 adds to the whole word, line 64 to its low half alone. */
  predicate ThreadStep(half: nat, s: State, s': State, w: nat) {
    && half > 0 && half * half > 0 && w < |s.th|
    && var t := s.th[w];
    match t.pc
    case Idle =>
      s' == Put(s, w, Thread(Compare, s.data, |s.order|, s.served))
              .(data := (s.data + half) % (half * half), order := s.order + [w])
    case Compare =>
      s' == if Ticket(half, t.mine) != Owner(half, t.mine) then Put(s, w, t.(pc := Spin)) else Enter(s, w)
    case Spin =>
      s' == if Ticket(half, t.mine) != Owner(half, s.data) then s else Enter(s, w)
    case Critical =>
      s' == Put(s, w, t.(pc := Idle))
              .(data := (Owner(half, s.data) + 1) % half + half * Ticket(half, s.data), served := s.served + 1)
  }

  function Enter(s: State, w: nat): State
    requires w < |s.th|
  {
    Put(s, w, s.th[w].(pc := Critical)).(entered := s.entered + [w])
  }

  ghost predicate Next(half: nat, s: State, s': State) {
    exists w: nat :: ThreadStep(half, s, s', w)
  }

  ghost predicate StepAt(half: nat, run: seq<State>, k: nat)
    requires k < |run| - 1
  {
    Next(half, run[k], run[k + 1])
  }

  ghost predicate Run(half: nat, threads: nat, run: seq<State>) {
    && |run| > 0
    && Init(half, threads, run[0])
    && forall k :: 0 <= k < |run| - 1 ==> StepAt(half, run, k)
  }

  // ------------------------------------------------------------ the packed word

  /** The word is made of two counters that count adds and releases, each modulo `half`. */
  predicate WordOk(half: nat, s: State) {
    && half > 0 && 0 <= s.data < half * half
    && Ticket(half, s.data) == |s.order| % half && Owner(half, s.data) == s.served % half
  }

  lemma Halves(half: nat, owner: nat, ticket: nat)
    requires owner < half && ticket < half
    ensures owner + half * ticket < half * half
    ensures Owner(half, owner + half * ticket) == owner && Ticket(half, owner + half * ticket) == ticket
  {
    Modular.Unique(owner + half * ticket, half, ticket, owner);
    Modular.Gap(half, ticket, half);
  }

  lemma Split(half: nat, data: nat)
    requires half > 0 && data < half * half
    ensures data == Owner(half, data) + half * Ticket(half, data)
    ensures Owner(half, data) < half && Ticket(half, data) < half
  {
    if Ticket(half, data) >= half { MulMonotone(half, half, Ticket(half, data)); }
  }

  lemma MulMonotone(a: nat, b: nat, c: nat)
    requires b <= c
    ensures a * b <= a * c
  {
    assert a * (c - b) == a * c - a * b;
  }

  /** The add of one to the high half wraps around at the end of the word and leaves the low half alone. */
  lemma AddToHigh(half: nat, data: nat)
    requires half > 0 && data < half * half
    ensures half * half > 0
    ensures var d := (data + half) % (half * half);
            d < half * half && Owner(half, d) == Owner(half, data) && Ticket(half, d) == (Ticket(half, data) + 1) % half
  {
    Split(half, data);
    var o, t := Owner(half, data), Ticket(half, data);
    var t' := if t + 1 == half then 0 else t + 1;
    Halves(half, o, t');
    assert half * (t + 1) == half * t + half;
    if t + 1 == half {
      Modular.Unique(t + 1, half, 1, 0);
      Modular.Unique(data + half, half * half, 1, o);
    } else {
      Modular.Unique(t + 1, half, 0, t + 1);
      Modular.Unique(data + half, half * half, 0, o + half * t');
    }
  }

  lemma WordKept(half: nat, s: State, s': State)
    requires WordOk(half, s) && Next(half, s, s')
    ensures WordOk(half, s')
  {
    var w: nat :| ThreadStep(half, s, s', w);
    if s.th[w].pc.Idle? {
      AddToHigh(half, s.data);
      Modular.Next(|s.order|, half);
    } else if s.th[w].pc.Critical? {
      Split(half, s.data);
      Modular.Next(s.served, half);
      Halves(half, (s.served + 1) % half, Ticket(half, s.data));
    }
  }

  /**
    In every run the word is the two counters, whatever the number of threads: no carry from one half into the other.
   */
  lemma {:induction false} NoCarry(half: nat, threads: nat, run: seq<State>, k: nat)
    requires Run(half, threads, run) && k < |run|
    ensures WordOk(half, run[k])
  {
    if k == 0 {
      Halves(half, 0, 0);
      Modular.Unique(0, half, 0, 0);
    } else {
      NoCarry(half, threads, run, k - 1);
      assert StepAt(half, run, k - 1);
      WordKept(half, run[k - 1], run[k]);
    }
  }

  // ---------------------------------------------------- order and mutual exclusion

  /** The tickets that are out belong to different threads, each of which still has to release. */
  predicate TicketOk(s: State, k: nat)
    requires s.served <= k < |s.order|
  {
    s.order[k] < |s.th| && s.th[s.order[k]].pc != Idle && s.th[s.order[k]].ticket == k
  }

  predicate ThreadOk(half: nat, s: State, w: nat)
    requires w < |s.th| && half > 0
  {
    var t := s.th[w];
    t.pc != Idle ==>
      && t.seen <= s.served <= t.ticket < |s.order| && s.order[t.ticket] == w && t.ticket < t.seen + half
      && Ticket(half, t.mine) == t.ticket % half && Owner(half, t.mine) == t.seen % half
      && (t.pc == Critical ==> t.ticket == s.served)
  }

  /** The thread whose turn it is has entered. */
  predicate Inside(s: State) {
    s.served < |s.order| && s.order[s.served] < |s.th| && s.th[s.order[s.served]].pc == Critical
  }

  predicate Inv(half: nat, s: State) {
    && WordOk(half, s) && |s.th| <= half && s.served <= |s.order|
    && (forall k :: s.served <= k < |s.order| ==> TicketOk(s, k))
    && (forall w :: 0 <= w < |s.th| ==> ThreadOk(half, s, w))
    && |s.entered| == s.served + (if Inside(s) then 1 else 0) && s.entered <= s.order
  }

  function Below(n: nat): (r: set<nat>)
    ensures |r| == n && forall i: nat :: i in r <==> i < n
  {
    if n == 0 then {} else Below(n - 1) + {n - 1}
  }

  /** Distinct threads, none of them w, are fewer than all threads. */
  lemma Pigeonhole(q: seq<nat>, n: nat, w: nat)
    requires w < n && forall i :: 0 <= i < |q| ==> q[i] < n && q[i] != w
    requires forall i, j :: 0 <= i < j < |q| ==> q[i] != q[j]
    ensures |q| < n
  {
    var used := set i | 0 <= i < |q| :: q[i];
    SizeOfSeq(q, used);
    var rest := Below(n) - (used + {w});
    assert Below(n) == used + {w} + rest;
  }

  lemma {:induction false} SizeOfSeq(q: seq<nat>, used: set<nat>)
    requires forall i, j :: 0 <= i < j < |q| ==> q[i] != q[j]
    requires used == set i | 0 <= i < |q| :: q[i]
    ensures |used| == |q|
  {
    if |q| > 0 {
      var init := q[..|q| - 1];
      var rest := set i | 0 <= i < |init| :: init[i];
      SizeOfSeq(init, rest);
      assert used == rest + {q[|q| - 1]} by {
        forall x | x in used ensures x in rest + {q[|q| - 1]} {
          var i :| 0 <= i < |q| && q[i] == x;
          if i < |q| - 1 { assert init[i] == x; }
        }
        forall x | x in rest ensures x in used { var i :| 0 <= i < |init| && init[i] == x; assert q[i] == x; }
      }
    }
  }

  lemma TakeKeeps(half: nat, s: State, s': State, w: nat)
    requires Inv(half, s) && WordOk(half, s') && ThreadStep(half, s, s', w) && s.th[w].pc == Idle
    ensures Inv(half, s')
  {
    var q := s.order[s.served..];
    forall i | 0 <= i < |q| ensures q[i] < |s.th| && q[i] != w && s.th[q[i]].ticket == s.served + i {
      assert TicketOk(s, s.served + i);
    }
    Pigeonhole(q, |s.th|, w);
    forall k | s'.served <= k < |s'.order| ensures TicketOk(s', k) { if k < |s.order| { assert TicketOk(s, k); } }
    forall u | 0 <= u < |s.th| ensures ThreadOk(half, s', u) { assert ThreadOk(half, s, u); }
    assert Inside(s') == Inside(s) by { if s.served < |s.order| { assert TicketOk(s, s.served); } }
  }

  /** Whoever passes the comparison is the thread whose turn it is. */
  lemma PassedInTurn(half: nat, s: State, w: nat)
    requires WordOk(half, s) && w < |s.th| && ThreadOk(half, s, w)
    requires
      || (s.th[w].pc == Compare && Ticket(half, s.th[w].mine) == Owner(half, s.th[w].mine))
      || (s.th[w].pc == Spin && Ticket(half, s.th[w].mine) == Owner(half, s.data))
    ensures s.th[w].ticket == s.served
  {
    Modular.Same(half, if s.th[w].pc == Compare then s.th[w].seen else s.served, s.th[w].ticket);
  }

  lemma EnterKeeps(half: nat, s: State, s': State, w: nat)
    requires Inv(half, s) && w < |s.th| && (s.th[w].pc == Compare || s.th[w].pc == Spin) && s.th[w].ticket == s.served
    requires s' == Enter(s, w)
    ensures Inv(half, s')
  {
    assert ThreadOk(half, s, w);
    forall k | s'.served <= k < |s'.order| ensures TicketOk(s', k) { assert TicketOk(s, k); }
    forall u | 0 <= u < |s.th| ensures ThreadOk(half, s', u) { assert ThreadOk(half, s, u); }
  }

  lemma SpinKeeps(half: nat, s: State, s': State, w: nat)
    requires Inv(half, s) && w < |s.th| && s.th[w].pc == Compare && s' == Put(s, w, s.th[w].(pc := Spin))
    ensures Inv(half, s')
  {
    forall k | s'.served <= k < |s'.order| ensures TicketOk(s', k) { assert TicketOk(s, k); }
    forall u | 0 <= u < |s.th| ensures ThreadOk(half, s', u) { assert ThreadOk(half, s, u); }
  }

  lemma ReleaseKeeps(half: nat, s: State, s': State, w: nat)
    requires Inv(half, s) && WordOk(half, s') && ThreadStep(half, s, s', w) && s.th[w].pc == Critical
    ensures Inv(half, s')
  {
    assert ThreadOk(half, s, w);
    forall k | s'.served <= k < |s'.order| ensures TicketOk(s', k) { assert TicketOk(s, k); }
    forall u | 0 <= u < |s.th| ensures ThreadOk(half, s', u) { assert ThreadOk(half, s, u); }
    if s'.served < |s'.order| { assert TicketOk(s, s'.served) && ThreadOk(half, s, s.order[s'.served]); }
  }

  lemma NextKeeps(half: nat, s: State, s': State)
    requires Inv(half, s) && Next(half, s, s')
    ensures Inv(half, s')
  {
    WordKept(half, s, s');
    var w: nat :| ThreadStep(half, s, s', w);
    assert ThreadOk(half, s, w);
    match s.th[w].pc
    case Idle => TakeKeeps(half, s, s', w);
    case Critical => ReleaseKeeps(half, s, s', w);
    case Compare =>
      if s' == Enter(s, w) { PassedInTurn(half, s, w); EnterKeeps(half, s, s', w); } else { SpinKeeps(half, s, s', w); }
    case Spin =>
      if s' != s { PassedInTurn(half, s, w); EnterKeeps(half, s, s', w); }
  }

  lemma {:induction false} RunKeeps(half: nat, threads: nat, run: seq<State>, k: nat)
    requires Run(half, threads, run) && threads <= half && k < |run|
    ensures Inv(half, run[k]) && |run[k].th| == threads
  {
    if k == 0 {
      NoCarry(half, threads, run, 0);
    } else {
      RunKeeps(half, threads, run, k - 1);
      assert StepAt(half, run, k - 1);
      NextKeeps(half, run[k - 1], run[k]);
    }
  }

  // ------------------------------------------------------------------ theorems

  predicate Exclusive(s: State) {
    forall w, u :: 0 <= w < u < |s.th| ==> !(s.th[w].pc == Critical && s.th[u].pc == Critical)
  }

  /** Threads enter in the order of their adds. */
  lemma EntersInOrder(half: nat, threads: nat, run: seq<State>, k: nat)
    requires Run(half, threads, run) && threads <= half && k < |run|
    ensures run[k].entered <= run[k].order && Exclusive(run[k])
  {
    RunKeeps(half, threads, run, k);
    forall w, u | 0 <= w < u < |run[k].th| && run[k].th[w].pc == Critical ensures run[k].th[u].pc != Critical {
      assert ThreadOk(half, run[k], w) && ThreadOk(half, run[k], u);
    }
  }

  /**
    While tickets are out and nobody is inside, the thread in turn enters with its next step, or with the one after a
    failed comparison.
   */
  lemma SomeoneEnters(half: nat, threads: nat, run: seq<State>, k: nat)
    requires Run(half, threads, run) && threads <= half && k < |run|
    requires run[k].served < |run[k].order| && !Inside(run[k])
    ensures var s, w := run[k], run[k].order[run[k].served];
            w < |s.th| &&
            (ThreadStep(half, s, Enter(s, w), w) ||
             var s1 := Put(s, w, s.th[w].(pc := Spin));
             ThreadStep(half, s, s1, w) && ThreadStep(half, s1, Enter(s1, w), w))
  {
    RunKeeps(half, threads, run, k);
    var s, w := run[k], run[k].order[run[k].served];
    assert TicketOk(s, s.served) && ThreadOk(half, s, w);
  }

  // -------------------------------------------------------- too many threads

  /** The state after threads 0 to k - 1 have taken their tickets. */
  function Crowd(half: nat, threads: nat, k: nat): State
    requires half > 0
  {
    State(half * (k % half),
          seq(threads, w requires 0 <= w =>
                         if w < k then Thread(Compare, half * (w % half), w, 0) else Thread(Idle, 0, 0, 0)),
          seq(k, i => i), [], 0)
  }

  lemma CrowdGrows(half: nat, threads: nat, k: nat)
    requires half > 0 && k < threads
    ensures Next(half, Crowd(half, threads, k), Crowd(half, threads, k + 1))
  {
    var s, s' := Crowd(half, threads, k), Crowd(half, threads, k + 1);
    Halves(half, 0, k % half);
    AddToHigh(half, s.data);
    Modular.Next(k, half);
    Split(half, (s.data + half) % (half * half));
    assert s'.order == s.order + [k];
    assert s'.th == s.th[k := Thread(Compare, s.data, k, 0)];
    assert ThreadStep(half, s, s', k);
  }

  /** With more threads than a half can count, the first thread and the one that wraps around get in together. */
  lemma CrowdCollides(half: nat, threads: nat) returns (run: seq<State>)
    requires half > 0 && threads > half
    ensures Run(half, threads, run) && !Exclusive(run[|run| - 1])
  {
    var crowd := seq(half + 2, k requires 0 <= k => Crowd(half, threads, k));
    var s := Crowd(half, threads, half + 1);
    var one, two := Enter(s, 0), Enter(Enter(s, 0), half);
    Modular.Unique(0, half, 0, 0);
    Modular.Unique(half, half, 1, 0);
    Halves(half, 0, 0);
    assert half * half > 0 by { Modular.AtLeastOnce(half, half); }
    assert ThreadStep(half, s, one, 0) && ThreadStep(half, one, two, half);
    run := crowd + [one, two];
    forall k | 0 <= k < |run| - 1 ensures StepAt(half, run, k) {
      if k <= half { CrowdGrows(half, threads, k); }
    }
    assert two.th[0].pc == Critical && two.th[half].pc == Critical;
  }

  /** The lock excludes in every run if and only if a half can count the threads. */
  lemma ExclusiveIffCountable(half: nat, threads: nat)
    requires half > 0
    ensures (forall run, k: nat :: Run(half, threads, run) && k < |run| ==> Exclusive(run[k])) <==> threads <= half
  {
    if threads <= half {
      forall run, k: nat | Run(half, threads, run) && k < |run| ensures Exclusive(run[k]) {
        EntersInOrder(half, threads, run, k);
      }
    } else {
      var run := CrowdCollides(half, threads);
    }
  }
}
