/**
  The lock-free evaluation at the start of `pgm_wait_for_tokens` is not one atomic read: the
  scan of 3353 and the reads of `nr_terminate_signals` at 3360 and 3361 are separate steps.
  A source that completes and then terminates in between makes its consumer leave with
  the token unread. This is the smallest such run; `TokenEarly` has one for every pipeline.
 */
module TokenRace {
  import opened TokenModel
  import R = TokenRounds

  /** Two nodes, one unit edge from node 0 to node 1. */
  const PAIR: Graph := Graph([Edge(0, 1, false, 1, 1, 1, 0, 0)], [[], [0]], [[0], []])

  /** Node 0 completes once, then terminates; node 1 waits and completes. */
  const RACE: Config := Config(PAIR, Loop(1), false)

  const FRESH: Thread := Thread(User, 0, 0, 0, false, [], 0, 0, 0, 0, false)

  const START: State := State([Flow(0, 0, 0, 0, false)], [0, 0], [FREE, FREE], [FRESH, FRESH])

  /** Node 1 after its scan, about to read `nr_terminate_signals`. */
  const SCANNED: Thread := FRESH.(pc := QuickTest1, i := 1)

  lemma PairGraph()
    ensures GraphOk(PAIR)
  {
    assert InsOk(PAIR, 0) && InsOk(PAIR, 1);
    assert OutsOk(PAIR, 0) && OutsOk(PAIR, 1);
    assert EdgeOk(PAIR, 0) && 0 in PAIR.ins[1] && 0 in PAIR.outs[0];
  }

  lemma PairOk()
    ensures GraphOk(PAIR) && Init(PAIR, START) && ForwardIns(PAIR, [0]) == 1
  {
    PairGraph();
    assert ForwardIns(PAIR, []) == 0 && [0][..0] == [];
  }

  ghost predicate Reaches(run: seq<State>, s: State) {
    Run(RACE, run) && run[|run| - 1] == s
  }

  lemma Go(run: seq<State>, s: State, s': State, n: nat) returns (run': seq<State>)
    requires Reaches(run, s) && ThreadStep(RACE, s, s', n)
    ensures Reaches(run', s')
  {
    R.Extend(RACE, run, s', n);
    run' := run + [s'];
  }

  /** Node 1 enters `pgm_wait` and finds its edge not ready. */
  lemma Scans() returns (run: seq<State>)
    ensures Reaches(run, START.(th := [FRESH, SCANNED]))
  {
    PairOk();
    var s := AfterWaitCall(RACE, START, 1);
    run := Go([START], START, s, 1);
    var s' := AfterQuick(PAIR, s, 1);
    run := Go(run, s, s', 1);
    s := AfterQuick(PAIR, s', 1);
    run := Go(run, s', s, 1);
    assert s.th == [FRESH, SCANNED];
  }

  /** Thread 0 back from `pgm_complete`. */
  const COMPLETED: Thread := FRESH.(i := 1, nr := 1, fwd := 1, target := 1, completed := 1)

  /** The state while node 0 is the only one to move. */
  function Solo(f: Flow, terms: int, lock: int, t: Thread): State {
    State([f], [0, terms], [FREE, lock], [t, SCANNED])
  }

  const TOKEN: Flow := Flow(1, 0, 1, 0, false)

  /** Node 0 calls `pgm_complete`. */
  lemma Calls() returns (run: seq<State>)
    ensures Reaches(run, AfterCall(START.(th := [FRESH, SCANNED]), 0, false))
  {
    PairOk();
    run := Scans();
    var s0 := START.(th := [FRESH, SCANNED]);
    run := Go(run, s0, AfterCall(s0, 0, false), 0);
  }

  /** Node 0 delivers the token; node 1 was not ready before, so it is to be woken. */
  lemma Delivers() returns (run: seq<State>)
    ensures Reaches(run, Solo(TOKEN, 0, FREE, FRESH.(pc := Produce, i := 1, wake := [1])))
  {
    PairOk();
    run := Calls();
    var s1 := AfterCall(START.(th := [FRESH, SCANNED]), 0, false);
    var s2 := AfterSend(PAIR, s1, 0, 0);
    run := Go(run, s1, s2, 0);
    assert s2.th[0].wake == [1] && s2.es == [TOKEN];
    assert s2.th == [FRESH.(pc := Produce, i := 1, wake := [1]), SCANNED];
  }

  lemma Sends() returns (run: seq<State>)
    ensures Reaches(run, Solo(TOKEN, 0, FREE, FRESH.(pc := WakeNext, i := 1, wake := [1])))
  {
    PairOk();
    run := Delivers();
    var s2 := Solo(TOKEN, 0, FREE, FRESH.(pc := Produce, i := 1, wake := [1]));
    var s3 := Set(s2, 0, s2.th[0].(pc := WakeNext));
    run := Go(run, s2, s3, 0);
    assert s3.th == [FRESH.(pc := WakeNext, i := 1, wake := [1]), SCANNED];
  }

  /** Node 0 locks node 1 and sees that its edge is ready. */
  lemma Examines() returns (run: seq<State>)
    ensures Reaches(run, Solo(TOKEN, 0, 0, COMPLETED.(pc := WakeSignal, completed := 0)))
  {
    PairOk();
    run := Sends();
    var s0 := Solo(TOKEN, 0, FREE, FRESH.(pc := WakeNext, i := 1, wake := [1]));
    var s1 := AfterWake(PAIR, s0, 0);
    run := Go(run, s0, s1, 0);
    assert s1.th[0].wake == [];
    assert s1.th == [FRESH.(pc := WakeScan, target := 1), SCANNED] && s1.lock == [FREE, 0];
    var s2 := AfterWake(PAIR, s1, 0);
    run := Go(run, s1, s2, 0);
    var s3 := AfterWake(PAIR, s2, 0);
    run := Go(run, s2, s3, 0);
    assert s3.th == [COMPLETED.(pc := WakeSignal, completed := 0), SCANNED];
  }

  /** Node 0 finds nobody asleep, unlocks and returns. */
  lemma Completes() returns (run: seq<State>)
    ensures Reaches(run, Solo(TOKEN, 0, FREE, COMPLETED))
  {
    PairOk();
    run := Examines();
    var s0 := Solo(TOKEN, 0, 0, COMPLETED.(pc := WakeSignal, completed := 0));
    var s1 := AfterWake(PAIR, s0, 0);
    run := Go(run, s0, s1, 0);
    var s2 := AfterWake(PAIR, s1, 0);
    run := Go(run, s1, s2, 0);
    var s3 := AfterWake(PAIR, s2, 0);
    run := Go(run, s2, s3, 0);
    assert s3.th == [COMPLETED, SCANNED] && s3.lock == [FREE, FREE];
  }

  /** Node 0 signals termination. */
  lemma Quits() returns (run: seq<State>)
    ensures Reaches(run, Solo(TOKEN.(over := true), 1, FREE, COMPLETED.(pc := WakeNext, quit := true, wake := [1])))
  {
    PairOk();
    run := Completes();
    var s0 := Solo(TOKEN, 0, FREE, COMPLETED);
    var s1 := AfterCall(s0, 0, true);
    run := Go(run, s0, s1, 0);
    var s2 := AfterSend(PAIR, s1, 0, 0);
    run := Go(run, s1, s2, 0);
    assert s2.th[0].wake == [1] && s2.es == [TOKEN.(over := true)] && s2.terms == [0, 1];
    var s3 := Set(s2, 0, s2.th[0].(pc := WakeNext));
    run := Go(run, s2, s3, 0);
    assert s3.th == [COMPLETED.(pc := WakeNext, quit := true, wake := [1]), SCANNED];
  }

  /** Thread 0 back from `pgm_terminate`. */
  const TERMINATED: Thread := FRESH.(fwd := 1, quit := true, target := 1, completed := 1, stopped := true)

  /** Node 0 locks node 1. */
  lemma LocksAgain() returns (run: seq<State>)
    ensures Reaches(run, Solo(TOKEN.(over := true), 1, 0, TERMINATED.(pc := WakeSignal, stopped := false)))
  {
    PairOk();
    run := Quits();
    var s0 := Solo(TOKEN.(over := true), 1, FREE, COMPLETED.(pc := WakeNext, quit := true, wake := [1]));
    var s1 := AfterWake(PAIR, s0, 0);
    run := Go(run, s0, s1, 0);
    assert s1.th[0].wake == [];
    assert s1.th == [TERMINATED.(pc := WakeSignal, stopped := false), SCANNED] && s1.lock == [FREE, 0];
  }

  lemma Terminates() returns (run: seq<State>)
    ensures Reaches(run, Solo(TOKEN.(over := true), 1, FREE, TERMINATED))
  {
    PairOk();
    run := LocksAgain();
    var s1 := Solo(TOKEN.(over := true), 1, 0, TERMINATED.(pc := WakeSignal, stopped := false));
    var s2 := AfterWake(PAIR, s1, 0);
    run := Go(run, s1, s2, 0);
    var s3 := AfterWake(PAIR, s2, 0);
    run := Go(run, s2, s3, 0);
    var s4 := AfterWake(PAIR, s3, 0);
    run := Go(run, s3, s4, 0);
    assert s4.th == [TERMINATED, SCANNED] && s4.lock == [FREE, FREE];
  }

  /** Node 1 goes on with its old count of ready edges, and leaves. */
  const LEAVING: Thread := SCANNED.(pc := Produce, i := 0, quit := true, quits := 1)

  lemma Leaves() returns (run: seq<State>)
    ensures Reaches(run, State([TOKEN.(over := true)], [0, 1], [FREE, FREE], [TERMINATED, LEAVING]))
  {
    PairOk();
    run := Terminates();
    var s0 := Solo(TOKEN.(over := true), 1, FREE, TERMINATED);
    var s1 := AfterQuick(PAIR, s0, 1);
    run := Go(run, s0, s1, 1);
    var s2 := AfterQuick(PAIR, s1, 1);
    run := Go(run, s1, s2, 1);
    var s3 := AfterConsume(PAIR, s2, 1);
    run := Go(run, s2, s3, 1);
    var s4 := AfterConsume(PAIR, s3, 1);
    run := Go(run, s3, s4, 1);
    assert s4.th == [TERMINATED, LEAVING];
  }

  /**
    A run of the code as it is, on the smallest graph, that comes to rest with node 1 terminated
    although it has not fired and its edge still holds the token.
   */
  lemma TokenLeftBehind() returns (run: seq<State>)
    ensures Run(RACE, run) && R.AtRest(RACE, run[|run| - 1])
    ensures var s := run[|run| - 1];
            && |s.th| == 2 && |s.es| == 1
            && s.th[1].stopped && s.th[1].fired == 0 && s.es[0].pending == 1
            && s.th[0].completed == RACE.client.k == 1
  {
    PairOk();
    run := Leaves();
    var s4 := State([TOKEN.(over := true)], [0, 1], [FREE, FREE], [TERMINATED, LEAVING]);
    var s5 := Set(s4, 1, s4.th[1].(pc := WakeNext));
    run := Go(run, s4, s5, 1);
    var s6 := AfterWake(PAIR, s5, 1);
    run := Go(run, s5, s6, 1);
  }
}
