/** The ring as seen by its users: a bounded first-in first-out queue. */
module RingQueue {
  import opened Ring
  import RingInit
  import opened Base

  // -------------------------------------------------- the slots, over whole runs

  /** Tickets are handed out once and for all, and the reader returns their elements in that order and whole. */
  lemma {:induction false} ReadsInTicketOrder(c: Config, run: seq<State>, i: nat, j: nat)
    requires Run(c, run) && i <= j < |run|
    ensures run[i].tickets <= run[j].tickets && run[i].got <= run[j].got
    ensures run[j].got <= run[j].tickets
  {
    GotIsPrefix(c, run, j);
    if i < j {
      ReadsInTicketOrder(c, run, i, j - 1);
      assert StepAt(c, run, j - 1);
      HistoryGrows(c, run[j - 1], run[j]);
    }
  }

  lemma GotIsPrefix(c: Config, run: seq<State>, k: nat)
    requires Run(c, run) && k < |run|
    ensures run[k].got <= run[k].tickets
  {
    RunKeeps(c, run, k);
  }

  lemma HistoryGrows(c: Config, s: State, s': State)
    requires Next(c, s, s')
    ensures s.tickets <= s'.tickets && s.got <= s'.got
  {
    if w: nat, val :| CallWrite(c, s, s', w, val) {
    } else if w: nat :| WriterStep(c, s, s', w) {
    } else {
    }
  }

  /** No two tickets in the ring share a slot, and so no two writers, nor a writer and the reader. */
  lemma SlotsNotShared(c: Config, run: seq<State>, k: nat)
    requires Run(c, run) && k < |run|
    ensures IndexOk(c, run[k])
    ensures forall t, u :: |run[k].got| <= t < u < |run[k].tickets| ==> At(c, run[k], t) != At(c, run[k], u)
    ensures forall w, u :: 0 <= w < u < |run[k].ws| && Storing(run[k].ws[w]) && Storing(run[k].ws[u]) ==>
              run[k].ws[w].idx != run[k].ws[u].idx
    ensures forall w :: 0 <= w < |run[k].ws| && Storing(run[k].ws[w]) && Loading(run[k].rd) ==>
              run[k].ws[w].idx != run[k].rd.idx
  {
    RunKeeps(c, run, k);
    var s := run[k];
    forall w, u | 0 <= w < u < |s.ws| && Storing(s.ws[w]) && Storing(s.ws[u]) ensures s.ws[w].idx != s.ws[u].idx {
      assert WriterOk(c, s, w) && WriterOk(c, s, u);
      Apart(c, s, s.ws[w].ticket, s.ws[u].ticket);
    }
    forall w | 0 <= w < |s.ws| && Storing(s.ws[w]) && Loading(s.rd) ensures s.ws[w].idx != s.rd.idx {
      assert WriterOk(c, s, w);
      Apart(c, s, s.ws[w].ticket, |s.got|);
    }
  }

  /** The reader holds the address of a slot. */
  predicate Loading(r: Reader) {
    r.pc.RCopy? || r.pc.RFree?
  }

  /** The writer holds the address of a slot. */
  predicate Storing(t: Writer) {
    t.pc.Copy? || t.pc.Publish?
  }

  /** No step changes the bytes of an element that is published and not yet released. */
  lemma UnreadNotOverwritten(c: Config, run: seq<State>, k: nat, i: nat)
    requires Run(c, run) && k + 1 < |run| && i < c.nmemb
    ensures |run[k].slots| == |run[k].buf| == |run[k + 1].buf| == c.nmemb
    ensures run[k].slots[i] ==> run[k + 1].buf[i] == run[k].buf[i]
  {
    RunKeeps(c, run, k);
    assert StepAt(c, run, k);
    StepSpares(c, run[k], run[k + 1], i);
  }

  lemma StepSpares(c: Config, s: State, s': State, i: nat)
    requires Inv(c, s) && Next(c, s, s') && i < c.nmemb
    ensures |s'.buf| == |s.buf| && (s.slots[i] ==> s'.buf[i] == s.buf[i])
  {
    if w: nat, val :| CallWrite(c, s, s', w, val) {
    } else if w: nat :| WriterStep(c, s, s', w) {
      assert WriterOk(c, s, w);
      if s.ws[w].pc.Copy? {
        assert TicketOk(c, s, s.ws[w].ticket);
        StoreSpares(c, s, s', w, i);
      }
    }
  }

  /** A byte goes into the slot of a ticket that is not published. */
  lemma StoreSpares(c: Config, s: State, s': State, w: nat, i: nat)
    requires IndexOk(c, s) && WriterStep(c, s, s', w) && s.ws[w].pc.Copy? && WriterOk(c, s, w)
    requires TicketOk(c, s, s.ws[w].ticket) && i < c.nmemb
    ensures |s'.buf| == |s.buf| && (s.slots[i] ==> s'.buf[i] == s.buf[i])
  {
  }

  // ------------------------------------------------------- the abstract queue

  /**
    In single-writer use the last ticket is the writer's, and the reader goes past the emptiness test only for a
    finished write.
   */
  predicate Announced(c: Config, s: State) {
    !c.multi ==>
      && |s.ws| == 1
      && Settled(s) >= |s.got|
      && (Storing(s.ws[0]) ==> s.ws[0].ticket == |s.tickets| - 1)
      && (s.ws[0].pc.Settle? ==> |s.tickets| > 0 && s.tickets[|s.tickets| - 1] == s.ws[0].val)
      && (!s.rd.pc.RIdle? && !s.rd.pc.RCheck? ==> Settled(s) > |s.got|)
  }

  lemma WriterAnnounces(c: Config, s: State, s': State, w: nat)
    requires IndexOk(c, s) && Announced(c, s) && !c.multi && WriterStep(c, s, s', w) && WriterOk(c, s, w)
    ensures Announced(c, s')
  {
    assert w == 0 && |s'.ws| == 1 && s'.got == s.got && s'.rd == s.rd;
    if s.ws[0].pc.Ticket? {
      assert |s'.tickets| == |s.tickets| + 1;
    } else {
      assert s'.tickets == s.tickets;
    }
  }

  lemma ReaderAnnounced(c: Config, s: State, s': State)
    requires CountsOk(c, s) && Announced(c, s) && !c.multi && ReaderStep(c, s, s')
    ensures Announced(c, s')
  {
  }

  lemma AnnouncedKept(c: Config, s: State, s': State)
    requires Inv(c, s) && Announced(c, s) && Next(c, s, s') && !c.multi
    ensures Announced(c, s')
  {
    if w: nat, val :| CallWrite(c, s, s', w, val) {
    } else if w: nat :| WriterStep(c, s, s', w) {
      assert WriterOk(c, s, w);
      WriterAnnounces(c, s, s', w);
    } else {
      ReaderAnnounced(c, s, s');
    }
  }

  lemma {:induction false} RunAnnounced(c: Config, run: seq<State>, k: nat)
    requires Run(c, run) && k < |run|
    ensures Announced(c, run[k])
  {
    if !c.multi && k > 0 {
      RunAnnounced(c, run, k - 1);
      AnnouncedNext(c, run, k - 1);
    }
  }

  lemma AnnouncedNext(c: Config, run: seq<State>, k: nat)
    requires Run(c, run) && k + 1 < |run| && Announced(c, run[k])
    ensures Announced(c, run[k + 1])
  {
    if !c.multi {
      RunKeeps(c, run, k);
      assert StepAt(c, run, k);
      AnnouncedKept(c, run[k], run[k + 1]);
    }
  }

  /** The elements in the queue: written (multi-writer: ticketed) and not yet returned. */
  function Contents(c: Config, s: State): seq<seq<Byte>> {
    var end := if c.multi then |s.tickets| else Settled(s);
    if |s.got| <= end then s.tickets[|s.got|..end] else []
  }

  /** The step at which a write takes effect. */
  predicate Enqueues(c: Config, s: State, s': State, w: nat) {
    WriterStep(c, s, s', w) && s.ws[w].pc == if c.multi then Ticket else Settle
  }

  /** The step at which a read takes effect. */
  predicate Dequeues(c: Config, s: State, s': State) {
    ReaderStep(c, s, s') && s.rd.pc == RReturn
  }

  /** A step of a queue that never holds more than nmemb elements. */
  ghost predicate QueueStep(c: Config, s: State, s': State) {
    var q, q' := Contents(c, s), Contents(c, s');
    || (exists w: nat :: Enqueues(c, s, s', w) && |q| < c.nmemb && q' == q + [s.ws[w].val])
    || (Dequeues(c, s, s') && q == [s.rd.data] + q')
    || (q' == q && !Dequeues(c, s, s') && forall w: nat :: !Enqueues(c, s, s', w))
  }

  lemma MultiWriterRefines(c: Config, s: State, s': State, w: nat)
    requires c.multi && CountsOk(c, s) && WriterStep(c, s, s', w)
    ensures if s.ws[w].pc.Ticket? then |Contents(c, s)| < c.nmemb && Contents(c, s') == Contents(c, s) + [s.ws[w].val]
            else Contents(c, s') == Contents(c, s)
  {
    CountBound(s.ws, Ticket, w);
    if s.ws[w].pc.Ticket? {
      LastIn(s.tickets, |s.got|, s.ws[w].val);
    } else {
      assert s'.tickets == s.tickets && s'.got == s.got;
    }
  }

  lemma LastIn(q: seq<seq<Byte>>, f: nat, val: seq<Byte>)
    requires f <= |q|
    ensures (q + [val])[f..] == q[f..] + [val]
  {
  }

  lemma SingleWriterRefines(c: Config, s: State, s': State, w: nat)
    requires !c.multi && CountsOk(c, s) && Announced(c, s) && WriterStep(c, s, s', w)
    ensures if s.ws[w].pc.Settle? then |Contents(c, s)| < c.nmemb && Contents(c, s') == Contents(c, s) + [s.ws[w].val]
            else Contents(c, s') == Contents(c, s)
  {
    var f, end := |s.got|, Settled(s);
    if s.ws[w].pc.Settle? {
      assert s.tickets[f..end + 1] == s.tickets[f..end] + [s.tickets[end]];
    } else {
      assert Settled(s') == end && s'.tickets[..end] == s.tickets[..end];
      assert s'.tickets[f..end] == s'.tickets[..end][f..] && s.tickets[f..end] == s.tickets[..end][f..];
    }
  }

  /**
    The ring refines the bounded queue: every step of every run is a write of one element at the end, a read of the
    first, or neither.
   */
  lemma RefinesBoundedQueue(c: Config, run: seq<State>, k: nat)
    requires Run(c, run) && k + 1 < |run|
    ensures |Contents(c, run[k])| <= c.nmemb
    ensures QueueStep(c, run[k], run[k + 1])
  {
    RunAnnounced(c, run, k);
    InvRefines(c, run, k);
  }

  lemma InvRefines(c: Config, run: seq<State>, k: nat)
    requires Run(c, run) && k + 1 < |run| && Announced(c, run[k])
    ensures |Contents(c, run[k])| <= c.nmemb
    ensures QueueStep(c, run[k], run[k + 1])
  {
    RunKeeps(c, run, k);
    assert StepAt(c, run, k);
    NextRefines(c, run[k], run[k + 1]);
  }

  lemma NextRefines(c: Config, s: State, s': State)
    requires CountsOk(c, s) && IndexOk(c, s) && ReaderOk(c, s) && Announced(c, s) && Next(c, s, s')
    ensures QueueStep(c, s, s')
  {
    if w: nat, val :| CallWrite(c, s, s', w, val) {
      CallQueues(c, s, s', w, val);
    } else if w: nat :| WriterStep(c, s, s', w) {
      WriterQueues(c, s, s', w);
    } else {
      ReaderQueues(c, s, s');
    }
  }

  lemma CallQueues(c: Config, s: State, s': State, w: nat, val: seq<Byte>)
    requires IndexOk(c, s) && Announced(c, s) && CallWrite(c, s, s', w, val)
    ensures QueueStep(c, s, s')
  {
    assert Contents(c, s') == Contents(c, s);
  }

  lemma WriterQueues(c: Config, s: State, s': State, w: nat)
    requires CountsOk(c, s) && IndexOk(c, s) && Announced(c, s) && WriterStep(c, s, s', w)
    ensures QueueStep(c, s, s')
  {
    if c.multi { MultiWriterRefines(c, s, s', w); } else { SingleWriterRefines(c, s, s', w); }
  }

  lemma ReaderQueues(c: Config, s: State, s': State)
    requires IndexOk(c, s) && ReaderOk(c, s) && Announced(c, s) && ReaderStep(c, s, s')
    ensures QueueStep(c, s, s')
  {
    ReaderRefines(c, s, s');
  }

  lemma ReaderRefines(c: Config, s: State, s': State)
    requires IndexOk(c, s) && ReaderOk(c, s) && Announced(c, s) && ReaderStep(c, s, s')
    ensures if s.rd.pc == RReturn then Contents(c, s) == [s.rd.data] + Contents(c, s')
            else Contents(c, s') == Contents(c, s)
  {
    if s.rd.pc == RReturn {
      var f, end := |s.got|, if c.multi then |s.tickets| else Settled(s);
      assert |s'.got| == f + 1 && s'.tickets == s.tickets && s'.ws == s.ws;
      FirstOut(s.tickets, f, end);
    } else {
      assert s'.got == s.got && s'.tickets == s.tickets && s'.ws == s.ws;
    }
  }

  lemma FirstOut(q: seq<seq<Byte>>, f: nat, end: nat)
    requires f < end <= |q|
    ensures q[f..end] == [q[f]] + q[f + 1..end]
  {
  }

  /** What the reader finds in the slot it looks at. */
  predicate NextSlotReady(c: Config, s: State) {
    c.nmemb > 0 && s.ridx % c.nmemb < |s.slots| && s.slots[s.ridx % c.nmemb]
  }

  /** A single writer is refused exactly when the queue is full, and the reader exactly when it is empty. */
  lemma SingleWriterAnswers(c: Config, run: seq<State>, k: nat)
    requires Run(c, run) && k < |run| && !c.multi
    ensures run[k].nfree == c.nmemb - |Contents(c, run[k])|
    ensures run[k].rd.pc.RSlot? ==> Contents(c, run[k]) != [] && NextSlotReady(c, run[k])
  {
    RunKeeps(c, run, k);
    RunAnnounced(c, run, k);
    assert TicketOk(c, run[k], |run[k].got|);
  }

  /** No element, no claim and no failing writer. */
  predicate Idle(c: Config, s: State) {
    Contents(c, s) == [] && Count(s.ws, Ticket) == 0 && Count(s.ws, Undo) == 0
  }

  /**
    A multi-writer ring refuses a claim exactly if elements, claims and other failing writers fill it, or if it is
    idle and its capacity, 2^63, reads as a negative number. It refuses a read exactly if it is idle, or
    if no ticket is out or the writer of the first ticket has not published it.
   */
  lemma MultiWriterAnswers(c: Config, run: seq<State>, k: nat)
    requires Run(c, run) && k < |run| && c.multi
    ensures Signed(run[k].nfree) <= 0 <==>
            || |Contents(c, run[k])| + Count(run[k].ws, Ticket) + Count(run[k].ws, Undo) >= c.nmemb
            || (c.nmemb == WORD / 2 && Idle(c, run[k]))
    ensures run[k].nfree == c.nmemb <==> Idle(c, run[k])
    ensures run[k].rd.pc.RSlot? ==>
              (NextSlotReady(c, run[k]) <==>
                 Contents(c, run[k]) != [] && |run[k].got| < |run[k].owner| && run[k].owner[|run[k].got|] < 0)
  {
    RunKeeps(c, run, k);
    RunAnnounced(c, run, k);
    CountBound(run[k].ws, Undo, 0);
    assert TicketOk(c, run[k], |run[k].got|);
  }

  /**
    A ring made by `init_ring`, whatever the requested minimum, is one that these results are about exactly if it has
    no more writers than that.
   */
  lemma InitRingFits(minCount: nat, size: nat, multi: bool, writers: nat)
    requires 0 < minCount <= WORD / 2 && size > 0
    ensures RingInit.RingCount(minCount, size).Some?
    ensures var n := RingInit.RingCount(minCount, size).value;
            && minCount <= n
            && (ConfigOk(Config(n, size, multi), writers) <==>
                  if multi then writers <= WORD / 2 && n + writers < WORD else writers == 1)
  {
    RingInit.RingCountIsLeastPow2(minCount, size);
  }

  // ------------------------------------------------------------- a ring of 2^63 slots

  /** A writer alone reads the capacity as a negative number: it fails, and finds the ring idle again. */
  predicate Starved(c: Config, s: State) {
    && |s.ws| == 1 && s.tickets == []
    && s.nfree == c.nmemb - (if s.ws[0].pc.Undo? then 1 else 0)
    && (s.ws[0].pc.WIdle? || s.ws[0].pc.Check? || s.ws[0].pc.Claim? || s.ws[0].pc.Undo?)
    && (s.rd.pc.RIdle? || s.rd.pc.RCheck? || s.rd.pc.RSlot?)
  }

  lemma StaysStarved(c: Config, s: State, s': State)
    requires c.multi && c.nmemb == WORD / 2 && Inv(c, s) && Starved(c, s) && Next(c, s, s')
    ensures Starved(c, s')
  {
    assert TicketOk(c, s, 0);
    if w: nat, val :| CallWrite(c, s, s', w, val) {
    } else if w: nat :| WriterStep(c, s, s', w) {
    } else {
    }
  }

  lemma {:induction false} LoneWriterStarves(c: Config, run: seq<State>, k: nat)
    requires Run(c, run) && c.multi && c.nmemb == WORD / 2 && |run[0].ws| == 1 && k < |run|
    ensures Starved(c, run[k])
  {
    if k > 0 {
      LoneWriterStarves(c, run, k - 1);
      RunKeeps(c, run, k - 1);
      assert StepAt(c, run, k - 1);
      StaysStarved(c, run[k - 1], run[k]);
    }
  }

  /** The states after writer w, alone so far, calls, passes the check and fails to claim. */
  function Failing(s: State, w: nat): seq<State>
    requires w < |s.ws|
  {
    var t := s.ws[w];
    [s, Put(s, w, t.(pc := Check)), Put(s, w, t.(pc := Claim)), Put(s, w, t.(pc := Undo)).(nfree := Dec(s.nfree))]
  }

  lemma Fails(c: Config, s: State, w: nat)
    requires c.multi && c.nmemb == s.nfree == WORD / 2 && w < |s.ws| && s.ws[w].pc == WIdle && |s.ws[w].val| == c.size
    ensures var f := Failing(s, w); forall k :: 0 <= k < 3 ==> Next(c, f[k], f[k + 1])
  {
    var f := Failing(s, w);
    assert CallWrite(c, f[0], f[1], w, s.ws[w].val) && WriterStep(c, f[1], f[2], w) && WriterStep(c, f[2], f[3], w);
  }

  /** The states after writer w then calls, passes the check, claims and takes the first ticket. */
  function Succeeding(c: Config, s: State, w: nat): seq<State>
    requires w < |s.ws| && c.nmemb > 0
  {
    var t := s.ws[w];
    var claimed := Put(s, w, t.(pc := Ticket)).(nfree := Dec(s.nfree));
    [s, Put(s, w, t.(pc := Check)), Put(s, w, t.(pc := Claim)), claimed,
     Put(claimed, w, t.(pc := Copy, idx := s.widx % c.nmemb, j := 0, ticket := |s.tickets|))
       .(widx := Inc(s.widx), tickets := s.tickets + [t.val], owner := s.owner + [w])]
  }

  lemma Succeeds(c: Config, s: State, w: nat)
    requires c.multi && c.nmemb > 0 && s.nfree > 0 && Signed(s.nfree) > 0
    requires w < |s.ws| && s.ws[w].pc == WIdle && |s.ws[w].val| == c.size
    ensures var f := Succeeding(c, s, w); forall k :: 0 <= k < 4 ==> Next(c, f[k], f[k + 1])
  {
    var f := Succeeding(c, s, w);
    assert CallWrite(c, f[0], f[1], w, s.ws[w].val) && WriterStep(c, f[1], f[2], w);
    assert WriterStep(c, f[2], f[3], w) && WriterStep(c, f[3], f[4], w);
  }

  /** Writer 0 fails first, and while it has not undone its claim, writer 1 succeeds. */
  lemma TwoWritersSucceed(c: Config, writers: nat) returns (run: seq<State>)
    requires c.multi && c.nmemb == WORD / 2 && c.size > 0 && 2 <= writers && ConfigOk(c, writers)
    ensures Run(c, run) && |run[0].ws| == writers && run[|run| - 1].tickets != []
  {
    var val := seq(c.size, i => 0);
    var ws := seq(writers, i => Writer(WIdle, val, 0, 0, 0));
    var s := State(c.nmemb, 0, 0, seq(c.nmemb, i => false), seq(c.nmemb, i => val), ws, Reader(RIdle, 0, []),
                   [], [], [], 0);
    var f := Failing(s, 0);
    var g := Succeeding(c, f[3], 1);
    Fails(c, s, 0);
    Succeeds(c, f[3], 1);
    run := f[..3] + g;
    forall k | 0 <= k < |run| - 1 ensures StepAt(c, run, k) {
      if k < 3 { assert Next(c, f[k], f[k + 1]); } else { assert Next(c, g[k - 3], g[k - 2]); }
    }
  }

  /** In a multi-writer ring of 2^63 slots some run writes an element if and only if there is more than one writer. */
  lemma HugeRingAcceptsIffTwoWriters(c: Config, writers: nat)
    requires c.multi && c.nmemb == WORD / 2 && 0 < writers && ConfigOk(c, writers)
    ensures (exists run: seq<State>, k: nat ::
               Run(c, run) && |run[0].ws| == writers && k < |run| && run[k].tickets != [])
            <==> writers >= 2
  {
    if writers >= 2 {
      var run := TwoWritersSucceed(c, writers);
    } else {
      forall run: seq<State>, k: nat | Run(c, run) && |run[0].ws| == writers && k < |run| ensures run[k].tickets == [] {
        LoneWriterStarves(c, run, k);
      }
    }
  }
}
