/**
  What the calls on the ring do with the counts they read: when a write or a read is refused, when it goes on, and
  that it ends once it does.
 */
module RingProgress {
  import opened Ring
  import opened RingQueue

  /** Every writer inside a call, and the reader, has a next step in every state of every run. */
  lemma EveryoneSteps(c: Config, run: seq<State>, k: nat, w: nat)
    requires Run(c, run) && k < |run| && w < |run[k].ws|
    ensures run[k].ws[w].pc != WIdle ==> WriterCan(c, run[k], w)
    ensures ReaderCan(c, run[k])
  {
    RunKeeps(c, run, k);
    assert WriterOk(c, run[k], w);
  }

  /**
    With one writer: a write is refused exactly if the queue is full, and a read exactly if it is empty. A read that
    goes on finds its slot ready.
   */
  lemma SingleWriterSteps(c: Config, run: seq<State>, k: nat)
    requires Run(c, run) && k < |run| && !c.multi
    ensures |run[k].ws| == 1 && ReaderCan(c, run[k])
    ensures var s, q := run[k], Contents(c, run[k]);
            && (s.ws[0].pc == Check ==>
                  WriterCan(c, s, 0) &&
                  AfterWriter(c, s, 0) == if |q| < c.nmemb then Put(s, 0, s.ws[0].(pc := Ticket)) else s)
            && (s.rd.pc == RCheck ==> AfterReader(c, s) == if q != [] then s.(rd := s.rd.(pc := RSlot)) else s)
            && (s.rd.pc == RSlot ==> AfterReader(c, s).rd.pc == RCopy)
  {
    RunKeeps(c, run, k);
    RunAnnounced(c, run, k);
    EveryoneSteps(c, run, k, 0);
    SingleWriterAnswers(c, run, k);
  }

  /** What elements, claims and failing writers take up of a multi-writer ring. */
  function Taken(c: Config, s: State): nat {
    |Contents(c, s)| + Count(s.ws, Ticket) + Count(s.ws, Undo)
  }

  /**
    With several: the check refuses exactly if elements, claims and failing writers just fill the ring; the claim
    fails exactly if they fill it or more, or if the ring is idle and its capacity is 2^63. A read is refused
    exactly if the ring is idle, or if the first element is missing or not published.
   */
  lemma MultiWriterSteps(c: Config, run: seq<State>, k: nat, w: nat)
    requires Run(c, run) && k < |run| && c.multi && w < |run[k].ws|
    ensures ReaderCan(c, run[k]) && (run[k].ws[w].pc != WIdle ==> WriterCan(c, run[k], w))
    ensures var s := run[k];
            && (s.ws[w].pc == Check ==>
                  AfterWriter(c, s, w) == if Taken(c, s) == c.nmemb then s else Put(s, w, s.ws[w].(pc := Claim)))
            && (s.ws[w].pc == Claim ==>
                  AfterWriter(c, s, w).ws[w].pc ==
                  if Taken(c, s) >= c.nmemb || (c.nmemb == WORD / 2 && Idle(c, s)) then Undo else Ticket)
            && (s.ws[w].pc == Undo ==> AfterWriter(c, s, w).ws[w].pc == Check)
    ensures var s, f := run[k], |run[k].got|;
            && (s.rd.pc == RCheck ==> AfterReader(c, s) == if Idle(c, s) then s else s.(rd := s.rd.(pc := RSlot)))
            && (s.rd.pc == RSlot ==>
                  AfterReader(c, s).rd.pc ==
                  if Contents(c, s) != [] && f < |s.owner| && s.owner[f] < 0 then RCopy else RCheck)
  {
    RunKeeps(c, run, k);
    EveryoneSteps(c, run, k, w);
    MultiWriterAnswers(c, run, k);
    CountBound(run[k].ws, Undo, 0);
  }

  /** The steps a writer has left until its call returns, each turn through the check being one. */
  function WriterRest(t: Writer): int {
    match t.pc
    case WIdle => 0
    case Settle => 1
    case Publish => 2
    case Copy => 3 + |t.val| - t.j
    case Ticket => 4 + |t.val|
    case Claim => 5 + |t.val|
    case Check => 6 + |t.val|
    case Undo => 7 + |t.val|
  }

  function ReaderRest(size: nat, r: Reader): int {
    match r.pc
    case RIdle => 0
    case RReturn => 1
    case RAdvance => 2
    case RFree => 3
    case RCopy => 4 + size - |r.data|
    case RSlot => 5 + size
    case RCheck => 6 + size
  }

  /** Every step of a writer brings it closer to its return, except a refusal and a failed claim. */
  lemma WritesEnd(c: Config, run: seq<State>, k: nat, w: nat)
    requires Run(c, run) && k < |run| && w < |run[k].ws| && run[k].ws[w].pc != WIdle
    ensures WriterCan(c, run[k], w) && |AfterWriter(c, run[k], w).ws| == |run[k].ws|
    ensures var s, s' := run[k], AfterWriter(c, run[k], w);
            || (s.ws[w].pc == Check && s' == s)
            || (s.ws[w].pc == Claim && s'.ws[w].pc == Undo)
            || 0 <= WriterRest(s'.ws[w]) < WriterRest(s.ws[w])
  {
    RunKeeps(c, run, k);
    EveryoneSteps(c, run, k, w);
    assert WriterOk(c, run[k], w);
  }

  /** So does every step of the reader inside a call, except a refusal. */
  lemma ReadsEnd(c: Config, run: seq<State>, k: nat)
    requires Run(c, run) && k < |run| && run[k].rd.pc != RIdle
    ensures ReaderCan(c, run[k])
    ensures var s, s' := run[k], AfterReader(c, run[k]);
            || (s.rd.pc == RCheck && s' == s)
            || (s.rd.pc == RSlot && s'.rd.pc == RCheck)
            || 0 <= ReaderRest(c.size, s'.rd) < ReaderRest(c.size, s.rd)
  {
    RunKeeps(c, run, k);
  }
}
