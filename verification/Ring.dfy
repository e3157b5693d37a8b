/**
  The ring buffer of include/ring.h as a step machine: one reader and either any number of
  writers (`mwrite_ring`) or a single one (`write_ring`), every access to a shared field being one step
  and elements being copied byte by byte.

  `nfree`, `widx` and `ridx` are 64-bit words that wrap around.
 */
module Ring {
  import RingInit
  import Modular
  import opened Base

  const WORD: nat := RingInit.SIZE_MOD

  /** The capacity, the element size, and whether the multi-writer variant is used. */
  datatype Config = Config(nmemb: nat, size: nat, multi: bool)

  /** The next statement of a writer; the numbers are lines of the source. */
  datatype WPc =
    | WIdle
    | Check    // 168 or 200
    | Claim    // 171, multi-writer only
    | Undo     // 174, multi-writer only
    | Ticket   // 179 or 204
    | Copy     // the copy of the element
    | Publish  // 188 or 213
    | Settle   // 214, single-writer only

  /** The next statement of the reader. */
  datatype RPc =
    | RIdle
    | RCheck    // 224
    | RSlot     // 227-228
    | RCopy     // the copy of the element
    | RFree     // 237
    | RAdvance  // 238
    | RReturn   // 239

  /** `val` is the element to write, `idx` the slot, `j` the bytes copied; `ticket` is history. */
  datatype Writer = Writer(pc: WPc, val: seq<Byte>, idx: nat, j: nat, ticket: nat)

  datatype Reader = Reader(pc: RPc, idx: nat, data: seq<Byte>)

  /**
    History: `tickets` are the elements in the order of the adds to `widx`; `owner` is the writer still
    working on a ticket, or NOBODY once it is published; `got` are the elements the reader has
    returned; `base` is the slot of the first ticket not yet returned.
   */
  datatype State = State(
    nfree: nat, widx: nat, ridx: nat, slots: seq<bool>, buf: seq<seq<Byte>>, ws: seq<Writer>, rd: Reader,
    tickets: seq<seq<Byte>>, owner: seq<int>, got: seq<seq<Byte>>, base: nat)

  const NOBODY: int := -1

  /**
    A capacity that divides the range of the words, and so few writers that `nfree`, which all of them may
    drive below zero at once, does not come round to a positive number or to the capacity.
   */
  predicate ConfigOk(c: Config, writers: nat) {
    && 0 < c.nmemb <= WORD / 2 && c.size > 0 && WORD % c.nmemb == 0
    && (if c.multi then writers <= WORD / 2 && c.nmemb + writers < WORD else writers == 1)
  }

  predicate Init(c: Config, s: State) {
    && ConfigOk(c, |s.ws|)
    && s.nfree == c.nmemb && s.widx == 0 && s.ridx == 0
    && |s.slots| == |s.buf| == c.nmemb
    && (forall i :: 0 <= i < c.nmemb ==> !s.slots[i] && |s.buf[i]| == c.size)
    && (forall w :: 0 <= w < |s.ws| ==> s.ws[w].pc == WIdle)
    && s.rd.pc == RIdle
    && s.tickets == [] && s.owner == [] && s.got == [] && s.base == 0
  }

  /** A word read as a signed number (ssize_t). */
  function Signed(x: nat): int {
    if x < WORD / 2 then x else x - WORD
  }

  /** One more, wrapping around. */
  function Inc(x: nat): nat {
    if x + 1 == WORD then 0 else x + 1
  }

  /** One less, wrapping around. */
  function Dec(x: nat): nat {
    if x == 0 then WORD - 1 else x - 1
  }

  function Put(s: State, w: nat, t: Writer): State
    requires w < |s.ws|
  {
    s.(ws := s.ws[w := t])
  }

  /** Writer w starts to write an element. */
  predicate CallWrite(c: Config, s: State, s': State, w: nat, val: seq<Byte>) {
    && w < |s.ws| && s.ws[w].pc == WIdle && |val| == c.size
    && s' == Put(s, w, s.ws[w].(pc := Check, val := val))
  }

  /** Writer w is inside a call, and what its next statement touches is there. */
  predicate WriterCan(c: Config, s: State, w: nat) {
    && w < |s.ws| && c.nmemb > 0
    && var t := s.ws[w];
    match t.pc
    case WIdle => false
    case Copy => t.idx < |s.buf| && (t.j < |t.val| ==> t.j < |s.buf[t.idx]|)
    case Publish => t.idx < |s.slots| && t.ticket < |s.owner|
    case _ => true
  }

  function AfterWriter(c: Config, s: State, w: nat): State
    requires WriterCan(c, s, w)
  {
    var t := s.ws[w];
    match t.pc
    case WIdle => s
    case Check => if s.nfree == 0 then s else Put(s, w, t.(pc := if c.multi then Claim else Ticket))
    case Claim => Put(s, w, t.(pc := if Signed(s.nfree) <= 0 then Undo else Ticket)).(nfree := Dec(s.nfree))
    case Undo => Put(s, w, t.(pc := Check)).(nfree := Inc(s.nfree))
    case Ticket =>
      Put(s, w, t.(pc := Copy, idx := s.widx % c.nmemb, j := 0, ticket := |s.tickets|))
        .(widx := Inc(s.widx), tickets := s.tickets + [t.val], owner := s.owner + [w])
    case Copy =>
      if t.j < |t.val| then
        Put(s, w, t.(j := t.j + 1)).(buf := s.buf[t.idx := s.buf[t.idx][t.j := t.val[t.j]]])
      else Put(s, w, t.(pc := Publish))
    case Publish =>
      Put(s, w, t.(pc := if c.multi then WIdle else Settle))
        .(slots := s.slots[t.idx := true], owner := s.owner[t.ticket := NOBODY])
    case Settle => Put(s, w, t.(pc := WIdle)).(nfree := Dec(s.nfree))
  }

  /** The next step of writer w; a check that leaves the state alone is a refusal. */
  predicate WriterStep(c: Config, s: State, s': State, w: nat) {
    WriterCan(c, s, w) && s' == AfterWriter(c, s, w)
  }

  predicate ReaderCan(c: Config, s: State) {
    && c.nmemb > 0
    && var r := s.rd;
    match r.pc
    case RSlot => s.ridx % c.nmemb < |s.slots|
    case RCopy => r.idx < |s.buf| && (|r.data| < c.size ==> |r.data| < |s.buf[r.idx]|)
    case RFree => r.idx < |s.slots|
    case _ => true
  }

  function AfterReader(c: Config, s: State): State
    requires ReaderCan(c, s)
  {
    var r := s.rd;
    match r.pc
    case RIdle => s.(rd := r.(pc := RCheck))
    case RCheck => if s.nfree == c.nmemb then s else s.(rd := r.(pc := RSlot))
    case RSlot =>
      s.(rd := if s.slots[s.ridx % c.nmemb] then Reader(RCopy, s.ridx % c.nmemb, []) else r.(pc := RCheck))
    case RCopy =>
      s.(rd := if |r.data| < c.size then r.(data := r.data + [s.buf[r.idx][|r.data|]]) else r.(pc := RFree))
    case RFree => s.(rd := r.(pc := RAdvance), slots := s.slots[r.idx := false])
    case RAdvance => s.(rd := r.(pc := RReturn), ridx := Inc(s.ridx))
    case RReturn =>
      s.(rd := r.(pc := RIdle), nfree := Inc(s.nfree), got := s.got + [r.data], base := Wrap(c.nmemb, s.base + 1))
  }

  predicate ReaderStep(c: Config, s: State, s': State) {
    ReaderCan(c, s) && s' == AfterReader(c, s)
  }

  ghost predicate Next(c: Config, s: State, s': State) {
    || (exists w: nat, val :: CallWrite(c, s, s', w, val))
    || (exists w: nat :: WriterStep(c, s, s', w))
    || ReaderStep(c, s, s')
  }

  ghost predicate StepAt(c: Config, run: seq<State>, k: nat)
    requires k < |run| - 1
  {
    Next(c, run[k], run[k + 1])
  }

  ghost predicate Run(c: Config, run: seq<State>) {
    && |run| > 0
    && Init(c, run[0])
    && forall k :: 0 <= k < |run| - 1 ==> StepAt(c, run, k)
  }

  // ---------------------------------------------------------------- counting

  function Wrap(n: nat, x: nat): nat {
    if x < n then x else x - n
  }

  /** One writer at a program point, counted. */
  function Here(pc: WPc, at: WPc): nat {
    if pc == at then 1 else 0
  }

  /** How many writers are at a program point. */
  function Count(ws: seq<Writer>, pc: WPc): nat {
    if ws == [] then 0 else Count(ws[..|ws| - 1], pc) + Here(ws[|ws| - 1].pc, pc)
  }

  lemma {:induction false} CountPut(ws: seq<Writer>, w: nat, t: Writer, pc: WPc)
    requires w < |ws|
    ensures Count(ws[w := t], pc) == Count(ws, pc) - Here(ws[w].pc, pc) + Here(t.pc, pc)
  {
    var init := ws[..|ws| - 1];
    if w == |ws| - 1 {
      assert ws[w := t][..w] == init;
    } else {
      CountPut(init, w, t, pc);
      assert ws[w := t][..|ws| - 1] == init[w := t];
    }
  }

  lemma {:induction false} CountBound(ws: seq<Writer>, pc: WPc, w: nat)
    ensures Count(ws, pc) <= |ws|
    ensures w < |ws| && ws[w].pc == pc ==> Count(ws, pc) >= 1
  {
    if ws != [] { CountBound(ws[..|ws| - 1], pc, w); }
  }

  /**
    Tickets whose element has been taken out of `nfree` are in the ring; so are claims without a ticket, and failed
    ones.
   */
  function Free(c: Config, s: State): int {
    if c.multi then c.nmemb - (|s.tickets| - |s.got|) - Count(s.ws, Ticket) - Count(s.ws, Undo)
    else c.nmemb - (Settled(s) - |s.got|)
  }

  /** The writes that the single writer has finished. */
  function Settled(s: State): int {
    |s.tickets| - if |s.ws| > 0 && (s.ws[0].pc.Copy? || s.ws[0].pc.Publish? || s.ws[0].pc.Settle?) then 1 else 0
  }

  /**
    `nfree` is the number of free elements modulo the word size, with transiently failing writers counted against it.
   */
  predicate CountsOk(c: Config, s: State) {
    && ConfigOk(c, |s.ws|)
    && (forall w :: 0 <= w < |s.ws| ==>
          ((s.ws[w].pc.Claim? || s.ws[w].pc.Undo?) ==> c.multi) && (s.ws[w].pc.Settle? ==> !c.multi))
    && |s.got| <= |s.tickets| && |s.tickets| - |s.got| + Count(s.ws, Ticket) <= c.nmemb
    && s.nfree < WORD && s.nfree == if Free(c, s) >= 0 then Free(c, s) else Free(c, s) + WORD
  }

  lemma MultiWriterCounts(c: Config, s: State, s': State, w: nat)
    requires c.multi && CountsOk(c, s) && WriterStep(c, s, s', w)
    requires Count(s'.ws, Ticket) == Count(s.ws, Ticket) - Here(s.ws[w].pc, Ticket) + Here(s'.ws[w].pc, Ticket)
    requires Count(s'.ws, Undo) == Count(s.ws, Undo) - Here(s.ws[w].pc, Undo) + Here(s'.ws[w].pc, Undo)
    requires Count(s.ws, Undo) <= |s.ws| && Count(s'.ws, Undo) <= |s.ws|
    ensures CountsOk(c, s')
  {
    WriterPcs(c, s, s', w);
    match s.ws[w].pc
    case Claim => assert Free(c, s') == Free(c, s) - 1;
    case Undo => assert Free(c, s') == Free(c, s) + 1;
    case Check => assert Free(c, s') == Free(c, s);
    case Ticket => assert Free(c, s') == Free(c, s);
    case Copy => assert Free(c, s') == Free(c, s);
    case Publish => assert Free(c, s') == Free(c, s);
    case _ =>
  }

  /** Only multi-writers claim, and only single writers settle. */
  lemma WriterPcs(c: Config, s: State, s': State, w: nat)
    requires CountsOk(c, s) && WriterStep(c, s, s', w)
    ensures |s'.ws| == |s.ws| && forall u :: 0 <= u < |s'.ws| ==>
              ((s'.ws[u].pc.Claim? || s'.ws[u].pc.Undo?) ==> c.multi) && (s'.ws[u].pc.Settle? ==> !c.multi)
  {
    assert s'.ws == s.ws[w := s'.ws[w]];
  }

  lemma SingleWriterCounts(c: Config, s: State, s': State, w: nat)
    requires !c.multi && CountsOk(c, s) && WriterStep(c, s, s', w)
    requires Count(s'.ws, Ticket) == Count(s.ws, Ticket) - Here(s.ws[w].pc, Ticket) + Here(s'.ws[w].pc, Ticket)
    requires Count(s.ws, Ticket) <= Here(s.ws[w].pc, Ticket)
    ensures CountsOk(c, s')
  {
    match s.ws[w].pc
    case Check =>
    case Ticket =>
    case Copy =>
    case Publish =>
    case _ =>
  }

  lemma WriterCounts(c: Config, s: State, s': State, w: nat)
    requires CountsOk(c, s) && WriterStep(c, s, s', w)
    ensures CountsOk(c, s')
  {
    assert s'.ws == s.ws[w := s'.ws[w]];
    CountPut(s.ws, w, s'.ws[w], Ticket);
    CountPut(s.ws, w, s'.ws[w], Undo);
    CountBound(s.ws, Undo, w);
    CountBound(s'.ws, Undo, w);
    if c.multi {
      MultiWriterCounts(c, s, s', w);
    } else {
      assert s.ws == [s.ws[0]] && s.ws[..0] == [];
      SingleWriterCounts(c, s, s', w);
    }
  }

  lemma CallCounts(c: Config, s: State, s': State, w: nat, val: seq<Byte>)
    requires CountsOk(c, s) && CallWrite(c, s, s', w, val)
    ensures CountsOk(c, s')
  {
    CountPut(s.ws, w, s'.ws[w], Ticket);
    CountPut(s.ws, w, s'.ws[w], Undo);
  }

  lemma ReaderCounts(c: Config, s: State, s': State)
    requires CountsOk(c, s) && ReaderStep(c, s, s') && (s.rd.pc == RReturn ==> |s.got| < |s.tickets|)
    ensures CountsOk(c, s')
  {
    if s.rd.pc.RReturn? { ReturnCounts(c, s, s'); } else { SameCounts(c, s, s'); }
  }

  /** The release of an element makes one more free. */
  lemma ReturnCounts(c: Config, s: State, s': State)
    requires CountsOk(c, s) && |s.got| < |s.tickets| && |s'.got| == |s.got| + 1 && s'.nfree == Inc(s.nfree)
    requires s'.ws == s.ws && s'.tickets == s.tickets
    ensures CountsOk(c, s')
  {
    CountBound(s.ws, Undo, 0);
    assert Free(c, s') == Free(c, s) + 1;
  }

  lemma SameCounts(c: Config, s: State, s': State)
    requires CountsOk(c, s) && s'.ws == s.ws && s'.tickets == s.tickets && s'.got == s.got && s'.nfree == s.nfree
    ensures CountsOk(c, s')
  {
    assert Free(c, s') == Free(c, s);
  }

  // ------------------------------------------------------------------- slots

  /** The slot of ticket t, for the tickets that fit into the ring now. */
  function At(c: Config, s: State, t: nat): (i: nat)
    requires s.base < c.nmemb && |s.got| <= t <= |s.got| + c.nmemb
    ensures i < c.nmemb
  {
    Wrap(c.nmemb, s.base + (t - |s.got|))
  }

  /**
    The words `widx` and `ridx` name the slots of the next ticket and of the next element, also after they wrap
    around.
   */
  predicate IndexOk(c: Config, s: State) {
    && |s.slots| == |s.buf| == c.nmemb && s.base < c.nmemb && |s.owner| == |s.tickets|
    && |s.got| <= |s.tickets| <= |s.got| + c.nmemb && (s.rd.pc.RReturn? ==> |s.got| < |s.tickets|)
    && (forall i :: 0 <= i < c.nmemb ==> |s.buf[i]| == c.size)
    && s.widx < WORD && s.widx % c.nmemb == At(c, s, |s.tickets|)
    && s.ridx < WORD && s.ridx % c.nmemb == At(c, s, if s.rd.pc.RReturn? then |s.got| + 1 else |s.got|)
    && s.got == s.tickets[..|s.got|]
  }

  /** The reader has handed the slot of the first ticket back. */
  predicate Released(s: State) {
    s.rd.pc.RAdvance? || s.rd.pc.RReturn?
  }

  /**
    Every ticket that fits into the ring has a slot of its own: free if the ticket is not out yet or its
    writer is still working, ready and holding the whole element from publication until the release.
   */
  predicate TicketOk(c: Config, s: State, t: nat)
    requires IndexOk(c, s) && |s.got| <= t < |s.got| + c.nmemb
  {
    var i := At(c, s, t);
    if t >= |s.tickets| then !s.slots[i]
    else if s.owner[t] >= 0 then
      && s.owner[t] < |s.ws| && (s.ws[s.owner[t]].pc.Copy? || s.ws[s.owner[t]].pc.Publish?)
      && s.ws[s.owner[t]].ticket == t && !s.slots[i]
    else if t == |s.got| && Released(s) then !s.slots[i]
    else s.slots[i] && s.buf[i] == s.tickets[t]
  }

  /** A writer with a ticket works on the slot of that ticket. */
  predicate WriterOk(c: Config, s: State, w: nat)
    requires IndexOk(c, s) && w < |s.ws|
  {
    var t := s.ws[w];
    && (t.pc != WIdle ==> |t.val| == c.size)
    && (t.pc.Copy? || t.pc.Publish? ==>
          && |s.got| <= t.ticket < |s.tickets| && s.owner[t.ticket] == w && s.tickets[t.ticket] == t.val
          && t.idx == At(c, s, t.ticket)
          && t.j <= c.size && s.buf[t.idx][..t.j] == t.val[..t.j] && (t.pc.Publish? ==> t.j == c.size))
  }

  /** The reader copies the element of the first ticket, which is published. */
  predicate ReaderOk(c: Config, s: State)
    requires IndexOk(c, s)
  {
    var r, f := s.rd, |s.got|;
    r.pc.RCopy? || r.pc.RFree? || Released(s) ==>
      && f < |s.tickets| && s.owner[f] < 0 && r.idx == At(c, s, f)
      && |r.data| <= c.size == |s.tickets[f]| && r.data == s.tickets[f][..|r.data|]
      && (!r.pc.RCopy? ==> r.data == s.tickets[f])
  }

  predicate Inv(c: Config, s: State) {
    && CountsOk(c, s) && IndexOk(c, s) && ReaderOk(c, s)
    && (forall t :: |s.got| <= t < |s.got| + c.nmemb ==> TicketOk(c, s, t))
    && (forall w :: 0 <= w < |s.ws| ==> WriterOk(c, s, w))
  }

  lemma Apart(c: Config, s: State, t: nat, u: nat)
    requires s.base < c.nmemb && |s.got| <= t < |s.got| + c.nmemb && |s.got| <= u < |s.got| + c.nmemb && t != u
    ensures At(c, s, t) != At(c, s, u)
  {
  }

  /**
    An index that counts modulo the word size also counts modulo the capacity, because the capacity divides the word
    size.
   */
  lemma IncSlot(c: Config, x: nat)
    requires 0 < c.nmemb && WORD % c.nmemb == 0 && x < WORD
    ensures Inc(x) < WORD && Inc(x) % c.nmemb == Wrap(c.nmemb, x % c.nmemb + 1)
  {
    Modular.Successor(x, c.nmemb);
    Modular.Unique(0, c.nmemb, 0, 0);
  }

  /** Steps of a writer that touch neither the slots nor the tickets. */
  lemma QuietWriter(c: Config, s: State, s': State, w: nat)
    requires Inv(c, s) && CountsOk(c, s') && w < |s.ws| == |s'.ws|
    requires s' == s.(ws := s.ws[w := s'.ws[w]], nfree := s'.nfree)
    requires !s.ws[w].pc.Copy? && !s.ws[w].pc.Publish? && !s'.ws[w].pc.Copy? && !s'.ws[w].pc.Publish?
    requires s'.ws[w].pc != WIdle ==> |s'.ws[w].val| == c.size
    ensures Inv(c, s')
  {
    forall t | |s.got| <= t < |s.got| + c.nmemb ensures TicketOk(c, s', t) { assert TicketOk(c, s, t); }
    forall u | 0 <= u < |s.ws| ensures WriterOk(c, s', u) { assert WriterOk(c, s, u); }
  }

  lemma TicketIndex(c: Config, s: State, s': State, w: nat)
    requires CountsOk(c, s) && IndexOk(c, s) && ReaderOk(c, s) && WriterStep(c, s, s', w) && s.ws[w].pc.Ticket?
    ensures |s.tickets| < |s.got| + c.nmemb && IndexOk(c, s') && ReaderOk(c, s')
  {
    CountBound(s.ws, Ticket, w);
    IncSlot(c, s.widx);
  }

  lemma TicketOfTicket(c: Config, s: State, s': State, w: nat, t: nat)
    requires IndexOk(c, s) && IndexOk(c, s') && WriterStep(c, s, s', w) && s.ws[w].pc.Ticket?
    requires |s.got| <= t < |s.got| + c.nmemb && TicketOk(c, s, t)
    ensures TicketOk(c, s', t)
  {
  }

  lemma TicketKeeps(c: Config, s: State, s': State, w: nat)
    requires Inv(c, s) && WriterStep(c, s, s', w) && s.ws[w].pc.Ticket? && CountsOk(c, s')
    ensures Inv(c, s')
  {
    TicketIndex(c, s, s', w);
    forall t | |s.got| <= t < |s.got| + c.nmemb ensures TicketOk(c, s', t) {
      assert TicketOk(c, s, t);
      TicketOfTicket(c, s, s', w, t);
    }
    forall u | 0 <= u < |s.ws| ensures WriterOk(c, s', u) { assert WriterOk(c, s, u); }
  }

  /** What a writer stores into its slot does not reach the slot of another ticket. */
  lemma StoreOfTicket(c: Config, s: State, s': State, w: nat, t: nat)
    requires w < |s.ws| && (s.ws[w].pc.Copy? || s.ws[w].pc.Publish?) && WriterStep(c, s, s', w)
    requires IndexOk(c, s) && IndexOk(c, s') && WriterOk(c, s, w)
    requires |s.got| <= t < |s.got| + c.nmemb && TicketOk(c, s, t) && ReaderOk(c, s)
    ensures TicketOk(c, s', t)
  {
    var me := s.ws[w];
    if t != me.ticket {
      Apart(c, s, t, me.ticket);
    } else if me.pc.Publish? {
      assert s.buf[me.idx][..c.size] == s.buf[me.idx] && me.val[..c.size] == me.val;
    }
  }

  lemma StoreOfOther(c: Config, s: State, s': State, w: nat, u: nat)
    requires w < |s.ws| && (s.ws[w].pc.Copy? || s.ws[w].pc.Publish?) && WriterStep(c, s, s', w)
    requires IndexOk(c, s) && IndexOk(c, s') && WriterOk(c, s, w)
    requires u < |s.ws| && u != w && WriterOk(c, s, u)
    ensures WriterOk(c, s', u)
  {
    if s.ws[u].pc.Copy? || s.ws[u].pc.Publish? { Apart(c, s, s.ws[u].ticket, s.ws[w].ticket); }
  }

  lemma StoreOfOwner(c: Config, s: State, s': State, w: nat)
    requires w < |s.ws| && (s.ws[w].pc.Copy? || s.ws[w].pc.Publish?) && WriterStep(c, s, s', w)
    requires IndexOk(c, s) && WriterOk(c, s, w)
    ensures IndexOk(c, s') && WriterOk(c, s', w)
  {
  }

  lemma StoreKeeps(c: Config, s: State, s': State, w: nat)
    requires Inv(c, s) && WriterStep(c, s, s', w) && CountsOk(c, s')
    requires s.ws[w].pc.Copy? || s.ws[w].pc.Publish?
    ensures Inv(c, s')
  {
    assert WriterOk(c, s, w);
    StoreOfOwner(c, s, s', w);
    forall t | |s.got| <= t < |s.got| + c.nmemb ensures TicketOk(c, s', t) {
      assert TicketOk(c, s, t);
      StoreOfTicket(c, s, s', w, t);
    }
    forall u | 0 <= u < |s.ws| ensures WriterOk(c, s', u) {
      assert WriterOk(c, s, u);
      if u != w { StoreOfOther(c, s, s', w, u); }
    }
  }

  lemma WriterKeeps(c: Config, s: State, s': State, w: nat)
    requires Inv(c, s) && WriterStep(c, s, s', w)
    ensures Inv(c, s')
  {
    WriterCounts(c, s, s', w);
    if s.ws[w].pc.Ticket? {
      TicketKeeps(c, s, s', w);
    } else if s.ws[w].pc.Copy? || s.ws[w].pc.Publish? {
      StoreKeeps(c, s, s', w);
    } else {
      assert WriterOk(c, s, w) && s.ws == s.ws[w := s.ws[w]];
      QuietWriter(c, s, s', w);
    }
  }

  lemma QuietReaderOk(c: Config, s: State, s': State)
    requires CountsOk(c, s) && IndexOk(c, s) && ReaderOk(c, s) && TicketOk(c, s, |s.got|) && ReaderStep(c, s, s')
    requires s.rd.pc.RIdle? || s.rd.pc.RCheck? || s.rd.pc.RSlot? || s.rd.pc.RCopy?
    ensures IndexOk(c, s') && ReaderOk(c, s')
  {
    if s.rd.pc.RCopy? {
      var data, elem := s.rd.data, s.tickets[|s.got|];
      if |data| < c.size {
        assert elem[..|data| + 1] == elem[..|data|] + [elem[|data|]];
      } else {
        assert elem[..c.size] == elem;
      }
    }
  }

  /** Steps of the reader that touch neither the slots nor `ridx`. */
  lemma QuietReader(c: Config, s: State, s': State)
    requires Inv(c, s) && ReaderStep(c, s, s') && CountsOk(c, s')
    requires s.rd.pc.RIdle? || s.rd.pc.RCheck? || s.rd.pc.RSlot? || s.rd.pc.RCopy?
    ensures Inv(c, s')
  {
    assert TicketOk(c, s, |s.got|);
    QuietReaderOk(c, s, s');
    OnlyReader(c, s, s');
  }

  lemma OnlyReader(c: Config, s: State, s': State)
    requires IndexOk(c, s) && IndexOk(c, s') && s' == s.(rd := s'.rd) && !Released(s) && !Released(s')
    requires forall t :: |s.got| <= t < |s.got| + c.nmemb ==> TicketOk(c, s, t)
    requires forall w :: 0 <= w < |s.ws| ==> WriterOk(c, s, w)
    ensures forall t :: |s.got| <= t < |s.got| + c.nmemb ==> TicketOk(c, s', t)
    ensures forall w :: 0 <= w < |s.ws| ==> WriterOk(c, s', w)
  {
    forall t | |s.got| <= t < |s.got| + c.nmemb ensures TicketOk(c, s', t) { assert TicketOk(c, s, t); }
    forall u | 0 <= u < |s.ws| ensures WriterOk(c, s', u) { assert WriterOk(c, s, u); }
  }

  lemma ReleaseIndex(c: Config, s: State, s': State)
    requires CountsOk(c, s) && IndexOk(c, s) && ReaderOk(c, s) && ReaderStep(c, s, s')
    requires s.rd.pc.RFree? || s.rd.pc.RAdvance?
    ensures IndexOk(c, s')
  {
    if s.rd.pc.RAdvance? { IncSlot(c, s.ridx); }
  }

  lemma ReleaseKeeps(c: Config, s: State, s': State)
    requires Inv(c, s) && ReaderStep(c, s, s') && CountsOk(c, s')
    requires s.rd.pc.RFree? || s.rd.pc.RAdvance?
    ensures Inv(c, s')
  {
    ReleaseIndex(c, s, s');
    forall t | |s.got| <= t < |s.got| + c.nmemb ensures TicketOk(c, s', t) {
      assert TicketOk(c, s, t);
      if t != |s.got| { Apart(c, s, t, |s.got|); }
    }
    forall u | 0 <= u < |s.ws| ensures WriterOk(c, s', u) { assert WriterOk(c, s, u); }
  }

  lemma ReturnIndex(c: Config, s: State, s': State)
    requires IndexOk(c, s) && ReaderOk(c, s) && ReaderStep(c, s, s') && s.rd.pc.RReturn?
    ensures IndexOk(c, s') && ReaderOk(c, s')
    ensures forall t :: |s'.got| <= t <= |s.got| + c.nmemb ==> At(c, s', t) == At(c, s, t)
    ensures At(c, s', |s'.got| + c.nmemb - 1) == At(c, s, |s.got|)
  {
    assert s.tickets[..|s.got| + 1] == s.tickets[..|s.got|] + [s.tickets[|s.got|]];
  }

  /** The window of tickets moves on by one: the slot of the first becomes the slot behind the last. */
  lemma ReturnKeeps(c: Config, s: State, s': State)
    requires Inv(c, s) && ReaderStep(c, s, s') && CountsOk(c, s') && s.rd.pc.RReturn?
    ensures Inv(c, s')
  {
    assert TicketOk(c, s, |s.got|);
    ReturnIndex(c, s, s');
    forall t | |s'.got| <= t < |s'.got| + c.nmemb ensures TicketOk(c, s', t) {
      if t < |s.got| + c.nmemb { assert TicketOk(c, s, t); }
    }
    forall u | 0 <= u < |s.ws| ensures WriterOk(c, s', u) { assert WriterOk(c, s, u); }
  }

  lemma NextKeeps(c: Config, s: State, s': State)
    requires Inv(c, s) && Next(c, s, s')
    ensures Inv(c, s')
  {
    if w: nat, val :| CallWrite(c, s, s', w, val) {
      CallCounts(c, s, s', w, val);
      QuietWriter(c, s, s', w);
    } else if w: nat :| WriterStep(c, s, s', w) {
      WriterKeeps(c, s, s', w);
    } else {
      ReaderCounts(c, s, s');
      if s.rd.pc.RFree? || s.rd.pc.RAdvance? {
        ReleaseKeeps(c, s, s');
      } else if s.rd.pc.RReturn? {
        ReturnKeeps(c, s, s');
      } else {
        QuietReader(c, s, s');
      }
    }
  }

  lemma InitKept(c: Config, s: State)
    requires Init(c, s)
    ensures Inv(c, s)
  {
    forall w | 0 <= w < |s.ws| ensures s.ws[w].pc != Ticket && s.ws[w].pc != Undo { }
    NobodyAt(s.ws, Ticket);
    NobodyAt(s.ws, Undo);
    Modular.Unique(0, c.nmemb, 0, 0);
  }

  lemma {:induction false} NobodyAt(ws: seq<Writer>, pc: WPc)
    requires forall w :: 0 <= w < |ws| ==> ws[w].pc != pc
    ensures Count(ws, pc) == 0
  {
    if ws != [] { NobodyAt(ws[..|ws| - 1], pc); }
  }

  lemma {:induction false} RunKeeps(c: Config, run: seq<State>, k: nat)
    requires Run(c, run) && k < |run|
    ensures Inv(c, run[k])
  {
    if k == 0 {
      InitKept(c, run[0]);
    } else {
      RunKeeps(c, run, k - 1);
      assert StepAt(c, run, k - 1);
      NextKeeps(c, run[k - 1], run[k]);
    }
  }
}
