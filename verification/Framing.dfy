/**
  The tagged byte stream of data-passing edges: `pgm_send_std_data` frames every message as one
  tag byte and `nr_produce` payload bytes, and `pgm_recv_data` rebuilds blocks of `nr_consume`
  bytes from whatever pieces the reads return.
 */
module Framing {
  import opened Base

  const PGM_NORMAL: Byte := 0x01
  const PGM_TERMINATE: Byte := 0x80

  /** The bit PGM_TERMINATE, the highest of the byte, is set. */
  predicate IsTerminate(tag: Byte) {
    tag >= PGM_TERMINATE
  }

  /** The bit PGM_NORMAL, the lowest, is set. */
  predicate IsNormal(tag: Byte) {
    tag % 2 == 1
  }

  lemma TagBits()
    ensures IsTerminate(PGM_TERMINATE) && !IsTerminate(PGM_NORMAL) && IsNormal(PGM_NORMAL)
  {
  }

  // ----------------------------------------------------------- specification

  /** All payload bytes, in order. */
  function Flat(msgs: seq<seq<Byte>>): seq<Byte> {
    if msgs == [] then [] else msgs[0] + Flat(msgs[1..])
  }

  /** The bytes on the wire: each message behind its tag, and the terminate tag at the end. */
  function Wire(msgs: seq<seq<Byte>>): seq<Byte> {
    if msgs == [] then [PGM_TERMINATE] else [PGM_NORMAL] + msgs[0] + Wire(msgs[1..])
  }

  predicate Sized(msgs: seq<seq<Byte>>, size: nat) {
    forall i :: 0 <= i < |msgs| ==> |msgs[i]| == size
  }

  /**
    From position pos on the wire holds the rest of a message, then the tags and messages that follow, and the
    terminate tag.
   */
  predicate Ahead(wire: seq<Byte>, pos: nat, cur: seq<Byte>, rest: seq<seq<Byte>>, produce: nat)
    decreases |rest|
  {
    var tag := pos + |cur|;
    && |cur| <= produce && tag < |wire| && wire[pos..tag] == cur
    && if rest == [] then wire[tag] == PGM_TERMINATE && tag + 1 == |wire|
       else wire[tag] == PGM_NORMAL && |rest[0]| == produce && Ahead(wire, tag + 1, rest[0], rest[1..], produce)
  }

  lemma Cut(wire: seq<Byte>, pos: nat, a: seq<Byte>, b: seq<Byte>)
    requires pos <= |wire| && wire[pos..] == a + b
    ensures pos + |a| <= |wire| && wire[pos..pos + |a|] == a && wire[pos + |a|..] == b
  {
    assert wire[pos..pos + |a|] == wire[pos..][..|a|] && wire[pos + |a|..] == wire[pos..][|a|..];
  }

  /** What the sender writes is what the receiver expects. */
  lemma {:induction false} WireAhead(wire: seq<Byte>, pos: nat, cur: seq<Byte>, rest: seq<seq<Byte>>, produce: nat)
    requires |cur| <= produce && Sized(rest, produce) && pos <= |wire| && wire[pos..] == cur + Wire(rest)
    ensures Ahead(wire, pos, cur, rest, produce)
    decreases |rest|
  {
    var tag := pos + |cur|;
    Cut(wire, pos, cur, Wire(rest));
    TagAhead(wire, tag, rest);
    if rest != [] { WireAhead(wire, tag + 1, rest[0], rest[1..], produce); }
  }

  /** What stands at the position of a tag. */
  lemma TagAhead(wire: seq<Byte>, tag: nat, rest: seq<seq<Byte>>)
    requires tag <= |wire| && wire[tag..] == Wire(rest)
    ensures tag < |wire|
    ensures rest == [] ==> wire[tag] == PGM_TERMINATE && tag + 1 == |wire|
    ensures rest != [] ==> wire[tag] == PGM_NORMAL && wire[tag + 1..] == rest[0] + Wire(rest[1..])
  {
    assert |wire[tag..]| == |wire| - tag && wire[tag..][0] == wire[tag];
    if rest != [] {
      assert Wire(rest) == [PGM_NORMAL] + (rest[0] + Wire(rest[1..]));
      Cut(wire, tag, [PGM_NORMAL], rest[0] + Wire(rest[1..]));
    }
  }

  /** A read of n bytes inside a message. */
  lemma BodyAhead(wire: seq<Byte>, pos: nat, cur: seq<Byte>, rest: seq<seq<Byte>>, produce: nat, n: nat)
    requires Ahead(wire, pos, cur, rest, produce) && n <= |cur|
    ensures wire[pos..pos + n] == cur[..n] && Ahead(wire, pos + n, cur[n..], rest, produce)
  {
    var tag := pos + |cur|;
    assert wire[pos..pos + n] == wire[pos..tag][..n] && wire[pos + n..tag] == wire[pos..tag][n..];
  }

  /** A read of a tag and n bytes. */
  lemma HeadAhead(wire: seq<Byte>, pos: nat, rest: seq<seq<Byte>>, produce: nat, n: nat)
    requires Ahead(wire, pos, [], rest, produce) && n <= produce && pos + 1 + n <= |wire|
    ensures IsTerminate(wire[pos]) <==> rest == []
    ensures rest == [] ==> n == 0 && pos + 1 == |wire|
    ensures rest != [] ==>
              && wire[pos] == PGM_NORMAL && n <= |rest[0]| && wire[pos + 1..pos + 1 + n] == rest[0][..n]
              && Ahead(wire, pos + 1 + n, rest[0][n..], rest[1..], produce)
              && [] + Flat(rest) == wire[pos + 1..pos + 1 + n] + (rest[0][n..] + Flat(rest[1..]))
  {
    TagBits();
    if rest != [] {
      BodyAhead(wire, pos + 1, rest[0], rest[1..], produce, n);
      HeadFlat(rest, n);
    }
  }

  /** The unread payload in front of a tag: n bytes of the next message, and what follows them. */
  lemma HeadFlat(rest: seq<seq<Byte>>, n: nat)
    requires rest != [] && n <= |rest[0]|
    ensures [] + Flat(rest) == rest[0][..n] + (rest[0][n..] + Flat(rest[1..]))
  {
    BodyFlat(rest[0], Flat(rest[1..]), n);
  }

  /** The unread payload inside a message. */
  lemma BodyFlat(cur: seq<Byte>, tail: seq<Byte>, n: nat)
    requires n <= |cur|
    ensures cur + tail == cur[..n] + (cur[n..] + tail)
  {
    assert cur == cur[..n] + cur[n..];
  }

  /** What a read inside a message takes, and what it leaves. */
  lemma BodyRead(wire: seq<Byte>, pos: nat, cur: seq<Byte>, rest: seq<seq<Byte>>, produce: nat, data: seq<Byte>)
    requires Ahead(wire, pos, cur, rest, produce) && |data| <= |cur| && data == wire[pos..pos + |data|]
    ensures Ahead(wire, pos + |data|, cur[|data|..], rest, produce)
    ensures cur + Flat(rest) == data + (cur[|data|..] + Flat(rest))
  {
    BodyAhead(wire, pos, cur, rest, produce, |data|);
    BodyFlat(cur, Flat(rest), |data|);
  }

  // ------------------------------------------------------------------ sending

  /** How the next write goes: some of the bytes are taken, the pipe is full, or there is an error. */
  datatype WriteEvent = Takes(n: nat) | Full | Broken

  /** A write that is neither taken nor told to come back ends the attempt. */
  predicate Fatal(e: WriteEvent) {
    e.Broken? || e == Takes(0)
  }

  predicate Breaks(events: seq<WriteEvent>) {
    exists i :: 0 <= i < |events| && Fatal(events[i])
  }

  /** How many bytes the pipe would take before it breaks; full in between is no obstacle. */
  function Room(events: seq<WriteEvent>): nat {
    if events == [] || Fatal(events[0]) then 0
    else (if events[0].Takes? then events[0].n else 0) + Room(events[1..])
  }

  function Least(a: nat, b: nat): nat {
    if a <= b then a else b
  }

  /** What an attempt to write sz bytes comes to. */
  predicate Outcome(status: SendStatus, sz: nat, events: seq<WriteEvent>) {
    && (status == Sent <==> sz <= Room(events))
    && (status == Failed <==> Room(events) < sz && Breaks(events))
    && (status == Blocked <==> Room(events) < sz && !Breaks(events))
  }

  datatype SendStatus = Sent | Blocked | Failed

  class Sender {
    const produce: nat
    const buf: array<Byte>  // the reserved tag byte, then the message
    var written: seq<Byte>  // everything written to the pipe so far

    ghost predicate Valid()
      reads this
    {
      buf.Length == produce + 1
    }

    constructor (produce: nat)
      ensures Valid() && fresh(buf) && this.produce == produce && written == []
    {
      this.produce := produce;
      buf := new Byte[produce + 1];
      written := [];
    }

    /**
      `pgm_send_std_data`. Whatever pieces the writes take, the pipe receives the tag and, unless it
      is a terminate tag, the message, or a prefix of that if the pipe stays full or breaks.
     */
    method SendStdData(tag: Byte, events: seq<WriteEvent>) returns (status: SendStatus)
      requires Valid()
      modifies this`written, buf
      ensures Valid()
      ensures buf[0] == tag && buf[1..] == old(buf[1..])
      ensures var frame := [tag] + (if IsTerminate(tag) then [] else old(buf[1..]));
              && written == old(written) + frame[..Least(|frame|, Room(events))]
              && Outcome(status, |frame|, events)
    {
      buf[0] := tag;
      var sz := if IsTerminate(tag) then 1 else produce + 1;
      assert buf[..sz] == [tag] + (if IsTerminate(tag) then [] else old(buf[1..]));
      status := WriteOut(sz, events);
      assert buf[..Least(sz, Room(events))] == buf[..sz][..Least(sz, Room(events))];
    }

    /**
      The loop around `write`: it goes on while the pipe is full, and ends when all is written or a write fails.
     */
    method WriteOut(sz: nat, events: seq<WriteEvent>) returns (status: SendStatus)
      requires Valid() && 0 < sz <= produce + 1
      modifies this`written
      ensures written == old(written) + buf[..Least(sz, Room(events))]
      ensures Outcome(status, sz, events)
    {
      var from, k := 0, 0;
      while k < |events|
        invariant 0 <= from < sz && k <= |events|
        invariant written == old(written) + buf[..from]
        invariant Room(events) == from + Room(events[k..])
        invariant forall i :: 0 <= i < k ==> !Fatal(events[i])
      {
        var e := events[k];
        k := k + 1;
        if e.Takes? && e.n > 0 {
          var bytes := if e.n < sz - from then e.n else sz - from;
          assert buf[..from + bytes] == buf[..from] + buf[from..from + bytes];
          written := written + buf[from..from + bytes];
          if bytes == sz - from {
            return Sent;
          }
          from := from + bytes;
        } else if !e.Full? {
          return Failed;
        }
      }
      return Blocked;
    }
  }

  // ---------------------------------------------------------------- receiving

  /** Before a read, `arrives` further bytes come in; the read returns at most `takes` bytes, none meaning EAGAIN. */
  datatype ReadEvent = ReadEvent(arrives: nat, takes: nat)

  /** How much of a wire of `len` bytes has come in after k reads, given what had before them. */
  function Incoming(arrived: nat, events: seq<ReadEvent>, k: nat, len: nat): nat
    requires k <= |events|
  {
    if k == 0 then arrived else Least(Incoming(arrived, events, k - 1, len) + events[k - 1].arrives, len)
  }

  /** How many of the first k reads find something new and take something; the others may be EAGAIN. */
  function Fruitful(events: seq<ReadEvent>, k: nat): nat
    requires k <= |events|
  {
    if k == 0 then 0
    else Fruitful(events, k - 1) + if events[k - 1].arrives > 0 && events[k - 1].takes > 0 then 1 else 0
  }

  /** A read gets further exactly if it takes something and something unread has arrived. */
  predicate ReadAt(log: seq<nat>, arrived: nat, events: seq<ReadEvent>, len: nat, i: nat)
    requires i < |log| - 1 && i < |events|
  {
    && log[i] <= log[i + 1]
    && (log[i] < log[i + 1] <==> events[i].takes > 0 && log[i] < Incoming(arrived, events, i + 1, len))
  }

  /** The positions before and after each read of a call on a wire of `len` bytes. */
  predicate Reads(log: seq<nat>, arrived: nat, events: seq<ReadEvent>, len: nat) {
    && 0 < |log| <= |events| + 1
    && forall i :: 0 <= i < |log| - 1 ==> ReadAt(log, arrived, events, len, i)
  }

  /** One more read. */
  lemma ReadsMore(log: seq<nat>, arrived: nat, events: seq<ReadEvent>, len: nat, pos: nat)
    requires Reads(log, arrived, events, len) && |log| <= |events|
    requires log[|log| - 1] <= pos && log[|log| - 1] < len
    requires log[|log| - 1] < pos <==>
             events[|log| - 1].takes > 0 && log[|log| - 1] < Incoming(arrived, events, |log|, len)
    requires log[0] + Fruitful(events, |log| - 1) <= log[|log| - 1]
    requires log[|log| - 1] <= Incoming(arrived, events, |log| - 1, len)
    ensures Reads(log + [pos], arrived, events, len) && log[0] + Fruitful(events, |log|) <= pos
  {
    var longer := log + [pos];
    forall i | 0 <= i < |longer| - 1 ensures ReadAt(longer, arrived, events, len, i) {
      if i < |log| - 1 { assert ReadAt(log, arrived, events, len, i); }
    }
  }

  datatype RecvStatus = Delivered | Terminated | Malformed | Waiting

  /** The receiving end of one inbound edge, on which `msgs` are sent, followed by the terminate tag. */
  class Receiver {
    const produce: nat
    const consume: nat
    const wire: seq<Byte>   // everything the sender writes to the pipe
    const buf: array<Byte>  // one byte reserved for a tag, then the block
    var arrived: nat        // how much of it the pipe has received
    var pos: nat            // how much of it has been read
    var nextTag: nat
    var blocks: nat         // blocks delivered so far
    var ended: bool         // the terminate tag has been read

    ghost const msgs: seq<seq<Byte>>
    ghost var cur: seq<Byte>        // payload of the current message still to be read
    ghost var rest: seq<seq<Byte>>  // messages whose tag is still to be read

    /** The payload bytes not yet read. */
    ghost function Unread(): seq<Byte>
      reads this
    {
      cur + Flat(rest)
    }

    /**
      What has been read ends inside message payload or before a tag, and `nextTag` is the distance to the next tag.
     */
    ghost predicate Consistent()
      reads this
    {
      && buf.Length == consume + 1 && produce > 0 && consume > 0
      && pos <= arrived <= |wire| && !ended
      && Ahead(wire, pos, cur, rest, produce) && nextTag == |cur|
    }

    /** Between calls, also: the blocks delivered so far and the unread bytes are the whole payload. */
    ghost predicate Valid()
      reads this
    {
      && Consistent() && wire == Wire(msgs)
      && blocks * consume <= |Flat(msgs)|
      && Flat(msgs)[blocks * consume..] == Unread()
    }

    constructor (produce: nat, consume: nat, wire: seq<Byte>, ghost msgs: seq<seq<Byte>>)
      requires produce > 0 && consume > 0 && Sized(msgs, produce) && wire == Wire(msgs)
      ensures Valid() && fresh(buf) && this.produce == produce && this.consume == consume && this.msgs == msgs
      ensures blocks == 0 && this.wire == wire
    {
      this.produce, this.consume, this.wire, this.msgs := produce, consume, wire, msgs;
      buf := new Byte[consume + 1];
      arrived, pos, nextTag, blocks, ended := 0, 0, 0, 0, false;
      cur, rest := [], msgs;
      WireAhead(wire, 0, [], msgs, produce);
    }

    /** A read of at most `want` bytes; `n` is 0 for EAGAIN. */
    method Read(want: nat, e: ReadEvent) returns (n: nat, data: seq<Byte>)
      requires want > 0 && pos <= arrived <= |wire|
      modifies this`arrived, this`pos
      ensures pos == old(pos) + n && pos <= arrived == Least(old(arrived) + e.arrives, |wire|)
      ensures n == |data| == Least(want, Least(e.takes, arrived - old(pos))) && data == wire[old(pos)..pos]
    {
      var len := |wire|;
      arrived := if arrived + e.arrives < len then arrived + e.arrives else len;
      n := if e.takes < want then e.takes else want;
      if arrived - pos < n {
        n := arrived - pos;
      }
      data := wire[pos..pos + n];
      pos := pos + n;
    }

    /** The effect of a read on the buffer it is given. */
    method Store(at: nat, data: seq<Byte>)
      requires at + |data| <= buf.Length
      modifies buf
      ensures buf[at..at + |data|] == data && buf[..at] == old(buf[..at])
      ensures at > 0 ==> buf[1..at] == old(buf[1..at])
    {
      forall i | 0 <= i < |data| { buf[at + i] := data[i]; }
    }

    /** A read of a tag and at most `chunk` bytes of the message behind it. */
    method TakeHead(chunk: nat, e: ReadEvent) returns (n: nat, data: seq<Byte>)
      requires Consistent() && nextTag == 0 && chunk <= produce
      modifies this`arrived, this`pos, this`nextTag, this`ended, this`cur, this`rest
      ensures pos == old(pos) + n && arrived == Least(old(arrived) + e.arrives, |wire|)
      ensures old(pos) <= arrived && n == |data| == Least(chunk + 1, Least(e.takes, arrived - old(pos)))
      ensures n == 0 ==> Consistent() && nextTag == 0 && Unread() == old(Unread())
      ensures n > 0 && IsTerminate(data[0]) ==> old(rest) == [] && old(Unread()) == [] && ended && pos == |wire|
      ensures n > 0 && !IsTerminate(data[0]) ==>
                data[0] == PGM_NORMAL && Consistent() && old(Unread()) == data[1..] + Unread()
    {
      ghost var ahead := rest;
      assert cur == [];
      n, data := Read(chunk + 1, e);
      if n > 0 {
        HeadAhead(wire, pos - n, ahead, produce, n - 1);
        assert data[1..] == wire[pos - n + 1..pos];
        nextTag := produce - (n - 1);
        ended := IsTerminate(data[0]);
        if !ended {
          cur, rest := ahead[0][n - 1..], ahead[1..];
        }
      }
    }

    /** The first read of a block that starts at a tag: tag and data in one operation (3642-3683). */
    method ReadHead(e: ReadEvent) returns (n: nat, tag: Byte)
      requires Consistent() && nextTag == 0
      modifies this`arrived, this`pos, this`nextTag, this`ended, this`cur, this`rest, buf
      ensures pos == old(pos) + n && arrived == Least(old(arrived) + e.arrives, |wire|)
      ensures old(pos) <= arrived && n == Least(Least(consume, produce) + 1, Least(e.takes, arrived - old(pos)))
      ensures n > 0 <==> e.takes > 0 && old(pos) < arrived
      ensures n == 0 ==> Consistent() && nextTag == 0 && Unread() == old(Unread())
      ensures n > 0 && IsTerminate(tag) ==> old(rest) == [] && old(Unread()) == [] && ended && pos == |wire|
      ensures n > 0 && !IsTerminate(tag) ==>
                tag == PGM_NORMAL && Consistent() && n - 1 <= consume && old(Unread()) == buf[1..n] + Unread()
    {
      var chunk := if consume <= produce then consume else produce;
      var data: seq<Byte>;
      n, data := TakeHead(chunk, e);
      tag := 0;
      if n > 0 {
        tag := data[0];
        Store(0, data);
        assert buf[1..n] == data[1..];
      }
    }

    /** A read of bytes that are all in the current message. */
    method TakeBody(chunk: nat, e: ReadEvent) returns (n: nat, data: seq<Byte>)
      requires Consistent() && 0 < chunk <= nextTag
      modifies this`arrived, this`pos, this`nextTag, this`cur
      ensures pos == old(pos) + n && arrived == Least(old(arrived) + e.arrives, |wire|)
      ensures old(pos) <= arrived && n == |data| == Least(chunk, Least(e.takes, arrived - old(pos)))
      ensures Consistent() && old(Unread()) == data + Unread()
    {
      n, data := Read(chunk, e);
      nextTag := nextTag - n;
      BodyRead(wire, pos - n, cur, rest, produce, data);
      cur := cur[n..];
    }

    /** A read inside a message, up to the next tag at most (3684-3703). */
    method ReadBody(filled: nat, e: ReadEvent) returns (n: nat)
      requires Consistent() && nextTag != 0 && filled < consume
      modifies this`arrived, this`pos, this`nextTag, this`cur, buf
      ensures pos == old(pos) + n && arrived == Least(old(arrived) + e.arrives, |wire|)
      ensures n == Least(Least(consume - filled, old(nextTag)), Least(e.takes, arrived - old(pos)))
      ensures n > 0 <==> e.takes > 0 && old(pos) < arrived
      ensures Consistent()
      ensures n <= consume - filled
      ensures buf[..1 + filled] == old(buf[..1 + filled]) && buf[1..1 + filled] == old(buf[1..1 + filled])
      ensures old(Unread()) == buf[1 + filled..1 + filled + n] + Unread()
    {
      var chunk := if consume - filled <= nextTag then consume - filled else nextTag;
      var data: seq<Byte>;
      n, data := TakeBody(chunk, e);
      Store(1 + filled, data);
    }

    /** A read of a tag in the middle of a block, into memory of its own (3704-3729). */
    method ReadTag(e: ReadEvent) returns (n: nat, tag: Byte)
      requires Consistent() && nextTag == 0
      modifies this`arrived, this`pos, this`nextTag, this`ended, this`cur, this`rest
      ensures pos == old(pos) + n && arrived == Least(old(arrived) + e.arrives, |wire|)
      ensures old(pos) <= arrived && n == Least(1, Least(e.takes, arrived - old(pos)))
      ensures n > 0 <==> e.takes > 0 && old(pos) < arrived
      ensures n == 0 ==> Consistent() && Unread() == old(Unread())
      ensures n > 0 && IsTerminate(tag) ==> old(rest) == [] && old(Unread()) == [] && ended && pos == |wire|
      ensures n > 0 && !IsTerminate(tag) ==>
                tag == PGM_NORMAL && Consistent() && Unread() == old(Unread())
    {
      ghost var ahead := rest;
      assert cur == [];
      var data: seq<Byte>;
      n, data := Read(1, e);
      tag := 0;
      if n > 0 {
        HeadAhead(wire, pos - 1, ahead, produce, 0);
        tag := data[0];
        nextTag := produce;
        ended := IsTerminate(tag);
        if !ended {
          assert ahead[0][0..] == ahead[0];
          cur, rest := ahead[0], ahead[1..];
        }
      }
    }

    /** One turn at `read_more`: which of the three reads to make, and what its tag, if it met one, says (3638-3729). */
    method ReadMore(filled: nat, e: ReadEvent) returns (now: nat, status: RecvStatus)
      requires Consistent() && filled < consume
      modifies this`arrived, this`pos, this`nextTag, this`ended, this`cur, this`rest, buf
      ensures status == Terminated || status == Waiting || status == Delivered
      ensures pos >= old(pos) && arrived == Least(old(arrived) + e.arrives, |wire|)
      ensures pos > old(pos) <==> e.takes > 0 && old(pos) < arrived
      ensures status == Terminated ==> old(Unread()) == [] && ended && pos == |wire|
      ensures status != Terminated ==>
                && Consistent() && filled <= now <= consume && (status == Delivered <==> now == consume)
                && buf[1..1 + filled] == old(buf[1..1 + filled])
                && old(Unread()) == buf[1 + filled..1 + now] + Unread()
    {
      var n, tag := 0, PGM_NORMAL;
      now := filled;
      if filled == 0 && nextTag == 0 {
        n, tag := ReadHead(e);
        if n > 0 && !IsTerminate(tag) {
          now := n - 1;
        }
      } else if nextTag != 0 {
        n := ReadBody(filled, e);
        now := filled + n;
      } else {
        n, tag := ReadTag(e);
      }
      TagBits();
      if n > 0 && IsTerminate(tag) {
        status := Terminated;
      } else if n > 0 && !IsNormal(tag) {
        status := Malformed;
      } else {
        status := if now == consume then Delivered else Waiting;
      }
    }

    /** The same, of the block as a whole, which was at `unread` when it began. */
    method ReadOn(filled: nat, e: ReadEvent, ghost unread: seq<Byte>) returns (now: nat, status: RecvStatus)
      requires Consistent() && filled < consume && unread == buf[1..1 + filled] + Unread()
      modifies this`arrived, this`pos, this`nextTag, this`ended, this`cur, this`rest, buf
      ensures status == Terminated || status == Waiting || status == Delivered
      ensures pos >= old(pos) && arrived == Least(old(arrived) + e.arrives, |wire|)
      ensures pos > old(pos) <==> e.takes > 0 && old(pos) < arrived
      ensures status == Terminated ==> |unread| < consume && ended && pos == |wire|
      ensures status != Terminated ==>
                && Consistent() && now <= consume && (status == Delivered <==> now == consume)
                && unread == buf[1..1 + now] + Unread()
      ensures status == Delivered ==> unread == buf[1..] + Unread()
    {
      now, status := ReadMore(filled, e);
      if status != Terminated {
        assert buf[1..1 + now] == buf[1..1 + filled] + buf[1 + filled..1 + now];
        Joined(buf[1..1 + filled], buf[1 + filled..1 + now], Unread());
      }
    }

    /**
      The reads that fill one block. Only running out of events interrupts them, and then nothing is lost: `filled`
      bytes are in the block.
     */
    method FillBlock(events: seq<ReadEvent>) returns (status: RecvStatus, ghost filled: nat, ghost log: seq<nat>)
      requires Consistent()
      modifies this`arrived, this`pos, this`nextTag, this`ended, this`cur, this`rest, buf
      ensures status == Delivered ==>
                Consistent() && old(Unread()) == buf[1..] + Unread()
      ensures status == Terminated ==> |old(Unread())| < consume && ended && pos == |wire|
      ensures Reads(log, old(arrived), events, |wire|) && log[0] == old(pos) && log[|log| - 1] == pos
      ensures status == Waiting ==> |log| == |events| + 1
      ensures status == Waiting ==>
                Consistent() && filled < consume && old(Unread()) == buf[1..1 + filled] + Unread()
      ensures status == Waiting ==> Fruitful(events, |events|) <= pos - old(pos)
      ensures status != Malformed
    {
      var have: nat, k: nat := 0, 0;
      ghost var unread := Unread();
      filled, log := 0, [pos];
      while k < |events|
        invariant Consistent() && have < consume && k <= |events|
        invariant unread == buf[1..1 + have] + Unread()
        invariant arrived == Incoming(old(arrived), events, k, |wire|)
        invariant |log| == k + 1 && log[0] == old(pos) && log[k] == pos && Reads(log, old(arrived), events, |wire|)
        invariant log[0] + Fruitful(events, k) <= pos
      {
        var now: nat;
        now, status := ReadOn(have, events[k], unread);
        ReadsMore(log, old(arrived), events, |wire|, pos);
        log := log + [pos];
        if status != Waiting {
          return;
        }
        have, k := now, k + 1;
      }
      status, filled := Waiting, have;
    }

    /**
      `pgm_recv_data` for a node with this one inbound edge. Each event is one read; a read
      that would block goes back to waiting and keeps what the block already holds. A call that
      returns has delivered exactly the next `consume` bytes of the payload, or has seen the terminate
      tag with fewer than `consume` bytes left. `Waiting` means that the events ran out first.
     */
    method RecvData(events: seq<ReadEvent>) returns (status: RecvStatus, ghost filled: nat, ghost log: seq<nat>)
      requires Valid()
      modifies this, buf
      ensures status == Delivered ==>
                && Valid() && blocks == old(blocks) + 1
                && IsBlock(Flat(msgs), consume, old(blocks), buf[1..])
      ensures status == Terminated ==>
                && ended && pos == |wire| && blocks == old(blocks)
                && blocks * consume <= |Flat(msgs)| < blocks * consume + consume
      ensures Reads(log, old(arrived), events, |wire|) && log[0] == old(pos) && log[|log| - 1] == pos
      ensures status == Waiting ==>
                && Consistent() && blocks == old(blocks) && |log| == |events| + 1
                && filled < consume && old(Unread()) == buf[1..1 + filled] + Unread()
                && Fruitful(events, |events|) <= pos - old(pos)
      ensures status != Malformed
    {
      ghost var unread := Unread();
      status, filled, log := FillBlock(events);
      if status == Delivered {
        blocks := blocks + 1;
        NextBlock(Flat(msgs), old(blocks), consume, unread);
      }
    }
  }

  /** `block` is the k-th piece of `size` bytes of the payload. */
  predicate IsBlock(flat: seq<Byte>, size: nat, k: nat, block: seq<Byte>) {
    k * size + size <= |flat| && block == flat[k * size..k * size + size]
  }

  /** Two consecutive pieces of a sequence are one piece. */
  lemma Joined(a: seq<Byte>, b: seq<Byte>, c: seq<Byte>)
    ensures a + (b + c) == (a + b) + c
  {
  }

  lemma NextBlock(flat: seq<Byte>, b: nat, size: nat, unread: seq<Byte>)
    requires b * size <= |flat| && flat[b * size..] == unread && size <= |unread|
    ensures (b + 1) * size == b * size + size <= |flat|
    ensures flat[b * size..(b + 1) * size] == unread[..size] && flat[(b + 1) * size..] == unread[size..]
  {
  }

  // --------------------------------------------------------------- round trip

  /** The bytes on the wire after the messages, before the terminate tag. */
  function Frames(msgs: seq<seq<Byte>>): seq<Byte> {
    if msgs == [] then [] else Frames(msgs[..|msgs| - 1]) + [PGM_NORMAL] + msgs[|msgs| - 1]
  }

  lemma {:induction false} FramesFirst(msgs: seq<seq<Byte>>)
    requires msgs != []
    ensures Frames(msgs) == [PGM_NORMAL] + msgs[0] + Frames(msgs[1..])
  {
    if |msgs| > 1 {
      var init := msgs[..|msgs| - 1];
      FramesFirst(init);
      assert init[1..] == msgs[1..][..|msgs| - 2];
    }
  }

  lemma {:induction false} WireIsFrames(msgs: seq<seq<Byte>>)
    ensures Wire(msgs) == Frames(msgs) + [PGM_TERMINATE]
  {
    if msgs != [] {
      FramesFirst(msgs);
      WireIsFrames(msgs[1..]);
    }
  }

  lemma {:induction false} FramesPrefix(msgs: seq<seq<Byte>>, i: nat)
    requires i <= |msgs|
    ensures Frames(msgs[..i]) <= Frames(msgs)
  {
    if i == |msgs| {
      assert msgs[..i] == msgs;
    } else {
      var init := msgs[..|msgs| - 1];
      FramesPrefix(init, i);
      assert init[..i] == msgs[..i];
      assert Frames(init) <= Frames(init) + [PGM_NORMAL] + msgs[|msgs| - 1];
    }
  }

  /** What has been written when a message does not get out as a whole. */
  lemma CutShort(msgs: seq<seq<Byte>>, i: nat, written: seq<Byte>, n: nat)
    requires i < |msgs| && n <= |msgs[i]| && written == Frames(msgs[..i]) + ([PGM_NORMAL] + msgs[i])[..n]
    ensures written <= Wire(msgs) && |written| < |Wire(msgs)|
  {
    assert msgs[..i + 1][..i] == msgs[..i];
    assert Frames(msgs[..i + 1]) == Frames(msgs[..i]) + ([PGM_NORMAL] + msgs[i]);
    assert written <= Frames(msgs[..i + 1]);
    FramesPrefix(msgs, i + 1);
    WireIsFrames(msgs);
  }

  /** The pipe takes every message behind its tag, and the terminate tag. */
  predicate Fits(produce: nat, events: seq<seq<WriteEvent>>) {
    && (forall i :: 0 <= i < |events| - 1 ==> Room(events[i]) > produce)
    && (|events| > 0 ==> Room(events[|events| - 1]) > 0)
  }

  /** A producer that completes once per message and then terminates. */
  method SendAll(s: Sender, msgs: seq<seq<Byte>>, events: seq<seq<WriteEvent>>) returns (ok: bool)
    requires s.Valid() && s.written == [] && Sized(msgs, s.produce) && |events| == |msgs| + 1
    modifies s`written, s.buf
    ensures s.written <= Wire(msgs) && (ok <==> s.written == Wire(msgs))
    ensures ok <==> Fits(s.produce, events)
  {
    var i := 0;
    while i < |msgs|
      invariant 0 <= i <= |msgs| && s.Valid() && s.written == Frames(msgs[..i])
      invariant forall j :: 0 <= j < i ==> Room(events[j]) > s.produce
    {
      forall j | 0 <= j < s.produce { s.buf[1 + j] := msgs[i][j]; }
      assert s.buf[1..] == msgs[i];
      var status := s.SendStdData(PGM_NORMAL, events[i]);
      TagBits();
      assert msgs[..i + 1][..i] == msgs[..i];
      if status != Sent {
        CutShort(msgs, i, s.written, Room(events[i]));
        return false;
      }
      i := i + 1;
    }
    assert msgs[..i] == msgs;
    var status := s.SendStdData(PGM_TERMINATE, events[i]);
    TagBits();
    WireIsFrames(msgs);
    ok := status == Sent;
  }

  /** Enough calls, with enough fruitful reads in each, and any others in between, to receive everything. */
  predicate Enough(msgs: seq<seq<Byte>>, events: seq<seq<ReadEvent>>) {
    && |events| > |Flat(msgs)|
    && forall i :: 0 <= i < |events| ==> Fruitful(events[i], |events[i]|) > |Wire(msgs)|
  }

  lemma NotFewer(i: nat, size: nat)
    requires size > 0
    ensures i <= i * size
  {
  }

  /** A consumer that waits until it is told to terminate. */
  method RecvAll(r: Receiver, events: seq<seq<ReadEvent>>) returns (blocks: seq<seq<Byte>>, done: bool)
    requires r.Valid() && r.blocks == 0
    modifies r, r.buf
    ensures forall k :: 0 <= k < |blocks| ==> IsBlock(Flat(r.msgs), r.consume, k, blocks[k])
    ensures done ==> |blocks| * r.consume <= |Flat(r.msgs)| < |blocks| * r.consume + r.consume
    ensures Enough(r.msgs, events) ==> done
  {
    blocks, done := [], false;
    while |blocks| < |events|
      invariant |blocks| <= |events| && r.Valid() && r.blocks == |blocks|
      invariant forall k :: 0 <= k < |blocks| ==> IsBlock(Flat(r.msgs), r.consume, k, blocks[k])
    {
      var status;
      ghost var filled, log;
      status, filled, log := r.RecvData(events[|blocks|]);
      if status != Delivered {
        return blocks, status == Terminated;
      }
      blocks := blocks + [r.buf[1..]];
    }
    NotFewer(|blocks|, r.consume);
  }

  /**
    The round trip: however the writes and the reads are fragmented, what the producer has sent is
    what the consumer receives, cut into blocks of `consume` bytes; the consumer is told to
    terminate once fewer than `consume` bytes are left.
   */
  method RoundTrip(produce: nat, consume: nat, msgs: seq<seq<Byte>>,
                   writes: seq<seq<WriteEvent>>, readings: seq<seq<ReadEvent>>)
    returns (sent: bool, blocks: seq<seq<Byte>>, done: bool)
    requires produce > 0 && consume > 0 && Sized(msgs, produce) && |writes| == |msgs| + 1
    ensures forall k :: 0 <= k < |blocks| ==> IsBlock(Flat(msgs), consume, k, blocks[k])
    ensures done ==> |blocks| * consume <= |Flat(msgs)| < |blocks| * consume + consume
    ensures sent && Enough(msgs, readings) ==> done
    ensures !sent ==> blocks == [] && !done
    ensures sent <==> Fits(produce, writes)
  {
    blocks, done := [], false;
    var s := new Sender(produce);
    sent := SendAll(s, msgs, writes);
    if sent {
      var r := new Receiver(produce, consume, s.written, msgs);
      blocks, done := RecvAll(r, readings);
    }
  }
}
