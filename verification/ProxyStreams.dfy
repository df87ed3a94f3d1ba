/**
  A byte stream with a PROXY protocol header in front of it
  (ngrok/src/proxy_proto.rs): the write side as values, and the stream object.
*/
module ProxyStreams {
  import opened Wrappers
  import opened Constrained
  import opened ProxyHeaders

  datatype WriteState = Writing(buf: seq<byte>) | Idle

  // ---- the inner writer ----

  /** What the inner writer does when it is polled next. */
  datatype WriteEvent = Stall | Accept(n: nat) | Fault(e: IoError)

  /** The bytes it received and its future behaviour; with no behaviour left it stalls. */
  datatype Sink = Sink(written: seq<byte>, script: seq<WriteEvent>)

  datatype WritePoll = WriteWait | WriteDone(n: nat) | WriteBroke(e: IoError)

  /** The inner `poll_write`. */
  function InnerWrite(k: Sink, buf: seq<byte>): (r: (Sink, WritePoll))
    ensures r.1.WriteDone? ==> k.script != [] && r.1.n <= |buf| && r.0.written == k.written + buf[..r.1.n]
    ensures !r.1.WriteDone? ==> r.0.written == k.written
    ensures r.0.script == if k.script == [] then [] else k.script[1..]
  {
    if k.script == [] then (k, WriteWait)
    else
      match k.script[0]
      case Stall => (k.(script := k.script[1..]), WriteWait)
      case Fault(e) => (k.(script := k.script[1..]), WriteBroke(e))
      case Accept(m) => var n := Min(m, |buf|); (Sink(k.written + buf[..n], k.script[1..]), WriteDone(n))
  }

  // ---- the write side ----

  datatype WriteHeaderOutcome = WriteHeaderOutcome(st: WriteState, sink: Sink, poll: WritePoll)

  /** `poll_write_header_once`; a finished poll is `WriteDone(0)`. */
  function PollWriteHeader(st: WriteState, k: Sink): WriteHeaderOutcome
    decreases |k.script|
  {
    if st.Idle? then WriteHeaderOutcome(Idle, k, WriteDone(0))
    else
      var (k', p) := InnerWrite(k, st.buf);
      if !p.WriteDone? then WriteHeaderOutcome(st, k', p)
      else if st.buf[p.n..] == [] then WriteHeaderOutcome(Idle, k', WriteDone(0))
      else PollWriteHeader(Writing(st.buf[p.n..]), k')
  }

  /** `poll_write`: the header first, then the payload. */
  function PollWritePayload(st: WriteState, k: Sink, payload: seq<byte>): (o: WriteHeaderOutcome)
    ensures o.poll.WriteDone? ==> o.poll.n <= |payload|
  {
    var o := PollWriteHeader(st, k);
    if !o.poll.WriteDone? then o
    else
      var (k', p) := InnerWrite(o.sink, payload);
      WriteHeaderOutcome(o.st, k', p)
  }

  /** The write side of a stream and the payload it reported as written. */
  datatype Outgoing = Outgoing(st: WriteState, sink: Sink, accepted: seq<byte>)

  function DoWrite(w: Outgoing, payload: seq<byte>): Outgoing {
    var o := PollWritePayload(w.st, w.sink, payload);
    Outgoing(o.st, o.sink, w.accepted + if o.poll.WriteDone? then payload[..o.poll.n] else [])
  }

  function DoWrites(w: Outgoing, payloads: seq<seq<byte>>): Outgoing
    decreases |payloads|
  {
    if payloads == [] then w else DoWrites(DoWrite(w, payloads[0]), payloads[1..])
  }

  /** Header and payload follow each other: first one, then the other, each byte once. */
  predicate InOrder(header: seq<byte>, w: Outgoing) {
    match w.st
    case Writing(buf) => w.sink.written + buf == header && w.accepted == []
    case Idle => w.sink.written == header + w.accepted
  }

  lemma {:induction false} WriteHeaderKeeps(header: seq<byte>, st: WriteState, k: Sink)
    requires st.Writing? && k.written + st.buf == header
    ensures var o := PollWriteHeader(st, k);
      && (o.st.Writing? ==> o.sink.written + o.st.buf == header && !o.poll.WriteDone?)
      && (o.st.Idle? ==> o.sink.written == header && o.poll.WriteDone?)
    decreases |k.script|
  {
    hide InnerWrite;
    var (k', p) := InnerWrite(k, st.buf);
    if !p.WriteDone? {
    } else {
      assert k'.written + st.buf[p.n..] == header by { assert st.buf == st.buf[..p.n] + st.buf[p.n..]; }
      if st.buf[p.n..] != [] {
        WriteHeaderKeeps(header, Writing(st.buf[p.n..]), k');
      }
    }
  }

  lemma WriteKeeps(header: seq<byte>, w: Outgoing, payload: seq<byte>)
    requires InOrder(header, w)
    ensures InOrder(header, DoWrite(w, payload))
  {
    hide InnerWrite, PollWriteHeader;
    IdleWritesNothing(w.sink);
    if w.st.Writing? {
      WriteHeaderKeeps(header, w.st, w.sink);
    }
    var o := PollWriteHeader(w.st, w.sink);
    if o.st.Idle? {
      assert o.sink.written == header + w.accepted by { assert header + [] == header; }
      var (k', p) := InnerWrite(o.sink, payload);
      if p.WriteDone? {
        assert header + w.accepted + payload[..p.n] == header + (w.accepted + payload[..p.n]);
      } else {
        assert w.accepted + [] == w.accepted;
      }
    } else {
      assert w.accepted + [] == w.accepted;
    }
  }

  lemma IdleWritesNothing(k: Sink)
    ensures PollWriteHeader(Idle, k) == WriteHeaderOutcome(Idle, k, WriteDone(0))
  {
  }

  lemma {:induction false} WritesKeep(header: seq<byte>, w: Outgoing, payloads: seq<seq<byte>>)
    requires InOrder(header, w)
    ensures InOrder(header, DoWrites(w, payloads))
    decreases |payloads|
  {
    hide DoWrite, InOrder;
    if payloads == [] {
    } else {
      WriteKeeps(header, w, payloads[0]);
      WritesKeep(header, DoWrite(w, payloads[0]), payloads[1..]);
    }
  }

  /**
    The header is written once. Whatever the inner writer does, it has received
    a prefix of the encoded header followed by the accepted payload: payload only
    after the whole header, nothing twice, nothing interleaved.
  */
  lemma HeaderIsWrittenOnce(header: seq<byte>, script: seq<WriteEvent>, payloads: seq<seq<byte>>)
    ensures var w := DoWrites(Outgoing(Writing(header), Sink([], script), []), payloads);
      && w.sink.written <= header + w.accepted
      && (w.accepted != [] || w.st.Idle? ==> w.sink.written == header + w.accepted)
      && (w.st.Writing? ==> w.sink.written + w.st.buf == header)
  {
    var start := Outgoing(Writing(header), Sink([], script), []);
    assert [] + header == header;
    WritesKeep(header, start, payloads);
  }

  /** The inner writer takes at least one byte whenever it is polled. */
  predicate Draining(script: seq<WriteEvent>) {
    forall i :: 0 <= i < |script| ==> script[i].Accept? && script[i].n > 0
  }

  /** Progress: with an inner writer that drains, one poll writes the whole header. */
  lemma {:induction false} HeaderWriteProgresses(st: WriteState, k: Sink)
    requires Draining(k.script) && (st.Writing? ==> |k.script| >= |st.buf| && k.script != [])
    ensures var o := PollWriteHeader(st, k);
      && o.st.Idle? && o.poll == WriteDone(0)
      && (st.Writing? ==> o.sink.written == k.written + st.buf && |k.script| - |o.sink.script| <= |st.buf| + 1)
    decreases |k.script|
  {
    if st.Idle? {
    } else {
      var (k', p) := InnerWrite(k, st.buf);
      assert k.written + st.buf == k.written + st.buf[..p.n] + st.buf[p.n..];
      if st.buf[p.n..] != [] {
        HeaderWriteProgresses(Writing(st.buf[p.n..]), k');
      }
    }
  }

  /**
    Without it there is none: a poll uses up any number of writes that take
    nothing, so an inner writer that never takes a byte and never waits keeps the
    poll from returning.
  */
  lemma {:induction false} ZeroWritesNeverEndThePoll(st: WriteState, k: Sink)
    requires st.Writing? && st.buf != [] && forall i :: 0 <= i < |k.script| ==> k.script[i] == Accept(0)
    ensures PollWriteHeader(st, k) == WriteHeaderOutcome(st, k.(script := []), WriteWait)
    decreases |k.script|
  {
    if k.script == [] {
    } else {
      var (k', p) := InnerWrite(k, st.buf);
      assert k'.written == k.written && st.buf[0..] == st.buf;
      ZeroWritesNeverEndThePoll(st, k');
    }
  }

  /** What the inner writer is ready to take before it first waits or fails. */
  function Taken(script: seq<WriteEvent>): nat {
    if script == [] || !script[0].Accept? then 0 else script[0].n + Taken(script[1..])
  }

  /** How the first event ends a poll in which the inner writer takes nothing more. */
  function Answer(script: seq<WriteEvent>): WritePoll {
    if script == [] then WriteWait
    else
      match script[0]
      case Accept(_) => Answer(script[1..])
      case Stall => WriteWait
      case Fault(e) => WriteBroke(e)
  }

  /**
    Exactly when one poll writes the rest of the header, for any inner writer: if
    and only if it takes that many bytes before it first waits or fails (and is
    ready at all, when there is nothing left to write). Otherwise the poll ends as
    the inner writer does, with what it took off the front of the header.
  */
  lemma {:induction false} HeaderIsWrittenExactlyIfTaken(st: WriteState, k: Sink)
    requires st.Writing?
    ensures var o, n := PollWriteHeader(st, k), Taken(k.script);
      && (o.st.Idle? <==> k.script != [] && k.script[0].Accept? && n >= |st.buf|)
      && (o.st.Idle? ==> o.poll == WriteDone(0))
      && (o.st.Writing? ==>
            && o.poll == Answer(k.script)
            && n <= |st.buf| && o.st.buf == st.buf[n..] && o.sink.written == k.written + st.buf[..n])
    decreases |k.script|
  {
    hide Taken, PollWriteHeader, InnerWrite, Answer;
    TakenUnfolds(k.script);
    if k.script == [] || !k.script[0].Accept? {
      NotReady(st, k);
    } else {
      var n := Min(k.script[0].n, |st.buf|);
      var rest, k' := st.buf[n..], Sink(k.written + st.buf[..n], k.script[1..]);
      OneWrite(st, k);
      if rest == [] {
      } else {
        HeaderIsWrittenExactlyIfTaken(Writing(rest), k');
        TakenUnfolds(k'.script);
        if Taken(k'.script) <= |rest| {
          CutTwice(k.written, st.buf, n, Taken(k'.script));
        }
      }
    }
  }

  lemma TakenUnfolds(script: seq<WriteEvent>)
    ensures Taken(script) == if script == [] || !script[0].Accept? then 0 else script[0].n + Taken(script[1..])
    ensures script != [] && script[0].Accept? ==> Answer(script) == Answer(script[1..])
  {
  }

  lemma NotReady(st: WriteState, k: Sink)
    requires st.Writing? && (k.script == [] || !k.script[0].Accept?)
    ensures PollWriteHeader(st, k).poll == Answer(k.script)
    ensures PollWriteHeader(st, k).st == st && PollWriteHeader(st, k).sink.written == k.written
    ensures st.buf[0..] == st.buf && k.written + st.buf[..0] == k.written
  {
  }

  lemma OneWrite(st: WriteState, k: Sink)
    requires st.Writing? && k.script != [] && k.script[0].Accept?
    ensures var n := Min(k.script[0].n, |st.buf|);
      var k' := Sink(k.written + st.buf[..n], k.script[1..]);
      PollWriteHeader(st, k) ==
        if st.buf[n..] == [] then WriteHeaderOutcome(Idle, k', WriteDone(0)) else PollWriteHeader(Writing(st.buf[n..]), k')
  {
  }

  lemma CutTwice(written: seq<byte>, buf: seq<byte>, n: nat, m: nat)
    requires n <= |buf| && m <= |buf[n..]|
    ensures buf[n..][m..] == buf[n + m..]
    ensures written + buf[..n] + buf[n..][..m] == written + buf[..n + m]
  {
    assert buf[..n] + buf[n..][..m] == buf[..n + m];
  }

  /**
    A write on the stream. While the header is not all written, it passes on how the
    inner writer ended the poll and takes no payload. Once it is, in the same poll or
    earlier, the payload is offered to the inner writer and the answer is the inner
    writer's own.
  */
  lemma PayloadIsOffered(st: WriteState, k: Sink, payload: seq<byte>)
    ensures var o, h := PollWritePayload(st, k, payload), PollWriteHeader(st, k);
      && (st.Idle? ==> h == WriteHeaderOutcome(Idle, k, WriteDone(0)))
      && if h.st.Writing? then o == h && !o.poll.WriteDone?
         else
           && o.st == Idle
           && if h.sink.script == [] then o.poll == WriteWait && o.sink == h.sink
              else
                && o.sink.script == h.sink.script[1..]
                && match h.sink.script[0]
                   case Stall => o.poll == WriteWait && o.sink.written == h.sink.written
                   case Fault(e) => o.poll == WriteBroke(e) && o.sink.written == h.sink.written
                   case Accept(m) =>
                     var n := if m <= |payload| then m else |payload|;
                     o.poll == WriteDone(n) && o.sink.written == h.sink.written + payload[..n]
  {
    IdleWritesNothing(k);
    hide PollWriteHeader;
    if st.Writing? {
      WriteHeaderKeeps(k.written + st.buf, st, k);
    }
  }

  // ---- both sides together ----

  /** `enc` is an encoding of `h`: whatever follows it, the parser finds `h` in front. */
  ghost predicate Encodes<H(!new), E(!new)>(parse: seq<byte> -> ParseResult<H, E>, h: H, enc: seq<byte>) {
    forall b :: Parseable(b) && enc <= b ==> parse(b) == Parsed(h, |enc|)
  }

  lemma OnlyThatHeader<H(!new), E(!new)>(parse: seq<byte> -> ParseResult<H, E>, h: H, enc: seq<byte>, payload: seq<byte>, input: seq<byte>, k: nat, v: ParseResult<H, E>)
    requires PrefixStable(parse) && Encodes(parse, h, enc) && input <= enc + payload
    requires Says(parse, input, k, v) && v.Parsed?
    ensures v == Parsed(h, |enc|)
  {
    var a := input[..k];
    if |enc| <= k {
      assert enc <= a;
    } else {
      var b := enc + [0];
      assert a <= b && Parseable(b);
    }
  }

  /**
    A header crosses the wire. One stream writes the encoded header `enc` and
    payloads; another reads any prefix of what the first one's inner writer
    received. A header it reports is the one that was written, and the bytes it
    delivers are payload, in order. Under an inner reader that neither fails nor
    ends early it reports it for certain when all of `enc` is among the first 536
    bytes and these can be parsed: they are at least 16 and do not end in a CR. A
    header shorter than that, with nothing after it, is missed.
  */
  lemma HeaderCrossesTheWire<H(!new), E(!new)>(
      parse: seq<byte> -> ParseResult<H, E>, h: H, enc: seq<byte>,
      writes: seq<WriteEvent>, payloads: seq<seq<byte>>, input: seq<byte>, arrivals: seq<ReadEvent>, cs: seq<Call>)
    requires PrefixStable(parse) && Encodes(parse, h, enc)
    requires input <= DoWrites(Outgoing(Writing(enc), Sink([], writes), []), payloads).sink.written
    ensures var w := DoWrites(Outgoing(Writing(enc), Sink([], writes), []), payloads);
      var r := DoCalls(parse, NewIncoming(input, arrivals), cs);
      && (r.st.Found? && r.st.h.Some? ==> r.st.h.value == h && r.delivered + r.st.buf + r.src.unread <= w.accepted)
      && (Honest(arrivals) && Parseable(Head(input)) && enc <= Head(input) && !r.st.Reading? ==>
            r.st.Found? && r.st.h == Some(h))
      && (|input| < MIN_HEADER_LEN ==> Reported(r.st) == Ok(None))
  {
    var w := DoWrites(Outgoing(Writing(enc), Sink([], writes), []), payloads);
    var r := DoCalls(parse, NewIncoming(input, arrivals), cs);
    HeaderIsWrittenOnce(enc, writes, payloads);
    HeaderStreamIsTransparent(parse, input, arrivals, cs);
    if |input| < MIN_HEADER_LEN {
      ShortInputHasNoHeader(parse, input, arrivals, cs);
    }
    if Honest(arrivals) && Parseable(Head(input)) && enc <= Head(input) {
      VerdictIsOneShot(parse, input, arrivals, cs);
      assert parse(Head(input)) == Parsed(h, |enc|);
    }
    hide DoCalls, DoWrites, PrefixStable, Encodes, Honest, Parseable, Says, Head;
    if r.st.Found? && r.st.h.Some? {
      var rest := r.delivered + r.st.buf + r.src.unread;
      RemovedHeader(parse, h, enc, w.accepted, input, r.st.h.value, rest);
    }
  }

  lemma RemovedHeader<H(!new), E(!new)>(parse: seq<byte> -> ParseResult<H, E>, h: H, enc: seq<byte>, payload: seq<byte>, input: seq<byte>, found: H, rest: seq<byte>)
    requires PrefixStable(parse) && Encodes(parse, h, enc) && input <= enc + payload
    requires Removed(parse, input, found, rest)
    ensures found == h && rest <= payload
  {
    hide PrefixStable, Encodes, Parseable;
    var k: nat, n: nat :| Says(parse, input, k, Parsed(found, n)) && n <= k && rest == input[n..];
    OnlyThatHeader(parse, h, enc, payload, input, k, Parsed(found, n));
    assert input[|enc|..] <= (enc + payload)[|enc|..] == payload;
  }

  // ---- the objects ----

  /** The inner stream. */
  class Inner {
    var source: Source
    var sink: Sink

    constructor (source: Source, sink: Sink)
      ensures this.source == source && this.sink == sink
    {
      this.source, this.sink := source, sink;
    }

    method PollRead(room: nat) returns (bytes: seq<byte>, poll: ReadPoll)
      modifies this
      ensures Taken(source, bytes, poll) == InnerRead(old(source), room) && sink == old(sink)
    {
      var t := InnerRead(source, room);
      source := t.src;
      return t.bytes, t.poll;
    }

    method PollWrite(buf: seq<byte>) returns (poll: WritePoll)
      modifies this
      ensures (sink, poll) == InnerWrite(old(sink), buf) && source == old(source)
    {
      var (k, p) := InnerWrite(sink, buf);
      sink := k;
      return p;
    }
  }

  class ProxyStream<H, E> {
    const parse: seq<byte> -> ParseResult<H, E>
    const inner: Inner
    var readState: ReadState<H, E>
    var writeState: WriteState

    constructor Incoming(inner: Inner, parse: seq<byte> -> ParseResult<H, E>)
      ensures this.inner == inner && this.parse == parse
      ensures readState == Reading(None, []) && writeState == Idle
    {
      this.inner, this.parse := inner, parse;
      readState, writeState := Reading(None, []), Idle;
    }

    /** `header` is the encoded header. */
    constructor Outgoing(inner: Inner, parse: seq<byte> -> ParseResult<H, E>, header: seq<byte>)
      ensures this.inner == inner && this.parse == parse
      ensures readState == Off && writeState == Writing(header)
    {
      this.inner, this.parse := inner, parse;
      readState, writeState := Off, Writing(header);
    }

    constructor Disabled(inner: Inner, parse: seq<byte> -> ParseResult<H, E>)
      ensures this.inner == inner && this.parse == parse
      ensures readState == Off && writeState == Idle
    {
      this.inner, this.parse := inner, parse;
      readState, writeState := Off, Idle;
    }

    method PollReadHeaderOnce() returns (poll: HeaderPoll)
      modifies this, inner
      ensures writeState == old(writeState) && inner.sink == old(inner.sink)
      ensures HeaderOutcome(readState, inner.source, poll) == PollHeader(parse, old(readState), old(inner.source))
    {
      hide Parseable, InnerRead;
      ghost var goal := PollHeader(parse, readState, inner.source);
      while readState.Reading?
        invariant writeState == old(writeState) && inner.sink == old(inner.sink)
        invariant PollHeader(parse, readState, inner.source) == goal
        decreases |inner.source.script|, readState.Reading?
      {
        var last, buf := readState.last, readState.buf;
        if |buf| < MAX_HEADER_LEN {
          var bytes, p := inner.PollRead(MAX_HEADER_LEN - |buf|);
          buf := buf + bytes;
          if p.ReadBroke? || (p.ReadDone? && bytes == []) {
            readState := if last.Some? then Refused(last.value, buf) else Found(None, buf);
            return if p.ReadBroke? then HeaderBroke(p.e) else HeaderDone;
          }
          if p.ReadWait? {
            readState := Reading(last, buf);
            return HeaderWait;
          }
        }
        readState := Examine(parse, last, buf);
        if readState.Reading? && |buf| >= MAX_HEADER_LEN {
          return HeaderSpins;
        }
      }
      poll := HeaderDone;
    }

    method PollRead(room: nat) returns (bytes: seq<byte>, poll: PayloadPoll)
      modifies this, inner
      ensures writeState == old(writeState) && inner.sink == old(inner.sink)
      ensures PayloadOutcome(readState, inner.source, bytes, poll) == PollPayload(parse, old(readState), old(inner.source), room)
    {
      hide PollHeader, InnerRead;
      var p := PollReadHeaderOnce();
      match p {
        case HeaderWait => return [], PayloadWait;
        case HeaderBroke(e) => return [], PayloadBroke(e);
        case HeaderSpins => return [], PayloadSpins;
        case HeaderDone =>
      }
      if (readState.Refused? || readState.Found?) && readState.buf != [] {
        var n := Min(|readState.buf|, room);
        bytes := readState.buf[..n];
        readState := WithRemainder(readState, readState.buf[n..]);
        return bytes, PayloadDone;
      }
      var q: ReadPoll;
      bytes, q := inner.PollRead(room);
      poll := PayloadOf(q);
    }

    method PollWriteHeaderOnce() returns (poll: WritePoll)
      modifies this, inner
      ensures readState == old(readState) && inner.source == old(inner.source)
      ensures WriteHeaderOutcome(writeState, inner.sink, poll) == PollWriteHeader(old(writeState), old(inner.sink))
    {
      hide InnerWrite;
      ghost var goal := PollWriteHeader(writeState, inner.sink);
      while writeState.Writing?
        invariant readState == old(readState) && inner.source == old(inner.source)
        invariant PollWriteHeader(writeState, inner.sink) == goal
        decreases |inner.sink.script|
      {
        var buf := writeState.buf;
        var p := inner.PollWrite(buf);
        if !p.WriteDone? {
          return p;
        }
        buf := buf[p.n..];
        if buf == [] {
          writeState := Idle;
          return WriteDone(0);
        }
        writeState := Writing(buf);
      }
      poll := WriteDone(0);
    }

    method PollWrite(payload: seq<byte>) returns (poll: WritePoll)
      modifies this, inner
      ensures readState == old(readState) && inner.source == old(inner.source)
      ensures WriteHeaderOutcome(writeState, inner.sink, poll) == PollWritePayload(old(writeState), old(inner.sink), payload)
    {
      hide InnerWrite, PollWriteHeader;
      poll := PollWriteHeaderOnce();
      if poll.WriteDone? {
        poll := inner.PollWrite(payload);
      }
    }
  }
}
