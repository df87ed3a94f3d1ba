/**
  One muxado stream (muxado/src/stream.rs). The functions give each poll as a
  value; the class runs it on the stream's fields and channels.
*/
module Streams {
  import opened Wrappers
  import opened Constrained
  import opened MuxErrors
  import opened Frames
  import opened Windows
  import opened StreamOutput

  datatype StreamState = StreamState(
    maxWindow: nat,
    window: nat,
    readBuf: seq<byte>,
    writeClosed: Option<Error>,
    dataReadClosed: bool,
    needsSyn: bool)

  function NewStream(window: nat, needsSyn: bool): StreamState {
    StreamState(window, window, [], None, false, needsSyn)
  }

  /** The frames a stream can take; any other body is a panic in `handle_frame`. */
  predicate StreamFrame(f: Frame) {
    f.body.Data? || f.body.WndInc?
  }

  predicate StreamFrames(fs: seq<Frame>) {
    forall i :: 0 <= i < |fs| ==> StreamFrame(fs[i])
  }

  /** `handle_frame`. */
  function Absorb(st: StreamState, f: Frame): StreamState
    requires StreamFrame(f)
  {
    var st := if f.IsFin() then st.(dataReadClosed := true) else st;
    match f.body
    case Data(bs) => st.(readBuf := st.readBuf + bs)
    case WndInc(amount) => st.(window := Raise(st.window, st.maxWindow, amount))
  }

  /** What is left of the stream and its inbox after receiving, and whether the wait is over. */
  datatype Received = Received(st: StreamState, inbox: seq<Frame>, ready: bool)

  /** `poll_recv_frame_type`: take frames until one of the wanted type, or the end. */
  function RecvType(st: StreamState, inbox: seq<Frame>, closed: bool, target: HeaderType): (r: Received)
    requires StreamFrames(inbox)
    ensures |r.inbox| <= |inbox| && StreamFrames(r.inbox)
    ensures r.ready ==> |r.inbox| < |inbox| || r.st.dataReadClosed
    ensures !r.ready ==> r.inbox == [] && !closed
    decreases |inbox|
  {
    if inbox == [] then
      if closed then Received(st.(dataReadClosed := true), [], true) else Received(st, [], false)
    else
      var st := Absorb(st, inbox[0]);
      if inbox[0].header.typ == target then Received(st, inbox[1..], true)
      else RecvType(st, inbox[1..], closed, target)
  }

  /** Bytes handed over by one read: the length goes through `as u32` and the 31-bit clamp. */
  function ReadLen(buffered: nat, room: nat): (n: nat)
    ensures n <= buffered && n <= room && n <= WNDINC_MAX
    ensures 0 < buffered < U32_LIMIT && 0 < room ==> 0 < n
  {
    Clamp(AsU32(Min(buffered, room)), WNDINC_MAX)
  }

  /** Bytes accepted by one write. */
  function WriteLen(window: nat, offered: nat): (n: nat)
    ensures n <= window && n <= offered && n <= LENGTH_MAX
    ensures 0 < window && 0 < offered < U32_LIMIT ==> 0 < n
    ensures window <= LENGTH_MAX && offered <= LENGTH_MAX ==> n == Min(window, offered)
  {
    Min(window, Clamp(AsU32(offered), LENGTH_MAX))
  }

  function WndIncFrame(amount: WndIncrement): Frame {
    FromBody(WndInc(amount))
  }

  function DataFrame(bs: seq<byte>, syn: bool): Frame {
    if syn then FromBody(Data(bs)).WithSyn() else FromBody(Data(bs))
  }

  datatype ReadResult = ReadPending | ReadOk(bytes: seq<byte>)

  datatype ReadOutcome = ReadOutcome(st: StreamState, inbox: seq<Frame>, sink: Sink, result: ReadResult)

  /** `poll_read` into a buffer with `room` free bytes. */
  function PollRead(st: StreamState, inbox: seq<Frame>, closed: bool, sink: Sink, room: nat, slot: bool): (o: ReadOutcome)
    requires StreamFrames(inbox)
    ensures |o.inbox| <= |inbox| && StreamFrames(o.inbox)
    decreases |inbox|, !st.dataReadClosed
  {
    if st.readBuf != [] then
      var n := ReadLen(|st.readBuf|, room);
      if n == 0 then ReadOutcome(st, inbox, sink, ReadOk([]))
      else
        var (k, p) := SinkReady(sink, slot);
        if p.Pending? then ReadOutcome(st, inbox, k, ReadPending)
        else
          var k := if p.result.Ok? then SinkSend(k, WndIncFrame(n)).0 else k;
          ReadOutcome(st.(readBuf := st.readBuf[n..]), inbox, k, ReadOk(st.readBuf[..n]))
    else if st.dataReadClosed then ReadOutcome(st, inbox, sink, ReadOk([]))
    else
      var r := RecvType(st, inbox, closed, DataType);
      if !r.ready then ReadOutcome(r.st, r.inbox, sink, ReadPending)
      else PollRead(r.st, r.inbox, closed, sink, room, slot)
  }

  datatype WriteResult = WritePending | WriteOk(n: nat) | BrokenPipe(e: Error) | ConnectionReset(e: Error)

  datatype WriteOutcome = WriteOutcome(st: StreamState, inbox: seq<Frame>, sink: Sink, result: WriteResult)

  /** The second half of `poll_write`: queue as much of `buf` as the window and one frame allow. */
  function Offer(st: StreamState, inbox: seq<Frame>, sink: Sink, buf: seq<byte>, slot: bool): (o: WriteOutcome)
    ensures o.inbox == inbox
    ensures o.result.WriteOk? ==> o.result.n <= |buf|
  {
    var (k, p) := SinkReady(sink, slot);
    match p
    case Pending => WriteOutcome(st, inbox, k, WritePending)
    case Ready(Err(e)) => WriteOutcome(st.(writeClosed := Some(e)), inbox, k, ConnectionReset(e))
    case Ready(Ok(_)) =>
      var n := WriteLen(st.window, |buf|);
      var (k, sent) := SinkSend(k, DataFrame(buf[..n], st.needsSyn));
      var st := st.(needsSyn := false);
      match sent
      case Err(e) => WriteOutcome(st.(writeClosed := Some(e)), inbox, k, ConnectionReset(e))
      case Ok(_) => WriteOutcome(st.(window := st.window - n), inbox, k, WriteOk(n))
  }

  /** `poll_write`: without credit, wait for some first. */
  function PollWrite(st: StreamState, inbox: seq<Frame>, closed: bool, sink: Sink, buf: seq<byte>, slot: bool): (o: WriteOutcome)
    requires StreamFrames(inbox)
    ensures |o.inbox| <= |inbox| && StreamFrames(o.inbox)
    ensures o.result.WriteOk? ==> o.result.n <= |buf|
  {
    if st.writeClosed.Some? then WriteOutcome(st, inbox, sink, BrokenPipe(st.writeClosed.value))
    else
      var r := if st.window == 0 then RecvType(st, inbox, closed, WndIncType) else Received(st, inbox, true);
      if !r.ready then WriteOutcome(r.st, r.inbox, sink, WritePending)
      else Offer(r.st, r.inbox, sink, buf, slot)
  }

  datatype CloseOutcome = CloseOutcome(st: StreamState, sink: Sink, result: Poll)

  /** `poll_flush`. */
  function PollFlush(st: StreamState, sink: Sink, slot: bool, broken: bool): CloseOutcome {
    var (k, p) := SinkFlush(sink, slot, broken);
    if p.Ready? && p.result.Err? then CloseOutcome(st.(writeClosed := Some(p.result.error)), k, p)
    else CloseOutcome(st, k, p)
  }

  /** `poll_shutdown`: send one FIN, then flush. */
  function PollShutdown(st: StreamState, sink: Sink, slot: bool, flushSlot: bool, broken: bool): CloseOutcome {
    if st.writeClosed.Some? then PollFlush(st, sink, flushSlot, broken)
    else
      var (k, p) := SinkReady(sink, slot);
      match p
      case Pending => CloseOutcome(st, k, Pending)
      case Ready(Err(e)) => CloseOutcome(st.(writeClosed := Some(e)), k, p)
      case Ready(Ok(_)) =>
        var (k, sent) := SinkSend(k, FinFrame());
        match sent
        case Err(e) => CloseOutcome(st.(writeClosed := Some(e)), k, Ready(Err(e)))
        case Ok(_) => PollFlush(st.(writeClosed := Some(StreamClosed)), k, flushSlot, broken)
  }

  // ---- the object ----

  class Stream {
    const window: Window
    var readBuf: seq<byte>
    const fin: Channel
    const fout: StreamSender
    var writeClosed: Option<Error>
    var dataReadClosed: bool
    var needsSyn: bool

    ghost predicate Valid()
      reads this, window, fin, fout, fout.sink, fout.closer
    {
      && window.Valid()
      && fin != fout.sink
      && StreamFrames(fin.items)
    }

    ghost function State(): StreamState
      reads this, window
    {
      StreamState(window.maxSize, window.size, readBuf, writeClosed, dataReadClosed, needsSyn)
    }

    constructor (fout: StreamSender, fin: Channel, windowSize: nat, needsSyn: bool)
      requires fin != fout.sink && StreamFrames(fin.items)
      ensures Valid() && this.fin == fin && this.fout == fout && fresh(window)
      ensures State() == NewStream(windowSize, needsSyn)
    {
      this.window := new Window(windowSize);
      this.fin := fin;
      this.fout := fout;
      this.readBuf := [];
      this.writeClosed := None;
      this.dataReadClosed := false;
      this.needsSyn := needsSyn;
    }

    method HandleFrame(frame: Frame) returns (typ: HeaderType)
      requires Valid() && StreamFrame(frame)
      modifies this, window
      ensures Valid() && State() == Absorb(old(State()), frame) && typ == frame.header.typ
      ensures readBuf == old(readBuf) + (if frame.body.Data? then frame.body.data else [])
      ensures window.size == if frame.body.WndInc? then Min(old(window.size) + frame.body.inc, window.maxSize) else old(window.size)
      ensures dataReadClosed == (old(dataReadClosed) || frame.header.flags.fin)
    {
      if frame.IsFin() {
        dataReadClosed := true;
      }
      match frame.body {
        case Data(bs) => readBuf := readBuf + bs;
        case WndInc(amount) => window.Inc(amount);
      }
      typ := frame.header.typ;
    }

    /** True when the wait is over, false for Pending. */
    method PollRecvFrameType(target: HeaderType) returns (ready: bool)
      requires Valid()
      modifies this, window, fin
      ensures Valid() && fin.senderClosed == old(fin.senderClosed) && fin.receiverDropped == old(fin.receiverDropped)
      ensures Received(State(), fin.items, ready)
           == RecvType(old(State()), old(fin.items), old(fin.senderClosed), target)
    {
      hide Absorb;
      ghost var goal := RecvType(State(), fin.items, fin.senderClosed, target);
      while fin.items != []
        invariant Valid() && fin.senderClosed == old(fin.senderClosed) && fin.receiverDropped == old(fin.receiverDropped)
        invariant RecvType(State(), fin.items, fin.senderClosed, target) == goal
        decreases |fin.items|
      {
        var frame := fin.items[0];
        fin.items := fin.items[1..];
        var typ := HandleFrame(frame);
        if typ == target {
          return true;
        }
      }
      if fin.senderClosed {
        dataReadClosed := true;
        return true;
      }
      ready := false;
    }

    /** False for Pending; a closed sink counts as success. */
    method PollSendWndInc(amount: WndIncrement, slot: bool) returns (ready: bool)
      requires Valid()
      modifies fout.closer, fout.sink
      ensures Valid() && fin.items == old(fin.items)
      ensures var (k, p) := SinkReady(old(fout.Value()), slot);
        && ready == p.Ready?
        && fout.Value() == if p.Ready? && p.result.Ok? then SinkSend(k, WndIncFrame(amount)).0 else k
      ensures
        var open := old(fout.closer.code) == 0 && !fout.sink.receiverDropped;
        && ready == (slot || !open)
        && fout.sink.items == old(fout.sink.items) +
             if open && slot then [Frame(Header(4, WndIncType, Flags(false, false), 0), WndInc(amount))] else []
    {
      var p := fout.PollReady(slot);
      if p.Pending? {
        return false;
      }
      if p.result.Err? {
        return true;
      }
      var _ := fout.StartSend(WndIncFrame(amount));
      ready := true;
    }

    method PollReadInto(room: nat, slot: bool) returns (result: ReadResult)
      requires Valid()
      modifies this, window, fin, fout.closer, fout.sink
      ensures Valid() && fin.senderClosed == old(fin.senderClosed)
      ensures ReadOutcome(State(), fin.items, fout.Value(), result)
           == PollRead(old(State()), old(fin.items), old(fin.senderClosed), old(fout.Value()), room, slot)
    {
      hide RecvType, WndIncFrame, ReadLen;
      ghost var goal := PollRead(State(), fin.items, fin.senderClosed, fout.Value(), room, slot);
      while true
        invariant Valid() && fin.senderClosed == old(fin.senderClosed) && fout.Value() == old(fout.Value())
        invariant PollRead(State(), fin.items, fin.senderClosed, fout.Value(), room, slot) == goal
        decreases |fin.items|, !dataReadClosed
      {
        if readBuf != [] {
          var n := ReadLen(|readBuf|, room);
          if n > 0 {
            var ready := PollSendWndInc(n, slot);
            if !ready {
              return ReadPending;
            }
            result := ReadOk(readBuf[..n]);
            readBuf := readBuf[n..];
            return;
          }
          return ReadOk([]);
        }
        if dataReadClosed {
          return ReadOk([]);
        }
        var ready := PollRecvFrameType(DataType);
        if !ready {
          return ReadPending;
        }
      }
    }

    method OfferChunk(buf: seq<byte>, slot: bool) returns (result: WriteResult)
      requires Valid()
      modifies this, window, fout.closer, fout.sink
      ensures Valid() && fin.senderClosed == old(fin.senderClosed) && fin.items == old(fin.items)
      ensures WriteOutcome(State(), fin.items, fout.Value(), result)
           == Offer(old(State()), fin.items, old(fout.Value()), buf, slot)
    {
      hide DataFrame, WriteLen, ErrorOf, StreamFrames, SinkSend;
      var p := fout.PollReady(slot);
      if p.Pending? {
        return WritePending;
      }
      if p.result.Err? {
        writeClosed := Some(p.result.error);
        return ConnectionReset(p.result.error);
      }
      var sendLen := WriteLen(window.Capacity(), |buf|);
      var frame := DataFrame(buf[..sendLen], needsSyn);
      needsSyn := false;
      var r := fout.StartSend(frame);
      if r.Err? {
        writeClosed := Some(r.error);
        return ConnectionReset(r.error);
      }
      var dec := window.Dec(sendLen);
      assert dec == sendLen;
      result := WriteOk(sendLen);
    }

    method PollWriteFrom(buf: seq<byte>, slot: bool) returns (result: WriteResult)
      requires Valid()
      modifies this, window, fin, fout.closer, fout.sink
      ensures Valid() && fin.senderClosed == old(fin.senderClosed)
      ensures WriteOutcome(State(), fin.items, fout.Value(), result)
           == PollWrite(old(State()), old(fin.items), old(fin.senderClosed), old(fout.Value()), buf, slot)
    {
      hide RecvType, Offer;
      if writeClosed.Some? {
        return BrokenPipe(writeClosed.value);
      }
      if window.Capacity() == 0 {
        var ready := PollRecvFrameType(WndIncType);
        if !ready {
          return WritePending;
        }
      }
      result := OfferChunk(buf, slot);
    }

    method PollFlushSink(slot: bool, broken: bool) returns (p: Poll)
      requires Valid()
      modifies this, fout.closer
      ensures Valid() && fin.items == old(fin.items)
      ensures CloseOutcome(State(), fout.Value(), p) == PollFlush(old(State()), old(fout.Value()), slot, broken)
      ensures
        var code := old(fout.closer.code);
        if code != 0 || (broken && fout.sink.receiverDropped) then
          p == Ready(Err(if code != 0 then ErrorOf(code) else SessionClosed)) && writeClosed == Some(p.result.error)
        else p == (if slot then Ready(Ok(())) else Pending) && writeClosed == old(writeClosed)
    {
      p := fout.PollFlush(slot, broken);
      if p.Ready? && p.result.Err? {
        writeClosed := Some(p.result.error);
      }
    }

    method PollShutdownSink(slot: bool, flushSlot: bool, broken: bool) returns (p: Poll)
      requires Valid()
      modifies this, fout.closer, fout.sink
      ensures Valid() && fin.items == old(fin.items)
      ensures CloseOutcome(State(), fout.Value(), p)
           == PollShutdown(old(State()), old(fout.Value()), slot, flushSlot, broken)
      ensures fout.sink.items ==
        if old(writeClosed).None? && old(fout.closer.code) == 0 && !fout.sink.receiverDropped && slot
        then old(fout.sink.items) + [Frame(Header(0, DataType, Flags(true, false), 0), Data([]))]
        else old(fout.sink.items)
      ensures
        var code, open, gone := old(fout.closer.code), old(writeClosed).None?, fout.sink.receiverDropped;
        if code != 0 || (gone && (open || broken)) then
          p == Ready(Err(if code != 0 then ErrorOf(code) else SessionClosed)) && writeClosed == Some(p.result.error)
        else
          && p == (if (slot || !open) && flushSlot then Ready(Ok(())) else Pending)
          && writeClosed == (if open && slot then Some(StreamClosed) else old(writeClosed))
    {
      if writeClosed.None? {
        p := fout.PollReady(slot);
        if p.Pending? {
          return;
        }
        var r := p.result;
        if r.Ok? {
          r := fout.StartSend(FinFrame());
        }
        if r.Err? {
          writeClosed := Some(r.error);
          return Ready(r);
        }
        writeClosed := Some(StreamClosed);
      }
      p := PollFlushSink(flushSlot, broken);
    }
  }
}
