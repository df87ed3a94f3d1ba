/**
  How a stream ends for the peer: what the writer makes of a stream that was shut
  down, dropped or reset.
*/
module Endings {
  import opened Wrappers
  import opened Constrained
  import opened MuxErrors
  import opened Frames
  import opened Codec
  import opened Streams
  import opened StreamManagers
  import opened Flows
  import opened StreamFacts
  import opened StreamOutcomes
  import opened Halves
  import opened HalfInvariants
  import opened Endpoints
  import opened EndpointInvariants
  import opened EndpointTheorems

  // ---- one poll of a stream ----

  /** The half after its front frame was taken for the writer. */
  predicate Popped(h: Half, g: Half)
    requires h.handle.Some? && h.port.outbox != []
  {
    var f, handle := h.port.outbox[0], h.handle.value;
    && g.handle == Some(Handle(handle.needsFin && !f.header.flags.fin, handle.dataWriteClosed,
                               handle.window + if f.body.WndInc? then f.body.inc else 0))
    && g.port == h.port.(outbox := h.port.outbox[1..], emitted := h.port.emitted + [f])
    && g.tasks == h.tasks
  }

  /** The stream was removed from the manager; nothing of it is queued any more. */
  predicate Removed(h: Half, g: Half, last: seq<Frame>) {
    && g.handle.None? && g.tasks + 1 == h.tasks
    && g.port == h.port.(outbox := [], emitted := h.port.emitted + last, sent := g.port.sent)
  }

  /** The empty DATA frame that ends a stream. */
  function EndOf(id: StreamID): Frame {
    Frame(Header(0, DataType, Flags(true, false), id), Data([]))
  }

  /**
    The outcome of a poll of a ready stream. A closed sink: the stream is removed
    with what it had queued, and nothing is sent. A queued frame: exactly that one,
    with the stream's id on it; a WNDINC returns window to the receiver, a FIN
    settles that none is owed. A dropped stream with an empty queue: it is removed,
    and exactly when a FIN is still owed one empty DATA frame with FIN is sent.
  */
  predicate PollOutcome(h: Half, id: StreamID, sends: bool, g: Half, wire: seq<Frame>)
    requires h.handle.Some?
  {
    if h.port.code != 0 then
      Removed(h, g, []) && g.port.sent == h.port.sent && wire == []
    else if h.port.outbox != [] then
      var f := h.port.outbox[0];
      Popped(h, g) && wire == if sends then [Frame(f.header.(streamId := id), f.body)] else []
    else if h.handle.value.needsFin then
      Removed(h, g, [EndOf(0)]) && g.port.sent == h.port.sent + [FIN] && wire == if sends then [EndOf(id)] else []
    else
      Removed(h, g, []) && g.port.sent == h.port.sent && wire == []
  }

  /** What `poll_next` makes of a ready stream, and what the writer sends: nothing gets out for stream 0. */
  lemma PollOutcomes(client: bool, window: nat, limit: nat, ins: seq<Input>, e: Endpoint, id: StreamID, io: bool)
    requires Reached(client, window, limit, ins, e) && Enabled(e, PollStream(id, io))
    ensures var o := Step(e, PollStream(id, io));
      PollOutcome(HalfOf(e, id), id, io && id != 0, HalfOf(o.end, id), o.wire)
  {
    hide Reached, HalfOk, DoPoll, PollOutcome;
    var h := HalfOf(e, id);
    HalfIsOk(client, window, limit, ins, e, id);
    if h.port.code != 0 { ClosedSinkNeedsNoFin(client, window, limit, ins, e, id); }
    DoPollOutcomes(h, id, io, window);
    hide EndpointOk, AllHalves;
    ReachedIsOk(client, window, limit, ins, e);
    EndpointHalves(e);
    StepView(e, PollStream(id, io), id);
  }

  lemma DoPollOutcomes(h: Half, id: StreamID, io: bool, window: nat)
    requires HalfOk(h, window) && CanPoll(h) && h.handle.Some? && (h.port.code != 0 ==> !h.handle.value.needsFin)
    ensures var o := DoPoll(h, id, io); PollOutcome(h, id, io && id != 0, o.half, o.wire)
  {
    hide Flow, SynFirst, FinStops, FinLast, Conforming, WindowOk, EncodeHeader, EncodeBody, StreamFrames, AllFromWire;
    var p := h.port;
    OwnFramesConform([], false, 0);
    var f := if p.outbox != [] then p.outbox[0] else FinFrame();
    assert Conforming(f);
    ConformingEncodes(f, id);
    FlowOne(f.WithStreamId(id));
    FlowNone();
    assert p.emitted + [] == p.emitted && p.sent + [] == p.sent;
    assert p.outbox == [] ==> FrameFlow(EndOf(id)) == [FIN];
  }

  lemma ConformingEncodes(f: Frame, id: StreamID)
    requires Conforming(f)
    ensures Encode(f.WithStreamId(id)).Some? <==> id != 0
  {
    hide EncodeHeader, EncodeBody;
  }

  // ---- no end without notice ----

  /**
    The end of a stream is announced. A closed write side has queued its FIN, or the
    sink was closed by an error; and so has, while the session lives, a stream for
    which the manager owes no FIN any more, in particular one it has removed, among
    the frames it emitted.
  */
  predicate Announced(h: Half) {
    && (h.port.user.Some? && h.port.user.value.writeClosed.Some? ==> h.port.code != 0 || FIN in h.port.sent)
    && (h.made && h.writing && !h.goneAway && (h.handle.None? || !h.handle.value.needsFin) ==>
          h.port.code != 0 || FIN in Flow(h.port.emitted))
  }

  /** An RST whose error is "no error": it takes the duty to send a FIN away without closing the sink. */
  predicate Hushes(f: Frame) {
    f.body == Rst(NoError)
  }

  predicate LoudHand(h: Half) {
    h.hand.Some? && !h.hand.value.Marking? ==> !Hushes(h.hand.value.f)
  }

  lemma ReadAnnounces(h: Half, room: nat, slot: bool, window: nat)
    requires HalfOk(h, window) && Announced(h) && Usable(h)
    ensures Announced(DoRead(h, room, slot))
  {
    hide SenderOk, StreamFrames, AllFromWire, PollRead, Flow, Absorbed;
    var p := h.port;
    var st, k := p.user.value, SinkOf(h);
    var taken, mid := ReadFacts(st, p.inbox, InboxEnded(h), k, room, slot);
    assert mid.writeClosed == st.writeClosed by { AbsorbedKeeps(st, taken, mid); }
    assert p.code != 0 ==> PollRead(st, p.inbox, InboxEnded(h), k, room, slot).sink.code != 0;
  }

  lemma AbsorbedKeeps(st: StreamState, fs: seq<Frame>, out: StreamState)
    requires Absorbed(st, fs, out)
    ensures out.writeClosed == st.writeClosed
  {
  }

  lemma WriteAnnounces(h: Half, buf: seq<byte>, slot: bool, window: nat)
    requires HalfOk(h, window) && Announced(h) && Usable(h)
    ensures Announced(DoWrite(h, buf, slot))
  {
    hide SenderOk, StreamFrames, AllFromWire, PollWrite, Flow, Absorbed, FirstOfType, ErrorOf;
    var p := h.port;
    var st := p.user.value;
    var k := FindType(p.inbox, WndIncType);
    UntilEmpty(p.inbox, WndIncType, k);
    var mid := WriteOutcomes(st, p.inbox, InboxEnded(h), SinkOf(h), buf, slot, k);
    assert mid.writeClosed == st.writeClosed by {
      AbsorbedKeeps(st, if st.writeClosed.None? && st.window == 0 then Until(p.inbox, k) else [], mid);
    }
    hide Until;
  }

  lemma CloseAnnounces(h: Half, slot: bool, flushSlot: bool, broken: bool)
    requires Announced(h) && Usable(h)
    ensures Announced(DoFlush(h, flushSlot, broken)) && Announced(DoShutdown(h, slot, flushSlot, broken))
  {
    var p := h.port;
    var st, k := p.user.value, SinkOf(h);
    FlushOutcome(st, k, flushSlot, broken);
    ShutdownOutcome(st, k, slot, flushSlot, broken);
    FlowNone();
    FlowOne(EndOf(0));
    hide PollFlush, PollShutdown, Flow, ErrorOf;
    assert p.outbox[|p.outbox|..] == [] && (p.outbox + [EndOf(0)])[|p.outbox|..] == [EndOf(0)];
    assert FrameFlow(EndOf(0)) == [FIN];
  }

  lemma CallAnnounces(h: Half, call: Call, window: nat)
    requires HalfOk(h, window) && Announced(h) && (if call.Drop? then h.port.user.Some? else Usable(h))
    ensures Announced(CallStep(h, call)) && CallStep(h, call).hand == h.hand
  {
    hide HalfOk, Flow, PollRead, PollWrite, PollFlush, PollShutdown;
    match call
    case Read(room, slot) => ReadAnnounces(h, room, slot, window);
    case Write(buf, slot) => WriteAnnounces(h, buf, slot, window);
    case Flush(slot, broken) => CloseAnnounces(h, slot, slot, broken);
    case Shutdown(slot, flushSlot, broken) => CloseAnnounces(h, slot, flushSlot, broken);
    case Drop =>
  }

  lemma PollAnnounces(h: Half, id: StreamID, io: bool, window: nat)
    requires HalfOk(h, window) && Announced(h) && CanPoll(h) && h.handle.Some?
    ensures Announced(DoPoll(h, id, io).half) && DoPoll(h, id, io).half.hand == h.hand
  {
    hide SynFirst, FinStops, FinLast, Conforming, WindowOk, Encode, Flow;
    var p := h.port;
    var f := if p.outbox != [] then p.outbox[0] else FinFrame();
    OwnFramesConform([], false, 0);
    assert StreamFrame(f);
    FlowSnoc(p.emitted, f);
    assert f.IsFin() ==> FrameFlow(f)[|FrameFlow(f)| - 1] == FIN;
    assert p.emitted + [] == p.emitted;
  }

  /** Nothing about the end of the stream changes but what excuses it. */
  lemma QuietlyAnnounced(h: Half, g: Half)
    requires Announced(h)
    requires g.port.sent == h.port.sent && g.port.emitted == h.port.emitted && (h.port.code != 0 ==> g.port.code != 0)
    requires g.port.user == None || g.port.user == h.port.user
    requires g.made && g.writing && !g.goneAway && (g.handle.None? || !g.handle.value.needsFin) ==>
      h.made && h.writing && !h.goneAway && (h.handle.None? || !h.handle.value.needsFin)
    ensures Announced(g)
  {
    hide Flow;
  }

  lemma MadeAnnounces(h: Half, window: nat, needsSyn: bool)
    ensures Announced(Made(h, window, needsSyn)) && Made(h, window, needsSyn).hand == h.hand
  {
  }

  lemma TakeAnnounces(h: Half, f: Frame, full: bool, window: nat)
    requires Announced(h) && LoudHand(h) && !Hushes(f)
    ensures var g := DoTake(h, f, full, window).half; Announced(g) && LoudHand(g)
  {
    hide Announced, Undeliverable;
    MadeAnnounces(h, window, false);
    var m := if f.IsSyn() && !full then Made(h, window, false) else h;
    QuietlyAnnounced(m, DoTake(h, f, full, window).half);
  }

  lemma AcceptAnnounces(h: Half, ok: bool)
    requires Announced(h) && LoudHand(h) && h.hand.Some? && h.hand.value.Accepting?
    ensures var g := DoAccept(h, ok).half; Announced(g) && LoudHand(g)
  {
    hide Announced, Undeliverable;
    QuietlyAnnounced(h, DoAccept(h, ok).half);
  }

  /** A dispatch takes the duty to send a FIN away only by closing the sink, or at an RST without an error. */
  lemma DispatchOwes(handle: Option<Handle>, code: U32, open: bool, f: Frame, charge: nat, slot: bool)
    requires !Hushes(f)
    ensures var o := PollSend(handle, code, open, f, charge, slot);
      && (code != 0 ==> o.code == code)
      && (o.handle.Some? <==> handle.Some?)
      && (handle.Some? && handle.value.needsFin ==> o.handle.value.needsFin || o.code != 0)
  {
    hide BareFin;
    ErrorRoundTrip(StreamClosed);
    if f.body.Rst? { ErrorRoundTrip(f.body.error); }
    hide ErrorCode;
  }

  lemma SendAnnounces(h: Half, slot: bool)
    requires Announced(h) && LoudHand(h) && h.hand.Some? && h.hand.value.Sending?
    ensures var g := DoSend(h, slot).half; Announced(g) && LoudHand(g)
  {
    hide Flow, PollSend, Hushes;
    var Sending(f, charge) := h.hand.value;
    DispatchOwes(h.handle, h.port.code, h.port.user.Some? && !h.port.inboxClosed, f, charge, slot);
  }

  lemma QuietAnnounces(h: Half, e: Error, clear: bool)
    requires Announced(h)
    ensures Announced(DoGoAway(h, e, clear)) && DoGoAway(h, e, clear).hand == h.hand
    ensures Announced(DoStopReading(h)) && DoStopReading(h).hand == None
    ensures Announced(DoMark(h)) && DoMark(h).hand == None
    ensures Announced(DoCloseSender(h)) && DoCloseSender(h).hand == h.hand
    ensures !h.writing ==> Announced(DoForget(h)) && DoForget(h).hand == h.hand
  {
    hide Announced, ErrorCode;
    QuietlyAnnounced(h, DoGoAway(h, e, clear));
    QuietlyAnnounced(h, DoStopReading(h));
    QuietlyAnnounced(h, DoMark(h));
    QuietlyAnnounced(h, DoCloseSender(h));
    if !h.writing { QuietlyAnnounced(h, DoForget(h)); }
  }

  lemma FlagsAnnounce(h: Half, reading: bool, writing: bool)
    requires Announced(h) && (writing ==> h.writing)
    ensures Announced(h.(reading := reading, writing := writing))
  {
  }

  /** No step takes an RST without an error for this stream. */
  predicate Loud(i: Input, id: StreamID) {
    i.TakeFrame? && i.f.header.streamId == id ==> !Hushes(i.f)
  }

  lemma ReaderAnnounces(e: Endpoint, i: Input, id: StreamID)
    requires Enabled(e, i) && Announced(HalfOf(e, id)) && LoudHand(HalfOf(e, id)) && Loud(i, id)
    requires i.TakeFrame? || i.AcceptQueue? || i.SendPoll?
    ensures Announced(HalfStep(e, i, id)) && LoudHand(HalfStep(e, i, id))
  {
    hide DoTake, DoAccept, DoSend, Endpoints.TakeStep, Flow, Hushes;
    var h := HalfOf(e, id);
    FlagsAnnounce(h, HalfStep(e, i, id).reading, h.writing);
    match i
    case TakeFrame(f) => if f.header.streamId == id { TakeAnnounces(h, f, AtLimit(e), e.window); }
    case AcceptQueue(ok) => if e.reader.id == id { AcceptAnnounces(h, ok); }
    case SendPoll(slot) => if e.reader.id == id { SendAnnounces(h, slot); }
  }

  lemma StepAnnounces(e: Endpoint, i: Input, id: StreamID)
    requires EndpointOk(e) && Enabled(e, i) && Announced(HalfOf(e, id)) && LoudHand(HalfOf(e, id)) && Loud(i, id)
    ensures Announced(HalfStep(e, i, id)) && LoudHand(HalfStep(e, i, id))
  {
    hide EndpointOk, DoPoll, DoTake, DoAccept, DoSend, CallStep, DoGoAway, DoStopReading, DoMark, DoCloseSender, DoForget,
      Endpoints.TakeStep, AllHalves, HalfOk, Flow, Hushes;
    var h := HalfOf(e, id);
    var g := HalfStep(e, i, id);
    EndpointHalves(e);
    LinkedAt(e, id);
    hide Linked, HandOk;
    assert g.writing ==> h.writing by { WritingStops(e, i, id); }
    FlagsAnnounce(h, g.reading, g.writing);
    match i
    case OpenStream => MadeAnnounces(h, e.window, true);
    case App(j, call) => if j == id { CallAnnounces(h, call, e.window); }
    case PollStream(j, io) => if j == id { PollAnnounces(h, id, io, e.window); }
    case PollSystem(_) =>
      QuietAnnounces(h, SessionClosed, true);
      FlagsAnnounce(DoGoAway(h, SessionClosed, true), DoGoAway(h, SessionClosed, true).reading, false);
    case TakeFrame(_) => ReaderAnnounces(e, i, id);
    case AcceptQueue(_) => ReaderAnnounces(e, i, id);
    case SendPoll(_) => ReaderAnnounces(e, i, id);
    case ApplyGoAway => QuietAnnounces(h, e.reader.reason, false);
    case _ => QuietAnnounces(h, NoError, false);
  }

  /** A writer that has ended does not start again. */
  lemma WritingStops(e: Endpoint, i: Input, id: StreamID)
    requires Enabled(e, i)
    ensures HalfStep(e, i, id).writing ==> e.writing
  {
    hide PollTask, PollRead, PollWrite, PollFlush, PollShutdown, PollSend, Encode, OnWire;
  }

  lemma {:induction false} RunAnnounces(from: Endpoint, ins: seq<Input>, e: Endpoint, id: StreamID)
    requires Run(from, ins, e) && EndpointOk(from) && Announced(HalfOf(from, id)) && LoudHand(HalfOf(from, id))
    requires forall k :: 0 <= k < |ins| ==> Loud(ins[k], id)
    ensures Announced(HalfOf(e, id))
    decreases |ins|
  {
    hide EndpointOk, Step, HalfOf, HalfStep, Announced, LoudHand, Loud;
    if ins == [] {
    } else {
      StepKeeps(from, ins[0]);
      assert Loud(ins[0], id);
      StepAnnounces(from, ins[0], id);
      assert AllHalves(from) by { EndpointHalves(from); }
      StepView(from, ins[0], id);
      RunAnnounces(Step(from, ins[0]).end, ins[1..], e, id);
    }
  }

  /**
    No stream ends without notice. In every run against any remote that sends no RST
    with the number of "no error" for the stream: a write side that was closed has
    put a FIN behind everything written, or an error has closed the sink; and when a
    stream is gone from the manager of a living session, a FIN is among the frames
    it emitted, or an error has closed its sink.
  */
  lemma NoSilentEnd(client: bool, window: nat, limit: nat, ins: seq<Input>, e: Endpoint, id: StreamID)
    requires Reached(client, window, limit, ins, e) && forall k :: 0 <= k < |ins| ==> Loud(ins[k], id)
    ensures var p := HalfOf(e, id).port;
      && (p.user.Some? && p.user.value.writeClosed.Some? && p.code == 0 ==> p.sent != [] && p.sent[|p.sent| - 1] == FIN)
      && (id in e.ports && id !in e.mgr.streams && e.writing && !e.mgr.goneAway && p.code == 0 ==>
            exists k :: 0 <= k < |p.emitted| && p.emitted[k].IsFin())
  {
    var start := NewEndpoint(client, window, limit);
    NewEndpointIsOk(client, window, limit);
    RunAnnounces(start, ins, e, id);
    HalfIsOk(client, window, limit, ins, e, id);
    hide Reached, Loud, HalfOf;
    LastIsFin(HalfOf(e, id), window);
  }

  lemma LastIsFin(h: Half, window: nat)
    requires HalfOk(h, window)
    ensures FIN in h.port.sent ==> h.port.sent[|h.port.sent| - 1] == FIN
    ensures FIN in Flow(h.port.emitted) ==> exists k :: 0 <= k < |h.port.emitted| && h.port.emitted[k].IsFin()
  {
    hide Flow, Linked, HandOk, WindowOk, SynFirst, FinStops;
    if FIN in Flow(h.port.emitted) && NoFin(h.port.emitted) {
      MarkInFlow(h.port.emitted);
    }
  }

  /**
    Such an RST does silence a stream: once it was dispatched, the stream is removed
    without a word when its application drops it.
  */
  lemma HushedStreamEndsSilently(h: Half, slot: bool, id: StreamID, io: bool)
    requires h.hand.Some? && h.hand.value.Sending? && Hushes(h.hand.value.f) && h.hand.value.f.header.typ == RstType
    requires h.handle.Some? && h.port.outbox == [] && h.writing && !h.goneAway && h.tasks > 0
    ensures var g := DoDrop(DoSend(h, slot).half);
      && CanPoll(g) && g.handle.Some? && g.port.code == h.port.code
      && DoPoll(g, id, io).wire == [] && DoPoll(g, id, io).half.handle.None?
      && DoPoll(g, id, io).half.port.emitted == h.port.emitted
  {
    ErrorRoundTrip(NoError);
    assert h.port.emitted + [] == h.port.emitted;
  }

  // ---- what is left of a stream ----

  /**
    A read that finds nothing buffered and nothing waiting sees the end exactly when
    it was seen before, or the session closed the inbox, or the manager let go of the
    stream.
  */
  lemma ReadsSeeTheEnd(h: Half, room: nat, slot: bool)
    requires Usable(h) && h.port.user.value.readBuf == [] && h.port.inbox == []
    ensures var g := CallStep(h, Read(room, slot));
      && g.port.delivered == h.port.delivered
      && (g.port.user.value.dataReadClosed <==> h.port.user.value.dataReadClosed || h.port.inboxClosed || h.handle.None?)
  {
    var st, ended := h.port.user.value, InboxEnded(h);
    if !st.dataReadClosed {
      ReadWaits(st, [], ended, SinkOf(h), room, slot);
      assert RecvType(st, [], ended, DataType) == Received(if ended then st.(dataReadClosed := true) else st, [], ended);
    }
    assert h.port.delivered + [] == h.port.delivered;
    hide RecvType, Flow;
  }

  /**
    A write with credit on an open stream: while the manager holds the other end of
    its queue, one DATA frame joins the queue and its bytes are what the application
    has written; once the manager is gone, nothing is queued, and the stream is
    closed with "session closed".
  */
  lemma WritesReachTheQueue(h: Half, buf: seq<byte>)
    requires Usable(h) && h.port.code == 0
    requires h.port.user.value.writeClosed.None? && h.port.user.value.window > 0
    ensures var st, g := h.port.user.value, CallStep(h, Write(buf, true));
      var most := Cut(|buf|, 0xFF_FFFF);
      var n := if most <= st.window then most else st.window;
      if h.tasks > 0 then
        && g.port.sent == h.port.sent + buf[..n]
        && g.port.outbox == h.port.outbox + [Frame(Header(n, DataType, Flags(false, st.needsSyn), 0), Data(buf[..n]))]
        && g.port.code == 0 && g.port.user.value.window == st.window - n
      else
        && g.port.sent == h.port.sent && g.port.outbox == h.port.outbox
        && g.port.code == 0x0E && g.port.user.value.writeClosed == Some(SessionClosed)
  {
    assert h.port.sent + [] == h.port.sent;
    hide Flow;
  }

  /**
    A shutdown of an open write side puts one empty DATA frame with FIN behind
    everything written, if the sink takes it; a second one does not, and a flush never
    does. A dropped stream leaves its queue to the manager and closes its inbox.
  */
  lemma ClosingCalls(h: Half, slot: bool, flushSlot: bool, broken: bool)
    requires Usable(h)
    ensures var p, st := h.port, h.port.user.value;
      var g := CallStep(h, Shutdown(slot, flushSlot, broken)).port;
      if st.writeClosed.None? && p.code == 0 && h.tasks > 0 && slot then
        g.outbox == p.outbox + [EndOf(0)] && g.sent == p.sent + [FIN] && g.user.value.writeClosed == Some(StreamClosed)
      else g.outbox == p.outbox && g.sent == p.sent
    ensures var p, g := h.port, CallStep(h, Flush(flushSlot, broken)).port;
      g.outbox == p.outbox && g.sent == p.sent && (p.code == 0 && !broken ==> g.user == p.user)
    ensures CallStep(h, Drop) == h.(port := h.port.(user := None, inbox := []))
  {
    hide AfterClose, PollFlush, PollShutdown;
    ShutdownCall(h, slot, flushSlot, broken);
    FlushCall(h, flushSlot, broken);
  }

  lemma ShutdownCall(h: Half, slot: bool, flushSlot: bool, broken: bool)
    requires Usable(h)
    ensures var p, st := h.port, h.port.user.value;
      var g := DoShutdown(h, slot, flushSlot, broken).port;
      if st.writeClosed.None? && p.code == 0 && h.tasks > 0 && slot then
        g.outbox == p.outbox + [EndOf(0)] && g.sent == p.sent + [FIN] && g.user.value.writeClosed == Some(StreamClosed)
      else g.outbox == p.outbox && g.sent == p.sent
  {
    hide PollShutdown, AfterClose, ErrorOf;
    var st, k := h.port.user.value, SinkOf(h);
    ShutdownOutcome(st, k, slot, flushSlot, broken);
    hide Fails, Noticed;
    SinkGrows(h, PollShutdown(st, k, slot, flushSlot, broken));
  }

  lemma FlushCall(h: Half, slot: bool, broken: bool)
    requires Usable(h)
    ensures var p, g := h.port, DoFlush(h, slot, broken).port;
      g.outbox == p.outbox && g.sent == p.sent && (p.code == 0 && !broken ==> g.user == p.user)
  {
    hide PollFlush, AfterClose, ErrorOf;
    var st, k := h.port.user.value, SinkOf(h);
    FlushOutcome(st, k, slot, broken);
    hide Fails, Noticed;
    SinkGrows(h, PollFlush(st, k, slot, broken));
  }

  lemma SinkGrows(h: Half, o: CloseOutcome)
    ensures var p, g := h.port, AfterClose(h, o).port;
      && g.outbox == o.sink.items && g.user == Some(o.st)
      && (o.sink.items == p.outbox ==> g.sent == p.sent)
      && (o.sink.items == p.outbox + [EndOf(0)] ==> g.sent == p.sent + [FIN])
  {
    var p := h.port;
    FlowNone();
    FlowOne(EndOf(0));
    hide Flow;
    assert p.outbox[|p.outbox|..] == [] && (p.outbox + [EndOf(0)])[|p.outbox|..] == [EndOf(0)];
    assert p.sent + [] == p.sent && FrameFlow(EndOf(0)) == [FIN];
  }
}
