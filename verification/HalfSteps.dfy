/** Every step of a half keeps the half's invariant. */
module HalfSteps {
  import opened Wrappers
  import opened Constrained
  import opened MuxErrors
  import opened Frames
  import opened Streams
  import opened StreamManagers
  import opened Flows
  import opened StreamFacts
  import opened Halves
  import opened HalfInvariants

  lemma NoStreamFrames()
    ensures StreamFrames([]) && AllFromWire([])
  {
  }

  lemma FreshSender(h: Half, window: nat, needsSyn: bool)
    requires h.port == NewPort(window, needsSyn)
    ensures SenderOk(h)
  {
    FlowNone();
    assert Queued(h) == [];
  }

  lemma MadeIsOk(h: Half, window: nat, needsSyn: bool)
    requires HalfOk(h, window) && !h.made
    ensures HalfOk(Made(h, window, needsSyn), window)
  {
    hide SenderOk, StreamFrames, AllFromWire, DataBytes, Credit;
    FlowNone();
    NoStreamFrames();
    FreshSender(Made(h, window, needsSyn), window, needsSyn);
  }

  lemma FoundTaken(inbox: seq<Frame>, rest: seq<Frame>, taken: seq<Frame>)
    requires Took(inbox, rest, taken)
    ensures |rest| <= |inbox| && taken == inbox[..|inbox| - |rest|]
    ensures DataBytes(inbox) == DataBytes(taken) + DataBytes(rest)
    ensures Credit(inbox) == Credit(taken) + Credit(rest)
    ensures Flow(inbox) == Flow(taken) + Flow(rest)
    ensures StreamFrames(inbox) ==> StreamFrames(rest)
    ensures AllFromWire(inbox) ==> AllFromWire(rest)
  {
    DataBytesAppend(taken, rest);
    CreditAppend(taken, rest);
    FlowAppend(taken, rest);
    assert forall i :: 0 <= i < |rest| ==> rest[i] == inbox[|taken| + i];
  }

  lemma ReadIsOk(h: Half, room: nat, slot: bool, window: nat)
    requires HalfOk(h, window) && Usable(h)
    ensures HalfOk(DoRead(h, room, slot), window)
  {
    hide DoRead, Linked, HandOk, WindowOk, SenderOk;
    ReadLinks(h, room, slot, window);
    ReadWindow(h, room, slot, window);
    ReadSends(h, room, slot, window);
  }

  lemma ReadLinks(h: Half, room: nat, slot: bool, window: nat)
    requires HalfOk(h, window) && Usable(h)
    ensures Linked(DoRead(h, room, slot)) && HandOk(DoRead(h, room, slot))
  {
    hide PollRead, Absorbed, Flow, DataBytes, Credit, WndIncFrame, SenderOk;
    var p := h.port;
    var o := PollRead(p.user.value, p.inbox, InboxEnded(h), SinkOf(h), room, slot);
    var taken, _ := ReadFacts(p.user.value, p.inbox, InboxEnded(h), SinkOf(h), room, slot);
    FoundTaken(p.inbox, o.inbox, taken);
  }

  /** Every byte handed to the application is answered by the same amount of credit. */
  lemma ReadWindow(h: Half, room: nat, slot: bool, window: nat)
    requires HalfOk(h, window) && Usable(h) && HandOk(DoRead(h, room, slot))
    ensures WindowOk(DoRead(h, room, slot), window)
  {
    hide PollRead, Absorbed, Flow, DataBytes, Credit, WndIncFrame, SenderOk, StreamFrames, AllFromWire;
    var p := h.port;
    var st := p.user.value;
    var o := PollRead(st, p.inbox, InboxEnded(h), SinkOf(h), room, slot);
    var n := if o.result.ReadOk? then |o.result.bytes| else 0;
    var taken, mid := ReadFacts(st, p.inbox, InboxEnded(h), SinkOf(h), room, slot);
    FoundTaken(p.inbox, o.inbox, taken);
    AbsorbedSizes(st, taken, mid);
    OwnFramesConform([], false, n);
    FlowSnoc(p.outbox, WndIncFrame(n));
  }

  lemma ReadSends(h: Half, room: nat, slot: bool, window: nat)
    requires HalfOk(h, window) && Usable(h)
    ensures SenderOk(DoRead(h, room, slot))
  {
    hide PollRead, Absorbed, Flow, SynFirst, FinStops, FinLast, Conforming, WndIncFrame, StreamFrames, AllFromWire, WindowOk;
    var g := DoRead(h, room, slot);
    var p := h.port;
    var st := p.user.value;
    var o := PollRead(st, p.inbox, InboxEnded(h), SinkOf(h), room, slot);
    var n := if o.result.ReadOk? then |o.result.bytes| else 0;
    assert st.window <= st.maxWindow by { WindowFits(h, window); }
    var taken, mid := ReadFacts(st, p.inbox, InboxEnded(h), SinkOf(h), room, slot);
    AbsorbedSizes(st, taken, mid);
    if n > 0 && h.tasks > 0 && p.code == 0 {
      var f := WndIncFrame(n);
      OwnFramesConform([], false, n);
      QueueSnoc(Queued(h), f);
      assert Queued(g) == Queued(h) + [f];
      assert p.sent + [] == p.sent;
      assert StreamFrames(p.outbox + [f]) by { StreamFramesSnoc(p.outbox, f); }
    } else {
      assert g.port.outbox == p.outbox;
      SenderKeepsWhenQuiet(h, g);
    }
  }

  lemma StreamFramesSnoc(fs: seq<Frame>, f: Frame)
    requires StreamFrames(fs) && StreamFrame(f)
    ensures StreamFrames(fs + [f])
  {
  }

  lemma AbsorbedSizes(st: StreamState, taken: seq<Frame>, mid: StreamState)
    requires Absorbed(st, taken, mid)
    ensures |mid.readBuf| == |st.readBuf| + DataBytes(taken)
    ensures mid.maxWindow == st.maxWindow && st.window <= mid.window <= mid.maxWindow
    ensures mid.writeClosed == st.writeClosed && mid.needsSyn == st.needsSyn
    ensures st.window + Credit(taken) <= st.maxWindow ==> mid.window == st.window + Credit(taken)
  {
    PayloadsLength(taken);
  }

  lemma WriteIsOk(h: Half, buf: seq<byte>, slot: bool, window: nat)
    requires HalfOk(h, window) && Usable(h)
    ensures HalfOk(DoWrite(h, buf, slot), window)
  {
    hide PollWrite, Absorbed, Flow, DataBytes, Credit, SynFirst, FinStops, FinLast, Conforming, DataFrame, WriteLen, SenderOk;
    var p := h.port;
    var st := p.user.value;
    var o := PollWrite(st, p.inbox, InboxEnded(h), SinkOf(h), buf, slot);
    var taken, mid := WriteFacts(st, p.inbox, InboxEnded(h), SinkOf(h), buf, slot);
    FoundTaken(p.inbox, o.inbox, taken);
    AbsorbedSizes(st, taken, mid);
    WriteSends(h, buf, slot, window);
    if o.result.WriteOk? {
      var bs := buf[..o.result.n];
      OwnFramesConform(bs, st.needsSyn, 0);
      FlowSnoc(p.outbox, DataFrame(bs, st.needsSyn));
    }
  }

  /** A write keeps the outgoing order: at most one DATA frame joins the queue, before any FIN. */
  lemma WriteSends(h: Half, buf: seq<byte>, slot: bool, window: nat)
    requires HalfOk(h, window) && Usable(h)
    ensures SenderOk(DoWrite(h, buf, slot))
  {
    hide PollWrite, Flow, DataBytes, Credit, SynFirst, FinStops, Conforming, DataFrame, WriteLen, WindowOk, StreamFrames, AllFromWire, Payloads;
    var g := DoWrite(h, buf, slot);
    var p := h.port;
    var st := p.user.value;
    assert st.window <= st.maxWindow && StreamFrames(p.inbox) by { WindowFits(h, window); }
    var o := PollWrite(st, p.inbox, InboxEnded(h), SinkOf(h), buf, slot);
    var taken, mid := WriteFacts(st, p.inbox, InboxEnded(h), SinkOf(h), buf, slot);
    if o.result.WriteOk? {
      var bs := buf[..o.result.n];
      var f := DataFrame(bs, st.needsSyn);
      OwnFramesConform(bs, st.needsSyn, 0);
      QueueSnoc(Queued(h), f);
      OwnSnoc(p.outbox, f);
      assert Queued(g) == Queued(h) + [f];
      assert FIN !in bs;
    } else {
      assert p.sent + [] == p.sent;
      SenderKeepsWhenQuiet(h, g);
    }
  }

  lemma WindowFits(h: Half, window: nat)
    requires HalfOk(h, window) && h.port.user.Some?
    ensures h.port.user.value.window <= h.port.user.value.maxWindow && StreamFrames(h.port.inbox)
  {
  }

  lemma OwnSnoc(fs: seq<Frame>, f: Frame)
    requires OwnFrames(fs) && Conforming(f) && StreamFrame(f)
    ensures OwnFrames(fs + [f])
  {
  }

  lemma ClosingIsOk(h: Half, o: CloseOutcome, window: nat)
    requires HalfOk(h, window) && Usable(h)
    requires o.st == h.port.user.value.(writeClosed := o.st.writeClosed)
    requires h.port.user.value.writeClosed.Some? ==> o.st.writeClosed.Some?
    requires h.tasks > 0 || h.port.code != 0 ==> o.sink.code == h.port.code
    requires o.sink.items == h.port.outbox
          || (o.sink.items == h.port.outbox + [FinFrame()] && CanWrite(h) && o.st.writeClosed.Some? && h.tasks > 0)
    ensures HalfOk(AfterClose(h, o), window)
  {
    hide Flow, DataBytes, Credit, SynFirst, FinStops, Conforming, FinFrame;
    var g := AfterClose(h, o);
    var p := h.port;
    if o.sink.items == p.outbox {
      assert o.sink.items[|p.outbox|..] == [];
      FlowNone();
      assert p.sent + [] == p.sent;
      SenderKeepsWhenQuiet(h, g);
    } else {
      var f := FinFrame();
      OwnFramesConform([], false, 0);
      assert o.sink.items[|p.outbox|..] == [f];
      FlowOne(f);
      FlowSnoc(p.outbox, f);
      QueueSnoc(Queued(h), f);
      assert Queued(g) == Queued(h) + [f];
    }
  }

  lemma FlushIsOk(h: Half, slot: bool, broken: bool, window: nat)
    requires HalfOk(h, window) && Usable(h)
    ensures HalfOk(DoFlush(h, slot, broken), window)
  {
    CloseFacts(h.port.user.value, SinkOf(h), slot, slot, broken);
    ClosingIsOk(h, PollFlush(h.port.user.value, SinkOf(h), slot, broken), window);
  }

  lemma ShutdownIsOk(h: Half, slot: bool, flushSlot: bool, broken: bool, window: nat)
    requires HalfOk(h, window) && Usable(h)
    ensures HalfOk(DoShutdown(h, slot, flushSlot, broken), window)
  {
    CloseFacts(h.port.user.value, SinkOf(h), slot, flushSlot, broken);
    ClosingIsOk(h, PollShutdown(h.port.user.value, SinkOf(h), slot, flushSlot, broken), window);
  }

  lemma DropIsOk(h: Half, window: nat)
    requires HalfOk(h, window) && h.made && !(h.hand.Some? && h.hand.value.Accepting?)
    ensures HalfOk(DoDrop(h), window)
  {
    hide SenderOk, StreamFrames, AllFromWire, DataBytes, Credit;
    FlowNone();
    NoStreamFrames();
    SenderKeepsWhenQuiet(h, DoDrop(h));
  }

  lemma PollIsOk(h: Half, id: StreamID, io: bool, window: nat)
    requires HalfOk(h, window) && CanPoll(h) && h.handle.Some?
    ensures HalfOk(DoPoll(h, id, io).half, window)
  {
    hide DoPoll, Linked, HandOk, WindowOk, SenderOk;
    PollLinks(h, id, io, window);
    assert h.tasks == 1 by { OneTask(h); }
    var p := h.port;
    if p.code != 0 && !h.handle.value.needsFin {
      DiscardSends(h, id, io);
    } else if p.outbox != [] {
      PopSends(h, id, io);
    } else {
      FinalSends(h, id, io);
    }
  }

  lemma OneTask(h: Half)
    requires Linked(h) && h.handle.Some?
    ensures h.tasks == 1
  {
  }

  lemma PollLinks(h: Half, id: StreamID, io: bool, window: nat)
    requires HalfOk(h, window) && CanPoll(h) && h.handle.Some?
    ensures var g := DoPoll(h, id, io).half; Linked(g) && HandOk(g) && WindowOk(g, window)
  {
    hide SenderOk, Codec.Encode, Flow, DataBytes, Credit, StreamFrames, AllFromWire, FinFrame;
    var p := h.port;
    FlowNone();
    if p.outbox != [] {
      assert p.outbox == [p.outbox[0]] + p.outbox[1..];
      CreditAppend([p.outbox[0]], p.outbox[1..]);
      FlowOne(p.outbox[0]);
    }
  }

  /** The sink was closed by a reset: the stream is forgotten and its queue thrown away. */
  lemma DiscardSends(h: Half, id: StreamID, io: bool)
    requires SenderOk(h) && CanPoll(h) && h.handle.Some?
    requires h.port.code != 0 && !h.handle.value.needsFin && h.tasks == 1
    ensures SenderOk(DoPoll(h, id, io).half)
  {
    hide Flow, SynFirst, FinStops, FinLast, Conforming, Codec.Encode, StreamFrames, AllFromWire, NoFin, NoData;
    var p := h.port;
    QueuePrefix(p.emitted, p.outbox);
    FlowNone();
    NoStreamFrames();
    assert p.emitted + [] == p.emitted && p.sent + [] == p.sent;
  }

  /** A queued frame moves from waiting to emitted. */
  lemma PopSends(h: Half, id: StreamID, io: bool)
    requires SenderOk(h) && CanPoll(h) && h.handle.Some? && h.port.outbox != []
    requires h.port.code == 0 || h.handle.value.needsFin
    ensures SenderOk(DoPoll(h, id, io).half)
  {
    hide Flow, SynFirst, FinStops, FinLast, OwnFrames, NoFin, NoData, Codec.Encode;
    var p := h.port;
    var g := DoPoll(h, id, io).half;
    assert g.port.emitted == p.emitted + [p.outbox[0]] && g.port.outbox == p.outbox[1..];
    OwnFramesMove(p.emitted, p.outbox);
    FlowAppend(g.port.emitted, g.port.outbox);
  }

  lemma OwnFramesMove(a: seq<Frame>, b: seq<Frame>)
    requires OwnFrames(a) && OwnFrames(b) && b != []
    ensures OwnFrames(a + [b[0]]) && OwnFrames(b[1..])
    ensures NoFin(a) && !b[0].IsFin() ==> NoFin(a + [b[0]])
    ensures (a + [b[0]]) + b[1..] == a + b
  {
  }

  /** The stream is gone and its queue empty: the last FIN, unless one was sent. */
  lemma FinalSends(h: Half, id: StreamID, io: bool)
    requires SenderOk(h) && CanPoll(h) && h.handle.Some? && h.port.outbox == []
    requires h.port.code == 0 || h.handle.value.needsFin
    ensures SenderOk(DoPoll(h, id, io).half)
  {
    hide Flow, SynFirst, FinStops, FinLast, Conforming, FinFrame, Codec.Encode;
    var p := h.port;
    var g := DoPoll(h, id, io).half;
    assert Queued(h) == p.emitted;
    if h.handle.value.needsFin {
      var f := FinFrame();
      OwnFramesConform([], false, 0);
      QueueSnoc(p.emitted, f);
      MarkInFlow(p.emitted);
      FlowOne(f.WithStreamId(id));
      assert FrameFlow(f.WithStreamId(id)) == FrameFlow(f);
      assert Queued(g) == p.emitted + [f];
      FinLastSnoc(p.sent);
    } else {
      FlowNone();
      assert p.sent + [] == p.sent && p.emitted + [] == p.emitted;
    }
  }

  lemma FinLastSnoc(s: seq<Sym>)
    requires FIN !in s
    ensures FinLast(s + [FIN])
  {
  }

  // ---- the reader's steps ----

  lemma RouteIsOk(h: Half, f: Frame, window: nat)
    requires HalfOk(h.(hand := None), window) && h.reading && FromWire(f)
    ensures HalfOk(Route(h, f).half, window)
  {
    hide SenderOk, StreamFrames, AllFromWire, DataBytes, Credit;
    SenderKeepsWhenQuiet(h.(hand := None), Route(h, f).half);
  }

  lemma TakeIsOk(h: Half, f: Frame, full: bool, window: nat)
    requires HalfOk(h, window) && h.reading && h.hand.None? && FromWire(f)
    requires f.IsSyn() ==> !h.made
    ensures HalfOk(DoTake(h, f, full, window).half, window)
  {
    hide SenderOk, StreamFrames, AllFromWire, DataBytes, Credit;
    if f.IsSyn() {
      if full {
        SenderKeepsWhenQuiet(h, h.(reading := false));
      } else {
        MadeIsOk(h, window, false);
        SenderKeepsWhenQuiet(Made(h, window, false), DoTake(h, f, full, window).half);
      }
    } else {
      assert h.(hand := None) == h;
      RouteIsOk(h, f, window);
    }
  }

  lemma AcceptIsOk(h: Half, ok: bool, window: nat)
    requires HalfOk(h, window) && h.hand.Some? && h.hand.value.Accepting?
    ensures HalfOk(DoAccept(h, ok).half, window)
  {
    hide SenderOk, StreamFrames, AllFromWire, DataBytes, Credit;
    FlowNone();
    NoStreamFrames();
    var g := h.(hand := None);
    SenderKeepsWhenQuiet(h, g);
    if ok {
      RouteIsOk(h, h.hand.value.f, window);
    } else {
      SenderKeepsWhenQuiet(h, DoAccept(h, ok).half);
    }
  }

  lemma SendIsOk(h: Half, slot: bool, window: nat)
    requires HalfOk(h, window) && h.hand.Some? && h.hand.value.Sending?
    ensures HalfOk(DoSend(h, slot).half, window)
  {
    hide SenderOk, Linked, HandOk, WindowOk, DoSend;
    SendSends(h, slot, window);
    SendLinks(h, slot, window);
    SendCharges(h, slot, window);
  }

  lemma SendSends(h: Half, slot: bool, window: nat)
    requires HalfOk(h, window) && h.hand.Some? && h.hand.value.Sending?
    ensures SenderOk(DoSend(h, slot).half)
  {
    hide SenderOk, WindowOk, StreamFrames, AllFromWire, PollSend;
    var Sending(f, charge) := h.hand.value;
    var open := h.port.user.Some? && !h.port.inboxClosed;
    if h.handle.Some? {
      assert h.handle == Some(h.handle.value);
      SendFacts(h.handle.value, h.port.code, open, f, charge, slot);
    } else {
      NoHandleStays(h.port.code, open, f, charge, slot);
    }
    SenderKeepsWhenQuiet(h, DoSend(h, slot).half);
  }

  lemma SendLinks(h: Half, slot: bool, window: nat)
    requires HalfOk(h, window) && h.hand.Some? && h.hand.value.Sending?
    ensures Linked(DoSend(h, slot).half) && HandOk(DoSend(h, slot).half)
  {
    hide SenderOk, WindowOk, PollSend;
    var Sending(f, charge) := h.hand.value;
    var open := h.port.user.Some? && !h.port.inboxClosed;
    if h.handle.Some? {
      assert h.handle == Some(h.handle.value);
      SendFacts(h.handle.value, h.port.code, open, f, charge, slot);
    } else {
      NoHandleStays(h.port.code, open, f, charge, slot);
    }
  }

  /** What one poll of a dispatch does to the window, the sink code and the queue. */
  lemma SendFacts(handle: Handle, code: U32, open: bool, f: Frame, charge: nat, slot: bool)
    requires FromWire(f) && !Undeliverable(f) && (charge == 0 || charge == InitialCharge(f))
    ensures var o := PollSend(Some(handle), code, open, f, charge, slot);
      && o.handle.Some?
      && o.handle.value.window <= handle.window <= o.handle.value.window + charge
      && (o.code == 0 ==> code == 0)
      && (o.handle.value.needsFin ==> handle.needsFin && o.code == code)
      && (handle.dataWriteClosed ==> o.handle.value.dataWriteClosed)
      && (o.result.SendPending? ==> o.handle.value.dataWriteClosed == handle.dataWriteClosed)
      && (o.enqueued ==> o.result.SendOk? && StreamFrame(f) && open && (f.body.Data? ==> !handle.dataWriteClosed))
      && (!o.result.SendErr? ==> o.handle.value.window + charge == handle.window)
      && (o.enqueued || o.result.SendPending? ==> o.charge == 0)
      && (o.result.SendOk? && !o.enqueued ==> InitialCharge(f) == 0)
      && (o.result.SendErr? ==> o.code != 0 && o.handle.value.dataWriteClosed && f.body.Data?)
  {
    hide StreamFrames, AllFromWire;
    ErrorRoundTrip(StreamClosed);
  }

  /** The window is charged once per frame, however often the dispatch is polled. */
  lemma SendCharges(h: Half, slot: bool, window: nat)
    requires HalfOk(h, window) && h.hand.Some? && h.hand.value.Sending?
    requires HandOk(DoSend(h, slot).half)
    ensures WindowOk(DoSend(h, slot).half, window)
  {
    hide SenderOk, DataBytes, Credit, PollSend, StreamFrames, AllFromWire;
    var Sending(f, charge) := h.hand.value;
    FlowSnoc(h.port.inbox, f);
    assert |Payload(f)| == InitialCharge(f);
    if h.handle.Some? {
      assert h.handle == Some(h.handle.value);
      SendFacts(h.handle.value, h.port.code, h.port.user.Some? && !h.port.inboxClosed, f, charge, slot);
    } else {
      assert PollSend(None, h.port.code, h.port.user.Some? && !h.port.inboxClosed, f, charge, slot).handle.None? by {
        NoHandleStays(h.port.code, h.port.user.Some? && !h.port.inboxClosed, f, charge, slot);
      }
    }
  }

  lemma NoHandleStays(code: U32, open: bool, f: Frame, charge: nat, slot: bool)
    ensures PollSend(None, code, open, f, charge, slot).handle.None?
    ensures !PollSend(None, code, open, f, charge, slot).enqueued
    ensures !PollSend(None, code, open, f, charge, slot).result.SendPending?
    ensures PollSend(None, code, open, f, charge, slot).code == code
  {
  }

  lemma MarkIsOk(h: Half, window: nat)
    requires HalfOk(h, window) && h.hand == Some(Marking)
    ensures HalfOk(DoMark(h), window)
  {
    hide SenderOk, StreamFrames, AllFromWire, DataBytes, Credit;
    SenderKeepsWhenQuiet(h, DoMark(h));
  }

  // ---- endpoint-wide events ----

  lemma GoAwayIsOk(h: Half, e: Error, clearTasks: bool, window: nat)
    requires HalfOk(h, window)
    ensures HalfOk(DoGoAway(h, e, clearTasks), window)
  {
    hide SenderOk, StreamFrames, AllFromWire, DataBytes, Credit;
    SenderKeepsWhenQuiet(h, DoGoAway(h, e, clearTasks));
  }

  lemma CloseSenderIsOk(h: Half, window: nat)
    requires HalfOk(h, window) && !h.reading
    ensures HalfOk(DoCloseSender(h), window)
  {
    hide SenderOk, StreamFrames, AllFromWire, DataBytes, Credit;
    SenderKeepsWhenQuiet(h, DoCloseSender(h));
  }

  lemma StopReadingIsOk(h: Half, window: nat)
    requires HalfOk(h, window)
    ensures HalfOk(DoStopReading(h), window)
  {
    hide SenderOk, StreamFrames, AllFromWire, DataBytes, Credit;
    FlowNone();
    NoStreamFrames();
    SenderKeepsWhenQuiet(h, DoStopReading(h));
  }

  lemma StopWritingIsOk(h: Half, window: nat)
    requires HalfOk(h, window)
    ensures HalfOk(h.(writing := false), window)
  {
    hide SenderOk, StreamFrames, AllFromWire, DataBytes, Credit;
    SenderKeepsWhenQuiet(h, h.(writing := false));
  }

  lemma ForgetIsOk(h: Half, window: nat)
    requires HalfOk(h, window)
    ensures HalfOk(DoForget(h), window)
  {
    hide SenderOk, StreamFrames, AllFromWire, DataBytes, Credit;
    SenderKeepsWhenQuiet(h, DoForget(h));
  }
}
