/**
  What holds in every state of an endpoint, whatever the remote sends, as long
  as its SYN ids are fresh and local ids have not run out.
*/
module EndpointInvariants {
  import opened Wrappers
  import opened Constrained
  import opened MuxErrors
  import opened Frames
  import opened Streams
  import opened StreamManagers
  import opened Codec
  import opened Halves
  import opened HalfInvariants
  import opened HalfSteps
  import opened Endpoints

  // ---- how a step looks from one stream ----

  /** The half of stream `id` after a step of the whole endpoint. */
  function HalfStep(e: Endpoint, i: Input, id: StreamID): Half
    requires Enabled(e, i)
  {
    var h := HalfOf(e, id);
    match i
    case OpenStream => if AtLimit(e) || id != NextLocalId(e) then h else Made(h, e.window, true)
    case App(j, call) => if j == id then CallStep(h, call) else h
    case CloseSession(_, _) => h
    case PollStream(j, io) =>
      if j == id then DoPoll(h, id, io).half else h.(writing := DoPoll(HalfOf(e, j), j, io).half.writing)
    case PollSystem(io) =>
      if e.mgr.sys[0].body.GoAway? then DoGoAway(h, SessionClosed, true).(writing := false)
      else h.(writing := SystemStep(e, io).end.writing)
    case TakeFrame(f) =>
      if f.header.streamId == id then DoTake(h, f, AtLimit(e), e.window).half
      else h.(reading := Reading(TakeStep(e, f).reader))
    case AcceptQueue(ok) =>
      if e.reader.id == id then DoAccept(h, ok).half
      else h.(reading := DoAccept(HalfOf(e, e.reader.id), ok).half.reading)
    case SendPoll(slot) => if e.reader.id == id then DoSend(h, slot).half else h
    case MarkClosed => if e.reader.id == id then DoMark(h) else h
    case PushReset => h
    case PushProtest => h
    case ApplyGoAway => DoGoAway(h, e.reader.reason, false)
    case CloseSenders => DoCloseSender(h)
    case EndReader(abort) => if abort then DoStopReading(h) else h.(reading := false)
    case EndWriter => h.(writing := false)
    case DropManager => DoForget(h)
  }

  lemma WithHalfAt(e: Endpoint, id: StreamID, h: Half)
    requires h.made || (h.port == NO_PORT && id !in e.ports)
    ensures var g := HalfOf(WithHalf(e, id, h), id);
      && g == h.(hand := g.hand, reading := g.reading, goneAway := g.goneAway)
      && g.goneAway == e.mgr.goneAway
  {
  }

  lemma WithHalfElsewhere(e: Endpoint, id: StreamID, h: Half, j: StreamID)
    requires j != id
    ensures HalfOf(WithHalf(e, id, h), j) == HalfOf(e, j).(writing := h.writing)
  {
  }

  /** The reader's phase and the half agree after a reaction. */
  predicate Settled(r: Reaction) {
    if r.half.hand.Some? then r.half.reading
    else r.half.reading == (r.next.Go? || r.next.Reset? || r.next.Protest?)
  }

  lemma ReactAt(e: Endpoint, id: StreamID, r: Reaction)
    requires Settled(r) && r.half.goneAway == e.mgr.goneAway
    requires r.half.made || (r.half.port == NO_PORT && id !in e.ports)
    ensures HalfOf(React(e, id, r), id) == r.half
  {
    WithHalfAt(e, id, r.half);
  }

  lemma ReactElsewhere(e: Endpoint, id: StreamID, r: Reaction, j: StreamID)
    requires Settled(r) && j != id
    requires e.reader.Holding? ==> e.reader.id == id
    ensures HalfOf(React(e, id, r), j) == HalfOf(e, j).(reading := r.half.reading, writing := r.half.writing)
    ensures Reading(React(e, id, r).reader) == r.half.reading
  {
    WithHalfElsewhere(e, id, r.half, j);
  }

  lemma CallKeepsFrame(h: Half, call: Call)
    requires if call.Drop? then h.port.user.Some? else Usable(h)
    ensures var g := CallStep(h, call);
      g == h.(port := g.port)
  {
  }

  lemma TakeView(e: Endpoint, f: Frame, id: StreamID)
    requires Enabled(e, TakeFrame(f)) && AllHalves(e)
    ensures HalfOf(Step(e, TakeFrame(f)).end, id) == HalfStep(e, TakeFrame(f), id)
  {
    hide AllHalves, HalfOk;
    hide Undeliverable, FromWire;
    var k := f.header.streamId;
    LinkedAt(e, k);
    hide Linked, HandOk;
    var h := HalfOf(e, k);
    var r := DoTake(h, f, AtLimit(e), e.window);
    assert Settled(r) && r.half.goneAway == h.goneAway && r.half.writing == h.writing by { TakeSettles(h, f, AtLimit(e), e.window); }
    assert r.half.made || (r.half.port == NO_PORT && k !in e.ports) by { UnmadeIsEmpty(e, k); TakeMakes(h, f, AtLimit(e), e.window); }
    if id == k {
      ReactAt(e, k, r);
    } else {
      ReactElsewhere(e, k, r, id);
    }
  }

  lemma UnmadeIsEmpty(e: Endpoint, id: StreamID)
    ensures !HalfOf(e, id).made ==> HalfOf(e, id).port == NO_PORT
  {
  }

  lemma TakeSettles(h: Half, f: Frame, full: bool, window: nat)
    requires h.reading && h.hand.None?
    ensures var r := DoTake(h, f, full, window);
      Settled(r) && r.half.goneAway == h.goneAway && r.half.writing == h.writing
  {
  }

  lemma TakeMakes(h: Half, f: Frame, full: bool, window: nat)
    requires !h.made ==> h.port == NO_PORT
    ensures var r := DoTake(h, f, full, window);
      r.half.made || (r.half.port == NO_PORT && !h.made)
  {
  }

  lemma AcceptSettles(h: Half, ok: bool)
    requires h.hand.Some? && h.hand.value.Accepting? && h.reading
    ensures var r := DoAccept(h, ok);
      Settled(r) && r.half.made == h.made && r.half.goneAway == h.goneAway && r.half.writing == h.writing
  {
  }

  lemma AcceptView(e: Endpoint, ok: bool, id: StreamID)
    requires Enabled(e, AcceptQueue(ok)) && AllHalves(e)
    ensures HalfOf(Step(e, AcceptQueue(ok)).end, id) == HalfStep(e, AcceptQueue(ok), id)
  {
    hide AllHalves, HalfOk, Linked, Route;
    var k := e.reader.id;
    var h := HalfOf(e, k);
    var r := DoAccept(h, ok);
    LinkedAt(e, k);
    AcceptSettles(h, ok);
    hide DoAccept, HandOk;
    if id == k {
      ReactAt(e, k, r);
    } else {
      ReactElsewhere(e, k, r, id);
    }
  }

  lemma SendSettles(h: Half, slot: bool)
    requires h.hand.Some? && h.hand.value.Sending? && h.reading
    requires !h.made ==> h.port == NO_PORT && h.handle.None?
    ensures var r := DoSend(h, slot);
      && Settled(r)
      && r.half.made == h.made && (!h.made ==> r.half.port == NO_PORT)
      && r.half.goneAway == h.goneAway && r.half.writing == h.writing && r.half.reading == h.reading
  {
    hide PollSend;
    if !h.made {
      var Sending(f, charge) := h.hand.value;
      NoHandleStays(h.port.code, h.port.user.Some? && !h.port.inboxClosed, f, charge, slot);
    }
  }

  lemma SendView(e: Endpoint, slot: bool, id: StreamID)
    requires Enabled(e, SendPoll(slot)) && AllHalves(e)
    ensures HalfOf(Step(e, SendPoll(slot)).end, id) == HalfStep(e, SendPoll(slot), id)
  {
    hide AllHalves, HalfOk, StreamFrames, AllFromWire, FromWire, Undeliverable;
    var k := e.reader.id;
    var h := HalfOf(e, k);
    LinkedAt(e, k);
    SendSettles(h, slot);
    hide Linked, HandOk, DoSend;
    SendReacts(e, slot, id);
  }

  lemma SendReacts(e: Endpoint, slot: bool, id: StreamID)
    requires Enabled(e, SendPoll(slot))
    requires var r, h := DoSend(HalfOf(e, e.reader.id), slot), HalfOf(e, e.reader.id);
      && Settled(r)
      && r.half.made == h.made && (!h.made ==> r.half.port == NO_PORT)
      && r.half.goneAway == h.goneAway && r.half.writing == h.writing && r.half.reading == h.reading
    ensures HalfOf(Step(e, SendPoll(slot)).end, id) == HalfStep(e, SendPoll(slot), id)
  {
    hide DoSend, Settled;
    var k := e.reader.id;
    var r := DoSend(HalfOf(e, k), slot);
    if id == k {
      ReactAt(e, k, r);
    } else {
      ReactElsewhere(e, k, r, id);
    }
  }

  lemma OpenView(e: Endpoint, id: StreamID)
    requires Enabled(e, OpenStream)
    ensures HalfOf(Step(e, OpenStream).end, id) == HalfStep(e, OpenStream, id)
  {
    var k := NextLocalId(e);
    if id == k { WithHalfAt(e, k, Made(HalfOf(e, k), e.window, true)); }
  }

  lemma CallView(e: Endpoint, j: StreamID, call: Call, id: StreamID)
    requires Enabled(e, App(j, call)) && AllHalves(e)
    ensures HalfOf(Step(e, App(j, call)).end, id) == HalfStep(e, App(j, call), id)
  {
    hide AllHalves, HalfOk;
    UserIsMade(e, j);
    CallKeepsFrame(HalfOf(e, j), call);
    hide CallStep, Usable;
    if id == j {
      WithHalfAt(e, j, CallStep(HalfOf(e, j), call));
    } else {
      WithHalfElsewhere(e, j, CallStep(HalfOf(e, j), call), id);
    }
  }

  lemma PollView(e: Endpoint, j: StreamID, io: bool, id: StreamID)
    requires Enabled(e, PollStream(j, io)) && AllHalves(e)
    ensures HalfOf(Step(e, PollStream(j, io)).end, id) == HalfStep(e, PollStream(j, io), id)
  {
    hide AllHalves, HalfOk;
    UserIsMade(e, j);
    PollFrame(HalfOf(e, j), j, io);
    hide DoPoll;
    if id == j {
      WithHalfAt(e, j, DoPoll(HalfOf(e, j), j, io).half);
    } else {
      WithHalfElsewhere(e, j, DoPoll(HalfOf(e, j), j, io).half, id);
    }
  }

  lemma SystemView(e: Endpoint, io: bool, id: StreamID)
    requires Enabled(e, PollSystem(io)) && AllHalves(e)
    ensures HalfOf(Step(e, PollSystem(io)).end, id) == HalfStep(e, PollSystem(io), id)
  {
    hide AllHalves, HalfOk;
    hide Encode, OnWire, StreamFrames, AllFromWire, ErrorCode;
    LinkedAt(e, id);
  }

  lemma MarkView(e: Endpoint, id: StreamID)
    requires Enabled(e, MarkClosed) && AllHalves(e)
    ensures HalfOf(Step(e, MarkClosed).end, id) == HalfStep(e, MarkClosed, id)
  {
    hide AllHalves, HalfOk, StreamFrames, AllFromWire, HandOk;
    var k := e.reader.id;
    LinkedAt(e, k);
    hide Linked;
    if id == k {
      WithHalfAt(e, k, DoMark(HalfOf(e, k)));
    } else {
      WithHalfElsewhere(e, k, DoMark(HalfOf(e, k)), id);
    }
  }

  lemma ClosingViews(e: Endpoint, id: StreamID)
    requires AllHalves(e)
    ensures e.reader.Leaving? ==> HalfOf(Step(e, ApplyGoAway).end, id) == HalfStep(e, ApplyGoAway, id)
    ensures e.reader.Closing? ==> HalfOf(Step(e, CloseSenders).end, id) == HalfStep(e, CloseSenders, id)
    ensures e.reader.Stopped? && !e.writing ==> HalfOf(Step(e, DropManager).end, id) == HalfStep(e, DropManager, id)
  {
    hide AllHalves, HalfOk, StreamFrames, AllFromWire, HandOk;
    LinkedAt(e, id);
  }

  lemma QuietViews(e: Endpoint, i: Input, id: StreamID)
    requires Enabled(e, i) && (i.CloseSession? || i.PushReset? || i.PushProtest? || i.EndWriter?)
    ensures HalfOf(Step(e, i).end, id) == HalfStep(e, i, id)
  {
  }

  lemma StoppedAt(e: Endpoint, id: StreamID)
    ensures HalfOf(e.(reader := Stopped), id) == HalfOf(e, id).(hand := None, reading := false)
  {
  }

  lemma AbortView(e: Endpoint, id: StreamID)
    requires e.reader.Holding? && e.reader.hand.Accepting? && HalfOf(e, e.reader.id).made
    ensures var g := WithHalf(e, e.reader.id, DoDrop(HalfOf(e, e.reader.id)));
      HalfOf(g.(reader := Stopped), id) == DoStopReading(HalfOf(e, id))
  {
    var k := e.reader.id;
    var d := DoDrop(HalfOf(e, k));
    StoppedAt(WithHalf(e, k, d), id);
    if id == k {
      WithHalfAt(e, k, d);
    } else {
      WithHalfElsewhere(e, k, d, id);
    }
  }

  lemma EndReaderView(e: Endpoint, abort: bool, id: StreamID)
    requires Enabled(e, EndReader(abort)) && AllHalves(e)
    ensures HalfOf(Step(e, EndReader(abort)).end, id) == HalfStep(e, EndReader(abort), id)
  {
    hide AllHalves, HalfOk, Linked, WithHalf;
    if abort && e.reader.Holding? && e.reader.hand.Accepting? {
      assert HalfOf(e, e.reader.id).made by { LinkedAt(e, e.reader.id); }
      hide HalfOf;
      AbortView(e, id);
    } else {
      StoppedAt(e, id);
    }
  }

  /** From each stream, a step of the endpoint is a step of that stream's half. */
  lemma StepView(e: Endpoint, i: Input, id: StreamID)
    requires Enabled(e, i) && AllHalves(e)
    ensures HalfOf(Step(e, i).end, id) == HalfStep(e, i, id)
  {
    hide Step, HalfStep, HalfOf, AllHalves;
    match i
    case OpenStream => OpenView(e, id);
    case App(j, call) => CallView(e, j, call, id);
    case PollStream(j, io) => PollView(e, j, io, id);
    case PollSystem(io) => SystemView(e, io, id);
    case TakeFrame(f) => TakeView(e, f, id);
    case AcceptQueue(ok) => AcceptView(e, ok, id);
    case SendPoll(slot) => SendView(e, slot, id);
    case MarkClosed => MarkView(e, id);
    case ApplyGoAway => ClosingViews(e, id);
    case CloseSenders => ClosingViews(e, id);
    case EndReader(abort) => EndReaderView(e, abort, id);
    case DropManager => ClosingViews(e, id);
    case CloseSession(_, _) => QuietViews(e, i, id);
    case PushReset => QuietViews(e, i, id);
    case PushProtest => QuietViews(e, i, id);
    case EndWriter => QuietViews(e, i, id);
  }

  lemma PollFrame(h: Half, id: StreamID, io: bool)
    requires CanPoll(h) && h.handle.Some?
    ensures var g := DoPoll(h, id, io).half;
      g.made == h.made && g.goneAway == h.goneAway && g.reading == h.reading && g.hand == h.hand
  {
  }

  // ---- the invariant ----

  ghost predicate AllHalves(e: Endpoint) {
    forall id: StreamID :: HalfOk(HalfOf(e, id), e.window)
  }

  /** Local ids have the endpoint's parity and grow; nothing of its own is above the last one. */
  ghost predicate IdsOk(e: Endpoint) {
    && Own(e, e.mgr.lastLocal)
    && forall id :: id in e.ports && Own(e, id) ==> id <= e.mgr.lastLocal
  }

  ghost predicate EndpointOk(e: Endpoint) {
    AllHalves(e) && IdsOk(e) && |e.mgr.streams| <= e.mgr.limit
  }

  lemma LinkedAt(e: Endpoint, id: StreamID)
    requires AllHalves(e)
    ensures Linked(HalfOf(e, id)) && HandOk(HalfOf(e, id)) && HalfOk(HalfOf(e, id), e.window)
  {
  }

  lemma UserIsMade(e: Endpoint, id: StreamID)
    requires AllHalves(e)
    ensures HalfOf(e, id).port.user.Some? || HalfOf(e, id).tasks > 0 ==> id in e.ports
  {
    hide AllHalves, HalfOk;
    LinkedAt(e, id);
  }

  lemma CallIsOk(h: Half, call: Call, w: nat)
    requires HalfOk(h, w) && h.made && !(h.hand.Some? && h.hand.value.Accepting?)
    requires if call.Drop? then h.port.user.Some? else Usable(h)
    ensures HalfOk(CallStep(h, call), w)
  {
    hide HalfOk, DoRead, DoWrite, DoFlush, DoShutdown;
    match call
    case Read(room, slot) => ReadIsOk(h, room, slot, w);
    case Write(buf, slot) => WriteIsOk(h, buf, slot, w);
    case Flush(slot, broken) => FlushIsOk(h, slot, broken, w);
    case Shutdown(slot, flushSlot, broken) => ShutdownIsOk(h, slot, flushSlot, broken, w);
    case Drop => DropIsOk(h, w);
  }

  lemma NextIdIsFresh(e: Endpoint)
    requires IdsOk(e) && NextLocalId(e) <= STREAMID_MAX
    ensures NextLocalId(e) !in e.ports && Own(e, NextLocalId(e))
  {
  }

  lemma ReaderStepIsOk(e: Endpoint, i: Input, id: StreamID)
    requires Enabled(e, i) && EndpointOk(e)
    requires i.TakeFrame? || i.AcceptQueue? || i.SendPoll? || i.MarkClosed?
    ensures HalfOk(HalfStep(e, i, id), e.window)
  {
    hide AllHalves, HalfOk;
    hide DoTake, DoAccept, DoSend, Route, IdsOk;
    var h, w := HalfOf(e, id), e.window;
    LinkedAt(e, id);
    match i
    case TakeFrame(f) =>
      if f.header.streamId == id { TakeIsOk(h, f, AtLimit(e), w); }
      else { AsideIsOk(h, Reading(TakeStep(e, f).reader), h.writing, w); }
    case AcceptQueue(ok) =>
      if e.reader.id == id { AcceptIsOk(h, ok, w); }
      else { AsideIsOk(h, DoAccept(HalfOf(e, e.reader.id), ok).half.reading, h.writing, w); }
    case SendPoll(slot) => if e.reader.id == id { SendIsOk(h, slot, w); }
    case MarkClosed => if e.reader.id == id { MarkIsOk(h, w); }
  }

  lemma HalfStepIsOk(e: Endpoint, i: Input, id: StreamID)
    requires Enabled(e, i) && EndpointOk(e)
    ensures HalfOk(HalfStep(e, i, id), e.window)
  {
    hide AllHalves, HalfOk;
    hide DoPoll, DoTake, DoAccept, DoSend, Route, Encode, OnWire, CallStep, IdsOk;
    var h, w := HalfOf(e, id), e.window;
    LinkedAt(e, id);
    match i
    case OpenStream => if !AtLimit(e) && id == NextLocalId(e) { NextIdIsFresh(e); MadeIsOk(h, w, true); }
    case App(j, call) => if j == id { UserIsMade(e, id); CallIsOk(h, call, w); }
    case PollStream(j, io) => if j == id { PollIsOk(h, id, io, w); } else { AsideIsOk(h, h.reading, DoPoll(HalfOf(e, j), j, io).half.writing, w); }
    case PollSystem(io) =>
      if e.mgr.sys[0].body.GoAway? {
        GoAwayIsOk(h, SessionClosed, true, w);
        StopWritingIsOk(DoGoAway(h, SessionClosed, true), w);
      } else {
        AsideIsOk(h, h.reading, SystemStep(e, io).end.writing, w);
      }
    case TakeFrame(f) => ReaderStepIsOk(e, i, id);
    case AcceptQueue(ok) => ReaderStepIsOk(e, i, id);
    case SendPoll(slot) => ReaderStepIsOk(e, i, id);
    case MarkClosed => ReaderStepIsOk(e, i, id);
    case ApplyGoAway => GoAwayIsOk(h, e.reader.reason, false, w);
    case CloseSenders => CloseSenderIsOk(h, w);
    case EndReader(abort) => if abort { StopReadingIsOk(h, w); } else { AsideIsOk(h, false, h.writing, w); }
    case EndWriter => StopWritingIsOk(h, w);
    case DropManager => ForgetIsOk(h, w);
    case CloseSession(_, _) =>
    case PushReset =>
    case PushProtest =>
  }

  /** Events elsewhere only stop the reader or the writer. */
  lemma AsideIsOk(h: Half, reading: bool, writing: bool, window: nat)
    requires HalfOk(h, window) && (h.hand.Some? ==> reading == h.reading) && (reading ==> h.reading)
    ensures HalfOk(h.(reading := reading, writing := writing), window)
  {
    hide SenderOk;
    SenderKeepsWhenQuiet(h, h.(reading := reading, writing := writing));
  }

  // ---- every step keeps it ----

  lemma MadeOnlyBy(e: Endpoint, i: Input, id: StreamID)
    requires Enabled(e, i) && HalfStep(e, i, id).made
    ensures id in e.ports
         || (i.OpenStream? && id == NextLocalId(e))
         || (i.TakeFrame? && id == i.f.header.streamId && i.f.IsSyn())
  {
    hide DoPoll, DoAccept, DoSend, CallStep, Encode;
    match i
    case App(j, call) => if j == id { CallKeepsFrame(HalfOf(e, id), call); }
    case PollStream(j, io) => if j == id { PollFrame(HalfOf(e, id), id, io); }
    case AcceptQueue(ok) => if e.reader.id == id { AcceptFrame(HalfOf(e, id), ok); }
    case SendPoll(slot) => if e.reader.id == id { SendFrame(HalfOf(e, id), slot); }
    case _ =>
  }

  lemma AcceptFrame(h: Half, ok: bool)
    requires h.hand.Some? && h.hand.value.Accepting?
    ensures DoAccept(h, ok).half.made == h.made && DoAccept(h, ok).half.handle == h.handle
  {
  }

  lemma SendFrame(h: Half, slot: bool)
    requires h.hand.Some? && h.hand.value.Sending?
    ensures DoSend(h, slot).half.made == h.made
    ensures DoSend(h, slot).half.handle.Some? == h.handle.Some?
  {
    hide ErrorCode, BareFin;
  }

  lemma MapSizes(m: map<StreamID, Handle>, id: StreamID, v: Handle)
    ensures |m[id := v]| <= |m| + 1
    ensures id in m ==> |m[id := v]| <= |m|
    ensures |m - {id}| <= |m|
  {
    assert m[id := v].Keys == m.Keys + {id};
    assert (m - {id}).Keys == m.Keys - {id};
    if id in m {
      assert m.Keys + {id} == m.Keys;
    }
  }

  lemma WithHalfSize(e: Endpoint, id: StreamID, h: Half)
    ensures |WithHalf(e, id, h).mgr.streams| <= |e.mgr.streams| + 1
    ensures h.handle.None? || id in e.mgr.streams ==> |WithHalf(e, id, h).mgr.streams| <= |e.mgr.streams|
  {
    MapSizes(e.mgr.streams, id, if h.handle.Some? then h.handle.value else NewHandle(0));
  }

  lemma StreamsStayWithinLimit(e: Endpoint, i: Input)
    requires Enabled(e, i) && EndpointOk(e)
    ensures |Step(e, i).end.mgr.streams| <= e.mgr.limit == Step(e, i).end.mgr.limit
  {
    hide AllHalves, IdsOk, HalfOk, DoPoll, DoAccept, DoSend, CallStep, Route, Encode, OnWire, Usable;
    match i
    case OpenStream => WithHalfSize(e, NextLocalId(e), Made(HalfOf(e, NextLocalId(e)), e.window, true));
    case App(j, call) =>
      CallKeepsFrame(HalfOf(e, j), call);
      WithHalfSize(e, j, CallStep(HalfOf(e, j), call));
    case PollStream(j, io) => WithHalfSize(e, j, DoPoll(HalfOf(e, j), j, io).half);
    case TakeFrame(f) =>
      var k := f.header.streamId;
      TakeHandle(HalfOf(e, k), f, AtLimit(e), e.window);
      WithHalfSize(e, k, DoTake(HalfOf(e, k), f, AtLimit(e), e.window).half);
    case AcceptQueue(ok) =>
      AcceptFrame(HalfOf(e, e.reader.id), ok);
      WithHalfSize(e, e.reader.id, DoAccept(HalfOf(e, e.reader.id), ok).half);
    case SendPoll(slot) =>
      SendFrame(HalfOf(e, e.reader.id), slot);
      WithHalfSize(e, e.reader.id, DoSend(HalfOf(e, e.reader.id), slot).half);
    case MarkClosed => WithHalfSize(e, e.reader.id, DoMark(HalfOf(e, e.reader.id)));
    case EndReader(abort) =>
      if abort && e.reader.Holding? { WithHalfSize(e, e.reader.id, DoDrop(HalfOf(e, e.reader.id))); }
    case _ =>
  }

  lemma TakeHandle(h: Half, f: Frame, full: bool, window: nat)
    ensures full || !f.IsSyn() ==> DoTake(h, f, full, window).half.handle == h.handle
  {
  }

  lemma FixedFields(e: Endpoint, i: Input)
    requires Enabled(e, i)
    ensures var g := Step(e, i).end;
      g.client == e.client && g.window == e.window
      && g.mgr.lastLocal == if i.OpenStream? && !AtLimit(e) then NextLocalId(e) else e.mgr.lastLocal
  {
    hide DoPoll, DoAccept, DoSend, DoTake, CallStep, Encode, OnWire, Usable;
  }

  /** The two steps of the reader that answer a frame. */
  lemma AnswerSteps(e: Endpoint, i: Input)
    requires Enabled(e, i)
    ensures i.PushReset? ==>
      Step(e, i).end == e.(reader := Idle, mgr := e.mgr.(sys := e.mgr.sys +
        [Frame(Header(4, RstType, Flags(false, false), e.reader.id), Rst(e.reader.e))]))
    ensures i.PushProtest? ==>
      Step(e, i).end == e.(reader := Idle, mgr := e.mgr.(sys := e.mgr.sys +
        [Frame(Header(13, GoAwayType, Flags(false, false), 0), GoAway(e.lastProcessed, Protocol, INVALID_FRAME))]))
  {
    assert INVALID_FRAME[..13] == INVALID_FRAME;
  }

  lemma StepKeeps(e: Endpoint, i: Input)
    requires Enabled(e, i) && EndpointOk(e)
    ensures EndpointOk(Step(e, i).end)
    ensures Step(e, i).end.window == e.window && Step(e, i).end.client == e.client
    ensures i.PushReset? ==>
      Step(e, i).end == e.(reader := Idle, mgr := e.mgr.(sys := e.mgr.sys +
        [Frame(Header(4, RstType, Flags(false, false), e.reader.id), Rst(e.reader.e))]))
    ensures i.PushProtest? ==>
      Step(e, i).end == e.(reader := Idle, mgr := e.mgr.(sys := e.mgr.sys +
        [Frame(Header(13, GoAwayType, Flags(false, false), 0), GoAway(e.lastProcessed, Protocol, INVALID_FRAME))]))
  {
    var g := Step(e, i).end;
    AnswerSteps(e, i);
    FixedFields(e, i);
    StreamsStayWithinLimit(e, i);
    hide Step, Enabled, HalfOk, HalfStep;
    forall id: StreamID ensures HalfOk(HalfOf(g, id), g.window) {
      StepView(e, i, id);
      HalfStepIsOk(e, i, id);
    }
    forall id | id in g.ports && Own(g, id) ensures id <= g.mgr.lastLocal {
      OwnIdsGrow(e, i, id);
    }
  }

  lemma OwnIdsGrow(e: Endpoint, i: Input, id: StreamID)
    requires Enabled(e, i) && EndpointOk(e)
    ensures var g := Step(e, i).end; id in g.ports && Own(g, id) ==> id <= g.mgr.lastLocal
  {
    FixedFields(e, i);
    StepView(e, i, id);
    var g := Step(e, i).end;
    hide Step, Enabled, HalfOk, AllHalves, HalfStep;
    if id in g.ports {
      MadeOnlyBy(e, i, id);
      if i.TakeFrame? { assert FreshSyn(e, i.f) by { TakeIsFresh(e, i); } }
      if i.OpenStream? { OpenedWithinLimit(e, id); }
    }
  }

  lemma TakeIsFresh(e: Endpoint, i: Input)
    requires Enabled(e, i) && i.TakeFrame?
    ensures FreshSyn(e, i.f)
  {
  }

  lemma OpenedWithinLimit(e: Endpoint, id: StreamID)
    requires Enabled(e, OpenStream)
    ensures HalfStep(e, OpenStream, id).made && id !in e.ports ==> !AtLimit(e) && id == NextLocalId(e)
  {
  }

  // ---- runs ----

  /** `e` is reached from `from` by the inputs `ins`, each enabled in its turn. */
  ghost predicate Run(from: Endpoint, ins: seq<Input>, e: Endpoint)
    decreases |ins|
  {
    if ins == [] then from == e
    else Enabled(from, ins[0]) && Run(Step(from, ins[0]).end, ins[1..], e)
  }

  lemma {:induction false} RunKeeps(from: Endpoint, ins: seq<Input>, e: Endpoint)
    requires Run(from, ins, e) && EndpointOk(from)
    ensures EndpointOk(e) && e.window == from.window && e.client == from.client
    decreases |ins|
  {
    hide EndpointOk, Step;
    if ins == [] {
    } else {
      StepKeeps(from, ins[0]);
      RunKeeps(Step(from, ins[0]).end, ins[1..], e);
    }
  }

  lemma NewEndpointIsOk(client: bool, window: nat, limit: nat)
    ensures EndpointOk(NewEndpoint(client, window, limit))
  {
    var e := NewEndpoint(client, window, limit);
    forall id: StreamID ensures HalfOk(HalfOf(e, id), window) {
      var h := HalfOf(e, id);
      assert Queued(h) == [];
    }
  }
}
