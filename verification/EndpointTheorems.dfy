/**
  Properties of every state an endpoint can reach against any remote whose SYN
  ids are fresh.
*/
module EndpointTheorems {
  import opened Wrappers
  import opened Constrained
  import opened MuxErrors
  import opened Frames
  import opened Codec
  import opened Streams
  import opened StreamManagers
  import opened Flows
  import StreamFacts
  import opened Halves
  import opened HalfInvariants
  import opened Lanes
  import opened Endpoints
  import opened EndpointInvariants

  /** `e` is reached by the inputs `ins` from a new endpoint. */
  ghost predicate Reached(client: bool, window: nat, limit: nat, ins: seq<Input>, e: Endpoint) {
    Run(NewEndpoint(client, window, limit), ins, e)
  }

  lemma ReachedIsOk(client: bool, window: nat, limit: nat, ins: seq<Input>, e: Endpoint)
    requires Reached(client, window, limit, ins, e)
    ensures EndpointOk(e) && e.window == window && e.client == client
  {
    NewEndpointIsOk(client, window, limit);
    RunKeeps(NewEndpoint(client, window, limit), ins, e);
  }

  lemma HalfIsOk(client: bool, window: nat, limit: nat, ins: seq<Input>, e: Endpoint, id: StreamID)
    requires Reached(client, window, limit, ins, e)
    ensures HalfOk(HalfOf(e, id), window)
  {
    hide EndpointOk, HalfOk, Reached;
    ReachedIsOk(client, window, limit, ins, e);
    assert AllHalves(e) by { EndpointHalves(e); }
    LinkedAt(e, id);
  }

  lemma EndpointHalves(e: Endpoint)
    requires EndpointOk(e)
    ensures AllHalves(e) && |e.mgr.streams| <= e.mgr.limit && IdsOk(e)
  {
  }

  /**
    While the session has not gone away, the pending receiver tasks are exactly
    the streams in the map, each once, and there are at most `limit` of them.
    So a task that is ready always finds its stream: the `unreachable!` in
    `poll_next` is not reached.
  */
  lemma MapAndTasksAgree(client: bool, window: nat, limit: nat, ins: seq<Input>, e: Endpoint)
    requires Reached(client, window, limit, ins, e) && !e.mgr.goneAway
    ensures e.mgr.tasks == multiset(e.mgr.streams.Keys)
    ensures |e.mgr.streams| <= e.mgr.limit
    ensures forall id :: id in e.mgr.tasks ==> id in e.mgr.streams
  {
    hide Reached;
    ReachedIsOk(client, window, limit, ins, e);
    EndpointHalves(e);
    hide EndpointOk, AllHalves, HalfOk;
    forall id: StreamID ensures e.mgr.tasks[id] == multiset(e.mgr.streams.Keys)[id] {
      LinkedAt(e, id);
      assert HalfOf(e, id).tasks == e.mgr.tasks[id];
    }
  }

  /**
    The receive bound. The bytes held for a stream anywhere between the
    dispatcher and the application never exceed the configured window; together
    with the free window and the credit not yet sent they make up exactly that
    window as long as the stream, its sink and the reader are alive.
  */
  lemma ReceiveBound(client: bool, window: nat, limit: nat, ins: seq<Input>, e: Endpoint, id: StreamID)
    requires Reached(client, window, limit, ins, e) && id in e.mgr.streams
    ensures var h, p := HalfOf(e, id), HalfOf(e, id).port;
      var buffered := DataBytes(p.inbox) + if p.user.Some? then |p.user.value.readBuf| else 0;
      && HandOk(h)
      && e.mgr.streams[id].window + Held(h) + buffered + Credit(p.outbox) <= window
      && (p.user.Some? && p.code == 0 && Reading(e.reader) ==>
            e.mgr.streams[id].window + Held(h) + buffered + Credit(p.outbox) == window)
  {
    hide Reached;
    HalfIsOk(client, window, limit, ins, e, id);
    hide SenderOk, Linked;
  }

  /** A stream in the map whose sink is closed needs no FIN, as `poll_next` expects. */
  lemma ClosedSinkNeedsNoFin(client: bool, window: nat, limit: nat, ins: seq<Input>, e: Endpoint, id: StreamID)
    requires Reached(client, window, limit, ins, e) && id in e.mgr.streams && HalfOf(e, id).port.code != 0
    ensures !e.mgr.streams[id].needsFin
  {
    hide Reached;
    HalfIsOk(client, window, limit, ins, e, id);
    hide SenderOk, WindowOk;
  }

  /**
    Only DATA and WNDINC frames ever wait in a stream's inbox, each under a header
    of its body's type: `handle_frame` never panics, and the type it returns to the
    receive loop is that of what it absorbed.
  */
  lemma InboxHoldsStreamFrames(client: bool, window: nat, limit: nat, ins: seq<Input>, e: Endpoint, id: StreamID)
    requires Reached(client, window, limit, ins, e)
    ensures var inbox := HalfOf(e, id).port.inbox;
      forall k :: 0 <= k < |inbox| ==> StreamFrame(inbox[k]) && inbox[k].header.typ == TypeOfBody(inbox[k].body)
  {
    hide Reached;
    HalfIsOk(client, window, limit, ins, e, id);
    hide SenderOk, WindowOk;
  }

  /**
    The outgoing life of a stream. In what the manager has emitted for it:
    only the first DATA frame can carry SYN, no DATA follows a FIN, and so there
    is at most one FIN; the payload is a prefix of what the application wrote.
  */
  lemma OutgoingLifecycle(client: bool, window: nat, limit: nat, ins: seq<Input>, e: Endpoint, id: StreamID)
    requires Reached(client, window, limit, ins, e)
    ensures var out := HalfOf(e, id).port.emitted;
      && SynFirst(out)
      && (forall i, j :: 0 <= i < j < |out| && out[i].IsFin() ==> !out[j].body.Data? && !out[j].IsFin())
      && Flow(out) <= HalfOf(e, id).port.sent
  {
    hide Reached;
    HalfIsOk(client, window, limit, ins, e, id);
    hide Linked, WindowOk, Flow;
    var p := HalfOf(e, id).port;
    QueuePrefix(p.emitted, p.outbox);
    forall i, j | 0 <= i < j < |p.emitted| && p.emitted[i].IsFin()
      ensures !p.emitted[j].body.Data? && !p.emitted[j].IsFin()
    {
      assert Conforming(p.emitted[j]);
    }
  }

  /** A correct endpoint's frames describe themselves, so they survive the wire. */
  lemma ConformingIsWellFormed(f: Frame)
    requires Conforming(f) && f.header.streamId != 0
    ensures WellFormed(f)
  {
  }

  lemma PollConforms(h: Half, id: StreamID, io: bool, window: nat)
    requires HalfOk(h, window) && CanPoll(h) && h.handle.Some?
    ensures var o := DoPoll(h, id, io); |o.wire| <= 1 && (o.wire != [] ==> Conforming(o.wire[0]))
    ensures id != 0 && io ==> DoPoll(h, id, io).half.writing
  {
    hide Flow, SynFirst, FinStops, FinLast, Conforming, WindowOk, EncodeHeader, EncodeBody;
    OwnFramesConform([], false, 0);
    var f := if h.port.outbox != [] then h.port.outbox[0] else FinFrame();
    FlowIgnoresId(f, id);
    if id != 0 {
      ConformingIsWellFormed(f.WithStreamId(id));
    }
  }

  /**
    Every frame the writer sends for a stream passes the encoder's checks and
    decodes to itself. A working connection takes what the manager has to send,
    and the writer goes on, for every id but zero: stream 0, which a SYN with
    that id makes, never gets a frame out, and its first one ends the writer.
  */
  lemma StreamFramesEncode(client: bool, window: nat, limit: nat, ins: seq<Input>, e: Endpoint, id: StreamID, io: bool)
    requires Reached(client, window, limit, ins, e) && Enabled(e, PollStream(id, io))
    ensures forall f :: f in Step(e, PollStream(id, io)).wire ==> WellFormed(f)
    ensures id == 0 ==> Step(e, PollStream(id, io)).wire == []
    ensures io ==>
      var g := Step(e, PollStream(id, io)).end;
      g.writing <==> id != 0 || HalfOf(g, id).port.emitted == HalfOf(e, id).port.emitted
  {
    hide Reached, HalfOk, DoPoll, WellFormed;
    HalfIsOk(client, window, limit, ins, e, id);
    var h := HalfOf(e, id);
    var o := DoPoll(h, id, io);
    PollConforms(h, id, io, window);
    PollStamps(h, id, io);
    if o.wire != [] && id != 0 {
      ConformingIsWellFormed(o.wire[0]);
    }
    assert HalfOf(Step(e, PollStream(id, io)).end, id) == o.half by {
      hide EndpointOk, AllHalves;
      ReachedIsOk(client, window, limit, ins, e);
      EndpointHalves(e);
      StepView(e, PollStream(id, io), id);
    }
  }

  lemma PollStamps(h: Half, id: StreamID, io: bool)
    requires CanPoll(h) && h.handle.Some?
    ensures var o := DoPoll(h, id, io);
      && (forall f :: f in o.wire ==> f.header.streamId == id && Encode(f).Some?)
      && (io ==> (o.half.writing <==> o.wire != [] || o.half.port.emitted == h.port.emitted))
  {
    hide PollTask, Encode, Flow;
    var p := h.port;
    assert forall f :: |p.emitted + [f]| != |p.emitted|;
    assert p.emitted + [] == p.emitted;
  }

  // ---- ids ----

  /**
    Local ids: below the 31-bit bound every stream gets a new, non-zero id of
    the endpoint's own parity, larger than all its earlier ones.
  */
  lemma NextIdIsNew(client: bool, window: nat, limit: nat, ins: seq<Input>, e: Endpoint)
    requires Reached(client, window, limit, ins, e) && NextLocalId(e) <= STREAMID_MAX
    ensures var id := NextLocalId(e);
      && id != 0 && id !in e.ports && (id % 2 == 1) == client
      && forall j :: j in e.ports && (j % 2 == 1) == client ==> j < id
  {
    hide Reached;
    ReachedIsOk(client, window, limit, ins, e);
    EndpointHalves(e);
  }

  /** The id `create_stream` computes, including the clamp at the top of the range. */
  function AllocatedId(last: StreamID): StreamID {
    Clamp(last + 2, STREAMID_MAX)
  }

  /** The allocator keeps the parity and moves on exactly as long as two more ids fit. */
  lemma AllocatorSaturates(last: StreamID)
    ensures AllocatedId(last) > last && AllocatedId(last) % 2 == last % 2 <==> last + 2 <= STREAMID_MAX
  {
  }

  // ---- after a reset ----

  /** The stream will not emit anything any more. */
  predicate Silenced(h: Half) {
    h.made && (h.handle.None? || (h.port.code != 0 && !h.handle.value.needsFin))
  }

  /** A received RST with a non-zero code silences the stream it is for. */
  lemma ResetSilences(h: Half, slot: bool)
    requires h.hand.Some? && h.hand.value.Sending? && h.hand.value.f.body.Rst? && h.made && h.reading
    requires h.hand.value.f.header.typ == RstType
    requires h.hand.value.f.body.error != NoError
    ensures Silenced(DoSend(h, slot).half)
  {
    ErrorRoundTrip(h.hand.value.f.body.error);
  }

  lemma SilencedStays(e: Endpoint, i: Input, id: StreamID)
    requires EndpointOk(e) && Enabled(e, i) && Silenced(HalfOf(e, id))
    ensures Silenced(HalfStep(e, i, id)) && HalfStep(e, i, id).port.emitted == HalfOf(e, id).port.emitted
  {
    hide EndpointOk, DoPoll, DoTake, DoAccept, DoSend, CallStep, DoGoAway, DoStopReading, SystemStep, Endpoints.TakeStep, AllHalves, HalfOk;
    var h := HalfOf(e, id);
    EndpointHalves(e);
    if i.TakeFrame? || i.AcceptQueue? || i.SendPoll? {
      ReaderSilenced(e, i, id);
    } else {
      match i
      case OpenStream => assert id != NextLocalId(e) by { NextIdIsFresh(e); }
      case App(j, call) => if j == id { LinkedAt(e, id); CallSilenced(h, call, e.window); }
      case PollStream(j, io) => if j == id { PollSilenced(h, id, io); }
      case PollSystem(_) => CloseSilenced(h, SessionClosed, true);
      case ApplyGoAway => CloseSilenced(h, e.reader.reason, false);
      case EndReader(_) => CloseSilenced(h, NoError, false);
      case _ =>
    }
  }

  lemma ReaderSilenced(e: Endpoint, i: Input, id: StreamID)
    requires EndpointOk(e) && Enabled(e, i) && Silenced(HalfOf(e, id))
    requires i.TakeFrame? || i.AcceptQueue? || i.SendPoll?
    ensures Silenced(HalfStep(e, i, id)) && HalfStep(e, i, id).port.emitted == HalfOf(e, id).port.emitted
  {
    hide EndpointOk, DoTake, DoAccept, DoSend, Endpoints.TakeStep;
    var h := HalfOf(e, id);
    EndpointHalves(e);
    LinkedAt(e, id);
    hide AllHalves, Linked, HandOk;
    match i
    case TakeFrame(f) => if f.header.streamId == id { TakeSilenced(h, f, AtLimit(e), e.window); }
    case AcceptQueue(ok) => if e.reader.id == id { AcceptSilenced(h, ok); }
    case SendPoll(slot) => if e.reader.id == id { SendSilenced(h, slot); }
  }

  lemma PollSilenced(h: Half, id: StreamID, io: bool)
    requires CanPoll(h) && h.handle.Some? && Silenced(h)
    ensures var g := DoPoll(h, id, io).half; Silenced(g) && g.port.emitted == h.port.emitted
  {
    hide Encode, Flow;
  }

  lemma CloseSilenced(h: Half, e: Error, clear: bool)
    requires Silenced(h)
    ensures Silenced(DoGoAway(h, e, clear)) && DoGoAway(h, e, clear).port.emitted == h.port.emitted
    ensures Silenced(DoStopReading(h)) && DoStopReading(h).port.emitted == h.port.emitted
  {
  }

  lemma TakeSilenced(h: Half, f: Frame, full: bool, window: nat)
    requires Silenced(h) && !f.IsSyn()
    ensures var g := DoTake(h, f, full, window).half; Silenced(g) && g.port.emitted == h.port.emitted
  {
  }

  lemma AcceptSilenced(h: Half, ok: bool)
    requires Silenced(h) && h.hand.Some? && h.hand.value.Accepting?
    ensures var g := DoAccept(h, ok).half; Silenced(g) && g.port.emitted == h.port.emitted
  {
  }

  lemma CallSilenced(h: Half, call: Call, window: nat)
    requires HalfOk(h, window) && Silenced(h) && (if call.Drop? then h.port.user.Some? else Usable(h))
    ensures Silenced(CallStep(h, call)) && CallStep(h, call).port.emitted == h.port.emitted
  {
    hide SenderOk, StreamFrames, AllFromWire, PollRead, PollWrite, PollShutdown, PollFlush, Flow;
    match call
    case Read(room, slot) =>
      var _, _ := StreamFacts.ReadFacts(h.port.user.value, h.port.inbox, InboxEnded(h), SinkOf(h), room, slot);
    case Write(buf, slot) =>
      var _, _ := StreamFacts.WriteFacts(h.port.user.value, h.port.inbox, InboxEnded(h), SinkOf(h), buf, slot);
    case Flush(slot, broken) => StreamFacts.CloseFacts(h.port.user.value, SinkOf(h), slot, slot, broken);
    case Shutdown(slot, flushSlot, broken) => StreamFacts.CloseFacts(h.port.user.value, SinkOf(h), slot, flushSlot, broken);
    case Drop =>
  }

  lemma SendSilenced(h: Half, slot: bool)
    requires h.hand.Some? && h.hand.value.Sending? && Silenced(h)
    ensures Silenced(DoSend(h, slot).half) && DoSend(h, slot).half.port.emitted == h.port.emitted
  {
    hide BareFin, ErrorCode;
  }

  /**
    Once a stream is silenced, no run takes another frame for it from the
    stream's own queue or makes up a FIN for it. (An RST that answers more data
    for the stream comes from the system queue.)
  */
  lemma {:induction false} NothingFollowsReset(from: Endpoint, ins: seq<Input>, e: Endpoint, id: StreamID)
    requires Run(from, ins, e) && EndpointOk(from) && Silenced(HalfOf(from, id))
    ensures Silenced(HalfOf(e, id)) && HalfOf(e, id).port.emitted == HalfOf(from, id).port.emitted
    decreases |ins|
  {
    hide EndpointOk, Step, HalfOf, HalfStep, Silenced;
    if ins == [] {
    } else {
      var next := Step(from, ins[0]).end;
      StepKeeps(from, ins[0]);
      SilencedStays(from, ins[0], id);
      assert AllHalves(from) by { EndpointHalves(from); }
      StepView(from, ins[0], id);
      NothingFollowsReset(next, ins[1..], e, id);
    }
  }

  /**
    The same from the reset on. In any reachable state, once the reader has
    dispatched an RST with a non-zero code, no run yields another frame of the
    stream it is for.
  */
  lemma ResetIsFinal(
      client: bool, window: nat, limit: nat, ins: seq<Input>, from: Endpoint, slot: bool, more: seq<Input>, e: Endpoint)
    requires Reached(client, window, limit, ins, from) && Enabled(from, SendPoll(slot))
    requires from.reader.hand.f.body.Rst? && from.reader.hand.f.body.error != NoError && from.reader.id in from.ports
    requires Run(Step(from, SendPoll(slot)).end, more, e)
    ensures HalfOf(e, from.reader.id).port.emitted == HalfOf(from, from.reader.id).port.emitted
  {
    hide Reached, EndpointOk, HalfOk, DoSend, Run, Silenced;
    var id := from.reader.id;
    var h := HalfOf(from, id);
    ReachedIsOk(client, window, limit, ins, from);
    HalfIsOk(client, window, limit, ins, from, id);
    EndpointHalves(from);
    LinkedAt(from, id);
    ResetSilences(h, slot);
    SendEmitsNothing(h, slot);
    StepView(from, SendPoll(slot), id);
    StepKeeps(from, SendPoll(slot));
    NothingFollowsReset(Step(from, SendPoll(slot)).end, more, e, id);
  }

  lemma SendEmitsNothing(h: Half, slot: bool)
    requires h.hand.Some? && h.hand.value.Sending?
    ensures DoSend(h, slot).half.port.emitted == h.port.emitted
  {
    hide PollSend;
  }

  // ---- where the assumptions are needed ----

  /** `create_stream` on the map and the tasks alone, for an id that may be in use. */
  function Created(m: Manager, id: StreamID, window: nat): Manager {
    m.(streams := m.streams[id := NewHandle(window)], tasks := m.tasks + multiset{id})
  }

  predicate Agree(m: Manager) {
    m.tasks == multiset(m.streams.Keys)
  }

  /** A SYN keeps the map and the tasks in agreement exactly when its id is not in the map. */
  lemma AgreementNeedsFreshId(m: Manager, id: StreamID, window: nat)
    requires Agree(m)
    ensures Agree(Created(m, id, window)) <==> id !in m.streams
  {
    var c := Created(m, id, window);
    assert c.streams.Keys == m.streams.Keys + {id};
    if id !in m.streams {
      assert multiset(c.streams.Keys) == multiset(m.streams.Keys) + multiset{id};
    } else {
      assert c.tasks[id] == 2 && multiset(c.streams.Keys)[id] == 1;
    }
  }

  /** A GOAWAY header that is refused: a stream id that is not zero, or a length below eight. */
  predicate BadGoAway(h: Header) {
    h.typ == GoAwayType && (h.streamId != 0 || h.length < 8)
  }

  /**
    The reader dies on a frame exactly when its header is a refused GOAWAY and
    the frame gets as far as being routed: one without SYN at once, one with SYN
    only below the stream limit and after the accept queue took the stream.
    Otherwise a SYN ends the reader in good order first.
  */
  lemma ReaderCrashesOnlyOnBadGoAway(h: Half, header: Header, body: seq<byte>, full: bool, window: nat, ok: bool)
    requires |body| == header.length
    ensures var f := DecodeFrame(header, body);
      var took := DoTake(h, f, full, window);
      && (took.next == Crash <==> BadGoAway(header) && !f.IsSyn())
      && (f.IsSyn() && full ==> took.next == Halt)
      && (f.IsSyn() && !full ==>
            && took.half.hand == Some(Accepting(f))
            && (DoAccept(took.half, ok).next == Crash <==> BadGoAway(header) && ok))
  {
  }
}
