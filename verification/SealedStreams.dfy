/** After a DATA frame was refused, no more data reaches the stream. */
module SealedStreams {
  import opened Constrained
  import opened MuxErrors
  import opened Frames
  import opened Codec
  import opened Streams
  import opened StreamManagers
  import opened Flows
  import opened StreamFacts
  import opened Halves
  import opened HalfInvariants
  import opened HalfSteps
  import opened Lanes
  import opened Endpoints
  import opened EndpointInvariants
  import opened EndpointTheorems

  /** The stream takes no DATA frame any more. */
  predicate Sealed(h: Half) {
    h.made && (h.handle.None? || h.handle.value.dataWriteClosed)
  }

  /** All bytes that ever reached the stream and were not dropped with it. */
  function Holdings(h: Half): seq<byte> {
    h.port.delivered + ((if h.port.user.Some? then h.port.user.value.readBuf else []) + Payloads(h.port.inbox))
  }

  /** A DATA frame that makes the reader send a reset seals its stream, and so does a received RST. */
  lemma RefusalSeals(h: Half, slot: bool)
    requires h.hand.Some? && h.hand.value.Sending? && h.made
    ensures DoSend(h, slot).next.Reset? || (h.hand.value.f.body.Rst? && h.hand.value.f.header.typ == RstType) ==>
      Sealed(DoSend(h, slot).half) && DoSend(h, slot).half.port.inbox == h.port.inbox
  {
    hide BareFin, ErrorCode;
  }

  /** What a sealed stream still takes from the dispatcher is credit alone: no DATA frame, so no DATA with FIN either. */
  lemma OnlyCreditEnters(h: Half, slot: bool)
    requires h.hand.Some? && h.hand.value.Sending? && HandOk(h) && Sealed(h)
    ensures var g := DoSend(h, slot).half;
      && Sealed(g) && g.port == h.port.(code := g.port.code, inbox := g.port.inbox)
      && (g.port.inbox == h.port.inbox || (g.port.inbox == h.port.inbox + [h.hand.value.f] && h.hand.value.f.body.WndInc?))
  {
    hide BareFin, ErrorCode;
  }

  /**
    A FIN can still reach a sealed stream in one way only: as the flag of a
    WNDINC frame, which no correct endpoint sends. It does so exactly when the
    stream is known, alive and has room.
  */
  lemma FinEntersSealedOnlyOnCredit(h: Half, slot: bool)
    requires h.hand.Some? && h.hand.value.Sending? && HandOk(h) && Sealed(h)
    ensures var f := h.hand.value.f;
      h.port.inbox != DoSend(h, slot).half.port.inbox && f.IsFin()
      <==> f.body.WndInc? && f.IsFin() && h.handle.Some? && h.port.user.Some? && !h.port.inboxClosed && slot
  {
    hide ErrorCode;
    assert |h.port.inbox + [h.hand.value.f]| != |h.port.inbox|;
  }

  lemma SendSealed(h: Half, slot: bool)
    requires h.hand.Some? && h.hand.value.Sending? && HandOk(h) && Sealed(h)
    ensures Sealed(DoSend(h, slot).half) && Holdings(DoSend(h, slot).half) == Holdings(h)
  {
    OnlyCreditEnters(h, slot);
    hide DoSend, HandOk, Sealed;
    var f := h.hand.value.f;
    PayloadsAppend(h.port.inbox, [f]);
    if f.body.WndInc? {
      assert [f][1..] == [] && Payloads([f]) == [];
      assert Payloads(h.port.inbox) + [] == Payloads(h.port.inbox);
    }
  }

  lemma CallSealed(h: Half, call: Call, window: nat)
    requires HalfOk(h, window) && Sealed(h) && (if call.Drop? then h.port.user.Some? else Usable(h))
    ensures Sealed(CallStep(h, call)) && Holdings(CallStep(h, call)) <= Holdings(h)
  {
    hide SenderOk, StreamFrames, AllFromWire, PollRead, PollWrite, PollShutdown, PollFlush, Flow, Payloads;
    var p := h.port;
    match call
    case Read(room, slot) =>
      ReadTakesFront(p.user.value, p.inbox, InboxEnded(h), SinkOf(h), room, slot);
    case Write(buf, slot) =>
      WriteKeepsUnread(p.user.value, p.inbox, InboxEnded(h), SinkOf(h), buf, slot);
    case Flush(slot, broken) => CloseFacts(p.user.value, SinkOf(h), slot, slot, broken);
    case Shutdown(slot, flushSlot, broken) => CloseFacts(p.user.value, SinkOf(h), slot, flushSlot, broken);
    case Drop => DropHolds(h);
  }

  lemma DropHolds(h: Half)
    ensures Holdings(DoDrop(h)) <= Holdings(h)
  {
    assert Payloads([]) == [];
  }

  lemma ReaderSealed(h: Half, f: Frame, full: bool, window: nat, ok: bool)
    requires Sealed(h)
    ensures !f.IsSyn() ==> var g := DoTake(h, f, full, window).half; Sealed(g) && Holdings(g) == Holdings(h)
    ensures h.hand.Some? && h.hand.value.Accepting? ==> var g := DoAccept(h, ok).half; Sealed(g) && Holdings(g) <= Holdings(h)
  {
    DropHolds(h);
    hide Payloads;
  }

  lemma QuietSealed(h: Half, e: Error, clear: bool)
    requires Sealed(h)
    ensures Sealed(DoGoAway(h, e, clear)) && Holdings(DoGoAway(h, e, clear)) == Holdings(h)
    ensures Sealed(DoStopReading(h)) && Holdings(DoStopReading(h)) <= Holdings(h)
    ensures Sealed(DoMark(h)) && Holdings(DoMark(h)) == Holdings(h)
    ensures Sealed(DoCloseSender(h)) && Holdings(DoCloseSender(h)) == Holdings(h)
    ensures Sealed(DoForget(h)) && Holdings(DoForget(h)) == Holdings(h)
  {
    DropHolds(h);
    hide Payloads, ErrorCode;
  }

  lemma PollSealed(h: Half, id: StreamID, io: bool)
    requires CanPoll(h) && h.handle.Some? && Sealed(h)
    ensures var g := DoPoll(h, id, io).half; Sealed(g) && Holdings(g) == Holdings(h)
  {
    hide Encode, Flow, Payloads;
  }

  lemma FlagsSealed(h: Half, reading: bool, writing: bool)
    requires Sealed(h)
    ensures var g := h.(reading := reading, writing := writing); Sealed(g) && Holdings(g) == Holdings(h)
  {
  }

  lemma StepSealed(e: Endpoint, i: Input, id: StreamID)
    requires EndpointOk(e) && Enabled(e, i) && Sealed(HalfOf(e, id))
    ensures Sealed(HalfStep(e, i, id)) && Holdings(HalfStep(e, i, id)) <= Holdings(HalfOf(e, id))
  {
    hide EndpointOk, DoPoll, DoTake, DoAccept, DoSend, CallStep, DoGoAway, DoStopReading, DoMark, DoCloseSender, DoForget,
      SystemStep, Endpoints.TakeStep, AllHalves, HalfOk, Holdings;
    var h := HalfOf(e, id);
    var g := HalfStep(e, i, id);
    EndpointHalves(e);
    FlagsSealed(h, g.reading, g.writing);
    if i.TakeFrame? || i.AcceptQueue? || i.SendPoll? {
      ReaderStepSealed(e, i, id);
    } else {
      QuietSealed(h, if i.ApplyGoAway? then e.reader.reason else SessionClosed, i.PollSystem?);
      match i
      case OpenStream => assert id != NextLocalId(e) by { NextIdIsFresh(e); }
      case App(j, call) => if j == id { LinkedAt(e, id); CallSealed(h, call, e.window); }
      case PollStream(j, io) => if j == id { PollSealed(h, id, io); }
      case PollSystem(_) => FlagsSealed(DoGoAway(h, SessionClosed, true), DoGoAway(h, SessionClosed, true).reading, false);
      case _ =>
    }
  }

  lemma ReaderStepSealed(e: Endpoint, i: Input, id: StreamID)
    requires EndpointOk(e) && Enabled(e, i) && Sealed(HalfOf(e, id))
    requires i.TakeFrame? || i.AcceptQueue? || i.SendPoll?
    ensures Sealed(HalfStep(e, i, id)) && Holdings(HalfStep(e, i, id)) <= Holdings(HalfOf(e, id))
  {
    hide EndpointOk, DoTake, DoAccept, DoSend, Endpoints.TakeStep, Holdings;
    var h := HalfOf(e, id);
    EndpointHalves(e);
    LinkedAt(e, id);
    assert HandOk(h);
    hide AllHalves, HalfOk, HandOk;
    FlagsSealed(h, HalfStep(e, i, id).reading, h.writing);
    match i
    case TakeFrame(f) => if f.header.streamId == id { ReaderSealed(h, f, AtLimit(e), e.window, true); }
    case AcceptQueue(ok) => if e.reader.id == id { ReaderSealed(h, h.hand.value.f, true, 0, ok); }
    case SendPoll(slot) => if e.reader.id == id { SendSealed(h, slot); }
  }

  /**
    Against any remote with fresh SYN ids and in every run, the bytes that reach a
    sealed stream, read or still waiting, never grow again.
  */
  lemma {:induction false} NothingEntersSealed(from: Endpoint, ins: seq<Input>, e: Endpoint, id: StreamID)
    requires Run(from, ins, e) && EndpointOk(from) && Sealed(HalfOf(from, id))
    ensures Sealed(HalfOf(e, id)) && Holdings(HalfOf(e, id)) <= Holdings(HalfOf(from, id))
    decreases |ins|
  {
    hide EndpointOk, Step, HalfOf, HalfStep, Sealed, Holdings;
    if ins == [] {
    } else {
      StepKeeps(from, ins[0]);
      StepSealed(from, ins[0], id);
      assert AllHalves(from) by { EndpointHalves(from); }
      StepView(from, ins[0], id);
      NothingEntersSealed(Step(from, ins[0]).end, ins[1..], e, id);
    }
  }

  // ---- the end mark ----

  /** The one frame that still brings a FIN: a WNDINC with the flag set. */
  predicate FinOnCredit(f: Frame) {
    f.body.WndInc? && f.IsFin()
  }

  predicate PlainHand(h: Half) {
    forall k :: 0 <= k < |HandFrames(h)| ==> !FinOnCredit(HandFrames(h)[k])
  }

  lemma SendMarks(h: Half, slot: bool)
    requires h.hand.Some? && h.hand.value.Sending? && HandOk(h) && Sealed(h) && PlainHand(h)
    ensures PlainHand(DoSend(h, slot).half) && Arrived(DoSend(h, slot).half) == Arrived(h)
  {
    OnlyCreditEnters(h, slot);
    SendKeepsHand(h, slot);
    hide DoSend, HandOk, Sealed, Flow;
    var f := h.hand.value.f;
    assert !FinOnCredit(f) by { assert HandFrames(h)[0] == f; }
    FlowSnoc(h.port.inbox, f);
  }

  lemma SendKeepsHand(h: Half, slot: bool)
    requires h.hand.Some? && h.hand.value.Sending?
    ensures var g := DoSend(h, slot).half; HandFrames(g) == [] || HandFrames(g) == HandFrames(h)
  {
    hide PollSend;
  }

  lemma ReadMarks(h: Half, room: nat, slot: bool, window: nat)
    requires HalfOk(h, window) && Usable(h)
    ensures Arrived(DoRead(h, room, slot)) == Arrived(h)
  {
    hide SenderOk, Linked, HandOk, StreamFrames, AllFromWire, PollRead, Flow, Absorbed, DataBytes, Credit;
    var p := h.port;
    var taken, _ := ReadFacts(p.user.value, p.inbox, InboxEnded(h), SinkOf(h), room, slot);
    FoundTaken(p.inbox, PollRead(p.user.value, p.inbox, InboxEnded(h), SinkOf(h), room, slot).inbox, taken);
  }

  lemma WriteMarks(h: Half, buf: seq<byte>, slot: bool, window: nat)
    requires HalfOk(h, window) && Usable(h)
    ensures Arrived(DoWrite(h, buf, slot)) == Arrived(h)
  {
    hide SenderOk, Linked, HandOk, StreamFrames, AllFromWire, PollWrite, Flow, Absorbed, DataBytes, Credit;
    var p := h.port;
    var taken, _ := WriteFacts(p.user.value, p.inbox, InboxEnded(h), SinkOf(h), buf, slot);
    FoundTaken(p.inbox, PollWrite(p.user.value, p.inbox, InboxEnded(h), SinkOf(h), buf, slot).inbox, taken);
  }

  lemma CallMarks(h: Half, call: Call, window: nat)
    requires HalfOk(h, window) && (if call.Drop? then h.port.user.Some? else Usable(h))
    ensures CallStep(h, call).hand == h.hand && Arrived(CallStep(h, call)) <= Arrived(h)
  {
    hide HalfOk, PollRead, PollWrite, PollShutdown, PollFlush, Flow;
    match call
    case Read(room, slot) => ReadMarks(h, room, slot, window);
    case Write(buf, slot) => WriteMarks(h, buf, slot, window);
    case Flush(_, _) =>
    case Shutdown(_, _, _) =>
    case Drop => FlowNone();
  }

  lemma SameMarks(h: Half, g: Half)
    ensures g.hand == h.hand ==> PlainHand(g) == PlainHand(h)
    ensures g.port == h.port ==> Arrived(g) == Arrived(h)
  {
    assert g.hand == h.hand ==> HandFrames(g) == HandFrames(h);
  }

  lemma TakeMarks(h: Half, f: Frame, full: bool, window: nat)
    requires !f.IsSyn()
    ensures var g := DoTake(h, f, full, window).half;
      (HandFrames(g) == [f] || HandFrames(g) == []) && Arrived(g) == Arrived(h)
  {
    hide Flow, Undeliverable;
  }

  lemma AcceptMarks(h: Half, ok: bool)
    requires h.hand.Some? && h.hand.value.Accepting?
    ensures var g := DoAccept(h, ok).half;
      (HandFrames(g) == HandFrames(h) || HandFrames(g) == []) && Arrived(g) <= Arrived(h)
  {
    hide Flow, Undeliverable;
    FlowNone();
  }

  lemma QuietMarks(h: Half, e: Error, clear: bool)
    ensures var g := DoGoAway(h, e, clear); HandFrames(g) == HandFrames(h) && Arrived(g) == Arrived(h)
    ensures HandFrames(DoStopReading(h)) == [] && Arrived(DoStopReading(h)) <= Arrived(h)
    ensures HandFrames(DoMark(h)) == [] && Arrived(DoMark(h)) == Arrived(h)
    ensures HandFrames(DoCloseSender(h)) == HandFrames(h) && Arrived(DoCloseSender(h)) == Arrived(h)
  {
    hide Flow, ErrorCode;
    FlowNone();
  }

  lemma PollMarks(h: Half, id: StreamID, io: bool)
    requires CanPoll(h) && h.handle.Some?
    ensures var g := DoPoll(h, id, io).half; HandFrames(g) == HandFrames(h) && Arrived(g) == Arrived(h)
  {
    hide Encode, Flow, PollTask;
  }

  /** No step takes a frame of this stream that is a WNDINC with FIN. */
  predicate PlainCredit(i: Input, id: StreamID) {
    i.TakeFrame? && i.f.header.streamId == id ==> !FinOnCredit(i.f)
  }

  lemma StepMarks(e: Endpoint, i: Input, id: StreamID)
    requires EndpointOk(e) && Enabled(e, i) && Sealed(HalfOf(e, id)) && PlainHand(HalfOf(e, id)) && PlainCredit(i, id)
    ensures PlainHand(HalfStep(e, i, id)) && Arrived(HalfStep(e, i, id)) <= Arrived(HalfOf(e, id))
  {
    hide EndpointOk, DoPoll, DoTake, DoAccept, DoSend, CallStep, DoGoAway, DoStopReading, DoMark, DoCloseSender,
      SystemStep, Endpoints.TakeStep, AllHalves, HalfOk, Flow, FinOnCredit;
    var h := HalfOf(e, id);
    EndpointHalves(e);
    LinkedAt(e, id);
    assert HandOk(h);
    hide Linked, HandOk;
    SameMarks(h, HalfStep(e, i, id));
    match i
    case TakeFrame(f) => if f.header.streamId == id { TakeMarks(h, f, AtLimit(e), e.window); }
    case AcceptQueue(ok) => if e.reader.id == id { AcceptMarks(h, ok); }
    case SendPoll(slot) => if e.reader.id == id { SendMarks(h, slot); }
    case OpenStream => assert id != NextLocalId(e) by { NextIdIsFresh(e); }
    case App(j, call) => if j == id { CallMarks(h, call, e.window); }
    case PollStream(j, io) => if j == id { PollMarks(h, id, io); }
    case PollSystem(_) => QuietMarks(h, SessionClosed, true);
    case ApplyGoAway => QuietMarks(h, e.reader.reason, false);
    case _ => QuietMarks(h, NoError, false);
  }

  /**
    Over any run, neither data nor a FIN reaches a sealed stream, as long as no
    WNDINC frame with FIN is taken for it: what has arrived, end marks included,
    never grows.
  */
  lemma {:induction false} NoFinEntersSealed(from: Endpoint, ins: seq<Input>, e: Endpoint, id: StreamID)
    requires Run(from, ins, e) && EndpointOk(from) && Sealed(HalfOf(from, id)) && PlainHand(HalfOf(from, id))
    requires forall k :: 0 <= k < |ins| ==> PlainCredit(ins[k], id)
    ensures Arrived(HalfOf(e, id)) <= Arrived(HalfOf(from, id))
    decreases |ins|
  {
    hide EndpointOk, Step, HalfOf, HalfStep, Sealed, Holdings, Arrived, PlainHand, PlainCredit;
    if ins == [] {
    } else {
      StepKeeps(from, ins[0]);
      StepSealed(from, ins[0], id);
      assert PlainCredit(ins[0], id);
      StepMarks(from, ins[0], id);
      assert AllHalves(from) by { EndpointHalves(from); }
      StepView(from, ins[0], id);
      NoFinEntersSealed(Step(from, ins[0]).end, ins[1..], e, id);
    }
  }

  /**
    A refused DATA frame leaves no gap behind it. In any reachable state, when the
    dispatcher answers a frame of a known stream with a reset, the bytes that reach
    the stream never grow again in any run: what the application has is a prefix
    of the data before the refusal. Nor does a FIN reach it, so the application is
    told of no false end, unless the remote puts one on a WNDINC frame.
  */
  lemma RefusalIsFinal(
      client: bool, window: nat, limit: nat, ins: seq<Input>, from: Endpoint, slot: bool, more: seq<Input>, e: Endpoint)
    requires Reached(client, window, limit, ins, from) && Enabled(from, SendPoll(slot)) && from.reader.id in from.ports
    requires DoSend(HalfOf(from, from.reader.id), slot).next.Reset?
    requires Run(Step(from, SendPoll(slot)).end, more, e)
    ensures var id := from.reader.id;
      && Sealed(HalfOf(e, id)) && Holdings(HalfOf(e, id)) <= Holdings(HalfOf(from, id))
      && ((forall k :: 0 <= k < |more| ==> PlainCredit(more[k], id)) ==> Arrived(HalfOf(e, id)) <= Arrived(HalfOf(from, id)))
  {
    hide Reached, EndpointOk, DoSend, Run, Sealed, Payloads, Flow, PlainCredit;
    var id := from.reader.id;
    var h := HalfOf(from, id);
    var g := DoSend(h, slot).half;
    ReachedIsOk(client, window, limit, ins, from);
    EndpointHalves(from);
    RefusalSeals(h, slot);
    RefusalKeepsPort(h, slot);
    StepView(from, SendPoll(slot), id);
    StepKeeps(from, SendPoll(slot));
    hide Step, HalfOf, AllHalves, Holdings, Arrived;
    NothingEntersSealed(Step(from, SendPoll(slot)).end, more, e, id);
    if forall k :: 0 <= k < |more| ==> PlainCredit(more[k], id) {
      NoFinEntersSealed(Step(from, SendPoll(slot)).end, more, e, id);
    }
  }

  lemma RefusalKeepsPort(h: Half, slot: bool)
    requires h.hand.Some? && h.hand.value.Sending? && h.made && DoSend(h, slot).next.Reset?
    ensures var g := DoSend(h, slot).half; Holdings(g) == Holdings(h) && Arrived(g) == Arrived(h) && PlainHand(g)
  {
    RefusalSeals(h, slot);
    hide PollSend, Payloads, Flow;
  }

  // ---- the remote's bytes ----

  /**
    Whatever bytes the remote sends, every frame parsed from them has a body of
    its header's type or an invalid body: what an endpoint asks of a frame.
  */
  lemma {:induction false} ParsedFramesAreFromWire(bs: seq<byte>)
    ensures forall k :: 0 <= k < |ParseAll(bs).frames| ==> FromWire(ParseAll(bs).frames[k])
    decreases |bs|
  {
    hide DecodeHeader, DecodeFrame;
    if |bs| < 8 {
    } else {
      var h := DecodeHeader(bs[..8]);
      if |bs| < 8 + h.length {
      } else {
        ParsedFramesAreFromWire(bs[8 + h.length..]);
      }
    }
  }
}
