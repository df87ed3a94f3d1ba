/**
  What an endpoint answers: which frames it refuses and why, the RST or GOAWAY that
  every refusal is answered with, and what going away does to the streams.
*/
module Replies {
  import opened Wrappers
  import opened Constrained
  import opened MuxErrors
  import opened Frames
  import opened Codec
  import opened StreamManagers
  import opened Flows
  import opened StreamFacts
  import opened StreamOutcomes
  import opened Lanes
  import opened Halves
  import opened HalfInvariants
  import opened Endpoints
  import opened EndpointInvariants
  import opened EndpointTheorems
  import opened SealedStreams

  // ---- dispatching a frame ----

  /**
    Why the frame in hand is refused, if it is. Only DATA is, and no FIN without
    data: for a stream that is unknown or takes no more data; for more data than the
    window has room for; for a stream whose receiving end is gone.
  */
  function Refusal(h: Half): Option<Error>
    requires h.hand.Some? && h.hand.value.Sending?
  {
    var Sending(f, charge) := h.hand.value;
    if !f.body.Data? || (f.header.flags.fin && f.body.data == []) then None
    else if h.handle.None? || h.handle.value.dataWriteClosed then Some(StreamClosed)
    else if h.handle.value.window < charge then Some(FlowControl)
    else if h.port.user.None? || h.port.inboxClosed then Some(StreamClosed)
    else None
  }

  /** The frame in hand can go into the stream's inbox. */
  predicate Welcome(h: Half)
    requires h.hand.Some? && h.hand.value.Sending?
  {
    var Sending(f, charge) := h.hand.value;
    && (f.body.Data? || f.body.WndInc?)
    && h.handle.Some? && charge <= h.handle.value.window && !(f.body.Data? && h.handle.value.dataWriteClosed)
    && h.port.user.Some? && !h.port.inboxClosed
  }

  /**
    The outcome of one poll of `send_to_stream`. A refused frame is dropped, its
    stream takes no more data and sends no more, not even a FIN. A received RST
    closes the stream's sink with its error and does the same. A welcome frame is
    paid for out of the window and queued, or kept, already paid for, until there is
    room. Anything else is dropped without a word. After a FIN the handle is to be
    marked.
  */
  predicate Dispatched(h: Half, slot: bool, r: Reaction)
    requires h.hand.Some? && h.hand.value.Sending?
  {
    var Sending(f, charge) := h.hand.value;
    var g, was, done := r.half, h.handle, if f.header.flags.fin then Some(Marking) else None;
    if Refusal(h).Some? then
      && r.next == Reset(Refusal(h).value) && g.hand == None
      && (was.None? ==> g.handle == None && g.port == h.port)
      && (was.Some? ==> g.handle.Some? && !g.handle.value.needsFin && g.handle.value.dataWriteClosed)
      && (was.Some? ==> g.port == h.port.(code := if h.port.code == 0 then 0x04 else h.port.code))
    else if f.body.Rst? && was.Some? then
      && r.next == Go && g.hand == done
      && g.handle == Some(Handle(false, true, was.value.window))
      && g.port == h.port.(code := if h.port.code == 0 then ErrorCode(f.body.error) else h.port.code)
    else if Welcome(h) then
      && r.next == Go && g.hand == (if slot then done else Some(Sending(f, 0)))
      && g.handle == Some(was.value.(window := was.value.window - charge))
      && g.port == h.port.(inbox := if slot then h.port.inbox + [f] else h.port.inbox)
    else r.next == Go && g.hand == done && g.handle == was && g.port == h.port
  }

  lemma DispatchOutcomes(h: Half, slot: bool)
    requires h.hand.Some? && h.hand.value.Sending? && HandOk(h)
    ensures Dispatched(h, slot, DoSend(h, slot))
  {
    hide Dispatched, DoSend;
    if h.handle.None? {
      UnknownDispatched(h, slot);
    } else if h.hand.value.f.body.Data? {
      DataDispatched(h, slot);
    } else {
      OtherDispatched(h, slot);
    }
  }

  lemma UnknownDispatched(h: Half, slot: bool)
    requires h.hand.Some? && h.hand.value.Sending? && HandOk(h) && h.handle.None?
    ensures Dispatched(h, slot, DoSend(h, slot))
  {
    hide PollSend, ErrorCode;
    var Sending(f, charge) := h.hand.value;
    UnknownOutcome(h.port.code, h.port.user.Some? && !h.port.inboxClosed, f, charge, slot);
  }

  lemma DataDispatched(h: Half, slot: bool)
    requires h.hand.Some? && h.hand.value.Sending? && HandOk(h) && h.handle.Some? && h.hand.value.f.body.Data?
    ensures Dispatched(h, slot, DoSend(h, slot))
  {
    hide PollSend, ErrorCode;
    var Sending(f, charge) := h.hand.value;
    DataOutcome(h.handle.value, h.port.code, h.port.user.Some? && !h.port.inboxClosed, f, charge, slot);
  }

  lemma OtherDispatched(h: Half, slot: bool)
    requires h.hand.Some? && h.hand.value.Sending? && HandOk(h) && h.handle.Some? && !h.hand.value.f.body.Data?
    ensures Dispatched(h, slot, DoSend(h, slot))
  {
    hide PollSend, ErrorCode;
    var Sending(f, charge) := h.hand.value;
    OtherOutcome(h.handle.value, h.port.code, h.port.user.Some? && !h.port.inboxClosed, f, charge, slot);
  }

  lemma UnknownOutcome(code: U32, open: bool, f: Frame, charge: nat, slot: bool)
    requires f.header.typ == TypeOfBody(f.body) && !Undeliverable(f)
    ensures var o := PollSend(None, code, open, f, charge, slot);
      o == SendOutcome(None, code, charge, false,
                       if f.body.Data? && !(f.header.flags.fin && f.body.data == []) then SendErr(StreamClosed) else SendOk)
  {
  }

  lemma DataOutcome(handle: Handle, code: U32, open: bool, f: Frame, charge: nat, slot: bool)
    requires f.header.typ == DataType && f.body.Data? && charge <= |f.body.data|
    ensures var o := PollSend(Some(handle), code, open, f, charge, slot);
      var bare := f.header.flags.fin && f.body.data == [];
      if handle.dataWriteClosed || handle.window < charge || !open then
        && o.handle.Some? && !o.enqueued
        && if bare then o.handle == Some(handle) && o.code == code && o.result == SendOk
           else
             && o.handle.value.dataWriteClosed && !o.handle.value.needsFin
             && o.code == (if code == 0 then 0x04 else code)
             && o.result == SendErr(if !handle.dataWriteClosed && handle.window < charge then FlowControl else StreamClosed)
      else
        o == SendOutcome(Some(handle.(window := handle.window - charge)), code, 0, slot, if slot then SendOk else SendPending)
  {
    ErrorNumbers(4);
    assert NUMBERED[4] == StreamClosed;
    hide ErrorCode, NUMBERED;
  }

  lemma OtherOutcome(handle: Handle, code: U32, open: bool, f: Frame, charge: nat, slot: bool)
    requires f.header.typ == TypeOfBody(f.body) && !Undeliverable(f) && !f.body.Data? && charge == 0
    ensures var o := PollSend(Some(handle), code, open, f, charge, slot);
      if f.body.Rst? then
        o == SendOutcome(Some(Handle(false, true, handle.window)), if code == 0 then ErrorCode(f.body.error) else code, 0, false, SendOk)
      else
        o == SendOutcome(Some(handle), code, 0, open && slot, if open && !slot then SendPending else SendOk)
  {
    hide ErrorCode;
  }

  // ---- the reader from frame to frame ----

  /** Where the reader goes with a frame that it passes on: by the type in its header. */
  function PassedOn(id: StreamID, f: Frame): Reader {
    match f.header.typ
    case GoAwayType => if f.body.GoAway? then Leaving(f.body.reason) else Stopped
    case InvalidType(_) => Protesting
    case _ =>
      if f.body.Invalid? then Resetting(id, Internal)
      else Holding(id, Sending(f, if f.body.Data? then |f.body.data| else 0))
  }

  /** Where the reader goes when the frame in its hand was polled. */
  function AfterPoll(h: Half, id: StreamID, slot: bool): Reader
    requires h.hand.Some? && h.hand.value.Sending?
  {
    var f := h.hand.value.f;
    if Refusal(h).Some? then Resetting(id, Refusal(h).value)
    else if Welcome(h) && !slot then Holding(id, Sending(f, 0))
    else if f.header.flags.fin then Holding(id, Marking) else Idle
  }

  /** The reader after a step. */
  function ReaderAfter(e: Endpoint, i: Input): Reader
    requires Enabled(e, i)
  {
    match i
    case TakeFrame(f) =>
      if !f.header.flags.syn then PassedOn(f.header.streamId, f)
      else if |e.mgr.streams| == e.mgr.limit then Closing else Holding(f.header.streamId, Accepting(f))
    case AcceptQueue(ok) => if ok then PassedOn(e.reader.id, e.reader.hand.f) else Closing
    case SendPoll(slot) => AfterPoll(HalfOf(e, e.reader.id), e.reader.id, slot)
    case MarkClosed => Idle
    case PushReset => Idle
    case PushProtest => Idle
    case ApplyGoAway => Closing
    case CloseSenders => Stopped
    case EndReader(abort) => if abort then Stopped else Closing
    case _ => e.reader
  }

  lemma ReaderMoves(e: Endpoint, i: Input)
    requires EndpointOk(e) && Enabled(e, i)
    ensures Step(e, i).end.reader == ReaderAfter(e, i)
  {
    hide EndpointOk, AllHalves, HalfOk, DoPoll, DoSend, CallStep, Encode, OnWire, Linked, Refusal, Welcome, Dispatched, Usable, CanPoll;
    match i
    case TakeFrame(f) => TakeMoves(HalfOf(e, f.header.streamId), f, AtLimit(e), e.window);
    case AcceptQueue(ok) =>
      EndpointHalves(e);
      LinkedAt(e, e.reader.id);
      AcceptMoves(HalfOf(e, e.reader.id), ok);
    case SendPoll(slot) =>
      EndpointHalves(e);
      LinkedAt(e, e.reader.id);
      SendMoves(HalfOf(e, e.reader.id), e.reader.id, slot);
    case _ =>
  }

  lemma PassedMoves(h: Half, f: Frame)
    requires FromWire(f)
    ensures forall id :: NextReader(id, Route(h, f)) == PassedOn(id, f)
  {
  }

  lemma TakeMoves(h: Half, f: Frame, full: bool, window: nat)
    requires FromWire(f) && h.hand.None?
    ensures NextReader(f.header.streamId, DoTake(h, f, full, window)) ==
      if !f.header.flags.syn then PassedOn(f.header.streamId, f)
      else if full then Closing else Holding(f.header.streamId, Accepting(f))
  {
    hide Undeliverable, FromWire;
    PassedMoves(h, f);
    hide Route, PassedOn;
  }

  lemma AcceptMoves(h: Half, ok: bool)
    requires h.hand.Some? && h.hand.value.Accepting? && FromWire(h.hand.value.f)
    ensures forall id :: NextReader(id, DoAccept(h, ok)) == if ok then PassedOn(id, h.hand.value.f) else Closing
  {
    hide FromWire;
    PassedMoves(h, h.hand.value.f);
    hide Route, PassedOn;
  }

  lemma SendMoves(h: Half, id: StreamID, slot: bool)
    requires h.hand.Some? && h.hand.value.Sending? && HandOk(h)
    ensures NextReader(id, DoSend(h, slot)) == AfterPoll(h, id, slot)
  {
    hide DoSend, Refusal, Welcome;
    DispatchOutcomes(h, slot);
    if h.hand.value.f.body.Rst? { RstNotWelcome(h); }
  }

  lemma RstNotWelcome(h: Half)
    requires h.hand.Some? && h.hand.value.Sending? && h.hand.value.f.body.Rst?
    ensures !Welcome(h) && Refusal(h).None?
  {
  }

  // ---- every call for an answer is answered ----

  /** An RST frame. */
  function ResetFor(id: StreamID, e: Error): Frame {
    Frame(Header(4, RstType, Flags(false, false), id), Rst(e))
  }

  /** A GOAWAY frame as the source builds it: the length counts the message alone. */
  function GoodBye(last: StreamID, e: Error, message: seq<byte>): Frame {
    var n := Cut(|message|, 0xFF_FFFF);
    Frame(Header(n, GoAwayType, Flags(false, false), 0), GoAway(last, e, message[..n]))
  }

  /** "invalid frame" */
  const COMPLAINT: seq<byte> := [105, 110, 118, 97, 108, 105, 100, 32, 102, 114, 97, 109, 101]

  /** The answer that the reader is about to queue. */
  function Due(e: Endpoint): seq<Frame> {
    match e.reader
    case Resetting(id, err) => [ResetFor(id, err)]
    case Protesting => [GoodBye(e.lastProcessed, Protocol, COMPLAINT)]
    case _ => []
  }

  /** The answer that a frame calls for when the reader passes it on. */
  function CallFor(e: Endpoint, id: StreamID, f: Frame): seq<Frame> {
    match f.header.typ
    case GoAwayType => []
    case InvalidType(_) => [GoodBye(e.lastProcessed, Protocol, COMPLAINT)]
    case _ => if f.body.Invalid? then [ResetFor(id, Internal)] else []
  }

  /** The answers that a step calls for. */
  function Called(e: Endpoint, i: Input): seq<Frame>
    requires Enabled(e, i)
  {
    match i
    case CloseSession(err, message) => [GoodBye(0, err, message)]
    case TakeFrame(f) => if f.header.flags.syn then [] else CallFor(e, f.header.streamId, f)
    case AcceptQueue(ok) => if ok then CallFor(e, e.reader.id, e.reader.hand.f) else []
    case SendPoll(_) =>
      var refusal := Refusal(HalfOf(e, e.reader.id));
      if refusal.Some? then [ResetFor(e.reader.id, refusal.value)] else []
    case _ => []
  }

  /** The system frames that a step takes off the queue for the writer. */
  function Taken(e: Endpoint, i: Input): seq<Frame>
    requires Enabled(e, i)
  {
    if i.PollSystem? then [e.mgr.sys[0]] else []
  }

  /** What a step does to the queue of system frames: it is first in, first out, and streams wait until it is empty. */
  lemma QueueMoves(e: Endpoint, i: Input)
    requires Enabled(e, i)
    ensures var sys := Step(e, i).end.mgr.sys;
      if i.PollSystem? then e.mgr.sys == Taken(e, i) + sys
      else if i.PushReset? || i.PushProtest? then sys == e.mgr.sys + Due(e)
      else if i.CloseSession? then sys == e.mgr.sys + Called(e, i)
      else sys == e.mgr.sys
    ensures i.PollStream? ==> e.mgr.sys == []
  {
    hide DoPoll, DoSend, DoTake, DoAccept, DoMark, CallStep, Encode, OnWire, Usable, CanPoll;
  }

  /** The last stream processed moves when a poll of a dispatch ends well. */
  lemma ProcessedMoves(e: Endpoint, i: Input)
    requires EndpointOk(e) && Enabled(e, i)
    ensures Step(e, i).end.lastProcessed ==
      if i.SendPoll? && !ReaderAfter(e, i).Resetting? && !(ReaderAfter(e, i).Holding? && ReaderAfter(e, i).hand.Sending?)
      then e.reader.id else e.lastProcessed
  {
    hide EndpointOk, AllHalves, HalfOk, DoPoll, DoSend, DoTake, DoAccept, DoMark, CallStep, Encode, OnWire, Linked, Usable, CanPoll, AfterPoll;
    if i.SendPoll? {
      EndpointHalves(e);
      LinkedAt(e, e.reader.id);
      SendMoves(HalfOf(e, e.reader.id), e.reader.id, i.slot);
      SendNext(HalfOf(e, e.reader.id), i.slot);
    }
  }

  lemma SendNext(h: Half, slot: bool)
    requires h.hand.Some? && h.hand.value.Sending?
    ensures DoSend(h, slot).next.Go? || (DoSend(h, slot).next.Reset? && DoSend(h, slot).half.hand.None?)
  {
    hide PollSend;
  }

  /** In one step: what is taken off, queued and due after it is what was queued and due before it and what it calls for. */
  lemma StepAnswers(e: Endpoint, i: Input)
    requires EndpointOk(e) && Enabled(e, i) && i != EndReader(true)
    ensures var g := Step(e, i).end;
      multiset(Taken(e, i)) + multiset(g.mgr.sys) + multiset(Due(g)) == multiset(e.mgr.sys) + multiset(Due(e)) + multiset(Called(e, i))
  {
    QueueMoves(e, i);
    ReaderMoves(e, i);
    ProcessedMoves(e, i);
    DueMoves(e, i);
    hide Step, EndpointOk, Enabled, Taken, Due, Called, ReaderAfter;
  }

  lemma DueMoves(e: Endpoint, i: Input)
    requires Enabled(e, i) && i != EndReader(true)
    requires Step(e, i).end.reader == ReaderAfter(e, i)
    requires Step(e, i).end.lastProcessed ==
      if i.SendPoll? && !ReaderAfter(e, i).Resetting? && !(ReaderAfter(e, i).Holding? && ReaderAfter(e, i).hand.Sending?)
      then e.reader.id else e.lastProcessed
    ensures var g := Step(e, i).end;
      if i.PushReset? || i.PushProtest? then Due(g) == [] && Called(e, i) == []
      else if i.CloseSession? || i.PollSystem? then Due(g) == Due(e) && (i.PollSystem? ==> Called(e, i) == [])
      else Due(g) == Due(e) + Called(e, i)
  {
    hide Step, GoodBye, Refusal, Welcome, Usable, CanPoll, FreshSyn, FromWire;
  }

  /** All answers that a run calls for. */
  ghost function AllCalled(e: Endpoint, ins: seq<Input>): seq<Frame>
    decreases |ins|
  {
    if ins == [] || !Enabled(e, ins[0]) then [] else Called(e, ins[0]) + AllCalled(Step(e, ins[0]).end, ins[1..])
  }

  /** All system frames that a run takes off the queue, in order. */
  ghost function AllTaken(e: Endpoint, ins: seq<Input>): seq<Frame>
    decreases |ins|
  {
    if ins == [] || !Enabled(e, ins[0]) then [] else Taken(e, ins[0]) + AllTaken(Step(e, ins[0]).end, ins[1..])
  }

  lemma Chain(
      t: multiset<Frame>, start: multiset<Frame>, c: multiset<Frame>, mid: multiset<Frame>,
      u: multiset<Frame>, end: multiset<Frame>, d: multiset<Frame>)
    requires t + mid == start + c && u + end == mid + d
    ensures t + u + end == start + (c + d)
  {
    assert t + u + end == t + (mid + d) == start + c + d;
  }

  lemma {:induction false} RunAnswers(from: Endpoint, ins: seq<Input>, e: Endpoint)
    requires Run(from, ins, e) && EndpointOk(from)
    requires forall k :: 0 <= k < |ins| ==> ins[k] != EndReader(true)
    ensures multiset(AllTaken(from, ins)) + multiset(e.mgr.sys) + multiset(Due(e))
         == multiset(from.mgr.sys) + multiset(Due(from)) + multiset(AllCalled(from, ins))
    decreases |ins|
  {
    hide EndpointOk, Step, Enabled, Taken, Due, Called;
    if ins == [] {
    } else {
      var next := Step(from, ins[0]).end;
      StepKeeps(from, ins[0]);
      StepAnswers(from, ins[0]);
      assert forall k :: 0 <= k < |ins[1..]| ==> ins[1..][k] == ins[k + 1];
      RunAnswers(next, ins[1..], e);
      var t, c := AllTaken(next, ins[1..]), AllCalled(next, ins[1..]);
      assert multiset(AllTaken(from, ins)) == multiset(Taken(from, ins[0])) + multiset(t);
      assert multiset(AllCalled(from, ins)) == multiset(Called(from, ins[0])) + multiset(c);
      Chain(multiset(Taken(from, ins[0])), multiset(from.mgr.sys) + multiset(Due(from)), multiset(Called(from, ins[0])),
            multiset(next.mgr.sys) + multiset(Due(next)), multiset(t), multiset(e.mgr.sys) + multiset(Due(e)), multiset(c));
    }
  }

  /**
    Every call for an answer is answered, once. In any run in which the reader is not
    aborted, the system frames taken for the writer, those still queued and the one
    the reader is about to queue are together exactly the RSTs for the frames that
    were refused, each with the reason of the refusal, the GOAWAYs for the frames of
    no known type, and the GOAWAYs of the session's own closing.
  */
  lemma EveryRefusalIsAnswered(client: bool, window: nat, limit: nat, ins: seq<Input>, e: Endpoint)
    requires Reached(client, window, limit, ins, e)
    requires forall k :: 0 <= k < |ins| ==> ins[k] != EndReader(true)
    ensures var start := NewEndpoint(client, window, limit);
      multiset(AllTaken(start, ins)) + multiset(e.mgr.sys) + multiset(Due(e)) == multiset(AllCalled(start, ins))
  {
    var start := NewEndpoint(client, window, limit);
    NewEndpointIsOk(client, window, limit);
    RunAnswers(start, ins, e);
  }

  /**
    One refusal and its answer. In any reachable state, a frame in hand is refused by
    a poll exactly when there is a reason; the reader is then about to reset the
    stream for that reason, and its next step puts exactly one RST behind the system
    frames queued so far, with that stream's id and that reason, and changes nothing
    else.
  */
  lemma RefusalIsAnswered(client: bool, window: nat, limit: nat, ins: seq<Input>, e: Endpoint, slot: bool, err: Error)
    requires Reached(client, window, limit, ins, e) && Enabled(e, SendPoll(slot))
    ensures var id, g := e.reader.id, Step(e, SendPoll(slot)).end;
      && (g.reader == Resetting(id, err) <==> Refusal(HalfOf(e, id)) == Some(err))
      && (g.reader == Resetting(id, err) ==>
            && Enabled(g, PushReset)
            && Step(g, PushReset) == Stepped(g.(reader := Idle, mgr := g.mgr.(sys := g.mgr.sys + [ResetFor(id, err)])), []))
  {
    hide Reached, Refusal, Welcome, DoSend;
    ReachedIsOk(client, window, limit, ins, e);
    hide EndpointOk;
    ReaderMoves(e, SendPoll(slot));
  }

  // ---- the writer takes a system frame ----

  /**
    An RST at the front of the queue: over a working connection it is what the peer
    decodes, unless it is for stream 0. That one the encoder refuses, and the writer
    ends.
  */
  lemma ResetCrosses(e: Endpoint, io: bool, id: StreamID, err: Error)
    requires Enabled(e, PollSystem(io)) && e.mgr.sys[0] == ResetFor(id, err)
    ensures var o, f := Step(e, PollSystem(io)), ResetFor(id, err);
      && o.end == e.(mgr := e.mgr.(sys := e.mgr.sys[1..]), writing := io && id != 0)
      && o.wire == (if io && id != 0 then [f] else [])
      && (id != 0 ==> Encode(f).Some? && DecodeFrame(f.header, EncodeBody(f.body)) == f
                      && ParseAll(Encode(f).value) == Parsed([f], []))
  {
    var f := ResetFor(id, err);
    if id != 0 {
      BodyRoundTrip(f);
      ParseEncoded(f, []);
      assert Encode(f).value + [] == Encode(f).value;
    }
    hide EncodeHeader, PutU32, DecodeFrame;
    assert EncodeBody(f.body)[..4] == EncodeBody(f.body);
  }

  /**
    A GOAWAY at the front of the queue: it is stamped with the id of the last stream
    the remote opened and ends the session at this end. Every stream is dropped from
    the manager and its sink closed with "session closed", unless it was closed
    before. On the wire the peer sees the message without its last eight bytes; the
    encoder refuses a GOAWAY with a shorter message, and then the peer sees nothing.
  */
  lemma GoAwayCrosses(e: Endpoint, io: bool, last: StreamID, err: Error, message: seq<byte>)
    requires Enabled(e, PollSystem(io)) && e.mgr.sys[0] == GoodBye(last, err, message)
    ensures var o, f := Step(e, PollSystem(io)), GoodBye(last, err, message);
      var n := f.header.length;
      && o.wire == (if io && n >= 8 then [Frame(f.header, GoAway(e.mgr.lastRemote, err, message[..n - 8]))] else [])
      && !o.end.writing && o.end.mgr.goneAway && o.end.mgr.tasks == multiset{} && o.end.mgr.sys == e.mgr.sys[1..]
      && SinksClosed(e, o.end, SessionClosed)
  {
    var f := GoodBye(last, err, message);
    assert f.(body := f.body.(lastStreamId := e.mgr.lastRemote)) == GoodBye(e.mgr.lastRemote, err, message);
    GoAwayOnWire(e.mgr.lastRemote, err, message);
    hide EncodeHeader, EncodeBody, OnWire, ErrorCode;
  }

  /** What the peer decodes of a GOAWAY. */
  lemma GoAwayOnWire(last: StreamID, err: Error, message: seq<byte>)
    ensures var g := GoodBye(last, err, message);
      var n := g.header.length;
      && (Encode(g).Some? <==> n >= 8)
      && (n >= 8 ==> OnWire(g) == Frame(g.header, GoAway(last, err, message[..n - 8])))
  {
    var g := GoodBye(last, err, message);
    var n := g.header.length;
    hide EncodeHeader;
    if n >= 8 {
      var cut := g.(body := GoAway(last, err, message[..n - 8]));
      assert message[..n][..n - 8] == message[..n - 8];
      CutMessage(last, err, message[..n]);
      BodyRoundTrip(cut);
      hide EncodeBody, DecodeFrame;
    }
  }

  /** Every stream in the map is gone from it, its sink closed with `err` if it was open; nothing else of it changes. */
  predicate SinksClosed(e: Endpoint, g: Endpoint, err: Error) {
    && g.mgr.streams == map[] && g.ports.Keys == e.ports.Keys
    && forall id :: id in e.ports ==>
         g.ports[id] == if id in e.mgr.streams && e.ports[id].code == 0 then e.ports[id].(code := ErrorCode(err)) else e.ports[id]
  }

  /** A GOAWAY from the remote closes the streams' sinks with the error in it; this end goes quiet. */
  lemma RemoteGoAwayClosesStreams(e: Endpoint)
    requires Enabled(e, ApplyGoAway)
    ensures var o := Step(e, ApplyGoAway);
      && SinksClosed(e, o.end, e.reader.reason) && o.end.mgr.goneAway && o.end.reader == Closing && o.wire == []
  {
    hide ErrorCode;
  }

  /** The endpoint sends no more: it has gone away, or its writer has ended. */
  predicate Mute(e: Endpoint) {
    e.mgr.goneAway || !e.writing
  }

  /** Once an endpoint has gone away or its writer has ended, nothing more is sent by it, in any run. */
  lemma {:induction false} NothingAfterGoAway(from: Endpoint, ins: seq<Input>, e: Endpoint)
    requires Run(from, ins, e) && Mute(from)
    ensures Mute(e) && AllSent(from, ins) == []
    decreases |ins|
  {
    hide Step, Enabled;
    if ins == [] {
    } else {
      GoneStays(from, ins[0]);
      NothingAfterGoAway(Step(from, ins[0]).end, ins[1..], e);
    }
  }

  /** All frames that a run puts on the wire. */
  ghost function AllSent(e: Endpoint, ins: seq<Input>): seq<Frame>
    decreases |ins|
  {
    if ins == [] || !Enabled(e, ins[0]) then [] else Step(e, ins[0]).wire + AllSent(Step(e, ins[0]).end, ins[1..])
  }

  lemma GoneStays(e: Endpoint, i: Input)
    requires Enabled(e, i)
    ensures Mute(e) ==> Mute(Step(e, i).end) && Step(e, i).wire == []
    ensures i.EndWriter? || i.ApplyGoAway? ==> Mute(Step(e, i).end)
  {
    if e.mgr.goneAway { AwayStays(e, i); }
    if !e.writing { WriterStays(e, i); }
  }

  lemma AwayStays(e: Endpoint, i: Input)
    requires Enabled(e, i) && e.mgr.goneAway
    ensures Step(e, i).end.mgr.goneAway && Step(e, i).wire == []
  {
    hide DoSend, DoTake, DoAccept, DoMark, CallStep, Usable;
  }

  lemma WriterStays(e: Endpoint, i: Input)
    requires Enabled(e, i) && !e.writing
    ensures !Step(e, i).end.writing && Step(e, i).wire == []
  {
    hide DoSend, DoTake, DoAccept, CallStep, Usable;
    match i
    case App(j, call) => CallKeepsFrame(HalfOf(e, j), call);
    case TakeFrame(f) => HandKeepsWriter(HalfOf(e, f.header.streamId), f, AtLimit(e), e.window, true, true);
    case AcceptQueue(ok) => HandKeepsWriter(HalfOf(e, e.reader.id), e.reader.hand.f, true, 0, ok, true);
    case SendPoll(slot) => HandKeepsWriter(HalfOf(e, e.reader.id), e.reader.hand.f, true, 0, true, slot);
    case _ =>
  }

  lemma HandKeepsWriter(h: Half, f: Frame, full: bool, window: nat, ok: bool, slot: bool)
    ensures DoTake(h, f, full, window).half.writing == h.writing
    ensures h.hand.Some? && h.hand.value.Accepting? ==> DoAccept(h, ok).half.writing == h.writing
    ensures h.hand.Some? && h.hand.value.Sending? ==> DoSend(h, slot).half.writing == h.writing
  {
    hide PollSend;
  }

  /**
    When both tasks have ended, the manager goes and takes the streams' channels with
    it: every stream sees the end of its inbox and finds its sink disconnected.
  */
  lemma DroppingEndsStreams(e: Endpoint, id: StreamID)
    requires Enabled(e, DropManager)
    ensures var g := Step(e, DropManager).end;
      && g.ports == e.ports && g.mgr.streams == map[] && g.mgr.tasks == multiset{}
      && InboxEnded(HalfOf(g, id)) && !SinkOf(HalfOf(g, id)).connected
  {
  }

  /** A new stream that the accept queue does not take, or that the reader dies with, is dropped. */
  lemma UnacceptedIsDropped(e: Endpoint, i: Input)
    requires EndpointOk(e) && Enabled(e, i) && e.reader.Holding? && e.reader.hand.Accepting?
    requires i == AcceptQueue(false) || i == EndReader(true)
    ensures var p := HalfOf(Step(e, i).end, e.reader.id).port;
      p == HalfOf(e, e.reader.id).port.(user := None, inbox := [])
  {
    hide EndpointOk, AllHalves, HalfOk, Linked, Step;
    EndpointHalves(e);
    StepView(e, i, e.reader.id);
  }

  /** When the reader ends, every stream still in the map sees the end of its inbox, after what is in it. */
  lemma ClosingEndsInboxes(e: Endpoint, id: StreamID)
    requires Enabled(e, CloseSenders) && id in e.ports
    ensures var g := Step(e, CloseSenders).end;
      && (id in e.mgr.streams ==> g.ports[id] == e.ports[id].(inboxClosed := true))
      && (id !in e.mgr.streams ==> g.ports[id] == e.ports[id])
      && InboxEnded(HalfOf(g, id))
  {
  }

  /** The ids that GOAWAYs and new streams are stamped with. */
  lemma IdsMove(e: Endpoint, i: Input)
    requires Enabled(e, i)
    ensures var g := Step(e, i).end;
      && g.mgr.lastRemote == (if i.TakeFrame? && i.f.header.flags.syn && |e.mgr.streams| != e.mgr.limit
                              then i.f.header.streamId else e.mgr.lastRemote)
      && g.mgr.lastLocal == (if i.OpenStream? && |e.mgr.streams| != e.mgr.limit then e.mgr.lastLocal + 2 else e.mgr.lastLocal)
  {
    hide DoPoll, DoAccept, DoSend, DoTake, CallStep, Encode, OnWire, Usable, FreshSyn, FromWire;
  }

  // ---- after a FIN ----

  /**
    After a delivered FIN the stream is closed for data. From any reachable state in
    which the reader is about to mark it, in any run, the bytes that reached it never
    grow, nor does a second end mark reach it except on a WNDINC frame; and whatever
    DATA comes to hand for it is refused with "stream closed".
  */
  lemma NothingAfterFin(
      client: bool, window: nat, limit: nat, ins: seq<Input>, from: Endpoint, more: seq<Input>, e: Endpoint)
    requires Reached(client, window, limit, ins, from) && Enabled(from, MarkClosed) && from.reader.id in from.ports
    requires Run(Step(from, MarkClosed).end, more, e)
    ensures var id := from.reader.id;
      var h := HalfOf(e, id);
      && Holdings(h) <= Holdings(HalfOf(from, id))
      && ((forall k :: 0 <= k < |more| ==> PlainCredit(more[k], id)) ==> Arrived(h) <= Arrived(HalfOf(from, id)))
      && (h.hand.Some? && h.hand.value.Sending? ==>
            var f := h.hand.value.f;
            f.body.Data? && !(f.header.flags.fin && f.body.data == []) ==> Refusal(h) == Some(StreamClosed))
  {
    hide Reached, EndpointOk, AllHalves, HalfOk, Run, Holdings, Arrived, PlainCredit, PlainHand, Sealed, Refusal, DoMark;
    var id := from.reader.id;
    var next := Step(from, MarkClosed).end;
    ReachedIsOk(client, window, limit, ins, from);
    EndpointHalves(from);
    StepView(from, MarkClosed, id);
    StepKeeps(from, MarkClosed);
    MarkSeals(HalfOf(from, id));
    hide Step, HalfOf;
    SealedRefuses(HalfOf(e, id));
    NothingEntersSealed(next, more, e, id);
    if forall k :: 0 <= k < |more| ==> PlainCredit(more[k], id) {
      NoFinEntersSealed(next, more, e, id);
    }
  }

  lemma SealedRefuses(h: Half)
    ensures Sealed(h) && h.hand.Some? && h.hand.value.Sending? ==>
      var f := h.hand.value.f;
      f.body.Data? && !(f.header.flags.fin && f.body.data == []) ==> Refusal(h) == Some(StreamClosed)
  {
  }

  lemma MarkSeals(h: Half)
    requires h.made
    ensures var g := DoMark(h); Sealed(g) && PlainHand(g) && Holdings(g) == Holdings(h) && Arrived(g) == Arrived(h)
  {
    hide Payloads, Flow;
  }
}
