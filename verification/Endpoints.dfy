/**
  One session endpoint as a state machine: the stream manager, the streams, and
  the reader and writer tasks (muxado/src/session.rs, muxado/src/stream_manager.rs).
*/
module Endpoints {
  import opened Wrappers
  import opened Constrained
  import opened MuxErrors
  import opened Frames
  import opened StreamOutput
  import opened StreamManagers
  import opened Codec
  import opened Halves
  import opened HalfInvariants

  /** `tasks` holds the id of every pending receiver task. */
  datatype Manager = Manager(
    limit: nat,
    streams: map<StreamID, Handle>,
    tasks: multiset<StreamID>,
    sys: seq<Frame>,
    lastLocal: StreamID,
    lastRemote: StreamID,
    goneAway: bool)

  /** Where the reader task is between two of its atomic actions. */
  datatype Reader =
    | Idle
    | Holding(id: StreamID, hand: Hand)
    | Resetting(id: StreamID, e: Error) // about to queue an RST
    | Protesting                        // about to queue a GOAWAY for an invalid frame
    | Leaving(reason: Error)            // about to apply a received GOAWAY
    | Closing                           // about to close all senders
    | Stopped

  datatype Endpoint = Endpoint(
    client: bool,
    window: nat,
    mgr: Manager,
    ports: map<StreamID, Port>,
    reader: Reader,
    writing: bool,
    lastProcessed: StreamID)

  function NewEndpoint(client: bool, window: nat, limit: nat): Endpoint {
    Endpoint(client, window,
             Manager(limit, map[], multiset{}, [], if client then 1 else 0, if client then 0 else 1, false),
             map[], Idle, true, 0)
  }

  predicate Reading(r: Reader) {
    r.Idle? || r.Holding? || r.Resetting? || r.Protesting?
  }

  // ---- the part of an endpoint that belongs to one stream ----

  function HalfOf(e: Endpoint, id: StreamID): Half {
    Half(id in e.ports,
         if id in e.mgr.streams then Some(e.mgr.streams[id]) else None,
         e.mgr.tasks[id],
         if id in e.ports then e.ports[id] else NO_PORT,
         if e.reader.Holding? && e.reader.id == id then Some(e.reader.hand) else None,
         Reading(e.reader), e.writing, e.mgr.goneAway)
  }

  /** Write the stream's part back: its map entry, its task, its stream and channels. */
  function WithHalf(e: Endpoint, id: StreamID, h: Half): Endpoint {
    e.(mgr := e.mgr.(
         streams := if h.handle.Some? then e.mgr.streams[id := h.handle.value] else e.mgr.streams - {id},
         tasks := e.mgr.tasks[id := h.tasks]),
       ports := if h.made then e.ports[id := h.port] else e.ports,
       writing := h.writing)
  }

  function NextReader(id: StreamID, r: Reaction): Reader {
    if r.half.hand.Some? then Holding(id, r.half.hand.value)
    else
      match r.next
      case Go => Idle
      case Reset(e) => Resetting(id, e)
      case Halt => Closing
      case Leave(e) => Leaving(e)
      case Protest => Protesting
      case Crash => Stopped
  }

  function React(e: Endpoint, id: StreamID, r: Reaction): Endpoint {
    WithHalf(e, id, r.half).(reader := NextReader(id, r))
  }

  // ---- steps ----

  datatype Call =
    | Read(room: nat, slot: bool)
    | Write(buf: seq<byte>, slot: bool)
    | Flush(slot: bool, broken: bool)
    | Shutdown(slot: bool, flushSlot: bool, broken: bool)
    | Drop

  datatype Input =
    | OpenStream
    | App(id: StreamID, call: Call)
    | CloseSession(e: Error, message: seq<byte>)
    | PollStream(id: StreamID, io: bool)
    | PollSystem(io: bool)
    | TakeFrame(f: Frame)
    | AcceptQueue(ok: bool)
    | SendPoll(slot: bool)
    | MarkClosed
    | PushReset
    | PushProtest
    | ApplyGoAway
    | CloseSenders
    | EndReader(abort: bool)
    | EndWriter
    | DropManager

  datatype Stepped = Stepped(end: Endpoint, wire: seq<Frame>)

  function NextLocalId(e: Endpoint): nat {
    e.mgr.lastLocal + 2
  }

  predicate AtLimit(e: Endpoint) {
    |e.mgr.streams| == e.mgr.limit
  }

  /** The two sides never open the same id: odd ids belong to the client. */
  predicate Own(e: Endpoint, id: StreamID) {
    (id % 2 == 1) == e.client
  }

  /** What the endpoint relies on the remote for: a SYN uses a new id of the remote's parity. */
  predicate FreshSyn(e: Endpoint, f: Frame) {
    f.IsSyn() ==> f.header.streamId !in e.ports && !Own(e, f.header.streamId)
  }

  predicate Enabled(e: Endpoint, i: Input) {
    match i
    case OpenStream => e.writing && NextLocalId(e) <= STREAMID_MAX
    case App(id, call) =>
      var h := HalfOf(e, id);
      if call.Drop? then h.port.user.Some? && !(h.hand.Some? && h.hand.value.Accepting?) else Usable(h)
    case CloseSession(_, _) => true
    case PollStream(id, _) => e.mgr.sys == [] && CanPoll(HalfOf(e, id)) && id in e.mgr.streams
    case PollSystem(_) => e.mgr.sys != [] && e.writing && !e.mgr.goneAway
    case TakeFrame(f) => e.reader.Idle? && FreshSyn(e, f) && FromWire(f)
    case AcceptQueue(_) => e.reader.Holding? && e.reader.hand.Accepting?
    case SendPoll(_) => e.reader.Holding? && e.reader.hand.Sending?
    case MarkClosed => e.reader.Holding? && e.reader.hand.Marking?
    case PushReset => e.reader.Resetting?
    case PushProtest => e.reader.Protesting?
    case ApplyGoAway => e.reader.Leaving?
    case CloseSenders => e.reader.Closing?
    case EndReader(abort) => if abort then !e.reader.Stopped? else e.reader.Idle?
    case EndWriter => e.writing
    case DropManager => e.reader.Stopped? && !e.writing
  }

  function CallStep(h: Half, call: Call): Half
    requires if call.Drop? then h.port.user.Some? else Usable(h)
  {
    match call
    case Read(room, slot) => DoRead(h, room, slot)
    case Write(buf, slot) => DoWrite(h, buf, slot)
    case Flush(slot, broken) => DoFlush(h, slot, broken)
    case Shutdown(slot, flushSlot, broken) => DoShutdown(h, slot, flushSlot, broken)
    case Drop => DoDrop(h)
  }

  /** What a peer decodes when `f` is encoded: `f` itself when its header fits its body. */
  function OnWire(f: Frame): Frame {
    if f.header.length <= |EncodeBody(f.body)| then DecodeFrame(f.header, EncodeBody(f.body)[..f.header.length]) else f
  }

  /** `go_away`: every stream in the map is dropped from it and its sink closed. */
  function GoneAway(e: Endpoint, error: Error, clearTasks: bool): Endpoint {
    e.(mgr := e.mgr.(goneAway := true, streams := map[], tasks := if clearTasks then multiset{} else e.mgr.tasks),
       ports := map id | id in e.ports ::
         if id in e.mgr.streams then e.ports[id].(code := CloseCode(e.ports[id].code, error)) else e.ports[id])
  }

  function SystemStep(e: Endpoint, io: bool): Stepped
    requires e.mgr.sys != []
  {
    var f := e.mgr.sys[0];
    var rest := e.(mgr := e.mgr.(sys := e.mgr.sys[1..]));
    if f.body.GoAway? then
      var g := f.(body := f.body.(lastStreamId := e.mgr.lastRemote));
      Stepped(GoneAway(rest, SessionClosed, true).(writing := false),
              if io && Encode(g).Some? then [OnWire(g)] else [])
    else
      var ok := io && Encode(f).Some?;
      Stepped(rest.(writing := ok), if ok then [OnWire(f)] else [])
  }

  function TakeStep(e: Endpoint, f: Frame): Endpoint {
    var id := f.header.streamId;
    var r := DoTake(HalfOf(e, id), f, AtLimit(e), e.window);
    var g := React(e, id, r);
    if f.IsSyn() && !AtLimit(e) then g.(mgr := g.mgr.(lastRemote := id)) else g
  }

  function Step(e: Endpoint, i: Input): Stepped
    requires Enabled(e, i)
  {
    match i
    case OpenStream =>
      if AtLimit(e) then Stepped(e, [])
      else
        var id := NextLocalId(e);
        var g := WithHalf(e, id, Made(HalfOf(e, id), e.window, true));
        Stepped(g.(mgr := g.mgr.(lastLocal := id)), [])
    case App(id, call) => Stepped(WithHalf(e, id, CallStep(HalfOf(e, id), call)), [])
    case CloseSession(error, message) =>
      Stepped(e.(mgr := e.mgr.(sys := e.mgr.sys + [GoAwayFrame(0, error, message)])), [])
    case PollStream(id, io) =>
      var o := DoPoll(HalfOf(e, id), id, io);
      Stepped(WithHalf(e, id, o.half), o.wire)
    case PollSystem(io) => SystemStep(e, io)
    case TakeFrame(f) => Stepped(TakeStep(e, f), [])
    case AcceptQueue(ok) => Stepped(React(e, e.reader.id, DoAccept(HalfOf(e, e.reader.id), ok)), [])
    case SendPoll(slot) =>
      var r := DoSend(HalfOf(e, e.reader.id), slot);
      Stepped(React(e, e.reader.id, r).(
                lastProcessed := if r.next.Go? && !(r.half.hand.Some? && r.half.hand.value.Sending?) then e.reader.id else e.lastProcessed), [])
    case MarkClosed => Stepped(WithHalf(e, e.reader.id, DoMark(HalfOf(e, e.reader.id))).(reader := Idle), [])
    case PushReset =>
      Stepped(e.(mgr := e.mgr.(sys := e.mgr.sys + [RstFrame(e.reader.id, e.reader.e)]), reader := Idle), [])
    case PushProtest =>
      Stepped(e.(mgr := e.mgr.(sys := e.mgr.sys + [GoAwayFrame(e.lastProcessed, Protocol, INVALID_FRAME)]), reader := Idle), [])
    case ApplyGoAway => Stepped(GoneAway(e, e.reader.reason, false).(reader := Closing), [])
    case CloseSenders =>
      Stepped(e.(ports := map id | id in e.ports ::
                   if id in e.mgr.streams then e.ports[id].(inboxClosed := true) else e.ports[id],
                 reader := Stopped), [])
    case EndReader(abort) =>
      if !abort then Stepped(e.(reader := Closing), [])
      else
        var g := if e.reader.Holding? && e.reader.hand.Accepting? then WithHalf(e, e.reader.id, DoDrop(HalfOf(e, e.reader.id))) else e;
        Stepped(g.(reader := Stopped), [])
    case EndWriter => Stepped(e.(writing := false), [])
    case DropManager => Stepped(e.(mgr := e.mgr.(streams := map[], tasks := multiset{})), [])
  }

  /** The message of the GOAWAY for an invalid frame: the thirteen bytes of "invalid frame". */
  const INVALID_FRAME: seq<byte> := [0x69, 0x6E, 0x76, 0x61, 0x6C, 0x69, 0x64, 0x20, 0x66, 0x72, 0x61, 0x6D, 0x65]
}
