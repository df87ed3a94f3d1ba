/**
  Everything one endpoint keeps for one stream id, and the steps its parts take:
  the application's calls on the stream (muxado/src/stream.rs), the writer's
  poll of the stream's task and the reader's dispatch of a frame
  (muxado/src/stream_manager.rs, muxado/src/session.rs).
*/
module Halves {
  import opened Wrappers
  import opened Constrained
  import opened MuxErrors
  import opened Frames
  import opened StreamOutput
  import opened Streams
  import opened StreamManagers
  import opened Flows
  import opened Codec

  /**
    The stream object and its two channels. `inboxClosed` records a
    `close_channel` by the session; `user` is the stream object until it is
    dropped. The last four fields are histories: symbols accepted from the
    application, symbols taken out of the inbox, bytes handed to the
    application, frames the manager's `poll_next` produced for the stream (kept
    here without the stream id it stamps on them).
  */
  datatype Port = Port(
    code: U32,
    inbox: seq<Frame>,
    inboxClosed: bool,
    outbox: seq<Frame>,
    user: Option<StreamState>,
    sent: seq<Sym>,
    got: seq<Sym>,
    delivered: seq<byte>,
    emitted: seq<Frame>)

  const NO_PORT: Port := Port(0, [], false, [], None, [], [], [], [])

  function NewPort(window: nat, needsSyn: bool): Port {
    NO_PORT.(user := Some(NewStream(window, needsSyn)))
  }

  /** The frame in the reader's hand, when it is for this stream. */
  datatype Hand =
    | Accepting(f: Frame)            // the new stream waits for a place in the accept queue
    | Sending(f: Frame, charge: nat) // `send_to_stream` is being polled
    | Marking                        // delivered a FIN; the handle is about to be marked

  /**
    `handle` is the entry of the manager's map, `tasks` the number of pending
    receiver tasks with this id; the last three fields are endpoint-wide.
  */
  datatype Half = Half(
    made: bool,
    handle: Option<Handle>,
    tasks: nat,
    port: Port,
    hand: Option<Hand>,
    reading: bool,
    writing: bool,
    goneAway: bool)

  function SinkOf(h: Half): Sink {
    Sink(h.port.code, h.port.outbox, h.tasks > 0)
  }

  /** The stream sees its inbox end when the sender is closed or dropped with the handle. */
  predicate InboxEnded(h: Half) {
    h.port.inboxClosed || h.handle.None?
  }

  predicate Usable(h: Half) {
    && h.port.user.Some?
    && StreamFrames(h.port.inbox)
    && !(h.hand.Some? && h.hand.value.Accepting?)
  }

  // ---- the application ----

  function DoRead(h: Half, room: nat, slot: bool): Half
    requires Usable(h)
  {
    var p := h.port;
    var o := PollRead(p.user.value, p.inbox, InboxEnded(h), SinkOf(h), room, slot);
    h.(port := p.(
      code := o.sink.code, inbox := o.inbox, outbox := o.sink.items, user := Some(o.st),
      got := p.got + Flow(p.inbox[..|p.inbox| - |o.inbox|]),
      delivered := p.delivered + if o.result.ReadOk? then o.result.bytes else []))
  }

  function DoWrite(h: Half, buf: seq<byte>, slot: bool): Half
    requires Usable(h)
  {
    var p := h.port;
    var o := PollWrite(p.user.value, p.inbox, InboxEnded(h), SinkOf(h), buf, slot);
    h.(port := p.(
      code := o.sink.code, inbox := o.inbox, outbox := o.sink.items, user := Some(o.st),
      got := p.got + Flow(p.inbox[..|p.inbox| - |o.inbox|]),
      sent := p.sent + if o.result.WriteOk? then buf[..o.result.n] else []))
  }

  function AfterClose(h: Half, o: CloseOutcome): Half {
    var p := h.port;
    h.(port := p.(
      code := o.sink.code, outbox := o.sink.items, user := Some(o.st),
      sent := p.sent + Flow(o.sink.items[Min(|p.outbox|, |o.sink.items|)..])))
  }

  function DoFlush(h: Half, slot: bool, broken: bool): Half
    requires Usable(h)
  {
    AfterClose(h, PollFlush(h.port.user.value, SinkOf(h), slot, broken))
  }

  function DoShutdown(h: Half, slot: bool, flushSlot: bool, broken: bool): Half
    requires Usable(h)
  {
    AfterClose(h, PollShutdown(h.port.user.value, SinkOf(h), slot, flushSlot, broken))
  }

  /** Dropping the stream drops the receiving end of its inbox. */
  function DoDrop(h: Half): Half {
    h.(port := h.port.(user := None, inbox := []))
  }

  // ---- the writer ----

  /** A half with its stream made: `create_stream` and the stream that goes with it. */
  function Made(h: Half, window: nat, needsSyn: bool): Half {
    h.(made := true, handle := Some(NewHandle(window)), tasks := h.tasks + 1, port := NewPort(window, needsSyn))
  }

  datatype Emission = Emission(half: Half, wire: seq<Frame>)

  predicate CanPoll(h: Half) {
    && !h.goneAway && h.writing && h.tasks > 0
    && (h.port.outbox != [] || h.port.user.None?)
  }

  /**
    The writer polls this stream's task and sends what comes out; `io` is false
    when the connection refuses the frame. A frame that cannot be sent ends the
    writer.
  */
  function DoPoll(h: Half, id: StreamID, io: bool): Emission
    requires CanPoll(h) && h.handle.Some?
  {
    var p := h.port;
    var item := if p.outbox != [] then Some(p.outbox[0]) else None;
    var o := PollTask(h.handle.value, p.code, item);
    var out := if o.frame.Some? then [o.frame.value.WithStreamId(id)] else [];
    var ok := io && (out == [] || Encode(out[0]).Some?);
    Emission(
      h.(handle := o.handle, tasks := if o.requeue then h.tasks else h.tasks - 1,
         writing := ok || out == [],
         port := p.(outbox := if o.requeue then p.outbox[1..] else [],
                    sent := if item.None? then p.sent + Flow(out) else p.sent,
                    emitted := p.emitted + if o.frame.Some? then [o.frame.value] else [])),
      if ok then out else [])
  }

  // ---- the reader ----

  /** What the reader does next, beyond this stream. */
  datatype Next = Go | Reset(e: Error) | Halt | Leave(e: Error) | Protest | Crash

  datatype Reaction = Reaction(half: Half, next: Next)

  /**
    Send a frame on to the right place by its header type. A GOAWAY header with
    an invalid body meets an `unreachable!` and takes the reader down.
  */
  function Route(h: Half, f: Frame): Reaction {
    match f.header.typ
    case GoAwayType =>
      Reaction(h.(hand := None, reading := false), if f.body.GoAway? then Leave(f.body.reason) else Crash)
    case InvalidType(_) => Reaction(h.(hand := None), Protest)
    case _ =>
      if Undeliverable(f) then Reaction(h.(hand := None), Reset(Internal))
      else Reaction(h.(hand := Some(Sending(f, InitialCharge(f)))), Go)
  }

  /** The reader takes a frame off the wire; `full` says the stream limit is reached. */
  function DoTake(h: Half, f: Frame, full: bool, window: nat): Reaction {
    if f.IsSyn() then
      if full then Reaction(h.(reading := false), Halt)
      else Reaction(Made(h, window, false).(hand := Some(Accepting(f))), Go)
    else Route(h, f)
  }

  /** The accept queue takes the new stream, or the session is no longer accepting. */
  function DoAccept(h: Half, ok: bool): Reaction
    requires h.hand.Some? && h.hand.value.Accepting?
  {
    if ok then Route(h, h.hand.value.f)
    else Reaction(DoDrop(h).(hand := None, reading := false), Halt)
  }

  /** One poll of `send_to_stream`. */
  function DoSend(h: Half, slot: bool): Reaction
    requires h.hand.Some? && h.hand.value.Sending?
  {
    var Sending(f, charge) := h.hand.value;
    var p := h.port;
    var o := PollSend(h.handle, p.code, p.user.Some? && !p.inboxClosed, f, charge, slot);
    var g := h.(handle := o.handle,
                port := p.(code := o.code, inbox := if o.enqueued then p.inbox + [f] else p.inbox));
    match o.result
    case SendPending => Reaction(g.(hand := Some(Sending(f, o.charge))), Go)
    case SendOk => Reaction(g.(hand := if f.IsFin() then Some(Marking) else None), Go)
    case SendErr(e) => Reaction(g.(hand := None), Reset(e))
  }

  /** After a FIN: no more data goes to the stream. */
  function DoMark(h: Half): Half {
    h.(hand := None,
       handle := if h.handle.Some? then Some(h.handle.value.(dataWriteClosed := true)) else None)
  }

  // ---- endpoint-wide events ----

  /** `go_away`; the receiver tasks are cleared too when the GOAWAY is our own. */
  function DoGoAway(h: Half, e: Error, clearTasks: bool): Half {
    h.(goneAway := true, handle := None,
       tasks := if clearTasks then 0 else h.tasks,
       port := if h.handle.Some? then h.port.(code := CloseCode(h.port.code, e)) else h.port)
  }

  /** `close_senders`. */
  function DoCloseSender(h: Half): Half {
    if h.handle.Some? then h.(port := h.port.(inboxClosed := true)) else h
  }

  /** The reader task ends; a stream it was about to hand over dies with it. */
  function DoStopReading(h: Half): Half {
    var g := if h.hand.Some? && h.hand.value.Accepting? then DoDrop(h) else h;
    g.(reading := false, hand := None)
  }

  /** Both tasks are gone and the manager with them. */
  function DoForget(h: Half): Half {
    h.(handle := None, tasks := 0)
  }
}
