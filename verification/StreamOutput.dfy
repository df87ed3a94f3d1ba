/**
  The frame sink of a stream (muxado/src/stream_output.rs): a channel to the
  stream manager guarded by an error code that can be set once.
*/
module StreamOutput {
  import opened Wrappers
  import opened Constrained
  import opened MuxErrors
  import opened Frames

  /** Outcome of polling a sink. */
  datatype Poll = Pending | Ready(result: Result<(), Error>)

  /**
    A sink as a value: the close code (0 while open), the queued frames, and
    whether the manager still holds the receiving end.
  */
  datatype Sink = Sink(code: U32, items: seq<Frame>, connected: bool)

  /** The compare-exchange of `close_with`. */
  function CloseCode(code: U32, e: Error): U32 {
    if code == 0 then ErrorCode(e) else code
  }

  function Closed(k: Sink, e: Error): Sink {
    k.(code := CloseCode(k.code, e))
  }

  /** `poll_ready`; `room` says whether the channel has a free slot. */
  function SinkReady(k: Sink, room: bool): (Sink, Poll) {
    if k.code != 0 then (k, Ready(Err(ErrorOf(k.code))))
    else if !k.connected then (Closed(k, SessionClosed), Ready(Err(SessionClosed)))
    else if room then (k, Ready(Ok(()))) else (k, Pending)
  }

  /** `start_send`. */
  function SinkSend(k: Sink, f: Frame): (Sink, Result<(), Error>) {
    if k.code != 0 then (k, Err(ErrorOf(k.code)))
    else if !k.connected then (Closed(k, SessionClosed), Err(SessionClosed))
    else (k.(items := k.items + [f]), Ok(()))
  }

  /** `poll_flush`; the channel may report an error only when it is disconnected. */
  function SinkFlush(k: Sink, room: bool, broken: bool): (Sink, Poll) {
    if k.code != 0 then (k, Ready(Err(ErrorOf(k.code))))
    else if broken && !k.connected then (Closed(k, SessionClosed), Ready(Err(SessionClosed)))
    else if room then (k, Ready(Ok(()))) else (k, Pending)
  }

  /** A sequence of sink operations and close requests, in any order. */
  datatype SinkOp = OpReady(room: bool) | OpSend(f: Frame) | OpFlush(room: bool, broken: bool)
                  | OpClose(e: Error) | Disconnect

  function SinkStep(k: Sink, op: SinkOp): Sink {
    match op
    case OpReady(room) => SinkReady(k, room).0
    case OpSend(f) => SinkSend(k, f).0
    case OpFlush(room, broken) => SinkFlush(k, room, broken).0
    case OpClose(e) => Closed(k, e)
    case Disconnect => k.(connected := false)
  }

  function SinkRun(k: Sink, ops: seq<SinkOp>): Sink
    decreases |ops|
  {
    if ops == [] then k else SinkRun(SinkStep(k, ops[0]), ops[1..])
  }

  /**
    The first non-zero close code is final: whatever happens afterwards the code
    stays, nothing is queued any more, and every operation reports that error.
  */
  lemma {:induction false} FirstCloseWins(k: Sink, e: Error, ops: seq<SinkOp>, f: Frame, room: bool, broken: bool)
    requires k.code == 0 && e != NoError
    ensures var done := SinkRun(Closed(k, e), ops);
      && done.code == ErrorCode(e) && done.items == k.items
      && SinkReady(done, room) == (done, Ready(Err(e)))
      && SinkSend(done, f) == (done, Err(e))
      && SinkFlush(done, room, broken) == (done, Ready(Err(e)))
  {
    ErrorRoundTrip(e);
    ClosedStays(Closed(k, e), ops);
  }

  lemma {:induction false} ClosedStays(k: Sink, ops: seq<SinkOp>)
    requires k.code != 0
    ensures SinkRun(k, ops).code == k.code && SinkRun(k, ops).items == k.items
    decreases |ops|
  {
    if ops == [] {
    } else {
      ClosedStays(SinkStep(k, ops[0]), ops[1..]);
    }
  }

  /** Closing with the "no error" code changes nothing: the sink stays open. */
  lemma CloseWithNoErrorLeavesOpen(k: Sink, e: Error)
    requires k.code == 0
    ensures Closed(k, e) == k <==> e == NoError
  {
    ErrorRoundTrip(e);
  }

  // ---- the objects ----

  /** One end-to-end channel (`mpsc`): a queue, with either end able to go away. */
  class Channel {
    var items: seq<Frame>
    var senderClosed: bool
    var receiverDropped: bool

    constructor ()
      ensures items == [] && !senderClosed && !receiverDropped
    {
      items, senderClosed, receiverDropped := [], false, false;
    }
  }

  class SinkCloser {
    var code: U32

    constructor ()
      ensures code == 0
    {
      code := 0;
    }

    method CloseWith(e: Error)
      modifies this
      ensures code == CloseCode(old(code), e)
      ensures code == if old(code) != 0 then old(code) else ErrorCode(e)
    {
      if code == 0 {
        code := ErrorCode(e);
      }
    }

    function CheckClosed(): Result<(), Error>
      reads this
    {
      if code != 0 then Err(ErrorOf(code)) else Ok(())
    }

    predicate IsClosed()
      reads this
    {
      CheckClosed().Err?
    }
  }

  class StreamSender {
    const sink: Channel
    const closer: SinkCloser

    constructor (sink: Channel)
      ensures this.sink == sink && fresh(closer) && closer.code == 0
    {
      this.sink := sink;
      this.closer := new SinkCloser();
    }

    function Value(): Sink
      reads this, sink, closer
    {
      Sink(closer.code, sink.items, !sink.receiverDropped)
    }

    method PollReady(room: bool) returns (p: Poll)
      modifies closer
      ensures (Value(), p) == SinkReady(old(Value()), room)
    {
      var c := closer.CheckClosed();
      if c.Err? {
        return Ready(c);
      }
      if sink.receiverDropped {
        closer.CloseWith(SessionClosed);
        return Ready(Err(SessionClosed));
      }
      p := if room then Ready(Ok(())) else Pending;
    }

    method StartSend(item: Frame) returns (r: Result<(), Error>)
      modifies closer, sink
      ensures (Value(), r) == SinkSend(old(Value()), item)
      ensures sink.senderClosed == old(sink.senderClosed) && sink.receiverDropped == old(sink.receiverDropped)
    {
      var c := closer.CheckClosed();
      if c.Err? {
        return c;
      }
      if sink.receiverDropped {
        closer.CloseWith(SessionClosed);
        return Err(SessionClosed);
      }
      sink.items := sink.items + [item];
      r := Ok(());
    }

    method PollFlush(room: bool, broken: bool) returns (p: Poll)
      modifies closer
      ensures (Value(), p) == SinkFlush(old(Value()), room, broken)
    {
      var c := closer.CheckClosed();
      if c.Err? {
        return Ready(c);
      }
      if broken && sink.receiverDropped {
        closer.CloseWith(SessionClosed);
        return Ready(Err(SessionClosed));
      }
      p := if room then Ready(Ok(())) else Pending;
    }
  }
}
