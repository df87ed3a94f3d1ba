/** The stream manager (muxado/src/stream_manager.rs). */
module StreamManagers {
  import opened Wrappers
  import opened Constrained
  import opened MuxErrors
  import opened Frames
  import opened StreamOutput

  /** The manager's book-keeping for one stream. */
  datatype Handle = Handle(needsFin: bool, dataWriteClosed: bool, window: nat)

  function NewHandle(window: nat): Handle {
    Handle(true, false, window)
  }

  // ---- output: one ready task ----

  datatype TaskOutcome = TaskOutcome(handle: Option<Handle>, frame: Option<Frame>, requeue: bool)

  /**
    The part of `poll_next` that runs when the receiver of a stream produced
    `item` (`None` when the stream was dropped and its queue is empty).
  */
  function PollTask(handle: Handle, code: U32, item: Option<Frame>): TaskOutcome {
    if code != 0 && !handle.needsFin then TaskOutcome(None, None, false)
    else
      match item
      case Some(f) =>
        var h := if f.body.WndInc? then handle.(window := handle.window + f.body.inc) else handle;
        TaskOutcome(Some(if f.IsFin() then h.(needsFin := false) else h), Some(f), true)
      case None =>
        TaskOutcome(None, if handle.needsFin then Some(FinFrame()) else None, false)
  }

  // ---- input: one poll of `send_to_stream` ----

  datatype SendResult = SendPending | SendOk | SendErr(e: Error)

  datatype SendOutcome = SendOutcome(handle: Option<Handle>, code: U32, charge: nat, enqueued: bool, result: SendResult)

  /** A FIN that carries no data: errors on it are swallowed. */
  predicate BareFin(f: Frame) {
    f.IsFin() && BodyLen(f.body) == 0
  }

  /** The frame bodies that `send_to_stream` refuses outright. */
  predicate Undeliverable(f: Frame) {
    f.body.GoAway? || f.body.Invalid?
  }

  function InitialCharge(f: Frame): nat {
    if f.body.Data? then |f.body.data| else 0
  }

  /** The `handle_frame` closure, on the handle of a known stream. */
  function TrySend(handle: Handle, code: U32, open: bool, f: Frame, charge: nat, slot: bool): SendOutcome {
    if f.header.typ == DataType && handle.dataWriteClosed then
      SendOutcome(Some(handle), code, charge, false, SendErr(StreamClosed))
    else if f.body.Rst? then
      SendOutcome(Some(handle.(dataWriteClosed := true, needsFin := false)),
                  CloseCode(code, f.body.error), charge, false, SendOk)
    else if charge <= handle.window then
      var h := handle.(window := handle.window - charge);
      if !open then SendOutcome(Some(h), code, 0, false, if BareFin(f) then SendOk else SendErr(StreamClosed))
      else if !slot then SendOutcome(Some(h), code, 0, false, SendPending)
      else SendOutcome(Some(h), code, 0, true, SendOk)
    else SendOutcome(Some(handle), code, charge, false, SendErr(FlowControl))
  }

  /**
    One poll: `handle` is the map entry if there is one, `open` says whether the
    stream still receives, `charge` is what has not been taken off the window yet.
  */
  function PollSend(handle: Option<Handle>, code: U32, open: bool, f: Frame, charge: nat, slot: bool): SendOutcome {
    if handle.None? then
      SendOutcome(None, code, charge, false,
                  if f.header.typ != DataType || BareFin(f) then SendOk else SendErr(StreamClosed))
    else
      var o := TrySend(handle.value, code, open, f, charge, slot);
      if f.header.typ == DataType && !BareFin(f) then
        if o.result.SendErr? then
          o.(handle := Some(o.handle.value.(dataWriteClosed := true, needsFin := false)),
             code := CloseCode(o.code, StreamClosed))
        else o
      else if o.result.SendPending? then o
      else o.(result := SendOk)
  }
}
