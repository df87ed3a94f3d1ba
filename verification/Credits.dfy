/**
  Credit between two correct endpoints, each with its own window: the sender has
  used up at least as much of its window as the receiver of its own, so what the
  sender may still send never exceeds the receiver's room by more than the two
  windows differ.
*/
module Credits {
  import opened Wrappers
  import opened Constrained
  import opened MuxErrors
  import opened Frames
  import opened Streams
  import opened StreamManagers
  import opened Flows
  import opened StreamFacts
  import opened Halves
  import opened HalfInvariants
  import opened HalfSteps
  import opened Lanes

  /** The sender's credit: what the stream holds, or the whole window before it exists. */
  function SendWindow(s: Half, window: nat): nat {
    if !s.made then window else if s.port.user.Some? then s.port.user.value.window else 0
  }

  /** Credit the sender has or is about to get. */
  function Budget(s: Half, window: nat): nat {
    SendWindow(s, window) + Credit(HandFrames(s)) + Credit(s.port.inbox)
  }

  /** Data in the receiver's hand that is not yet taken off the window. */
  function Uncharged(r: Half): nat {
    if r.hand.None? || r.hand.value.Marking? then 0
    else if r.hand.value.Accepting? then InitialCharge(r.hand.value.f)
    else r.hand.value.charge
  }

  /** Credit the sender has or is about to get, and data on its way to the receiver's window. */
  function Outstanding(s: Half, out: seq<Frame>, r: Half, back: seq<Frame>, sender: nat): nat {
    Budget(s, sender) + Credit(back) + DataBytes(s.port.outbox) + DataBytes(out) + Uncharged(r)
  }

  /**
    `out` is the wire from `s` to `r` and `back` the wire from `r` to `s`, for this
    stream; `sender` and `receiver` are the windows the two ends are configured with.
  */
  predicate CreditOk(s: Half, out: seq<Frame>, r: Half, back: seq<Frame>, sender: nat, receiver: nat) {
    var total := Outstanding(s, out, r, back, sender);
    && Budget(s, sender) + Credit(back) <= sender
    && (r.handle.Some? ==> total + receiver <= r.handle.value.window + sender)
    && (!r.made ==> total <= sender)
  }

  // ---- what one step of a half does to credit ----

  /** As sender: a step that takes `taken` off the wire and puts `put` on it creates no credit. */
  predicate Spends(h: Half, g: Half, taken: seq<Frame>, put: seq<Frame>, window: nat) {
    && Budget(g, window) <= Budget(h, window) + Credit(taken)
    && Budget(g, window) + DataBytes(g.port.outbox) + DataBytes(put)
       <= Budget(h, window) + DataBytes(h.port.outbox) + Credit(taken)
  }

  /** As receiver: credit is put on the wire only together with room in the window. */
  predicate Refunds(h: Half, g: Half, taken: seq<Frame>, put: seq<Frame>, window: nat) {
    && (g.handle.Some? && h.handle.Some? ==>
          Uncharged(g) + h.handle.value.window + Credit(put)
          <= Uncharged(h) + DataBytes(taken) + g.handle.value.window)
    && (g.handle.Some? && h.handle.None? ==> !h.made && g.handle.value.window == window)
    && (g.handle.None? || h.handle.None? ==> Credit(put) == 0 && Uncharged(g) <= Uncharged(h) + DataBytes(taken))
    && (!g.made ==> !h.made)
    && (g.handle.Some? ==> g.handle.value.window <= window)
  }

  lemma SenderStepKeepsCredit(h: Half, g: Half, taken: seq<Frame>, rest: seq<Frame>, out: seq<Frame>, put: seq<Frame>, r: Half, sender: nat, receiver: nat)
    requires CreditOk(h, out, r, taken + rest, sender, receiver) && Spends(h, g, taken, put, sender)
    ensures CreditOk(g, out + put, r, rest, sender, receiver)
  {
    hide Credit, DataBytes, Budget, Uncharged;
    CreditAppend(taken, rest);
    DataBytesAppend(out, put);
  }

  lemma ReceiverStepKeepsCredit(h: Half, g: Half, taken: seq<Frame>, rest: seq<Frame>, back: seq<Frame>, put: seq<Frame>, s: Half, sender: nat, receiver: nat)
    requires CreditOk(s, taken + rest, h, back, sender, receiver) && Refunds(h, g, taken, put, receiver)
    ensures CreditOk(s, rest, g, back + put, sender, receiver)
  {
    hide Credit, DataBytes, Budget, Uncharged;
    DataBytesAppend(taken, rest);
    CreditAppend(back, put);
  }

  lemma MadeStep(h: Half, window: nat, needsSyn: bool)
    requires HalfOk(h, window) && !h.made
    ensures Spends(h, Made(h, window, needsSyn), [], [], window)
    ensures Refunds(h, Made(h, window, needsSyn), [], [], window)
  {
    hide SenderOk, WindowOk, StreamFrames, AllFromWire, DataBytes, Credit;
    FlowNone();
  }

  lemma ReadStep(h: Half, room: nat, slot: bool, window: nat)
    requires HalfOk(h, window) && Usable(h) && h.made && Budget(h, window) <= window
    ensures Spends(h, DoRead(h, room, slot), [], [], window)
    ensures Refunds(h, DoRead(h, room, slot), [], [], window)
  {
    hide PollRead, Absorbed, Flow, DataBytes, Credit, SenderOk, WndIncFrame;
    var p := h.port;
    var st := p.user.value;
    var o := PollRead(st, p.inbox, InboxEnded(h), SinkOf(h), room, slot);
    var taken, mid := ReadFacts(st, p.inbox, InboxEnded(h), SinkOf(h), room, slot);
    FoundTaken(p.inbox, o.inbox, taken);
    AbsorbedSizes(st, taken, mid);
    FlowNone();
    var n := if o.result.ReadOk? then |o.result.bytes| else 0;
    OwnFramesConform([], false, n);
    FlowSnoc(p.outbox, WndIncFrame(n));
    assert Payload(WndIncFrame(n)) == [];
  }

  lemma WriteStep(h: Half, buf: seq<byte>, slot: bool, window: nat)
    requires HalfOk(h, window) && Usable(h) && h.made && Budget(h, window) <= window
    ensures Spends(h, DoWrite(h, buf, slot), [], [], window)
    ensures Refunds(h, DoWrite(h, buf, slot), [], [], window)
  {
    hide PollWrite, Absorbed, Flow, DataBytes, Credit, SenderOk, DataFrame, WriteLen;
    var p := h.port;
    var st := p.user.value;
    var o := PollWrite(st, p.inbox, InboxEnded(h), SinkOf(h), buf, slot);
    var taken, mid := WriteFacts(st, p.inbox, InboxEnded(h), SinkOf(h), buf, slot);
    FoundTaken(p.inbox, o.inbox, taken);
    AbsorbedSizes(st, taken, mid);
    FlowNone();
    if o.result.WriteOk? {
      var f := DataFrame(buf[..o.result.n], st.needsSyn);
      OwnFramesConform(buf[..o.result.n], st.needsSyn, 0);
      FlowSnoc(p.outbox, f);
    }
  }

  lemma ClosingStep(h: Half, o: CloseOutcome, window: nat)
    requires HalfOk(h, window) && Usable(h) && h.made
    requires o.st == h.port.user.value.(writeClosed := o.st.writeClosed)
    requires o.sink.items == h.port.outbox || o.sink.items == h.port.outbox + [FinFrame()]
    ensures Spends(h, AfterClose(h, o), [], [], window)
    ensures Refunds(h, AfterClose(h, o), [], [], window)
  {
    FlowNone();
    FlowSnoc(h.port.outbox, FinFrame());
  }

  lemma PollStep(h: Half, id: StreamID, io: bool, window: nat)
    requires HalfOk(h, window) && CanPoll(h) && h.handle.Some?
    ensures var e := DoPoll(h, id, io);
      Spends(h, e.half, [], e.wire, window) && Refunds(h, e.half, [], e.wire, window)
  {
    hide Flow, DataBytes, Credit, SenderOk, Codec.Encode;
    PollIsOk(h, id, io, window);
    FlowNone();
    var p := h.port;
    if p.outbox != [] {
      var f := p.outbox[0];
      FlowOne(f.WithStreamId(id));
      FlowOne(f);
      assert p.outbox == [f] + p.outbox[1..];
      DataBytesAppend([f], p.outbox[1..]);
      FlowIgnoresId(f, id);
    }
    FlowOne(FinFrame().WithStreamId(id));
  }

  lemma TakeStep(h: Half, f: Frame, full: bool, window: nat)
    requires HalfOk(h, window) && h.reading && h.hand.None? && Conforming(f)
    requires f.IsSyn() ==> !h.made
    ensures Spends(h, DoTake(h, f, full, window).half, [f], [], window)
    ensures Refunds(h, DoTake(h, f, full, window).half, [f], [], window)
  {
    hide SenderOk, Conforming, StreamFrames, AllFromWire, DataBytes, Credit;
    ConformingKinds(f);
    FlowNone();
    FlowOne(f);
    assert |Payload(f)| == InitialCharge(f);
    assert h.handle.Some? ==> h.handle.value.window <= window;
    hide WindowOk;
    if f.IsSyn() {
      if !full { MadeStep(h, window, false); }
    } else {
      RouteToHand(h, f);
      hide Linked;
    }
  }

  lemma RouteToHand(h: Half, f: Frame)
    requires DataOrControl(f)
    ensures Route(h, f).half == h.(hand := Some(Sending(f, InitialCharge(f))))
  {
  }

  lemma SendStep(h: Half, slot: bool, window: nat)
    requires HalfOk(h, window) && h.hand.Some? && h.hand.value.Sending? && Conforming(h.hand.value.f)
    ensures Spends(h, DoSend(h, slot).half, [], [], window)
    ensures Refunds(h, DoSend(h, slot).half, [], [], window)
  {
    hide SenderOk, PollSend, DataBytes, Credit, Conforming, FrameFlow, RecvOpen, StreamFrames, AllFromWire;
    var Sending(f, charge) := h.hand.value;
    FlowNone();
    FlowOne(f);
    FlowSnoc(h.port.inbox, f);
    SendShape(h, slot, window);
    var g := DoSend(h, slot).half;
    assert HandFrames(h) == [f];
    if h.handle.Some? {
      assert h.handle == Some(h.handle.value);
      SendFacts(h.handle.value, h.port.code, h.port.user.Some? && !h.port.inboxClosed, f, charge, slot);
      SendCharges(h, slot, window) by { SendIsOk(h, slot, window); }
    } else {
      NoHandleStays(h.port.code, h.port.user.Some? && !h.port.inboxClosed, f, charge, slot);
    }
  }

  // ---- what the invariant is for ----

  /** A frame in the hand of the receiver fits its window when the sender's window is not the larger one. */
  lemma NeverFlowControl(s: Half, out: seq<Frame>, r: Half, back: seq<Frame>, sender: nat, receiver: nat, slot: bool)
    requires CreditOk(s, out, r, back, sender, receiver) && HalfOk(r, receiver) && sender <= receiver
    requires r.hand.Some? && r.hand.value.Sending?
    ensures r.handle.Some? ==> r.hand.value.charge <= r.handle.value.window
    ensures SendOf(r, slot).result != SendErr(FlowControl)
  {
    hide SenderOk, WindowOk;
  }
}
