/**
  Credit between two live ends is not only bounded but balanced: what the
  receiver has taken off its window is exactly what is missing from the sender's.
*/
module Balances {
  import opened Wrappers
  import opened Constrained
  import opened Frames
  import opened Streams
  import opened StreamManagers
  import opened Flows
  import opened StreamFacts
  import opened Halves
  import opened HalfInvariants
  import opened HalfSteps
  import opened Lanes
  import opened Credits

  // ---- counting bytes in a flow ----

  /** The bytes of a flow, without its end marks. */
  function ByteCount(s: seq<Sym>): nat {
    if s == [] then 0 else (if s[0] == FIN then 0 else 1) + ByteCount(s[1..])
  }

  lemma {:induction false} ByteCountAppend(a: seq<Sym>, b: seq<Sym>)
    ensures ByteCount(a + b) == ByteCount(a) + ByteCount(b)
    decreases |a|
  {
    if a == [] {
      assert a + b == b;
    } else {
      ByteCountAppend(a[1..], b);
      assert (a + b)[1..] == a[1..] + b;
    }
  }

  lemma {:induction false} BytesCount(bs: seq<byte>)
    ensures ByteCount(bs) == |bs|
    decreases |bs|
  {
    if bs == [] {
    } else {
      BytesCount(bs[1..]);
    }
  }

  lemma FrameByteCount(f: Frame)
    ensures ByteCount(FrameFlow(f)) == |Payload(f)|
  {
    BytesCount(Payload(f));
    ByteCountAppend(Payload(f), if StreamFrame(f) && f.IsFin() then [FIN] else []);
  }

  lemma {:induction false} FlowByteCount(fs: seq<Frame>)
    ensures ByteCount(Flow(fs)) == DataBytes(fs)
    decreases |fs|
  {
    hide FrameFlow, Payload, ByteCount;
    if fs == [] {
      assert ByteCount([]) == 0 by { BytesCount([]); }
    } else {
      FlowByteCount(fs[1..]);
      FrameByteCount(fs[0]);
      ByteCountAppend(FrameFlow(fs[0]), Flow(fs[1..]));
    }
  }

  // ---- the invariant ----

  /** Nothing of the sender is closed, dropped or stopped. */
  predicate SendLive(s: Half) {
    s.reading && s.writing && (s.made ==> s.port.user.Some? && s.handle.Some?)
  }

  /** Nothing of the receiver is closed, dropped or stopped, and it has met no FIN. */
  predicate RecvLive(r: Half) {
    r.reading && r.writing && (r.made ==> RecvOpen(r))
  }

  /**
    Before the receiver has the stream, every byte of the sender's window is
    still its credit or was written; afterwards both windows have given up the
    same amount.
  */
  predicate Balanced(s: Half, out: seq<Frame>, r: Half, back: seq<Frame>, sender: nat, receiver: nat) {
    SendLive(s) && RecvLive(r) ==>
      if r.made then Outstanding(s, out, r, back, sender) + receiver == r.handle.value.window + sender
      else Budget(s, sender) + Credit(back) + ByteCount(s.port.sent) == sender
  }

  // ---- what one step of a half does to the balance ----

  /** As sender: no credit disappears, and only written bytes use it up. */
  predicate SpendsAll(h: Half, g: Half, taken: seq<Frame>, put: seq<Frame>, window: nat) {
    SendLive(g) ==>
      && SendLive(h)
      && Budget(g, window) + DataBytes(g.port.outbox) + DataBytes(put)
         == Budget(h, window) + DataBytes(h.port.outbox) + Credit(taken)
      && Budget(g, window) + ByteCount(g.port.sent) == Budget(h, window) + ByteCount(h.port.sent) + Credit(taken)
  }

  /** As receiver: room in the window and credit on the wire go together. */
  predicate RefundsAll(h: Half, g: Half, taken: seq<Frame>, put: seq<Frame>) {
    RecvLive(g) ==>
      && RecvLive(h)
      && (h.made ==>
            && g.made
            && Uncharged(g) + h.handle.value.window + Credit(put)
               == Uncharged(h) + DataBytes(taken) + g.handle.value.window)
      && (!g.made ==> Credit(put) == 0)
  }

  lemma SenderStepKeepsBalance(h: Half, g: Half, taken: seq<Frame>, rest: seq<Frame>, out: seq<Frame>, put: seq<Frame>, r: Half, sender: nat, receiver: nat)
    requires Balanced(h, out, r, taken + rest, sender, receiver) && SpendsAll(h, g, taken, put, sender)
    ensures Balanced(g, out + put, r, rest, sender, receiver)
  {
    hide Credit, DataBytes, Budget, Uncharged, ByteCount, SendLive;
    CreditAppend(taken, rest);
    DataBytesAppend(out, put);
  }

  lemma ReceiverStepKeepsBalance(h: Half, g: Half, taken: seq<Frame>, rest: seq<Frame>, back: seq<Frame>, put: seq<Frame>, s: Half, sender: nat, receiver: nat)
    requires Balanced(s, taken + rest, h, back, sender, receiver) && RefundsAll(h, g, taken, put)
    requires g.made ==> h.made
    ensures Balanced(s, rest, g, back + put, sender, receiver)
  {
    hide Credit, DataBytes, Budget, Uncharged, ByteCount, SendLive;
    DataBytesAppend(taken, rest);
    CreditAppend(back, put);
  }

  // ---- the application's calls ----

  lemma ReadBalances(h: Half, room: nat, slot: bool, window: nat)
    requires HalfOk(h, window) && Usable(h) && h.made && Budget(h, window) <= window
    ensures SpendsAll(h, DoRead(h, room, slot), [], [], window)
    ensures RefundsAll(h, DoRead(h, room, slot), [], [])
  {
    hide PollRead, Absorbed, Flow, DataBytes, Credit, SenderOk, WndIncFrame, ByteCount;
    var p := h.port;
    var st := p.user.value;
    var o := PollRead(st, p.inbox, InboxEnded(h), SinkOf(h), room, slot);
    var taken, mid := ReadFacts(st, p.inbox, InboxEnded(h), SinkOf(h), room, slot);
    FoundTaken(p.inbox, o.inbox, taken);
    AbsorbedSizes(st, taken, mid);
    FlowNone();
    var n := if o.result.ReadOk? then |o.result.bytes| else 0;
    OwnFramesConform([], false, n);
    FlowSnoc(p.outbox, WndIncFrame(n));
    assert Payload(WndIncFrame(n)) == [];
  }

  lemma WriteBalances(h: Half, buf: seq<byte>, slot: bool, window: nat)
    requires HalfOk(h, window) && Usable(h) && h.made && Budget(h, window) <= window
    ensures SpendsAll(h, DoWrite(h, buf, slot), [], [], window)
    ensures RefundsAll(h, DoWrite(h, buf, slot), [], [])
  {
    hide PollWrite, Absorbed, Flow, DataBytes, Credit, SenderOk, DataFrame, WriteLen, ByteCount;
    var p := h.port;
    var st := p.user.value;
    var o := PollWrite(st, p.inbox, InboxEnded(h), SinkOf(h), buf, slot);
    var taken, mid := WriteFacts(st, p.inbox, InboxEnded(h), SinkOf(h), buf, slot);
    FoundTaken(p.inbox, o.inbox, taken);
    AbsorbedSizes(st, taken, mid);
    FlowNone();
    if o.result.WriteOk? {
      var bs := buf[..o.result.n];
      OwnFramesConform(bs, st.needsSyn, 0);
      FlowSnoc(p.outbox, DataFrame(bs, st.needsSyn));
      BytesCount(bs);
      ByteCountAppend(p.sent, bs);
    } else {
      assert p.sent + [] == p.sent;
    }
  }

  lemma ClosingBalances(h: Half, o: CloseOutcome, window: nat)
    requires HalfOk(h, window) && Usable(h) && h.made
    requires o.st == h.port.user.value.(writeClosed := o.st.writeClosed)
    requires o.sink.items == h.port.outbox || o.sink.items == h.port.outbox + [FinFrame()]
    ensures SpendsAll(h, AfterClose(h, o), [], [], window)
    ensures RefundsAll(h, AfterClose(h, o), [], [])
  {
    hide SenderOk, WindowOk, Flow, DataBytes, Credit, ByteCount;
    var p := h.port;
    FlowNone();
    FlowSnoc(p.outbox, FinFrame());
    var more := o.sink.items[|p.outbox|..];
    assert more == [] || more == [FinFrame()];
    FlowOne(FinFrame());
    FlowByteCount(more);
    ByteCountAppend(p.sent, Flow(more));
  }

  // ---- the writer and the reader ----

  lemma PollBalances(h: Half, id: StreamID, io: bool, window: nat)
    requires HalfOk(h, window) && CanPoll(h) && h.handle.Some?
    ensures var e := DoPoll(h, id, io);
      SpendsAll(h, e.half, [], e.wire, window) && RefundsAll(h, e.half, [], e.wire)
  {
    hide Flow, DataBytes, Credit, SenderOk, WindowOk, Codec.Encode, ByteCount;
    FlowNone();
    var p := h.port;
    if p.outbox != [] {
      var f := p.outbox[0];
      FlowOne(f.WithStreamId(id));
      FlowOne(f);
      assert p.outbox == [f] + p.outbox[1..];
      DataBytesAppend([f], p.outbox[1..]);
      FlowIgnoresId(f, id);
    }
  }

  lemma TakeBalances(h: Half, f: Frame, full: bool, window: nat)
    requires HalfOk(h, window) && h.reading && h.hand.None? && Conforming(f)
    requires f.IsSyn() ==> !h.made
    ensures SpendsAll(h, DoTake(h, f, full, window).half, [f], [], window)
    ensures RefundsAll(h, DoTake(h, f, full, window).half, [f], [])
  {
    hide SenderOk, Conforming, StreamFrames, AllFromWire, DataBytes, Credit, ByteCount;
    ConformingKinds(f);
    FlowNone();
    FlowOne(f);
    var g := DoTake(h, f, full, window).half;
    assert HandFrames(g) == [f] || !g.reading;
    assert |Payload(f)| == InitialCharge(f);
  }

  /** A live stream takes every WNDINC frame, now or later. */
  lemma CreditIsTaken(handle: Handle, code: U32, f: Frame, charge: nat, slot: bool)
    requires FromWire(f) && f.body.WndInc? && charge == 0
    ensures var o := PollSend(Some(handle), code, true, f, charge, slot); o.enqueued || o.result.SendPending?
  {
  }

  lemma SendBalances(h: Half, slot: bool, window: nat)
    requires HalfOk(h, window) && h.hand.Some? && h.hand.value.Sending? && Conforming(h.hand.value.f)
    requires Budget(h, window) <= window
    ensures SpendsAll(h, DoSend(h, slot).half, [], [], window)
    ensures RefundsAll(h, DoSend(h, slot).half, [], [])
  {
    hide SenderOk, PollSend, DataBytes, Credit, Conforming, FrameFlow, StreamFrames, AllFromWire, ByteCount, Undeliverable;
    var Sending(f, charge) := h.hand.value;
    var open := h.port.user.Some? && !h.port.inboxClosed;
    FlowNone();
    FlowOne(f);
    FlowSnoc(h.port.inbox, f);
    SendShape(h, slot, window);
    assert HandFrames(h) == [f];
    if h.handle.Some? {
      assert h.handle == Some(h.handle.value);
      SendFacts(h.handle.value, h.port.code, open, f, charge, slot);
      if f.body.WndInc? && open {
        CreditIsTaken(h.handle.value, h.port.code, f, charge, slot);
      }
    } else {
      NoHandleStays(h.port.code, open, f, charge, slot);
    }
  }

  // ---- making a stream ----

  lemma MadeBalances(h: Half, window: nat, needsSyn: bool)
    requires HalfOk(h, window) && !h.made
    ensures SpendsAll(h, Made(h, window, needsSyn), [], [], window)
    ensures RefundsAll(h, Made(h, window, needsSyn), [], [])
  {
    hide SenderOk;
    FlowNone();
  }

  /** What a live sender wrote and did not send yet, or has on the wire, is all it ever wrote. */
  lemma AllWrittenIsUnderway(y: Half, yx: seq<Frame>, x: Half, fwd: bool)
    requires Direction(y.port.emitted, y.writing, yx, x, fwd) && Linked(y) && SenderOk(y)
    requires !x.made && yx != [] && yx[0].IsSyn() && yx[0].body.Data? && SendLive(y)
    ensures DataBytes(y.port.outbox) + DataBytes(yx) == ByteCount(y.port.sent)
  {
    hide SynFirst, Flow, DataBytes, ByteCount, FinStops, FinLast, OwnFrames;
    var p := y.port;
    assert !NoSyn(yx) && !NoData(yx);
    assert y.made by { assert p.emitted != []; }
    assert Flow(yx) == Flow(p.emitted);
    FlowAppend(p.emitted, p.outbox);
    ByteCountAppend(Flow(p.emitted), Flow(p.outbox));
    FlowByteCount(yx);
    FlowByteCount(p.outbox);
  }

  /** The receiver makes its half for a SYN: from here on its window counts. */
  lemma SynStartsBalance(x: Half, y: Half, f: Frame, rest: seq<Frame>, xy: seq<Frame>, fwd: bool, near: nat, far: nat)
    requires Balanced(y, [f] + rest, x, xy, far, near) && Linked(y) && SenderOk(y)
    requires Direction(y.port.emitted, y.writing, [f] + rest, x, fwd)
    requires !x.made && x.reading && f.IsSyn() && f.body.Data?
    ensures Balanced(y, rest, DoTake(x, f, false, near).half, xy, far, near)
  {
    hide Direction, Linked, SenderOk, Credit, DataBytes, ByteCount, Budget;
    if SendLive(y) {
      AllWrittenIsUnderway(y, [f] + rest, x, fwd);
      DataBytesAppend([f], rest);
      FlowOne(f);
    }
  }

  /** The opener makes its own half: nothing is under way to it yet. */
  lemma OpenStartsBalance(x: Half, xy: seq<Frame>, y: Half, yx: seq<Frame>, near: nat, far: nat)
    requires Balanced(y, yx, x, xy, far, near) && Linked(x) && HandOk(x) && Linked(y)
    requires Direction(x.port.emitted, x.writing, xy, y, true) && Direction(y.port.emitted, y.writing, yx, x, false)
    requires !x.made
    ensures Balanced(y, yx, Made(x, near, true), xy, far, near)
  {
    hide Credit, DataBytes, ByteCount, Flow, SynFirst, Conforming, StreamFrames, AllFromWire;
    assert !y.made && NoData(yx) && NoData(HandFrames(x));
    NoDataNoFlow(yx);
    FlowNone();
    assert Uncharged(x) == 0 by {
      if x.hand.Some? && !x.hand.value.Marking? { assert HandFrames(x)[0] == x.hand.value.f; }
    }
    assert ByteCount([]) == 0 by { BytesCount([]); }
  }
}
