/**
  One direction of one stream between two correct endpoints: what the sender's
  manager emitted, the wire, and the receiving half.
*/
module Lanes {
  import opened Wrappers
  import opened Constrained
  import opened Frames
  import opened Streams
  import opened StreamManagers
  import opened Flows
  import opened StreamFacts
  import opened Halves
  import opened HalfInvariants
  import opened HalfSteps

  // ---- the invariant ----

  /** The receiving side still takes data for this stream. */
  predicate RecvOpen(r: Half) {
    && r.made && r.reading && r.port.user.Some?
    && r.handle.Some? && !r.handle.value.dataWriteClosed
  }

  function HandFrames(r: Half): seq<Frame> {
    if r.hand.None? || r.hand.value.Marking? then [] else [r.hand.value.f]
  }

  /** What reached the stream: taken out of the inbox, or waiting in it. */
  function Arrived(r: Half): seq<Sym> {
    r.port.got + Flow(r.port.inbox)
  }

  function InFlight(r: Half, wire: seq<Frame>): seq<Sym> {
    Flow(HandFrames(r)) + Flow(wire)
  }

  /** `flow` is all of `total`, or a prefix of it once the sender's writer has stopped. */
  predicate Covers(flow: seq<Sym>, total: seq<Sym>, writing: bool) {
    if writing then flow == total else flow <= total
  }

  /**
    `emitted` and `writing` are the sender's; `fwd` says that the sender is the
    side that opened the stream.
  */
  predicate Direction(emitted: seq<Frame>, writing: bool, wire: seq<Frame>, r: Half, fwd: bool) {
    && AllConforming(wire) && AllConforming(r.port.inbox) && AllConforming(HandFrames(r))
    && Arrived(r) <= Flow(emitted)
    && (RecvOpen(r) ==> Covers(Arrived(r) + InFlight(r, wire), Flow(emitted), writing))
    && (!r.made && !NoSyn(wire) ==> Covers(Flow(wire), Flow(emitted), writing))
    && SynFirst(wire)
    && (NoData(emitted) ==> NoData(wire) && NoData(HandFrames(r)))
    && (r.made ==> NoSyn(wire))
    && (fwd && r.made ==> !NoData(emitted))
    && (!fwd ==> NoSyn(wire) && (!r.made ==> emitted == []))
  }

  /** The application's side of the receiver. */
  predicate ReaderOk(r: Half) {
    var p := r.port;
    && p.delivered <= p.got
    && (p.user.Some? ==> Spells(p.got, p.delivered + p.user.value.readBuf))
    && (p.user.Some? && p.user.value.dataReadClosed ==> FIN in p.got || InboxEnded(r))
  }

  // ---- the sender's steps ----

  lemma FlowIgnoresId(f: Frame, id: StreamID)
    ensures FrameFlow(f.WithStreamId(id)) == FrameFlow(f)
    ensures FrameCredit(f.WithStreamId(id)) == FrameCredit(f) && Payload(f.WithStreamId(id)) == Payload(f)
    ensures Conforming(f) ==> Conforming(f.WithStreamId(id))
  {
  }

  /** The manager emits a frame and the writer puts it on the wire. */
  lemma EmitKeeps(emitted: seq<Frame>, wire: seq<Frame>, r: Half, fwd: bool, f: Frame, id: StreamID)
    requires Direction(emitted, true, wire, r, fwd)
    requires Conforming(f) && AllConforming(emitted)
    requires f.IsSyn() ==> fwd && NoData(emitted) && f.body.Data?
    requires !fwd ==> r.made
    ensures Direction(emitted + [f], true, wire + [f.WithStreamId(id)], r, fwd)
  {
    hide Conforming, Flow, SynFirst, FrameFlow, RecvOpen;
    var g := f.WithStreamId(id);
    FlowIgnoresId(f, id);
    FlowSnoc(emitted, f);
    FlowSnoc(wire, g);
    SynFirstSnoc(wire, g);
    if f.IsSyn() {
      NoDataNoFlow(emitted);
      NoDataNoFlow(wire);
    }
    if !r.made && !NoSyn(wire + [g]) && !f.IsSyn() {
      assert !NoSyn(wire);
    }
    assert Arrived(r) + InFlight(r, wire) + FrameFlow(f) == Arrived(r) + InFlight(r, wire + [g]);
    assert NoData(emitted + [f]) ==> NoData(emitted) && !f.body.Data? by {
      if NoData(emitted + [f]) {
        assert (emitted + [f])[|emitted|] == f;
        assert forall i :: 0 <= i < |emitted| ==> emitted[i] == (emitted + [f])[i];
      }
    }
  }

  /** The manager emits a frame that is lost because the writer stops. */
  lemma LoseKeeps(emitted: seq<Frame>, writing: bool, wire: seq<Frame>, r: Half, fwd: bool, f: Frame)
    requires Direction(emitted, writing, wire, r, fwd)
    requires !fwd ==> r.made
    ensures Direction(emitted + [f], false, wire, r, fwd)
  {
    hide Conforming, SynFirst;
    FlowAppend(emitted, [f]);
    assert NoData(emitted + [f]) ==> NoData(emitted) by {
      assert forall i :: 0 <= i < |emitted| ==> emitted[i] == (emitted + [f])[i];
    }
    assert fwd && r.made ==> !NoData(emitted + [f]);
  }

  lemma StopWritingKeeps(emitted: seq<Frame>, writing: bool, wire: seq<Frame>, r: Half, fwd: bool)
    requires Direction(emitted, writing, wire, r, fwd)
    ensures Direction(emitted, false, wire, r, fwd)
  {
  }

  /** A frame that is not the stream's own, such as RST, joins the wire. */
  lemma SystemFrameKeeps(emitted: seq<Frame>, writing: bool, wire: seq<Frame>, r: Half, fwd: bool, f: Frame)
    requires Direction(emitted, writing, wire, r, fwd)
    requires Conforming(f) && f.body.Rst?
    ensures Direction(emitted, writing, wire + [f], r, fwd)
  {
    hide Conforming, Flow, SynFirst;
    assert !f.IsSyn() && FrameFlow(f) == [] by { RstIsPlain(f); }
    FlowSnoc(wire, f);
    SynFirstSnoc(wire, f);
    assert Flow(wire) + [] == Flow(wire);
    assert !NoSyn(wire + [f]) ==> !NoSyn(wire);
  }

  lemma RstIsPlain(f: Frame)
    requires Conforming(f) && f.body.Rst?
    ensures !f.IsSyn() && FrameFlow(f) == []
  {
  }

  // ---- the receiver's steps ----

  /** A step of the receiver that at most closes or consumes. */
  lemma QuietReceiverKeeps(emitted: seq<Frame>, writing: bool, wire: seq<Frame>, r: Half, q: Half, fwd: bool)
    requires Direction(emitted, writing, wire, r, fwd)
    requires q.made == r.made && (q.reading ==> r.reading)
    requires HandFrames(q) == HandFrames(r) || (HandFrames(q) == [] && (RecvOpen(q) ==> Flow(HandFrames(r)) == []))
    requires RecvOpen(q) ==> RecvOpen(r) && Arrived(q) == Arrived(r)
    requires Arrived(q) <= Arrived(r)
    requires AllConforming(q.port.inbox)
    ensures Direction(emitted, writing, wire, q, fwd)
  {
    hide Conforming, SynFirst;
    if RecvOpen(q) {
      assert Flow(HandFrames(q)) == Flow(HandFrames(r));
    }
  }

  /** The opener makes its own half: nothing has been sent to it yet. */
  lemma OpenKeeps(emitted: seq<Frame>, writing: bool, wire: seq<Frame>, r: Half, window: nat, needsSyn: bool)
    requires Direction(emitted, writing, wire, r, false)
    requires !r.made
    ensures Direction(emitted, writing, wire, Made(r, window, needsSyn), false)
  {
    NoDataNoFlow(wire);
    NoDataNoFlow(HandFrames(r));
  }

  lemma PredicatesTail(fs: seq<Frame>)
    requires fs != []
    ensures AllConforming(fs) ==> AllConforming(fs[1..]) && AllConforming([fs[0]])
    ensures NoData(fs) ==> NoData(fs[1..]) && NoData([fs[0]])
    ensures NoSyn(fs) <==> NoSyn(fs[1..]) && !fs[0].IsSyn()
    ensures Flow(fs) == Flow([fs[0]]) + Flow(fs[1..])
  {
    FlowOne(fs[0]);
  }

  /** An ordinary frame goes from the wire into the reader's hand. */
  lemma MoveToHandKeeps(emitted: seq<Frame>, writing: bool, wire: seq<Frame>, r: Half, q: Half, fwd: bool)
    requires wire != [] && Direction(emitted, writing, wire, r, fwd) && Conforming(wire[0]) && !wire[0].IsSyn()
    requires HandFrames(r) == [] && HandFrames(q) == [wire[0]]
    requires q.port == r.port && q.made == r.made && q.handle == r.handle && q.reading == r.reading
    ensures Direction(emitted, writing, wire[1..], q, fwd)
  {
    hide Conforming, FrameFlow, SynFirst, Flow, AllConforming, NoData, NoSyn;
    var f, rest := wire[0], wire[1..];
    PredicatesTail(wire);
    SynFirstTail(wire);
    FlowOne(f);
    FlowNone();
    if !r.made && !NoSyn(rest) {
      assert FrameFlow(f) == [] by { ControlIsPlain(f); }
      assert Flow(rest) == Flow(wire);
    }
    assert Arrived(q) + InFlight(q, rest) == Arrived(r) + InFlight(r, wire);
  }

  /** The reader takes the next frame of this stream off the wire. */
  lemma TakeKeeps(emitted: seq<Frame>, writing: bool, wire: seq<Frame>, r: Half, fwd: bool, full: bool, window: nat)
    requires wire != [] && Direction(emitted, writing, wire, r, fwd)
    requires r.reading && r.hand.None? && Linked(r)
    ensures wire[0].IsSyn() ==> !r.made && fwd
    ensures Direction(emitted, writing, wire[1..], DoTake(r, wire[0], full, window).half, fwd)
  {
    var f := wire[0];
    assert Conforming(f) by { assert AllConforming(wire); }
    if f.IsSyn() {
      TakeSynKeeps(emitted, writing, wire, r, fwd, full, window);
    } else {
      var q := DoTake(r, f, full, window).half;
      assert HandFrames(q) == [f] && q.port == r.port && q.made == r.made && q.handle == r.handle && q.reading by {
        ConformingKinds(f);
        hide Conforming, Direction, Linked;
      }
      hide Conforming, Direction, Linked, DoTake;
      MoveToHandKeeps(emitted, writing, wire, r, q, fwd);
    }
  }

  /** A SYN makes the receiving half, or ends the reader when the stream limit is reached. */
  lemma TakeSynKeeps(emitted: seq<Frame>, writing: bool, wire: seq<Frame>, r: Half, fwd: bool, full: bool, window: nat)
    requires wire != [] && Direction(emitted, writing, wire, r, fwd) && wire[0].IsSyn()
    requires r.reading && r.hand.None? && Linked(r)
    ensures !r.made && fwd
    ensures Direction(emitted, writing, wire[1..], DoTake(r, wire[0], full, window).half, fwd)
  {
    hide Conforming, FrameFlow, SynFirst, Flow;
    var f, rest := wire[0], wire[1..];
    var q := DoTake(r, f, full, window).half;
    assert Conforming(f);
    ConformingKinds(f);
    SynFirstTail(wire);
    FlowOne(f);
    FlowNone();
    assert wire == [f] + rest;
    FlowAppend([f], rest);
    if !full {
      assert HandFrames(q) == [f] && Arrived(q) == [];
      assert [] + InFlight(q, rest) == Flow(wire);
    }
  }

  predicate DataOrControl(f: Frame) {
    f.header.typ == TypeOfBody(f.body) && (f.body.Data? || f.body.WndInc? || f.body.Rst?)
  }

  lemma ConformingKinds(f: Frame)
    requires Conforming(f)
    ensures DataOrControl(f) && (f.IsSyn() ==> f.body.Data?)
  {
  }

  lemma ControlIsPlain(f: Frame)
    requires Conforming(f) && !f.body.Data?
    ensures FrameFlow(f) == []
  {
  }

  lemma SynFirstTail(fs: seq<Frame>)
    requires SynFirst(fs) && fs != [] && Conforming(fs[0])
    ensures SynFirst(fs[1..]) && (fs[0].IsSyn() || fs[0].body.Data? ==> NoSyn(fs[1..]))
  {
    if fs[0].body.Data? {
      NoSynIsSynFirst(fs[1..]);
    }
  }

  function SendOf(r: Half, slot: bool): SendOutcome
    requires r.hand.Some? && r.hand.value.Sending?
  {
    PollSend(r.handle, r.port.code, r.port.user.Some? && !r.port.inboxClosed, r.hand.value.f, r.hand.value.charge, slot)
  }

  /**
    The three ways a dispatch poll ends for the receiving half. A frame that is
    neither delivered nor waiting carried nothing, or the stream takes no more data.
  */
  lemma SendShape(r: Half, slot: bool, window: nat)
    requires HalfOk(r, window) && r.hand.Some? && r.hand.value.Sending? && Conforming(r.hand.value.f)
    ensures var f, o, q := r.hand.value.f, SendOf(r, slot), DoSend(r, slot).half;
      && q.made == r.made && q.reading == r.reading && q.port.got == r.port.got
      && q.port.delivered == r.port.delivered && q.port.user == r.port.user
      && q.port.inboxClosed == r.port.inboxClosed && q.handle.Some? == r.handle.Some?
      && (RecvOpen(q) ==> RecvOpen(r))
      && (if o.enqueued then
            q.port.inbox == r.port.inbox + [f] && HandFrames(q) == [] && (RecvOpen(r) || FrameFlow(f) == [])
          else
            && q.port.inbox == r.port.inbox
            && if o.result.SendPending? then q.hand.Some? && q.hand.value.Sending? && HandFrames(q) == [f]
               else HandFrames(q) == [] && (RecvOpen(q) ==> FrameFlow(f) == []))
  {
    hide SenderOk, WindowOk, StreamFrames, AllFromWire, PollSend;
    var Sending(f, charge) := r.hand.value;
    var open := r.port.user.Some? && !r.port.inboxClosed;
    if r.handle.Some? {
      assert r.handle == Some(r.handle.value);
      SendFacts(r.handle.value, r.port.code, open, f, charge, slot);
      RefusedFacts(r.handle.value, r.port.code, open, f, charge, slot);
    } else {
      NoHandleStays(r.port.code, open, f, charge, slot);
    }
  }

  lemma RefusedFacts(handle: Handle, code: U32, open: bool, f: Frame, charge: nat, slot: bool)
    requires Conforming(f) && !Undeliverable(f) && (charge == 0 || charge == InitialCharge(f))
    ensures var o := PollSend(Some(handle), code, open, f, charge, slot);
      !o.enqueued && !o.result.SendPending? && !o.handle.value.dataWriteClosed && open ==> FrameFlow(f) == []
  {
  }

  /** A poll of the dispatch: the frame in hand is delivered, refused, or still waiting. */
  lemma SendKeeps(emitted: seq<Frame>, writing: bool, wire: seq<Frame>, r: Half, fwd: bool, slot: bool, window: nat)
    requires Direction(emitted, writing, wire, r, fwd)
    requires HalfOk(r, window) && r.hand.Some? && r.hand.value.Sending?
    ensures Direction(emitted, writing, wire, DoSend(r, slot).half, fwd)
  {
    hide Conforming, FrameFlow, SynFirst, Flow, HalfOk, PollSend, DoSend, RecvOpen;
    var q := DoSend(r, slot).half;
    var f := r.hand.value.f;
    assert HandFrames(r) == [f];
    assert Conforming(f) by { assert HandFrames(r)[0] == f; }
    SendShape(r, slot, window);
    FlowOne(f);
    FlowNone();
    if SendOf(r, slot).enqueued {
      DeliveredKeeps(emitted, writing, wire, r, q, fwd, f);
    } else if !SendOf(r, slot).result.SendPending? {
      QuietReceiverKeeps(emitted, writing, wire, r, q, fwd);
    }
  }

  lemma DeliveredKeeps(emitted: seq<Frame>, writing: bool, wire: seq<Frame>, r: Half, q: Half, fwd: bool, f: Frame)
    requires Direction(emitted, writing, wire, r, fwd)
    requires HandFrames(r) == [f] && HandFrames(q) == []
    requires q.made == r.made && q.reading == r.reading
    requires q.port.got == r.port.got && q.port.inbox == r.port.inbox + [f]
    requires RecvOpen(r) || FrameFlow(f) == []
    requires RecvOpen(q) ==> RecvOpen(r)
    ensures Direction(emitted, writing, wire, q, fwd)
  {
    hide Conforming, SynFirst, FrameFlow, Flow;
    FlowSnoc(r.port.inbox, f);
    FlowOne(f);
    FlowNone();
    assert Conforming(f) by { assert HandFrames(r)[0] == f; }
    assert Arrived(q) == Arrived(r) + FrameFlow(f);
    assert Arrived(q) + InFlight(q, wire) == Arrived(r) + InFlight(r, wire);
    if RecvOpen(r) {
      assert Arrived(q) <= Arrived(r) + InFlight(r, wire);
    }
  }

  // ---- what the application reads ----

  lemma FinLastPrefix(a: seq<Sym>, b: seq<Sym>)
    requires a <= b && FinLast(b)
    ensures FinLast(a)
    ensures FIN in a ==> a == b
  {
    assert forall i :: 0 <= i < |a| ==> a[i] == b[i];
  }

  /** `got` is the bytes `base`, and the end mark if it was met. */
  predicate Spells(got: seq<Sym>, base: seq<byte>) {
    got == base + if FIN in got then [FIN] else []
  }

  lemma SpellsOneMore(got: seq<Sym>, base: seq<byte>, f: Frame)
    requires Spells(got, base) && FinLast(got + FrameFlow(f)) && Conforming(f) && StreamFrame(f)
    ensures Spells(got + FrameFlow(f), base + Payload(f))
  {
    var next := got + FrameFlow(f);
    assert FIN !in base && FIN !in Payload(f);
    if FIN in got {
      var i := |base|;
      assert got[i] == FIN && next[i] == FIN;
      assert FrameFlow(f) == [] && Payload(f) == [];
      assert next == got && base + Payload(f) == base;
    } else {
      assert got == base;
      if f.IsFin() {
        assert next[|next| - 1] == FIN;
      }
    }
  }

  /** Absorbed frames extend the bytes read and buffered, until the end mark. */
  lemma {:induction false} AbsorbedBytes(base: seq<byte>, got: seq<Sym>, fs: seq<Frame>)
    requires Spells(got, base)
    requires FinLast(got + Flow(fs)) && AllConforming(fs) && StreamFrames(fs)
    ensures Spells(got + Flow(fs), base + Payloads(fs))
    decreases |fs|
  {
    hide Spells, FrameFlow, Conforming, FinLast;
    if fs == [] {
      assert got + [] == got && base + [] == base;
    } else {
      var f := fs[0];
      var next := got + FrameFlow(f);
      assert next + Flow(fs[1..]) == got + Flow(fs);
      FinLastPrefix(next, got + Flow(fs));
      SpellsOneMore(got, base, f);
      AbsorbedBytes(base + Payload(f), next, fs[1..]);
      assert base + Payload(f) + Payloads(fs[1..]) == base + Payloads(fs);
    }
  }

  /** Taking frames out of the inbox and handing over the first `n` bytes. */
  lemma AbsorbKeepsReader(r: Half, q: Half, taken: seq<Frame>, mid: StreamState, n: nat)
    requires ReaderOk(r) && r.port.user.Some? && FinLast(Arrived(r))
    requires AllConforming(r.port.inbox) && StreamFrames(r.port.inbox)
    requires Took(r.port.inbox, q.port.inbox, taken) && Absorbed(r.port.user.value, taken, mid)
    requires n <= |mid.readBuf|
    requires q.port.got == r.port.got + Flow(taken)
    requires q.port.delivered == r.port.delivered + mid.readBuf[..n]
    requires q.port.user.Some? && q.port.user.value.readBuf == mid.readBuf[n..]
    requires q.port.user.value.dataReadClosed ==>
      r.port.user.value.dataReadClosed || InboxEnded(r) || FIN in Flow(taken)
    requires InboxEnded(r) ==> InboxEnded(q)
    ensures ReaderOk(q) && Arrived(q) == Arrived(r)
  {
    hide Conforming, Flow, Payloads;
    var p := r.port;
    var st := p.user.value;
    FlowAppend(taken, q.port.inbox);
    assert Arrived(q) == Arrived(r);
    FinLastPrefix(p.got + Flow(taken), Arrived(r));
    assert AllConforming(taken) && StreamFrames(taken) by {
      assert forall i :: 0 <= i < |taken| ==> taken[i] == p.inbox[i];
    }
    AbsorbedBytes(p.delivered + st.readBuf, p.got, taken);
    assert p.delivered + st.readBuf + Payloads(taken) == p.delivered + mid.readBuf;
    assert mid.readBuf == mid.readBuf[..n] + mid.readBuf[n..];
    assert p.delivered + mid.readBuf == q.port.delivered + q.port.user.value.readBuf;
  }
}
