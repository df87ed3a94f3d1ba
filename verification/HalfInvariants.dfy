/**
  What holds at one endpoint for one stream id whatever the remote sends, as
  long as its SYN ids are fresh.
*/
module HalfInvariants {
  import opened Constrained
  import opened Frames
  import opened Streams
  import opened StreamManagers
  import opened Flows
  import opened Halves

  predicate OwnFrames(fs: seq<Frame>) {
    AllConforming(fs) && StreamFrames(fs)
  }

  predicate NoFin(fs: seq<Frame>) {
    forall i :: 0 <= i < |fs| ==> !fs[i].IsFin()
  }

  /** No DATA frame comes after a FIN. */
  predicate FinStops(fs: seq<Frame>) {
    forall i, j :: 0 <= i < j < |fs| && fs[i].IsFin() ==> !fs[j].body.Data?
  }

  /** What the decoder guarantees about any frame. */
  predicate FromWire(f: Frame) {
    f.body.Invalid? || f.header.typ == TypeOfBody(f.body)
  }

  predicate AllFromWire(fs: seq<Frame>) {
    forall i :: 0 <= i < |fs| ==> FromWire(fs[i])
  }

  predicate CanWrite(h: Half) {
    h.port.user.Some? && h.port.user.value.writeClosed.None?
  }

  /** All frames the stream ever queued that are not lost: emitted ones, then waiting ones. */
  function Queued(h: Half): seq<Frame> {
    h.port.emitted + h.port.outbox
  }

  // ---- the invariant ----

  /**
    Map, task and channel agreement. While the session lives, an entry in the
    manager's map and a pending task imply each other; a closed sink in the map
    needs no FIN.
  */
  predicate Linked(h: Half) {
    && (!h.made ==> h.port == NO_PORT && h.handle.None? && h.tasks == 0)
    && h.tasks <= 1
    && (h.handle.Some? ==> h.tasks == 1)
    && (h.tasks == 1 && !h.goneAway ==> h.handle.Some?)
    && (h.handle.Some? && h.port.code != 0 ==> !h.handle.value.needsFin)
    && (h.port.inboxClosed ==> !h.reading)
    && (h.port.user.None? ==> h.port.inbox == [])
    && StreamFrames(h.port.inbox) && AllFromWire(h.port.inbox)
  }

  predicate HandOk(h: Half) {
    h.hand.Some? ==>
      && h.reading
      && match h.hand.value
         case Accepting(f) => h.made && h.port.user.Some? && FromWire(f)
         case Sending(f, charge) =>
           && !Undeliverable(f) && FromWire(f)
           && (charge == InitialCharge(f) || (charge == 0 && h.made))
         case Marking => true
  }

  /** Bytes of the frame in hand that are already taken off the window. */
  function Held(h: Half): nat
    requires HandOk(h)
  {
    if h.hand.Some? && h.hand.value.Sending? then InitialCharge(h.hand.value.f) - h.hand.value.charge else 0
  }

  /** Window capacity that is free, held by bytes somewhere on the way, or about to be returned. */
  function WindowUse(h: Half): nat
    requires HandOk(h) && h.handle.Some?
  {
    h.handle.value.window + Held(h) + DataBytes(h.port.inbox)
    + (if h.port.user.Some? then |h.port.user.value.readBuf| else 0) + Credit(h.port.outbox)
  }

  /** The receive bound: never above the configured window, and exact while nothing was thrown away. */
  predicate WindowOk(h: Half, window: nat)
    requires HandOk(h)
  {
    && (h.port.user.Some? ==> h.port.user.value.maxWindow == window && h.port.user.value.window <= window)
    && (h.handle.Some? ==> WindowUse(h) <= window)
    && (h.handle.Some? && h.port.user.Some? && h.port.code == 0 && h.reading ==> WindowUse(h) == window)
  }

  /** The outgoing life of a stream: SYN first, FIN last, nothing reordered. */
  predicate SenderOk(h: Half) {
    var p := h.port;
    && OwnFrames(p.emitted) && OwnFrames(p.outbox)
    && FinLast(p.sent)
    && Flow(p.emitted) <= p.sent
    && (h.tasks > 0 ==> Flow(Queued(h)) == p.sent)
    && SynFirst(Queued(h)) && FinStops(Queued(h))
    && (CanWrite(h) ==> NoFin(Queued(h)) && FIN !in p.sent)
    && (CanWrite(h) && p.user.value.needsSyn ==> NoData(Queued(h)) && p.sent == [])
    && (h.handle.Some? && h.handle.value.needsFin ==> NoFin(p.emitted))
  }

  predicate HalfOk(h: Half, window: nat) {
    Linked(h) && HandOk(h) && WindowOk(h, window) && SenderOk(h)
  }

  // ---- small facts ----

  lemma OwnFramesConform(bs: seq<byte>, syn: bool, n: WndIncrement)
    requires |bs| <= LENGTH_MAX
    ensures Conforming(DataFrame(bs, syn)) && StreamFrame(DataFrame(bs, syn))
    ensures !DataFrame(bs, syn).IsFin() && DataFrame(bs, syn).IsSyn() == syn && Payload(DataFrame(bs, syn)) == bs
    ensures FrameFlow(DataFrame(bs, syn)) == bs && FrameCredit(DataFrame(bs, syn)) == 0
    ensures Conforming(WndIncFrame(n)) && StreamFrame(WndIncFrame(n))
    ensures !WndIncFrame(n).IsFin() && !WndIncFrame(n).IsSyn() && FrameFlow(WndIncFrame(n)) == []
    ensures FrameCredit(WndIncFrame(n)) == n && !WndIncFrame(n).body.Data?
    ensures Conforming(FinFrame()) && StreamFrame(FinFrame()) && FinFrame().IsFin() && !FinFrame().IsSyn()
    ensures FrameFlow(FinFrame()) == [FIN] && FrameCredit(FinFrame()) == 0
  {
  }

  /** Adding one frame to the queue keeps the outgoing order, if the frame is in place there. */
  lemma QueueSnoc(q: seq<Frame>, f: Frame)
    requires SynFirst(q) && FinStops(q)
    requires !f.IsSyn() || (f.body.Data? && NoData(q))
    requires f.body.Data? ==> NoFin(q)
    ensures SynFirst(q + [f]) && FinStops(q + [f])
    ensures NoFin(q) && !f.IsFin() ==> NoFin(q + [f])
    ensures NoData(q) && !f.body.Data? ==> NoData(q + [f])
    ensures Flow(q + [f]) == Flow(q) + FrameFlow(f)
  {
    SynFirstSnoc(q, f);
    FlowSnoc(q, f);
  }

  lemma QueuePrefix(a: seq<Frame>, b: seq<Frame>)
    requires SynFirst(a + b) && FinStops(a + b)
    ensures SynFirst(a) && FinStops(a)
    ensures NoFin(a + b) ==> NoFin(a)
    ensures NoData(a + b) ==> NoData(a)
    ensures Flow(a) <= Flow(a + b)
  {
    SynFirstPrefix(a, b);
    FlowAppend(a, b);
    assert forall i :: 0 <= i < |a| ==> a[i] == (a + b)[i];
  }

  lemma {:induction false} MarkInFlow(fs: seq<Frame>)
    requires StreamFrames(fs) && NoFin(fs)
    ensures FIN !in Flow(fs)
    decreases |fs|
  {
    FlowHasNoMarkWithoutFin(fs);
  }

  /** The sender's invariant only depends on the outgoing side. */
  lemma SenderKeepsWhenQuiet(h: Half, g: Half)
    requires SenderOk(h)
    requires g.port.emitted == h.port.emitted && g.port.outbox == h.port.outbox && g.port.sent == h.port.sent
    requires g.tasks > 0 ==> h.tasks > 0
    requires CanWrite(g) ==> CanWrite(h) && (g.port.user.value.needsSyn ==> h.port.user.value.needsSyn)
    requires g.handle.Some? && g.handle.value.needsFin ==> h.handle.Some? && h.handle.value.needsFin
    ensures SenderOk(g)
  {
  }
}
