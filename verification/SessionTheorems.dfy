/** What every run of two joined endpoints guarantees, for any number of streams. */
module SessionTheorems {
  import opened Wrappers
  import opened Constrained
  import opened MuxErrors
  import opened Frames
  import opened StreamManagers
  import opened Flows
  import opened Halves
  import opened HalfInvariants
  import opened Endpoints
  import opened EndpointInvariants
  import opened Lanes
  import opened Credits
  import opened Balances
  import opened LaneSteps
  import opened Sessions
  import Windows

  /** `s` is reached from `from` by the turns `ts`, each possible when it is taken. */
  ghost predicate SessionRun(from: Session, ts: seq<Turn>, s: Session)
    decreases |ts|
  {
    if ts == [] then from == s
    else CanTurn(from, ts[0]) && SessionRun(DoTurn(from, ts[0]), ts[1..], s)
  }

  /** Reached by some interleaving from two new endpoints, whatever windows and limits they have. */
  ghost predicate Runs(c: Config, ts: seq<Turn>, s: Session) {
    SessionRun(NewSession(c), ts, s)
  }

  lemma {:induction false} SessionRunKeeps(from: Session, ts: seq<Turn>, s: Session)
    requires SessionRun(from, ts, s) && SessionOk(from)
    ensures SessionOk(s)
    decreases |ts|
  {
    hide SessionOk, DoTurn;
    if ts == [] {
    } else {
      TurnKeeps(from, ts[0]);
      SessionRunKeeps(DoTurn(from, ts[0]), ts[1..], s);
    }
  }

  lemma NewSessionIsOk(c: Config)
    ensures SessionOk(NewSession(c))
  {
    var s := NewSession(c);
    NewEndpointIsOk(true, c.windowA, c.limitA);
    NewEndpointIsOk(false, c.windowB, c.limitB);
    hide EndpointOk;
    forall id: StreamID | id != 0 ensures LaneAt(s, id) {
      FlowNone();
    }
  }

  lemma RunsAreOk(c: Config, ts: seq<Turn>, s: Session)
    requires Runs(c, ts, s)
    ensures SessionOk(s)
  {
    NewSessionIsOk(c);
    SessionRunKeeps(NewSession(c), ts, s);
  }

  /** The session seen from one end: `a` is the near side, `ba` its incoming wire. */
  function From(s: Session, left: bool): Session {
    if left then s else Swap(s)
  }

  lemma FromIsOk(c: Config, ts: seq<Turn>, s: Session, left: bool)
    requires Runs(c, ts, s)
    ensures SessionOk(From(s, left)) && From(s, left).a.window == c.Window(left)
    ensures From(s, left).b.window == c.Window(!left)
  {
    RunsAreOk(c, ts, s);
    SwapKeeps(s);
    WindowsOfRun(c, ts, s);
  }

  // ---- seen from the other end ----

  function Mirror(t: Turn): Turn {
    if t.TurnA? then TurnB(t.i) else TurnA(t.i)
  }

  lemma MirrorTurns(s: Session, t: Turn)
    requires CanTurn(s, t)
    ensures CanTurn(Swap(s), Mirror(t)) && DoTurn(Swap(s), Mirror(t)) == Swap(DoTurn(s, t))
  {
    hide Act, CanTake;
  }

  function MirrorAll(ts: seq<Turn>): seq<Turn> {
    if ts == [] then [] else [Mirror(ts[0])] + MirrorAll(ts[1..])
  }

  lemma {:induction false} MirrorRuns(from: Session, ts: seq<Turn>, s: Session)
    requires SessionRun(from, ts, s)
    ensures SessionRun(Swap(from), MirrorAll(ts), Swap(s))
    decreases |ts|
  {
    hide DoTurn, CanTurn, Swap;
    if ts == [] {
    } else {
      MirrorTurns(from, ts[0]);
      MirrorRuns(DoTurn(from, ts[0]), ts[1..], s);
      assert MirrorAll(ts)[1..] == MirrorAll(ts[1..]);
    }
  }

  // ---- delivery ----

  /** What the application at `e` wrote on stream `id`, with an end mark once it finished. */
  function Sent(e: Endpoint, id: StreamID): seq<Sym> {
    HalfOf(e, id).port.sent
  }

  /** The bytes the application at `e` was given on stream `id`. */
  function Delivered(e: Endpoint, id: StreamID): seq<byte> {
    HalfOf(e, id).port.delivered
  }

  /** The end of the stream came from a received FIN. */
  predicate FinReceived(e: Endpoint, id: StreamID) {
    FIN in HalfOf(e, id).port.got
  }

  lemma DeliveredInOrder(s: Session, id: StreamID)
    requires SessionOk(s) && id != 0
    ensures Delivered(s.a, id) <= Sent(s.b, id)
    ensures FinReceived(s.a, id) ==> HalfOf(s.a, id).port.got == Sent(s.b, id)
    ensures FinLast(Sent(s.b, id))
  {
    hide SessionOk, Joined, Arrived, FinLast;
    JoinedAt(s, id);
    var x, y := HalfOf(s.a, id), HalfOf(s.b, id);
    ArrivedEndsOnce(x, Only(s.ab, id), y, Only(s.ba, id), Own(s.a, id), s.a.window, s.b.window);
    ReadHasArrived(x, Only(s.ab, id), y, Only(s.ba, id), Own(s.a, id), s.a.window, s.b.window);
    FinLastPrefix(x.port.got, y.port.sent);
  }

  lemma ReadHasArrived(x: Half, xy: seq<Frame>, y: Half, yx: seq<Frame>, opens: bool, near: nat, far: nat)
    requires Joined(x, xy, y, yx, opens, near, far)
    ensures x.port.delivered <= x.port.got <= Arrived(x)
  {
    hide HalfOk, Direction, CreditOk, Balanced, Acceptor;
  }

  /**
    End-to-end delivery. In every run, on every stream and in both directions,
    the bytes given to the reading application are a prefix of the bytes the
    writing application's `poll_write` accepted, in order and without gaps,
    whatever is reset, dropped, closed or refused on the way. The two ends may
    have different windows, so a reader's flow control may refuse a frame.
  */
  lemma EndToEndDelivery(c: Config, ts: seq<Turn>, s: Session, id: StreamID)
    requires Runs(c, ts, s) && id != 0
    ensures Delivered(s.a, id) <= Sent(s.b, id)
    ensures Delivered(s.b, id) <= Sent(s.a, id)
  {
    hide SessionOk, Runs, Delivered, Sent;
    RunsAreOk(c, ts, s);
    SwapKeeps(s);
    DeliveredInOrder(s, id);
    DeliveredInOrder(Swap(s), id);
  }

  /**
    Complete end of stream. When a FIN has reached the stream, the bytes read
    and still buffered are everything the peer's application ever wrote, and it
    can write no more; once the buffer is empty the application has it all.
  */
  lemma CompleteEof(c: Config, ts: seq<Turn>, s: Session, left: bool, id: StreamID)
    requires Runs(c, ts, s) && id != 0
    requires FinReceived(From(s, left).a, id) && HalfOf(From(s, left).a, id).port.user.Some?
    ensures var v := From(s, left);
      && Sent(v.b, id) == Delivered(v.a, id) + HalfOf(v.a, id).port.user.value.readBuf + [FIN]
      && !CanWrite(HalfOf(v.b, id))
  {
    hide SessionOk, Runs;
    FromIsOk(c, ts, s, left);
    var v := From(s, left);
    hide From;
    DeliveredInOrder(v, id);
    JoinedAt(v, id);
    hide Direction, CreditOk, Linked, WindowOk, Flow;
  }

  /**
    An application that sees the end of a stream (nothing buffered and the read
    side closed) while the session still feeds it has read everything.
  */
  lemma EofWithoutClosureIsComplete(c: Config, ts: seq<Turn>, s: Session, left: bool, id: StreamID)
    requires Runs(c, ts, s) && id != 0
    requires var h := HalfOf(From(s, left).a, id);
      && h.port.user.Some? && h.port.user.value.dataReadClosed
      && h.port.user.value.readBuf == [] && !InboxEnded(h)
    ensures Sent(From(s, left).b, id) == Delivered(From(s, left).a, id) + [FIN]
  {
    var v := From(s, left);
    assert FinReceived(v.a, id) by {
      hide SessionOk, Runs;
      FromIsOk(c, ts, s, left);
      hide From;
      JoinedAt(v, id);
      hide Direction, CreditOk, HalfOk, Flow;
    }
    hide Runs;
    CompleteEof(c, ts, s, left, id);
    assert Delivered(v.a, id) + [] == Delivered(v.a, id);
  }

  // ---- flow control ----

  /**
    A sender whose window is not larger than the receiver's never violates flow
    control: however the run went, a poll of the receiver's dispatcher never
    refuses a frame for want of window.
  */
  lemma FlowControlNeverTriggers(c: Config, ts: seq<Turn>, s: Session, left: bool, slot: bool)
    requires Runs(c, ts, s) && CanTake(From(s, left), SendPoll(slot)) && c.Window(!left) <= c.Window(left)
    ensures var v := From(s, left);
      DoSend(HalfOf(v.a, v.a.reader.id), slot).next != Reset(FlowControl)
  {
    hide SessionOk, Runs, DoSend, From, HalfOf;
    FromIsOk(c, ts, s, left);
    FlowControlHolds(From(s, left), slot);
  }

  lemma FlowControlHolds(v: Session, slot: bool)
    requires SessionOk(v) && CanTake(v, SendPoll(slot)) && v.b.window <= v.a.window
    ensures DoSend(HalfOf(v.a, v.a.reader.id), slot).next != Reset(FlowControl)
  {
    var id := v.a.reader.id;
    assert id != 0 by { ReaderIdNotZero(v); }
    var x := HalfOf(v.a, id);
    assert x.hand.Some? && x.hand.value.Sending?;
    hide SessionOk, HalfOf, DoSend, Joined, Only;
    JoinedAt(v, id);
    LaneKeepsFlowControl(x, Only(v.ab, id), HalfOf(v.b, id), Only(v.ba, id), Own(v.a, id), v.a.window, v.b.window, slot);
  }

  lemma LaneKeepsFlowControl(x: Half, xy: seq<Frame>, y: Half, yx: seq<Frame>, opens: bool, near: nat, far: nat, slot: bool)
    requires Joined(x, xy, y, yx, opens, near, far) && x.hand.Some? && x.hand.value.Sending? && far <= near
    ensures DoSend(x, slot).next != Reset(FlowControl)
  {
    hide Direction, HalfOk, ReaderOk, CreditOk, Balanced, DoSend, PollSend;
    NeverFlowControl(y, yx, x, xy, far, near, slot);
    RefusalIsReported(x, slot);
  }

  lemma RefusalIsReported(h: Half, slot: bool)
    requires h.hand.Some? && h.hand.value.Sending?
    ensures DoSend(h, slot).next == Reset(FlowControl) ==> SendOf(h, slot).result == SendErr(FlowControl)
  {
    hide PollSend;
  }

  lemma ReaderIdNotZero(s: Session)
    requires SessionOk(s) && s.a.reader.Holding?
    ensures s.a.reader.id != 0
  {
  }

  /**
    Credit conservation. What the sender may still send and what is on its way to
    the receiver's window (its own credit, the credit on its way to it, the data
    on its way to the receiver) exceeds the receiver's free window by no more than
    the sender's configured window exceeds the receiver's. While both ends are
    live it does so by exactly that much, so no credit is lost. Credit that
    arrives is never cut off by the cap.
  */
  lemma CreditIsConserved(c: Config, ts: seq<Turn>, s: Session, left: bool, id: StreamID)
    requires Runs(c, ts, s) && id != 0
    ensures var v, sender, receiver := From(s, left), c.Window(!left), c.Window(left);
      var x, y := HalfOf(v.a, id), HalfOf(v.b, id);
      var total := Outstanding(y, Only(v.ba, id), x, Only(v.ab, id), sender);
      && (id in v.a.mgr.streams ==> total + receiver <= v.a.mgr.streams[id].window + sender)
      && (id in v.a.ports && SendLive(y) && RecvLive(x) ==>
            id in v.a.mgr.streams && total + receiver == v.a.mgr.streams[id].window + sender)
      && (y.port.user.Some? && y.made ==>
            forall k :: 0 <= k <= Credit(y.port.inbox) ==>
              Windows.Raise(y.port.user.value.window, sender, k) == y.port.user.value.window + k)
  {
    hide SessionOk, Runs, Outstanding, Credit, Only, Direction, HalfOk, ReaderOk, CreditOk, Balanced, SendLive, RecvLive, Windows.Raise;
    FromIsOk(c, ts, s, left);
    var v := From(s, left);
    hide From;
    JoinedAt(v, id);
    var x, y := HalfOf(v.a, id), HalfOf(v.b, id);
    assert id in v.a.mgr.streams ==> x.handle == Some(v.a.mgr.streams[id]);
    assert x.handle.Some? ==> id in v.a.mgr.streams;
    assert x.made == (id in v.a.ports);
    hide HalfOf;
    CreditsAgree(x, Only(v.ab, id), y, Only(v.ba, id), v.a.window, v.b.window);
  }

  lemma CreditsAgree(x: Half, xy: seq<Frame>, y: Half, yx: seq<Frame>, near: nat, far: nat)
    requires CreditOk(y, yx, x, xy, far, near) && Balanced(y, yx, x, xy, far, near)
    ensures x.handle.Some? ==> Outstanding(y, yx, x, xy, far) + near <= x.handle.value.window + far
    ensures x.made && SendLive(y) && RecvLive(x) ==>
      x.handle.Some? && Outstanding(y, yx, x, xy, far) + near == x.handle.value.window + far
    ensures y.port.user.Some? && y.made ==>
      forall k :: 0 <= k <= Credit(y.port.inbox) ==>
        Windows.Raise(y.port.user.value.window, far, k) == y.port.user.value.window + k
  {
    hide Uncharged, Credit, DataBytes, SendLive;
  }

  /** Bytes that reached the receiver's window and that the sender has not been given credit for yet. */
  function Retained(x: Half): nat
    requires HandOk(x)
  {
    Held(x) + DataBytes(x.port.inbox)
    + (if x.port.user.Some? then |x.port.user.value.readBuf| else 0) + Credit(x.port.outbox)
  }

  /**
    The sender's window is conserved. While both ends are live and the receiver's
    sink is open, every byte of the window the sender was configured with is in
    exactly one place: credit of the sender, credit on its way back, data on its
    way, data the receiver's application has not read, or credit it has not sent
    yet.
  */
  lemma SenderWindowIsConserved(c: Config, ts: seq<Turn>, s: Session, left: bool, id: StreamID)
    requires Runs(c, ts, s) && id != 0
    ensures var v, sender := From(s, left), c.Window(!left);
      var x, y := HalfOf(v.a, id), HalfOf(v.b, id);
      && HandOk(x)
      && (id in v.a.ports && SendLive(y) && RecvLive(x) && x.port.code == 0 ==>
            Outstanding(y, Only(v.ba, id), x, Only(v.ab, id), sender) + Retained(x) == sender)
  {
    hide SessionOk, Runs, Outstanding, Only, Direction, ReaderOk, CreditOk, Balanced, SendLive, Linked, SenderOk, DataBytes, Credit, Held;
    CreditIsConserved(c, ts, s, left, id);
    FromIsOk(c, ts, s, left);
    var v := From(s, left);
    hide From;
    JoinedAt(v, id);
    hide LaneOk;
    assert HalfOk(HalfOf(v.a, id), v.a.window);
  }

  /** No frame of the stream is queued, held or on a wire, and nothing is unread. */
  predicate Quiet(x: Half, xy: seq<Frame>, y: Half, yx: seq<Frame>) {
    && xy == [] && yx == [] && HandFrames(x) == [] && HandFrames(y) == []
    && x.port.inbox == [] && y.port.inbox == [] && x.port.outbox == [] && y.port.outbox == []
    && (x.port.user.Some? ==> x.port.user.value.readBuf == [])
  }

  /**
    A sender is not starved: whenever the stream is quiet, the sender has its whole
    window again, however the run went and whatever the receiver's window is.
  */
  lemma CreditComesBack(c: Config, ts: seq<Turn>, s: Session, left: bool, id: StreamID)
    requires Runs(c, ts, s) && id != 0
    requires var v := From(s, left);
      var x, y := HalfOf(v.a, id), HalfOf(v.b, id);
      && x.made && y.made && SendLive(y) && RecvLive(x) && x.port.code == 0
      && Quiet(x, Only(v.ab, id), y, Only(v.ba, id))
    ensures HalfOf(From(s, left).b, id).port.user.value.window == c.Window(!left)
  {
    hide Runs, Only;
    SenderWindowIsConserved(c, ts, s, left, id);
    FlowNone();
    var v := From(s, left);
    assert HalfOf(v.a, id).made ==> id in v.a.ports;
    hide From, HalfOf;
  }

  lemma WindowsOfRun(c: Config, ts: seq<Turn>, s: Session)
    requires Runs(c, ts, s)
    ensures s.a.window == c.windowA && s.b.window == c.windowB
  {
    NewSessionIsOk(c);
    WindowsStay(NewSession(c), ts, s);
  }

  lemma {:induction false} WindowsStay(from: Session, ts: seq<Turn>, s: Session)
    requires SessionRun(from, ts, s) && SessionOk(from)
    ensures s.a.window == from.a.window && s.b.window == from.b.window
    decreases |ts|
  {
    hide SessionOk, DoTurn;
    if ts == [] {
    } else {
      TurnKeeps(from, ts[0]);
      TurnWindows(from, ts[0]);
      WindowsStay(DoTurn(from, ts[0]), ts[1..], s);
    }
  }

  lemma TurnWindows(s: Session, t: Turn)
    requires SessionOk(s) && CanTurn(s, t)
    ensures DoTurn(s, t).a.window == s.a.window && DoTurn(s, t).b.window == s.b.window
  {
    hide SessionOk, Step, HalfOf;
    if !t.i.TakeFrame? {
      FixedFields(if t.TurnA? then s.a else s.b, t.i);
    }
  }

  // ---- what the endpoints rely on ----

  /**
    What an endpoint asks of its remote holds by itself between two correct
    endpoints: a frame on the wire is one the decoder produced, and a SYN has an
    id that is new and of the remote's parity.
  */
  lemma SynIdsAreAlwaysFresh(c: Config, ts: seq<Turn>, s: Session, left: bool)
    requires Runs(c, ts, s) && From(s, left).a.reader.Idle? && From(s, left).ba != []
    ensures var v := From(s, left); FreshSyn(v.a, v.ba[0]) && FromWire(v.ba[0])
  {
    hide SessionOk, Runs;
    FromIsOk(c, ts, s, left);
    NextFrameIsTakeable(From(s, left));
  }
}
