/**
  Runs that carry data. The theorems about runs say what can not go wrong; these
  runs say that bytes do flow, and that a sender with the larger window can drive
  the receiver into a flow control reset.
*/
module SampleRun {
  import opened Wrappers
  import opened Constrained
  import opened MuxErrors
  import opened Frames
  import opened Codec
  import opened Streams
  import opened StreamManagers
  import opened Halves
  import opened Endpoints
  import opened Sessions
  import opened SessionTheorems

  /** One end, the client or the other one, opens a stream and sends `bs` on it, a byte in each frame. */
  datatype Transfer = Transfer(client: bool, sender: nat, receiver: nat, limitS: nat, limitR: nat, bs: seq<byte>)
  {
    /** Both ends may have a stream. */
    predicate Possible() { limitS > 0 && limitR > 0 }

    function Id(): StreamID { if client then 3 else 2 }

    /** Frame number `i`: the first one opens the stream. */
    function Plain(i: nat): Frame
      requires i < |bs|
    {
      DataFrame([bs[i]], i == 0)
    }

    function Stamped(i: nat): Frame
      requires i < |bs|
    {
      Plain(i).WithStreamId(Id())
    }

    function PlainFrames(k: nat): seq<Frame>
      requires k <= |bs|
    {
      seq(k, i requires 0 <= i < k => Plain(i))
    }

    function StampedFrames(k: nat): seq<Frame>
      requires k <= |bs|
    {
      seq(k, i requires 0 <= i < k => Stamped(i))
    }

    /** The sender's stream after `k` frames were written and sent. */
    function SentPort(k: nat): Port
      requires k <= |bs| && k <= sender
    {
      NO_PORT.(user := Some(NewStream(sender, true).(window := sender - k, needsSyn := k == 0)),
               sent := bs[..k], emitted := PlainFrames(k))
    }

    /** One more byte was written. */
    function WrotePort(k: nat): Port
      requires k < |bs| && k < sender
    {
      SentPort(k + 1).(outbox := [Plain(k)], emitted := PlainFrames(k))
    }

    function SenderEnd(port: Port): Endpoint {
      NewEndpoint(client, sender, limitS).(
        mgr := Manager(limitS, map[Id() := NewHandle(sender)], multiset{Id()}, [], Id(), if client then 0 else 1, false),
        ports := map[Id() := port])
    }

    /** The receiver with `k` frames in the stream's inbox. */
    function ReceiverEnd(k: nat, reader: Reader): Endpoint
      requires k <= |bs| && k <= receiver
    {
      NewEndpoint(!client, receiver, limitR).(
        mgr := Manager(limitR, map[Id() := NewHandle(receiver - k)], multiset{Id()}, [], if client then 0 else 1, Id(), false),
        ports := map[Id() := NewPort(receiver, false).(inbox := StampedFrames(k))],
        reader := reader, lastProcessed := if k == 0 then 0 else Id())
    }

    function Start(): Session {
      Session(NewEndpoint(client, sender, limitS), NewEndpoint(!client, receiver, limitR), [], [])
    }

    /** `k` frames are in the inbox and the next one is in the receiver's hand. */
    function Held(k: nat): Session
      requires k < |bs| && k < sender && k <= receiver
    {
      Session(SenderEnd(SentPort(k + 1)), ReceiverEnd(k, Holding(Id(), Sending(Stamped(k), 1))), [], [])
    }
  }

  // ---- one step each ----

  lemma Opens(u: Transfer)
    requires u.Possible()
    ensures var e := NewEndpoint(u.client, u.sender, u.limitS);
      Enabled(e, OpenStream) && Step(e, OpenStream) == Stepped(u.SenderEnd(NewPort(u.sender, true)), [])
  {
  }

  lemma NewIsSentNothing(u: Transfer)
    ensures NewPort(u.sender, true) == u.SentPort(0)
  {
  }

  lemma Writes(u: Transfer, k: nat)
    requires k < |u.bs| && k < u.sender
    ensures var e, i := u.SenderEnd(u.SentPort(k)), App(u.Id(), Write([u.bs[k]], true));
      Enabled(e, i) && Step(e, i) == Stepped(u.SenderEnd(u.WrotePort(k)), [])
  {
    var e := u.SenderEnd(u.SentPort(k));
    var h := HalfOf(e, u.Id());
    assert [u.bs[k]][..1] == [u.bs[k]] && u.bs[..k] + [u.bs[k]] == u.bs[..k + 1];
    assert DoWrite(h, [u.bs[k]], true) == h.(port := u.WrotePort(k));
  }

  lemma Polls(u: Transfer, k: nat)
    requires k < |u.bs| && k < u.sender
    ensures var e, i := u.SenderEnd(u.WrotePort(k)), PollStream(u.Id(), true);
      Enabled(e, i) && Step(e, i) == Stepped(u.SenderEnd(u.SentPort(k + 1)), [u.Stamped(k)])
  {
    var e := u.SenderEnd(u.WrotePort(k));
    var h := HalfOf(e, u.Id());
    assert Encode(u.Stamped(k)).Some?;
    hide Encode;
    assert u.PlainFrames(k) + [u.Plain(k)] == u.PlainFrames(k + 1);
    assert DoPoll(h, u.Id(), true) == Emission(h.(port := u.SentPort(k + 1)), [u.Stamped(k)]);
  }

  lemma TakesFirst(u: Transfer)
    requires u.Possible() && u.bs != []
    ensures Endpoints.TakeStep(NewEndpoint(!u.client, u.receiver, u.limitR), u.Stamped(0))
         == u.ReceiverEnd(0, Holding(u.Id(), Accepting(u.Stamped(0))))
  {
    assert u.StampedFrames(0) == [];
  }

  lemma Accepts(u: Transfer)
    requires u.bs != []
    ensures var e := u.ReceiverEnd(0, Holding(u.Id(), Accepting(u.Stamped(0))));
      && Enabled(e, AcceptQueue(true))
      && Step(e, AcceptQueue(true)) == Stepped(u.ReceiverEnd(0, Holding(u.Id(), Sending(u.Stamped(0), 1))), [])
  {
  }

  lemma Takes(u: Transfer, k: nat)
    requires 0 < k < |u.bs| && k <= u.receiver
    ensures Endpoints.TakeStep(u.ReceiverEnd(k, Idle), u.Stamped(k)) == u.ReceiverEnd(k, Holding(u.Id(), Sending(u.Stamped(k), 1)))
  {
  }

  lemma Delivers(u: Transfer, k: nat)
    requires k < |u.bs| && k < u.receiver
    ensures var e := u.ReceiverEnd(k, Holding(u.Id(), Sending(u.Stamped(k), 1)));
      Enabled(e, SendPoll(true)) && Step(e, SendPoll(true)) == Stepped(u.ReceiverEnd(k + 1, Idle), [])
  {
    var e := u.ReceiverEnd(k, Holding(u.Id(), Sending(u.Stamped(k), 1)));
    var h := HalfOf(e, u.Id());
    assert u.StampedFrames(k) + [u.Stamped(k)] == u.StampedFrames(k + 1);
    var g := h.(handle := Some(NewHandle(u.receiver - k - 1)), port := h.port.(inbox := u.StampedFrames(k + 1)), hand := None);
    assert DoSend(h, true) == Reaction(g, Go);
  }

  /** The window is used up: the frame in hand is refused, with the application still there. */
  lemma Refuses(u: Transfer, slot: bool)
    requires u.receiver < |u.bs| && u.receiver < u.sender
    ensures var e := u.Held(u.receiver).b;
      Enabled(e, SendPoll(slot)) && DoSend(HalfOf(e, u.Id()), slot).next == Reset(FlowControl)
  {
  }

  lemma Reads(u: Transfer)
    requires |u.bs| == 1 && u.receiver > 0
    ensures var e := u.ReceiverEnd(1, Idle);
      && Enabled(e, App(u.Id(), Read(1, true)))
      && HalfOf(Step(e, App(u.Id(), Read(1, true))).end, u.Id()).port.delivered == u.bs
  {
    var e, b := u.ReceiverEnd(1, Idle), u.bs[0];
    var h := HalfOf(e, u.Id());
    var st := NewStream(u.receiver, false);
    assert h.port.inbox == [u.Stamped(0)];
    assert RecvType(st, [u.Stamped(0)], false, DataType) == Received(st.(readBuf := [b]), [], true);
    hide RecvType;
    assert PollRead(st.(readBuf := [b]), [], false, SinkOf(h), 1, true).result == ReadOk([b]);
    assert PollRead(st, [u.Stamped(0)], false, SinkOf(h), 1, true).result == ReadOk([b]);
    hide PollRead;
    assert DoRead(h, 1, true).port.delivered == [b];
  }

  // ---- putting the steps together ----

  lemma {:induction false} Extend(from: Session, ts: seq<Turn>, s: Session, t: Turn)
    requires SessionRun(from, ts, s) && CanTurn(s, t)
    ensures SessionRun(from, ts + [t], DoTurn(s, t))
    decreases |ts|
  {
    hide DoTurn, CanTurn;
    if ts == [] {
      assert (ts + [t])[0] == t && (ts + [t])[1..] == [];
    } else {
      Extend(DoTurn(from, ts[0]), ts[1..], s, t);
      assert (ts + [t])[0] == ts[0] && (ts + [t])[1..] == ts[1..] + [t];
    }
  }

  lemma ActsA(from: Session, ts: seq<Turn>, s: Session, i: Input, r: Stepped)
    requires SessionRun(from, ts, s) && !i.TakeFrame? && Enabled(s.a, i) && Step(s.a, i) == r && s.ab == []
    ensures SessionRun(from, ts + [TurnA(i)], s.(a := r.end, ab := r.wire))
  {
    hide SessionRun, Step, Enabled;
    Extend(from, ts, s, TurnA(i));
    assert [] + r.wire == r.wire;
  }

  lemma ActsB(from: Session, ts: seq<Turn>, s: Session, i: Input, e: Endpoint)
    requires SessionRun(from, ts, s) && !i.TakeFrame? && Enabled(s.b, i) && Step(s.b, i) == Stepped(e, [])
    ensures SessionRun(from, ts + [TurnB(i)], s.(b := e))
  {
    hide SessionRun, Step, Enabled;
    Extend(from, ts, s, TurnB(i));
    assert s.ba + [] == s.ba;
  }

  lemma TakesB(from: Session, ts: seq<Turn>, s: Session, f: Frame, e: Endpoint)
    requires SessionRun(from, ts, s) && s.ab == [f] && s.b.reader.Idle? && Endpoints.TakeStep(s.b, f) == e
    ensures SessionRun(from, ts + [TurnB(TakeFrame(f))], s.(b := e, ab := []))
  {
    hide SessionRun, Endpoints.TakeStep;
    Extend(from, ts, s, TurnB(TakeFrame(f)));
    assert [f][1..] == [];
  }

  /** The sender writes byte number `k` and its frame reaches the wire. */
  lemma SendsNext(u: Transfer, k: nat, from: Session, before: seq<Turn>, b: Endpoint) returns (ts: seq<Turn>)
    requires k < |u.bs| && k < u.sender
    requires SessionRun(from, before, Session(u.SenderEnd(u.SentPort(k)), b, [], []))
    ensures SessionRun(from, ts, Session(u.SenderEnd(u.SentPort(k + 1)), b, [u.Stamped(k)], []))
  {
    hide Step, Enabled, SessionRun;
    var s := Session(u.SenderEnd(u.SentPort(k)), b, [], []);
    var write, poll := App(u.Id(), Write([u.bs[k]], true)), PollStream(u.Id(), true);
    Writes(u, k);
    ActsA(from, before, s, write, Stepped(u.SenderEnd(u.WrotePort(k)), []));
    Polls(u, k);
    ActsA(from, before + [TurnA(write)], s.(a := u.SenderEnd(u.WrotePort(k))), poll, Stepped(u.SenderEnd(u.SentPort(k + 1)), [u.Stamped(k)]));
    ts := before + [TurnA(write)] + [TurnA(poll)];
  }

  /** Open, write, poll, take, accept: the first frame is in the receiver's hand. */
  lemma FirstIsHeld(u: Transfer) returns (ts: seq<Turn>)
    requires u.Possible() && u.bs != [] && u.sender > 0
    ensures SessionRun(u.Start(), ts, u.Held(0))
  {
    hide Step, Endpoints.TakeStep, Enabled;
    var from := u.Start();
    Opens(u);
    NewIsSentNothing(u);
    assert SessionRun(from, [], from);
    hide SessionRun;
    ActsA(from, [], from, OpenStream, Stepped(u.SenderEnd(u.SentPort(0)), []));
    ts := SendsNext(u, 0, from, [] + [TurnA(OpenStream)], from.b);
    var f, s := u.Stamped(0), Session(u.SenderEnd(u.SentPort(1)), from.b, [u.Stamped(0)], []);
    var e := u.ReceiverEnd(0, Holding(u.Id(), Accepting(f)));
    TakesFirst(u);
    TakesB(from, ts, s, f, e);
    Accepts(u);
    ActsB(from, ts + [TurnB(TakeFrame(f))], s.(b := e, ab := []), AcceptQueue(true), u.Held(0).b);
    ts := ts + [TurnB(TakeFrame(f))] + [TurnB(AcceptQueue(true))];
  }

  /** Dispatch, write, poll, take: the next frame is in the receiver's hand. */
  lemma NextIsHeld(u: Transfer, k: nat, before: seq<Turn>) returns (ts: seq<Turn>)
    requires k + 1 < |u.bs| && k + 1 < u.sender && k < u.receiver
    requires SessionRun(u.Start(), before, u.Held(k))
    ensures SessionRun(u.Start(), ts, u.Held(k + 1))
  {
    hide Step, Endpoints.TakeStep, Enabled, SessionRun;
    var from, f, e := u.Start(), u.Stamped(k + 1), u.ReceiverEnd(k + 1, Idle);
    Delivers(u, k);
    ActsB(from, before, u.Held(k), SendPoll(true), e);
    ts := SendsNext(u, k + 1, from, before + [TurnB(SendPoll(true))], e);
    Takes(u, k + 1);
    TakesB(from, ts, Session(u.SenderEnd(u.SentPort(k + 2)), e, [f], []), f, u.Held(k + 1).b);
    ts := ts + [TurnB(TakeFrame(f))];
  }

  lemma {:induction false} AnyIsHeld(u: Transfer, k: nat) returns (ts: seq<Turn>)
    requires u.Possible() && k < |u.bs| && k < u.sender && k <= u.receiver
    ensures SessionRun(u.Start(), ts, u.Held(k))
    decreases k
  {
    hide SessionRun;
    if k == 0 {
      ts := FirstIsHeld(u);
    } else {
      ts := AnyIsHeld(u, k - 1);
      ts := NextIsHeld(u, k - 1, ts);
    }
  }

  // ---- the runs ----

  /**
    For every byte and every two windows with room for it there is a run that
    delivers exactly that byte: open, write, poll, take, accept, dispatch, read.
  */
  lemma AByteArrives(c: Config, b: byte) returns (ts: seq<Turn>, s: Session, id: StreamID)
    requires c.windowA > 0 && c.windowB > 0 && c.limitA > 0 && c.limitB > 0
    ensures Runs(c, ts, s) && id != 0 && Delivered(s.b, id) == [b] == Sent(s.a, id)
  {
    hide Step, Enabled;
    var u := Transfer(true, c.windowA, c.windowB, c.limitA, c.limitB, [b]);
    var e, send, read := u.ReceiverEnd(1, Idle), SendPoll(true), App(u.Id(), Read(1, true));
    id := u.Id();
    ts := FirstIsHeld(u);
    hide SessionRun;
    Delivers(u, 0);
    ActsB(u.Start(), ts, u.Held(0), send, e);
    Reads(u);
    s := u.Held(0).(b := e);
    Extend(u.Start(), ts + [TurnB(send)], s, TurnB(read));
    ts, s := ts + [TurnB(send)] + [TurnB(read)], DoTurn(s, TurnB(read));
  }

  /** The dispatcher of the near end refuses the frame in hand for want of window. */
  predicate Refused(v: Session, slot: bool) {
    CanTake(v, SendPoll(slot)) && DoSend(HalfOf(v.a, v.a.reader.id), slot).next == Reset(FlowControl)
  }

  /**
    A sender with the larger window can drive its peer into a flow control reset,
    in either direction and for all such windows: it sends one byte more than the
    receiver's window, while the receiving application does not read.
  */
  lemma LargerWindowOverruns(c: Config, left: bool, slot: bool) returns (ts: seq<Turn>, s: Session)
    requires c.Window(!left) > c.Window(left) && c.limitA > 0 && c.limitB > 0
    ensures Runs(c, ts, s) && Refused(From(s, left), slot)
    ensures HalfOf(From(s, left).a, From(s, left).a.reader.id).port.user.Some?
  {
    var n := c.Window(left);
    var u := if left then Transfer(false, c.windowB, n, c.limitB, c.limitA, seq(n + 1, _ => 0))
             else Transfer(true, c.windowA, n, c.limitA, c.limitB, seq(n + 1, _ => 0));
    ts := AnyIsHeld(u, n);
    s := u.Held(n);
    Refuses(u, slot);
    if left {
      hide SessionRun;
      MirrorRuns(u.Start(), ts, s);
      ts, s := MirrorAll(ts), Swap(s);
    }
  }
}
