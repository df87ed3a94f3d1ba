/**
  Two endpoints joined by two FIFO wires of frames. Any interleaving of the
  steps of both ends is a run.
*/
module Sessions {
  import opened Wrappers
  import opened Constrained
  import opened MuxErrors
  import opened Frames
  import opened Codec
  import opened StreamManagers
  import opened Flows
  import opened Halves
  import opened HalfInvariants
  import opened Endpoints
  import opened EndpointInvariants
  import opened EndpointTheorems
  import opened LaneSteps

  datatype Session = Session(a: Endpoint, b: Endpoint, ab: seq<Frame>, ba: seq<Frame>)

  datatype Turn = TurnA(i: Input) | TurnB(i: Input)

  function Swap(s: Session): Session {
    Session(s.b, s.a, s.ba, s.ab)
  }

  /** Each end is configured with a window and a stream limit of its own; they are not negotiated. */
  datatype Config = Config(windowA: nat, windowB: nat, limitA: nat, limitB: nat)
  {
    /** The window of the first end, or of the second. */
    function Window(left: bool): nat { if left then windowA else windowB }
  }

  function NewSession(c: Config): Session {
    Session(NewEndpoint(true, c.windowA, c.limitA), NewEndpoint(false, c.windowB, c.limitB), [], [])
  }

  /** The first endpoint can take this input; a frame it takes is the next one on its wire. */
  predicate CanTake(s: Session, i: Input) {
    if i.TakeFrame? then s.a.reader.Idle? && s.ba != [] && i.f == s.ba[0] else Enabled(s.a, i)
  }

  function Act(s: Session, i: Input): Session
    requires CanTake(s, i)
  {
    if i.TakeFrame? then s.(a := Endpoints.TakeStep(s.a, i.f), ba := s.ba[1..])
    else
      var r := Step(s.a, i);
      s.(a := r.end, ab := s.ab + r.wire)
  }

  predicate CanTurn(s: Session, t: Turn) {
    if t.TurnA? then CanTake(s, t.i) else CanTake(Swap(s), t.i)
  }

  function DoTurn(s: Session, t: Turn): Session
    requires CanTurn(s, t)
  {
    if t.TurnA? then Act(s, t.i) else Swap(Act(Swap(s), t.i))
  }

  // ---- the frames of one stream on a wire ----

  function Only(wire: seq<Frame>, id: StreamID): seq<Frame> {
    if wire == [] then []
    else (if wire[0].header.streamId == id then [wire[0]] else []) + Only(wire[1..], id)
  }

  lemma {:induction false} OnlyAppend(a: seq<Frame>, b: seq<Frame>, id: StreamID)
    ensures Only(a + b, id) == Only(a, id) + Only(b, id)
    decreases |a|
  {
    if a == [] {
      assert a + b == b;
    } else {
      OnlyAppend(a[1..], b, id);
      assert (a + b)[1..] == a[1..] + b && (a + b)[0] == a[0];
      var first := if a[0].header.streamId == id then [a[0]] else [];
      assert Only(a + b, id) == first + (Only(a[1..], id) + Only(b, id));
    }
  }

  lemma OnlyOne(f: Frame, id: StreamID)
    ensures Only([f], id) == if f.header.streamId == id then [f] else []
    ensures Only([], id) == []
  {
  }

  lemma OnlyHead(wire: seq<Frame>, id: StreamID)
    requires wire != []
    ensures var yx := Only(wire, id);
      if wire[0].header.streamId == id then yx != [] && yx[0] == wire[0] && yx[1..] == Only(wire[1..], id)
      else yx == Only(wire[1..], id)
  {
  }

  // ---- the invariant ----

  predicate WireFrame(f: Frame) {
    if f.header.streamId == 0 then f.body.GoAway? && f.header.typ == GoAwayType && !f.IsSyn()
    else Conforming(f)
  }

  predicate WireOk(wire: seq<Frame>) {
    forall k :: 0 <= k < |wire| ==> WireFrame(wire[k])
  }

  predicate SystemFrame(f: Frame) {
    WireFrame(f) && if f.header.streamId == 0 then f.header.length == |f.body.message| else f.body.Rst?
  }

  /** Stream ids in use are not zero, and the system queue holds RST and GOAWAY frames. */
  ghost predicate Tidy(e: Endpoint) {
    && 0 !in e.ports
    && (e.reader.Holding? || e.reader.Resetting? ==> e.reader.id != 0)
    && forall k :: 0 <= k < |e.mgr.sys| ==> SystemFrame(e.mgr.sys[k])
  }

  predicate LaneAt(s: Session, id: StreamID) {
    LaneOk(HalfOf(s.a, id), Only(s.ab, id), HalfOf(s.b, id), Only(s.ba, id), Own(s.a, id), s.a.window, s.b.window)
  }

  ghost predicate SessionOk(s: Session) {
    && EndpointOk(s.a) && EndpointOk(s.b) && Tidy(s.a) && Tidy(s.b)
    && s.a.client != s.b.client
    && WireOk(s.ab) && WireOk(s.ba)
    && forall id: StreamID :: id != 0 ==> LaneAt(s, id)
  }

  lemma SwapKeeps(s: Session)
    requires SessionOk(s)
    ensures SessionOk(Swap(s))
  {
    hide EndpointOk, LaneOk, Tidy, WireOk;
    forall id: StreamID | id != 0 ensures LaneAt(Swap(s), id) {
      assert LaneAt(s, id);
      LaneSwap(HalfOf(s.a, id), Only(s.ab, id), HalfOf(s.b, id), Only(s.ba, id), Own(s.a, id), s.a.window, s.b.window);
    }
  }

  lemma JoinedAt(s: Session, id: StreamID)
    requires SessionOk(s) && id != 0
    ensures Joined(HalfOf(s.a, id), Only(s.ab, id), HalfOf(s.b, id), Only(s.ba, id), Own(s.a, id), s.a.window, s.b.window)
  {
    hide LaneOk, HalfOk, Tidy, WireOk, IdsOk, AllHalves;
    LinkedAt(s.a, id);
    LinkedAt(s.b, id);
    assert LaneAt(s, id);
  }

  // ---- a step of the first endpoint, seen from one stream ----

  /** The protocol itself guarantees what an endpoint asks of its remote: a SYN is always fresh. */
  lemma NextFrameIsTakeable(s: Session)
    requires SessionOk(s) && s.a.reader.Idle? && s.ba != []
    ensures Enabled(s.a, TakeFrame(s.ba[0]))
  {
    hide LaneOk, EndpointOk, Tidy, HalfOf;
    var f := s.ba[0];
    var id := f.header.streamId;
    assert WireFrame(f);
    if id != 0 {
      var yx := Only(s.ba, id);
      assert yx != [] && yx[0] == f;
      SynIsFresh(s, id);
    }
    assert FromWire(f) by { WireFramesDecode(f); }
  }

  lemma WireFramesDecode(f: Frame)
    requires WireFrame(f)
    ensures FromWire(f)
  {
  }

  lemma SynIsFresh(s: Session, id: StreamID)
    requires SessionOk(s) && s.a.reader.Idle? && id != 0 && Only(s.ba, id) != []
    ensures Only(s.ba, id)[0].IsSyn() ==> id !in s.a.ports && !Own(s.a, id)
  {
    hide LaneOk, SessionOk;
    JoinedAt(s, id);
    var yx := Only(s.ba, id);
    assert yx == [yx[0]] + yx[1..];
    TakeLane(HalfOf(s.a, id), Only(s.ab, id), HalfOf(s.b, id), yx[0], yx[1..], Own(s.a, id), s.a.window, s.b.window, false);
  }

  lemma CallLane(x: Half, xy: seq<Frame>, y: Half, yx: seq<Frame>, opens: bool, near: nat, far: nat, call: Call)
    requires Joined(x, xy, y, yx, opens, near, far) && x.made && !(x.hand.Some? && x.hand.value.Accepting?)
    requires if call.Drop? then x.port.user.Some? else Usable(x)
    ensures LaneOk(CallStep(x, call), xy, y, yx, opens, near, far)
  {
    hide Joined, LaneOk, DoRead, DoWrite, DoFlush, DoShutdown;
    match call
    case Read(room, slot) => ReadLane(x, xy, y, yx, opens, near, far, room, slot);
    case Write(buf, slot) => WriteLane(x, xy, y, yx, opens, near, far, buf, slot);
    case Flush(slot, broken) => FlushLane(x, xy, y, yx, opens, near, far, slot, broken);
    case Shutdown(slot, flushSlot, broken) => ShutdownLane(x, xy, y, yx, opens, near, far, slot, flushSlot, broken);
    case Drop => CloseOnlyLane(x, DoDrop(x), xy, y, yx, opens, near, far);
  }

  /** Stopping the reader or the writer while this stream is not in hand. */
  lemma AsideLane(x: Half, xy: seq<Frame>, y: Half, yx: seq<Frame>, opens: bool, near: nat, far: nat, reading: bool, writing: bool)
    requires Joined(x, xy, y, yx, opens, near, far)
    requires (reading ==> x.reading) && (writing ==> x.writing)
    ensures LaneOk(x.(reading := reading, writing := writing), xy, y, yx, opens, near, far)
  {
    hide Joined, LaneOk;
    CloseOnlyLane(x, x.(reading := reading, writing := writing), xy, y, yx, opens, near, far);
  }

  /** Every endpoint-wide event only closes things. */
  lemma EventsClose(x: Half, e: Error, clear: bool)
    ensures Closes(x, DoGoAway(x, e, clear).(writing := false)) && Closes(x, DoGoAway(x, e, clear))
    ensures Closes(x, DoCloseSender(x)) && Closes(x, DoForget(x))
  {
    hide ErrorCode;
  }

  lemma EventsCloseReader(x: Half)
    ensures Closes(x, DoStopReading(x))
    ensures x.hand == Some(Marking) ==> Closes(x, DoMark(x))
  {
  }

  // ---- one turn, one stream ----

  /** The lane of `id` after the first endpoint's half became `g`, with `put` added to its wire. */
  predicate LaneAfter(s: Session, id: StreamID, g: Half, ab: seq<Frame>, ba: seq<Frame>) {
    LaneOk(g, Only(ab, id), HalfOf(s.b, id), Only(ba, id), Own(s.a, id), s.a.window, s.b.window)
  }

  lemma QuietTurn(s: Session, id: StreamID, g: Half)
    requires SessionOk(s) && id != 0 && Closes(HalfOf(s.a, id), g)
    ensures LaneAfter(s, id, g, s.ab, s.ba)
  {
    hide SessionOk, LaneOk, HalfOf, Closes;
    JoinedAt(s, id);
    CloseOnlyLane(HalfOf(s.a, id), g, Only(s.ab, id), HalfOf(s.b, id), Only(s.ba, id), Own(s.a, id), s.a.window, s.b.window);
  }

  lemma PollTurn(s: Session, j: StreamID, io: bool, id: StreamID)
    requires SessionOk(s) && id != 0 && Enabled(s.a, PollStream(j, io))
    ensures LaneAfter(s, id, HalfStep(s.a, PollStream(j, io), id), s.ab + Step(s.a, PollStream(j, io)).wire, s.ba)
  {
    hide SessionOk, LaneOk, DoPoll;
    var h := HalfOf(s.a, j);
    var o := DoPoll(h, j, io);
    assert |o.wire| <= 1 && (o.wire != [] ==> o.wire[0].header.streamId == j) && (o.half.writing ==> h.writing) by { PollWire(h, j, io); }
    OnlyAppend(s.ab, o.wire, id);
    assert Only(o.wire, id) == if j == id then o.wire else [] by {
      if o.wire != [] { assert o.wire == [o.wire[0]]; OnlyOne(o.wire[0], id); }
    }
    JoinedAt(s, id);
    if j == id {
      PollLane(h, Only(s.ab, id), HalfOf(s.b, id), Only(s.ba, id), Own(s.a, id), s.a.window, s.b.window, id, io);
    } else {
      assert Only(s.ab, id) + [] == Only(s.ab, id);
      var x := HalfOf(s.a, id);
      AsideLane(x, Only(s.ab, id), HalfOf(s.b, id), Only(s.ba, id), Own(s.a, id), s.a.window, s.b.window, x.reading, o.half.writing);
    }
  }

  lemma PollWire(h: Half, id: StreamID, io: bool)
    requires CanPoll(h) && h.handle.Some?
    ensures var o := DoPoll(h, id, io);
      && |o.wire| <= 1 && (o.wire != [] ==> o.wire[0].header.streamId == id)
      && (o.half.writing ==> h.writing)
  {
  }

  lemma SystemTurn(s: Session, io: bool, id: StreamID)
    requires SessionOk(s) && id != 0 && Enabled(s.a, PollSystem(io))
    ensures LaneAfter(s, id, HalfStep(s.a, PollSystem(io), id), s.ab + Step(s.a, PollSystem(io)).wire, s.ba)
  {
    hide LaneOk, OnWire, Encode, HalfOf, EndpointOk, DoGoAway;
    var f := s.a.mgr.sys[0];
    var put := SystemStep(s.a, io).wire;
    assert SystemFrame(f) by { assert Tidy(s.a); }
    hide Tidy, WireOk;
    SystemWire(s.a, io);
    OnlyAppend(s.ab, put, id);
    var x, y, xy, yx, own := HalfOf(s.a, id), HalfOf(s.b, id), Only(s.ab, id), Only(s.ba, id), Own(s.a, id);
    assert xy + [] == xy;
    JoinedAt(s, id);
    hide SessionOk, Joined;
    assert put != [] ==> put == [put[0]];
    if put != [] { OnlyOne(put[0], id); } else { OnlyOne(f, id); }
    if f.body.GoAway? {
      EventsClose(x, SessionClosed, true);
      CloseOnlyLane(x, DoGoAway(x, SessionClosed, true).(writing := false), xy, y, yx, own, s.a.window, s.b.window);
    } else if put != [] && f.header.streamId == id {
      RstLane(x, xy, y, yx, own, s.a.window, s.b.window, f);
      assert x.writing == s.a.writing by { WritingOf(s.a, id); }
    } else {
      assert x.writing == s.a.writing by { WritingOf(s.a, id); }
      AsideLane(x, xy, y, yx, own, s.a.window, s.b.window, x.reading, SystemStep(s.a, io).end.writing);
    }
  }

  lemma WritingOf(e: Endpoint, id: StreamID)
    ensures HalfOf(e, id).writing == e.writing && HalfOf(e, id).reading == Reading(e.reader)
  {
  }

  lemma SystemWire(e: Endpoint, io: bool)
    requires Enabled(e, PollSystem(io)) && SystemFrame(e.mgr.sys[0])
    ensures var f, o := e.mgr.sys[0], SystemStep(e, io);
      && |o.wire| <= 1 && (o.wire != [] ==> WireFrame(o.wire[0]))
      && (f.body.GoAway? <==> f.header.streamId == 0)
      && (f.body.GoAway? && o.wire != [] ==> o.wire[0].header.streamId == 0)
      && (!f.body.GoAway? ==> Conforming(f) && f.body.Rst? && (o.wire != [] ==> o.wire[0] == f && o.end.writing))
  {
    var f := e.mgr.sys[0];
    if !f.body.GoAway? {
      ConformingIsWellFormed(f);
      BodyRoundTrip(f);
      assert EncodeBody(f.body)[..f.header.length] == EncodeBody(f.body);
    }
  }

  lemma TakeTurn(s: Session, id: StreamID)
    requires SessionOk(s) && id != 0 && s.a.reader.Idle? && s.ba != []
    ensures Enabled(s.a, TakeFrame(s.ba[0]))
    ensures LaneAfter(s, id, HalfStep(s.a, TakeFrame(s.ba[0]), id), s.ab, s.ba[1..])
  {
    hide SessionOk, LaneAfter, HalfStep, Enabled, CanTake;
    NextFrameIsTakeable(s);
    if s.ba[0].header.streamId == id {
      TakeHere(s, id);
    } else {
      TakeElsewhere(s, id);
    }
  }

  lemma TakeHere(s: Session, id: StreamID)
    requires SessionOk(s) && id != 0 && s.a.reader.Idle? && s.ba != [] && s.ba[0].header.streamId == id
    requires Enabled(s.a, TakeFrame(s.ba[0]))
    ensures LaneAfter(s, id, HalfStep(s.a, TakeFrame(s.ba[0]), id), s.ab, s.ba[1..])
  {
    hide LaneOk, HalfOf, SessionOk, DoTake, Joined, Enabled;
    var f, yx := s.ba[0], Only(s.ba, id);
    JoinedAt(s, id);
    OnlyHead(s.ba, id);
    hide Only;
    IdleHand(s.a, id);
    assert yx == [f] + yx[1..];
    TakeLane(HalfOf(s.a, id), Only(s.ab, id), HalfOf(s.b, id), f, yx[1..], Own(s.a, id), s.a.window, s.b.window, AtLimit(s.a));
  }

  lemma TakeElsewhere(s: Session, id: StreamID)
    requires SessionOk(s) && id != 0 && s.a.reader.Idle? && s.ba != [] && s.ba[0].header.streamId != id
    requires Enabled(s.a, TakeFrame(s.ba[0]))
    ensures LaneAfter(s, id, HalfStep(s.a, TakeFrame(s.ba[0]), id), s.ab, s.ba[1..])
  {
    hide LaneOk, HalfOf, SessionOk, Endpoints.TakeStep, Joined, Enabled;
    var x := HalfOf(s.a, id);
    JoinedAt(s, id);
    OnlyHead(s.ba, id);
    hide Only;
    IdleHand(s.a, id);
    AsideLane(x, Only(s.ab, id), HalfOf(s.b, id), Only(s.ba, id), Own(s.a, id), s.a.window, s.b.window,
              Reading(Endpoints.TakeStep(s.a, s.ba[0]).reader), x.writing);
  }

  lemma IdleHand(e: Endpoint, id: StreamID)
    requires e.reader.Idle?
    ensures HalfOf(e, id).reading && HalfOf(e, id).hand.None?
  {
  }

  lemma AcceptTurn(s: Session, ok: bool, id: StreamID)
    requires SessionOk(s) && id != 0 && Enabled(s.a, AcceptQueue(ok))
    ensures LaneAfter(s, id, HalfStep(s.a, AcceptQueue(ok), id), s.ab, s.ba)
  {
    hide LaneOk, SessionOk, DoAccept, Only, HalfOf, HalfStep, Joined;
    var x, y, xy, yx, own := HalfOf(s.a, id), HalfOf(s.b, id), Only(s.ab, id), Only(s.ba, id), Own(s.a, id);
    JoinedAt(s, id);
    if s.a.reader.id == id {
      AcceptHere(s.a, ok);
      AcceptLane(x, xy, y, yx, own, s.a.window, s.b.window, ok);
    } else {
      AcceptElsewhere(s.a, ok, id);
      AsideLane(x, xy, y, yx, own, s.a.window, s.b.window, HalfStep(s.a, AcceptQueue(ok), id).reading, x.writing);
    }
  }

  lemma AcceptHere(e: Endpoint, ok: bool)
    requires Enabled(e, AcceptQueue(ok))
    ensures var x := HalfOf(e, e.reader.id);
      x.hand.Some? && x.hand.value.Accepting? && HalfStep(e, AcceptQueue(ok), e.reader.id) == DoAccept(x, ok).half
  {
    hide DoAccept;
  }

  lemma AcceptElsewhere(e: Endpoint, ok: bool, id: StreamID)
    requires Enabled(e, AcceptQueue(ok)) && e.reader.id != id
    ensures var x, g := HalfOf(e, id), HalfStep(e, AcceptQueue(ok), id); x.reading && g == x.(reading := g.reading)
  {
    hide DoAccept;
  }

  lemma SendTurn(s: Session, slot: bool, id: StreamID)
    requires SessionOk(s) && id != 0 && Enabled(s.a, SendPoll(slot))
    ensures LaneAfter(s, id, HalfStep(s.a, SendPoll(slot), id), s.ab, s.ba)
  {
    hide LaneOk, SessionOk, DoSend, HalfOk, Only;
    var x, y, xy, yx, own := HalfOf(s.a, id), HalfOf(s.b, id), Only(s.ab, id), Only(s.ba, id), Own(s.a, id);
    JoinedAt(s, id);
    if s.a.reader.id == id {
      SendLane(x, xy, y, yx, own, s.a.window, s.b.window, slot);
    }
  }

  lemma EndReaderTurn(s: Session, i: Input, id: StreamID)
    requires SessionOk(s) && id != 0 && Enabled(s.a, i)
    requires i.MarkClosed? || i.EndReader?
    ensures LaneAfter(s, id, HalfStep(s.a, i, id), s.ab, s.ba)
  {
    hide LaneOk, SessionOk, LaneAfter, Closes, DoMark, DoStopReading;
    var x := HalfOf(s.a, id);
    EventsCloseReader(x);
    NothingCloses(x);
    QuietTurn(s, id, HalfStep(s.a, i, id));
  }

  lemma AppTurn(s: Session, i: Input, id: StreamID)
    requires SessionOk(s) && id != 0 && Enabled(s.a, i)
    requires i.App? || i.OpenStream?
    ensures LaneAfter(s, id, HalfStep(s.a, i, id), s.ab, s.ba)
  {
    hide LaneOk, EndpointOk, CallStep, Usable, Tidy, WireOk;
    var x, y, xy, yx, own := HalfOf(s.a, id), HalfOf(s.b, id), Only(s.ab, id), Only(s.ba, id), Own(s.a, id);
    JoinedAt(s, id);
    hide Joined;
    assert LaneAt(s, id);
    match i
    case App(j, call) =>
      if j == id {
        UsableHand(x);
        MadeUser(s.a, id);
        CallLane(x, xy, y, yx, own, s.a.window, s.b.window, call);
      }
    case OpenStream =>
      if !AtLimit(s.a) && id == NextLocalId(s.a) {
        assert !x.made && own by { FreshNext(s.a); }
        OpenLane(x, xy, y, yx, s.a.window, s.b.window);
      }
  }

  lemma UsableHand(x: Half)
    ensures Usable(x) ==> !(x.hand.Some? && x.hand.value.Accepting?) && x.port.user.Some?
  {
  }

  lemma MadeUser(e: Endpoint, id: StreamID)
    requires EndpointOk(e)
    ensures HalfOf(e, id).port.user.Some? ==> HalfOf(e, id).made
  {
    hide AllHalves;
    UserIsMade(e, id);
  }

  lemma FreshNext(e: Endpoint)
    requires EndpointOk(e) && NextLocalId(e) <= STREAMID_MAX
    ensures NextLocalId(e) !in e.ports && Own(e, NextLocalId(e))
  {
    NextIdIsFresh(e);
  }

  /** The lane of every stream survives every step of the first endpoint. */
  lemma LaneTurn(s: Session, i: Input, id: StreamID)
    requires SessionOk(s) && CanTake(s, i) && id != 0
    ensures Enabled(s.a, i)
    ensures LaneAfter(s, id, HalfStep(s.a, i, id), Act(s, i).ab, Act(s, i).ba)
  {
    hide SessionOk, LaneAfter, DoGoAway, DoCloseSender, DoForget, DoPoll, SystemStep, HalfOf, Closes;
    if i.TakeFrame? {
      TakeTurn(s, id);
    } else if i.PollStream? {
      PollTurn(s, i.id, i.io, id);
    } else if i.PollSystem? {
      SystemTurn(s, i.io, id);
    } else {
      assert Step(s.a, i).wire == [] && s.ab + [] == s.ab;
      if i.App? || i.OpenStream? {
        AppTurn(s, i, id);
      } else if i.AcceptQueue? {
        AcceptTurn(s, i.ok, id);
      } else if i.SendPoll? {
        SendTurn(s, i.slot, id);
      } else if i.MarkClosed? || i.EndReader? {
        EndReaderTurn(s, i, id);
      } else {
        var x := HalfOf(s.a, id);
        EventsClose(x, if i.ApplyGoAway? then s.a.reader.reason else NoError, false);
        NothingCloses(x);
        QuietTurn(s, id, HalfStep(s.a, i, id));
      }
    }
  }

  lemma NothingCloses(x: Half)
    ensures Closes(x, x) && Closes(x, x.(writing := false)) && Closes(x, x.(reading := false))
  {
  }

  // ---- the whole session ----

  lemma PollTidy(s: Session, j: StreamID, io: bool)
    requires SessionOk(s) && Enabled(s.a, PollStream(j, io))
    ensures var r := Step(s.a, PollStream(j, io)); Tidy(r.end) && WireOk(r.wire)
  {
    hide LaneAt, HalfOk, DoPoll, AllHalves, Conforming;
    var h := HalfOf(s.a, j);
    UserIsMade(s.a, j);
    LinkedAt(s.a, j);
    PollWire(h, j, io);
    PollConforms(h, j, io, s.a.window);
    PollFrame(h, j, io);
  }

  lemma TakeTidy(s: Session)
    requires SessionOk(s) && s.a.reader.Idle? && s.ba != []
    ensures Tidy(Endpoints.TakeStep(s.a, s.ba[0])) && WireOk(s.ba[1..])
  {
    hide LaneAt, EndpointOk, Conforming, Undeliverable;
    var f := s.ba[0];
    var k := f.header.streamId;
    assert WireFrame(f);
    var r := DoTake(HalfOf(s.a, k), f, AtLimit(s.a), s.a.window);
    if k == 0 {
      assert r.half.hand.None? && !r.half.made;
    }
  }

  lemma WireOkAppend(w: seq<Frame>, put: seq<Frame>)
    requires WireOk(w) && WireOk(put)
    ensures WireOk(w + put)
  {
  }

  lemma TidyTurn(s: Session, i: Input)
    requires SessionOk(s) && CanTake(s, i) && Enabled(s.a, i)
    ensures Tidy(Act(s, i).a) && WireOk(Act(s, i).ab) && WireOk(Act(s, i).ba)
  {
    if i.TakeFrame? {
      hide SessionOk, Tidy, WireOk, Endpoints.TakeStep;
      TakeTidy(s);
      assert WireOk(s.ab) by { WiresOf(s); }
    } else if i.PollStream? {
      hide SessionOk, Tidy, WireOk, Step;
      PollTidy(s, i.id, i.io);
      WiresOf(s);
      WireOkAppend(s.ab, Step(s.a, i).wire);
    } else {
      hide SessionOk, Tidy, WireOk, Step;
      WiresOf(s);
      OtherTidy(s.a, i);
      WireOkAppend(s.ab, Step(s.a, i).wire);
    }
  }

  lemma WiresOf(s: Session)
    requires SessionOk(s)
    ensures WireOk(s.ab) && WireOk(s.ba) && Tidy(s.a)
  {
  }

  lemma OtherTidy(e: Endpoint, i: Input)
    requires Tidy(e) && Enabled(e, i) && !i.TakeFrame? && !i.PollStream?
    ensures Tidy(Step(e, i).end) && WireOk(Step(e, i).wire)
  {
    hide Encode, OnWire, Conforming, DoAccept, DoSend, CallStep, DoMark, DoDrop, Usable, EncodeBody;
    match i
    case OpenStream =>
    case App(j, call) => AppTidy(e, j, call);
    case PollSystem(io) => SystemWire(e, io);
    case AcceptQueue(ok) => AcceptFrame(HalfOf(e, e.reader.id), ok);
    case SendPoll(slot) => SendFrame(HalfOf(e, e.reader.id), slot);
    case PushReset => RstConforms(e.reader.id, e.reader.e);
    case _ =>
  }

  lemma AppTidy(e: Endpoint, id: StreamID, call: Call)
    requires Tidy(e) && Enabled(e, App(id, call))
    ensures var r := Step(e, App(id, call)); Tidy(r.end) && r.wire == []
  {
    hide CallStep, Usable, DoDrop, SystemFrame;
    CallKeepsFrame(HalfOf(e, id), call);
    UsableHand(HalfOf(e, id));
  }

  lemma RstConforms(id: StreamID, e: Error)
    ensures Conforming(RstFrame(id, e))
  {
  }

  lemma ActEnds(s: Session, i: Input)
    requires CanTake(s, i) && Enabled(s.a, i)
    ensures Act(s, i).a == Step(s.a, i).end && Act(s, i).b == s.b
  {
    hide Endpoints.TakeStep;
  }

  lemma EndsOf(s: Session)
    requires SessionOk(s)
    ensures EndpointOk(s.a) && EndpointOk(s.b) && Tidy(s.b) && s.a.client != s.b.client
    ensures AllHalves(s.a)
  {
  }

  lemma LanesAfterAct(s: Session, i: Input, id: StreamID)
    requires SessionOk(s) && CanTake(s, i) && id != 0
    ensures Enabled(s.a, i) && LaneAt(Act(s, i), id)
  {
    hide SessionOk, Act, Step, CanTake, Enabled, HalfStep, LaneOk, HalfOf, EndpointOk, AllHalves;
    var t := Act(s, i);
    LaneTurn(s, i, id);
    EndsOf(s);
    ActEnds(s, i);
    StepView(s.a, i, id);
    StepKeeps(s.a, i);
  }

  lemma ActKeeps(s: Session, i: Input)
    requires SessionOk(s) && CanTake(s, i)
    ensures SessionOk(Act(s, i))
  {
    hide Act, EndpointOk, Tidy, WireOk, LaneAt, Step, CanTake, Enabled;
    var t := Act(s, i);
    LanesAfterAct(s, i, 1);
    ActEnds(s, i);
    TidyTurn(s, i);
    StepKeeps(s.a, i);
    forall id: StreamID | id != 0 ensures LaneAt(t, id) {
      LanesAfterAct(s, i, id);
    }
  }

  lemma TurnKeeps(s: Session, t: Turn)
    requires SessionOk(s) && CanTurn(s, t)
    ensures SessionOk(DoTurn(s, t))
  {
    hide SessionOk, Act;
    if t.TurnA? {
      ActKeeps(s, t.i);
    } else {
      SwapKeeps(s);
      ActKeeps(Swap(s), t.i);
      SwapKeeps(Act(Swap(s), t.i));
    }
  }
}
