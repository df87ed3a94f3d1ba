/**
  Streams that start with a four-byte type (muxado/src/typed.rs).
*/
module TypedStreams {
  import opened Constrained
  import opened MuxErrors
  import opened Frames
  import opened StreamOutput
  import opened Streams
  import opened Flows
  import opened StreamFacts
  import opened StreamOutcomes
  import opened Halves
  import opened HalfInvariants
  import opened Endpoints
  import opened EndpointInvariants
  import opened EndpointTheorems
  import opened StreamManagers
  import opened Sessions
  import opened SessionTheorems

  // ---- the two operations on a stream object ----

  /** Bytes the session delivered to the stream that its application has not read. */
  ghost function Unread(s: Stream): seq<byte>
    reads s, s.fin
  {
    s.readBuf + Payloads(s.fin.items)
  }

  /** A read that returns nothing means the end of the stream, unless there was no room. */
  lemma {:induction false} EmptyReadIsEof(st: StreamState, inbox: seq<Frame>, closed: bool, sink: Sink, room: nat, slot: bool)
    requires StreamFrames(inbox) && 0 < room < U32_LIMIT
    ensures var o := PollRead(st, inbox, closed, sink, room, slot);
      o.result == ReadOk([]) ==> o.st.dataReadClosed && o.st.readBuf == []
    decreases |inbox|, !st.dataReadClosed
  {
    hide RecvType;
    if st.readBuf != [] {
      assert ReadLen(|st.readBuf|, room) > 0;
    } else if st.dataReadClosed {
    } else {
      var r := RecvType(st, inbox, closed, DataType);
      if r.ready {
        EmptyReadIsEof(r.st, r.inbox, closed, sink, room, slot);
      }
    }
  }

  /** With a place for the credit, a read waits only when there is nothing to read at all. */
  lemma StarvedRead(st: StreamState, inbox: seq<Frame>, closed: bool, sink: Sink, room: nat, slot: bool)
    requires StreamFrames(inbox) && Typed(inbox) && st.window <= st.maxWindow
    ensures var o := PollRead(st, inbox, closed, sink, room, slot);
      && Typed(o.inbox)
      && (slot && o.result.ReadPending? ==> o.st.readBuf == [] && Payloads(o.inbox) == [])
  {
    hide PollRead, StreamFrames, Absorbed;
    var taken, mid := ReadOutcomes(st, inbox, closed, sink, room, slot);
    TypedRest(taken, PollRead(st, inbox, closed, sink, room, slot).inbox);
  }

  lemma TypedRest(a: seq<Frame>, b: seq<Frame>)
    requires Typed(a + b)
    ensures Typed(b)
  {
    assert forall j :: 0 <= j < |b| ==> b[j] == (a + b)[|a| + j];
  }

  datatype AcceptResult = Accepted(typ: U32) | AcceptFailed(e: Error) | AcceptWaiting(filled: seq<byte>)

  /** One poll of the read in `accept_typed`. */
  method ReadMore(stream: Stream, room: nat, slot: bool) returns (got: ReadResult)
    requires stream.Valid() && 0 < room <= 4
    modifies stream, stream.window, stream.fin, stream.fout.closer, stream.fout.sink
    ensures stream.Valid()
    ensures old(Unread(stream)) == (if got.ReadOk? then got.bytes else []) + Unread(stream)
    ensures got.ReadOk? ==> |got.bytes| <= room
    ensures got == ReadOk([]) ==> stream.dataReadClosed && stream.readBuf == []
    ensures Typed(old(stream.fin.items)) ==> Typed(stream.fin.items)
    ensures Typed(old(stream.fin.items)) && slot && got.ReadPending? ==> Unread(stream) == []
  {
    hide PollRead, Payloads, StreamFrames, AllFromWire;
    ghost var st, inbox, closed, sink := stream.State(), stream.fin.items, stream.fin.senderClosed, stream.fout.Value();
    ReadTakesFront(st, inbox, closed, sink, room, slot);
    EmptyReadIsEof(st, inbox, closed, sink, room, slot);
    if Typed(inbox) { StarvedRead(st, inbox, closed, sink, room, slot); }
    got := stream.PollReadInto(room, slot);
  }

  /**
    What happened to a waiting stream when it is woken up: the frames that the
    session put into its inbox, whether it closed the inbox, and whether the
    stream's sink has room for a frame.
  */
  datatype Wake = Wake(arrivals: seq<Frame>, closed: bool, slot: bool)

  predicate Deliverable(wakes: seq<Wake>) {
    forall i :: 0 <= i < |wakes| ==> StreamFrames(wakes[i].arrivals)
  }

  /** The bytes that the wake-ups bring. */
  function Brought(wakes: seq<Wake>): seq<byte> {
    if wakes == [] then []
    else Brought(wakes[..|wakes| - 1]) + Payloads(wakes[|wakes| - 1].arrivals)
  }

  lemma BroughtOneMore(wakes: seq<Wake>, k: nat)
    requires k < |wakes|
    ensures Brought(wakes[..k + 1]) == Brought(wakes[..k]) + Payloads(wakes[k].arrivals)
  {
    assert wakes[..k + 1][..k] == wakes[..k];
  }

  lemma {:induction false} BroughtGrows(wakes: seq<Wake>, m: nat, k: nat)
    requires m <= k <= |wakes|
    ensures |Brought(wakes[..m])| <= |Brought(wakes[..k])|
    decreases k
  {
    if m == k {
    } else {
      BroughtGrows(wakes, m, k - 1);
      BroughtOneMore(wakes, k - 1);
    }
  }

  /** At every wake-up the sink has a place, and what arrives is typed as the session types it. */
  predicate Prompt(wakes: seq<Wake>) {
    forall i :: 0 <= i < |wakes| ==> wakes[i].slot && Typed(wakes[i].arrivals)
  }

  lemma TypedAppend(a: seq<Frame>, b: seq<Frame>)
    requires Typed(a) && Typed(b)
    ensures Typed(a + b)
  {
  }

  /** The session's part of a wake-up. */
  method WakeUp(stream: Stream, w: Wake)
    requires stream.Valid() && StreamFrames(w.arrivals)
    modifies stream.fin
    ensures stream.Valid() && stream.fin.items == old(stream.fin.items) + w.arrivals
    ensures Unread(stream) == old(Unread(stream)) + Payloads(w.arrivals)
    ensures stream.State() == old(stream.State()) && stream.fout.Value() == old(stream.fout.Value())
  {
    hide Payloads;
    PayloadsAppend(stream.fin.items, w.arrivals);
    ghost var was := Payloads(stream.fin.items);
    assert stream.readBuf + (was + Payloads(w.arrivals)) == stream.readBuf + was + Payloads(w.arrivals);
    stream.fin.items := stream.fin.items + w.arrivals;
    if w.closed {
      stream.fin.senderClosed := true;
    }
  }

  /**
    `accept_typed` on an accepted stream: read exactly four bytes, over as many
    wake-ups as it takes. `used` is the number of wake-ups that took place. Once four
    bytes are there, and with a place for the credit at every wake-up, four more
    wake-ups are enough.
  */
  method AcceptTyped(stream: Stream, wakes: seq<Wake>) returns (r: AcceptResult, used: nat)
    requires stream.Valid() && Deliverable(wakes)
    modifies stream, stream.window, stream.fin, stream.fout.closer, stream.fout.sink
    ensures stream.Valid() && used <= |wakes|
    ensures r.Accepted? ==> old(Unread(stream)) + Brought(wakes[..used]) == PutU32(r.typ) + Unread(stream)
    ensures r.AcceptFailed? ==> r.e == StreamClosed && stream.dataReadClosed && stream.readBuf == []
    ensures r.AcceptWaiting? ==>
      && used == |wakes| && |r.filled| < 4
      && old(Unread(stream)) + Brought(wakes) == r.filled + Unread(stream)
    ensures r.AcceptFailed? ==> |old(Unread(stream)) + Brought(wakes[..used])| < 4 + |Payloads(stream.fin.items)|
    ensures Typed(old(stream.fin.items)) && Prompt(wakes) ==>
      forall m :: 0 <= m && m + 4 <= |wakes| && |old(Unread(stream)) + Brought(wakes[..m])| >= 4 ==> !r.AcceptWaiting?
  {
    hide StreamFrames, AllFromWire, PutU32, GetU32, Unread, Brought, Payloads, Typed;
    var buf: seq<byte> := [];
    used := 0;
    ghost var start := Unread(stream);
    BroughtNothing(wakes, old(Unread(stream)));
    while used < |wakes| && |buf| < 4
      invariant used <= |wakes| && |buf| <= 4 && stream.Valid()
      invariant old(Unread(stream)) + Brought(wakes[..used]) == buf + Unread(stream)
      invariant Typed(old(stream.fin.items)) && Prompt(wakes) ==>
        && Typed(stream.fin.items)
        && forall m :: 0 <= m <= used && |start + Brought(wakes[..m])| >= 4 ==> |buf| >= used - m
    {
      ghost var had := |buf|;
      ghost var was := Unread(stream);
      ghost var inbox := stream.fin.items;
      WakeUp(stream, wakes[used]);
      if Typed(inbox) && Prompt(wakes) { TypedAppend(inbox, wakes[used].arrivals); }
      BroughtOneMore(wakes, used);
      var got := ReadMore(stream, 4 - |buf|, wakes[used].slot);
      used := used + 1;
      var bytes := if got.ReadOk? then got.bytes else [];
      Regroup(old(Unread(stream)), Brought(wakes[..used - 1]), buf, was, Payloads(wakes[used - 1].arrivals), bytes, Unread(stream));
      if got == ReadOk([]) {
        UnreadParts(stream);
        return AcceptFailed(StreamClosed), used;
      }
      buf := buf + bytes;
      forall m | 0 <= m <= used && |start + Brought(wakes[..m])| >= 4 && Typed(old(stream.fin.items)) && Prompt(wakes)
        ensures |buf| >= used - m
      {
        if m < used {
          BroughtGrows(wakes, m, used);
          assert |buf| > had;
        }
      }
    }
    if |buf| == 4 {
      GetThenPut(buf);
      return Accepted(GetU32(buf)), used;
    }
    assert wakes[..used] == wakes;
    r := AcceptWaiting(buf);
  }

  lemma UnreadParts(s: Stream)
    ensures |Unread(s)| == |s.readBuf| + |Payloads(s.fin.items)|
  {
  }

  lemma BroughtNothing(wakes: seq<Wake>, unread: seq<byte>)
    ensures unread + Brought(wakes[..0]) == [] + unread
  {
  }

  lemma Regroup(start: seq<byte>, brought: seq<byte>, buf: seq<byte>, was: seq<byte>, more: seq<byte>, bytes: seq<byte>, left: seq<byte>)
    requires start + brought == buf + was && was + more == bytes + left
    ensures start + (brought + more) == (buf + bytes) + left
  {
    assert start + (brought + more) == start + brought + more;
    assert buf + was + more == buf + (was + more);
    assert buf + (bytes + left) == (buf + bytes) + left;
  }

  /** A locally opened stream on which nothing was written or shut down yet. */
  predicate Unwritten(st: StreamState, window: nat) {
    st.maxWindow == window && st.window == window && st.writeClosed.None? && st.needsSyn
  }

  /** The one frame of an opened stream: DATA with SYN, holding as much of the type as the window allows. */
  function TypeFrame(typ: U32, window: nat): Frame {
    var n := if window < 4 then window else 4;
    Frame(Header(n, DataType, Flags(false, true), 0), Data(PutU32(typ)[..n]))
  }

  /**
    The type is written by a single write on a new stream. A ready write takes
    the whole type exactly when the window is at least four; a pending one
    changes nothing that matters.
  */
  lemma TypeIsWrittenWhole(st: StreamState, window: nat, inbox: seq<Frame>, closed: bool, sink: Sink, typ: U32, slot: bool)
    requires StreamFrames(inbox) && Unwritten(st, window)
    ensures var o := PollWrite(st, inbox, closed, sink, PutU32(typ), slot);
      && (o.result.WriteOk? ==> (o.result.n == 4 <==> window >= 4))
      && (o.result.WriteOk? ==> o.sink.items == sink.items + [TypeFrame(typ, window)] && !o.st.needsSyn)
      && (window > 0 ==> (o.result.WriteOk? <==> sink.code == 0 && sink.connected && slot))
      && (o.result.ConnectionReset? ==> sink.code != 0 || !sink.connected)
      && (window > 0 && (sink.code != 0 || !sink.connected) ==> o.result.ConnectionReset?)
      && (o.result.WritePending? ==> Unwritten(o.st, window) && o.sink == sink)
      && (o.result.ConnectionReset? ==> o.st.writeClosed.Some?)
      && !o.result.BrokenPipe?
  {
    hide RecvType, StreamFrames, AllFromWire, Offer, PutU32, DataFrame, Unwritten;
    WaitingKeepsUnwritten(st, window, inbox, closed);
    assert st.window == window && st.writeClosed.None? by { assert Unwritten(st, window); UnwrittenFields(st, window); }
    var r := if st.window == 0 then RecvType(st, inbox, closed, WndIncType) else Received(st, inbox, true);
    OfferType(r.st, window, r.inbox, sink, typ, slot);
  }

  lemma UnwrittenFields(st: StreamState, window: nat)
    requires Unwritten(st, window)
    ensures st.window == window && st.writeClosed.None?
  {
  }

  lemma WaitingKeepsUnwritten(st: StreamState, window: nat, inbox: seq<Frame>, closed: bool)
    requires StreamFrames(inbox) && Unwritten(st, window)
    ensures Unwritten(RecvType(st, inbox, closed, WndIncType).st, window)
  {
    hide RecvType, StreamFrames, AllFromWire, Payloads, Flow, Credit;
    var _ := RecvFacts(st, inbox, closed, WndIncType);
  }

  lemma OfferType(st: StreamState, window: nat, inbox: seq<Frame>, sink: Sink, typ: U32, slot: bool)
    requires Unwritten(st, window)
    ensures var o := Offer(st, inbox, sink, PutU32(typ), slot);
      && (o.result.WriteOk? ==>
            && o.result.n == Min(window, 4) && !o.st.needsSyn
            && o.sink.items == sink.items + [TypeFrame(typ, window)])
      && (o.result.WriteOk? <==> sink.code == 0 && sink.connected && slot)
      && (o.result.ConnectionReset? <==> sink.code != 0 || !sink.connected)
      && (o.result.WritePending? ==> Unwritten(o.st, window) && o.sink == sink)
      && (o.result.ConnectionReset? ==> o.st.writeClosed.Some?)
      && !o.result.BrokenPipe?
  {
    hide ErrorOf, ErrorCode;
  }

  datatype OpenResult = Opened | OpenFailed(e: Error) | OpenWaiting

  /** `open_typed` on a stream just opened: wait, over any wake-ups, until one write is ready. */
  method OpenTyped(stream: Stream, typ: U32, wakes: seq<Wake>) returns (r: OpenResult)
    requires stream.Valid() && Unwritten(stream.State(), stream.window.maxSize) && Deliverable(wakes)
    modifies stream, stream.window, stream.fin, stream.fout.closer, stream.fout.sink
    ensures stream.Valid()
    ensures r.Opened? ==>
      && stream.fout.sink.items == old(stream.fout.sink.items) + [TypeFrame(typ, stream.window.maxSize)]
      && !stream.needsSyn
    ensures r.OpenFailed? ==> r.e == StreamReset && stream.writeClosed.Some?
    ensures r.OpenFailed? ==> old(stream.fout.closer.code) != 0 || stream.fout.sink.receiverDropped
    ensures wakes != [] && stream.window.maxSize > 0 && (old(stream.fout.closer.code) != 0 || stream.fout.sink.receiverDropped) ==>
      r.OpenFailed?
    ensures r.OpenWaiting? && stream.window.maxSize > 0 ==> forall i :: 0 <= i < |wakes| ==> !wakes[i].slot
    ensures r.OpenWaiting? ==> Unwritten(stream.State(), stream.window.maxSize) && stream.fout.Value() == old(stream.fout.Value())
  {
    hide StreamFrames, AllFromWire, Payloads, Unread;
    var k := 0;
    while k < |wakes|
      invariant 0 <= k <= |wakes| && stream.Valid()
      invariant Unwritten(stream.State(), stream.window.maxSize) && stream.fout.Value() == old(stream.fout.Value())
      invariant stream.window.maxSize > 0 ==> forall i :: 0 <= i < k ==> !wakes[i].slot
      invariant k > 0 && stream.window.maxSize > 0 ==> stream.fout.closer.code == 0 && !stream.fout.sink.receiverDropped
    {
      WakeUp(stream, wakes[k]);
      TypeIsWrittenWhole(stream.State(), stream.window.maxSize, stream.fin.items, stream.fin.senderClosed, stream.fout.Value(), typ, wakes[k].slot);
      var sent := stream.PollWriteFrom(PutU32(typ), wakes[k].slot);
      match sent {
        case WriteOk(_) => return Opened;
        case WritePending =>
        case _ => return OpenFailed(StreamReset);
      }
      k := k + 1;
    }
    r := OpenWaiting;
  }

  // ---- over a session ----

  lemma CallSentGrows(h: Half, call: Call)
    requires if call.Drop? then h.port.user.Some? else Usable(h)
    ensures h.port.sent <= CallStep(h, call).port.sent && CallStep(h, call).made == h.made
  {
    hide PollRead, PollWrite, PollFlush, PollShutdown, Flow;
  }

  lemma ReaderSentGrows(h: Half, f: Frame, full: bool, window: nat, ok: bool, slot: bool)
    ensures !f.IsSyn() ==> var g := DoTake(h, f, full, window).half; g.port.sent == h.port.sent && g.made == h.made
    ensures h.hand.Some? && h.hand.value.Accepting? ==>
      var g := DoAccept(h, ok).half; g.port.sent == h.port.sent && g.made == h.made
    ensures h.hand.Some? && h.hand.value.Sending? ==>
      var g := DoSend(h, slot).half; g.port.sent == h.port.sent && g.made == h.made
  {
    hide PollSend;
  }

  lemma PollSentGrows(h: Half, id: StreamID, io: bool)
    requires CanPoll(h) && h.handle.Some?
    ensures var g := DoPoll(h, id, io).half; h.port.sent <= g.port.sent && g.made == h.made
  {
    hide PollTask, Codec.Encode, Flow;
  }

  /** What an application wrote is never taken back. */
  lemma StepSentGrows(e: Endpoint, i: Input, id: StreamID)
    requires EndpointOk(e) && Enabled(e, i) && id in e.ports
    ensures HalfOf(e, id).port.sent <= HalfStep(e, i, id).port.sent && HalfStep(e, i, id).made
  {
    hide EndpointOk, DoPoll, DoTake, DoAccept, DoSend, CallStep, DoGoAway, DoStopReading, SystemStep, Endpoints.TakeStep, AllHalves, HalfOk;
    var h := HalfOf(e, id);
    EndpointHalves(e);
    match i
    case OpenStream => assert id != NextLocalId(e) by { NextIdIsFresh(e); }
    case App(j, call) => if j == id { CallSentGrows(h, call); }
    case PollStream(j, io) => if j == id { PollSentGrows(h, id, io); }
    case TakeFrame(f) => if f.header.streamId == id { ReaderSentGrows(h, f, AtLimit(e), e.window, true, true); }
    case AcceptQueue(ok) => if e.reader.id == id { ReaderSentGrows(h, h.hand.value.f, true, 0, ok, true); }
    case SendPoll(slot) => if e.reader.id == id { ReaderSentGrows(h, h.hand.value.f, true, 0, true, slot); }
    case PollSystem(_) => ClosingSent(h, SessionClosed, true);
    case ApplyGoAway => ClosingSent(h, e.reader.reason, false);
    case EndReader(_) => ClosingSent(h, NoError, false);
    case _ =>
  }

  lemma ClosingSent(h: Half, e: Error, clear: bool)
    ensures DoGoAway(h, e, clear).port.sent == h.port.sent && DoGoAway(h, e, clear).made == h.made
    ensures DoStopReading(h).port.sent == h.port.sent && DoStopReading(h).made == h.made
  {
  }

  /** The same over a turn of either end. */
  lemma TurnSentGrows(s: Session, t: Turn, id: StreamID)
    requires SessionOk(s) && CanTurn(s, t) && id != 0 && id in s.a.ports
    ensures Sent(s.a, id) <= Sent(DoTurn(s, t).a, id) && id in DoTurn(s, t).a.ports
  {
    hide SessionOk, EndpointOk, HalfStep, Step, HalfOf, Enabled, CanTake, Act;
    if t.TurnA? {
      EndsOf(s);
      LanesAfterAct(s, t.i, id);
      ActEnds(s, t.i);
      StepView(s.a, t.i, id);
      StepSentGrows(s.a, t.i, id);
      MadeIsPort(Step(s.a, t.i).end, id);
    } else {
      SwapKeeps(s);
      LanesAfterAct(Swap(s), t.i, id);
      ActEnds(Swap(s), t.i);
    }
  }

  lemma MadeIsPort(e: Endpoint, id: StreamID)
    ensures HalfOf(e, id).made <==> id in e.ports
  {
  }

  lemma {:induction false} RunSentGrows(from: Session, ts: seq<Turn>, s: Session, left: bool, id: StreamID)
    requires SessionRun(from, ts, s) && SessionOk(from) && id != 0 && id in From(from, left).a.ports
    ensures Sent(From(from, left).a, id) <= Sent(From(s, left).a, id)
    decreases |ts|
  {
    hide SessionOk, DoTurn, Act, CanTake, Sent;
    if ts == [] {
    } else {
      var t := ts[0];
      TurnKeeps(from, t);
      if left {
        TurnSentGrows(from, t, id);
      } else {
        SwapKeeps(from);
        TurnSentGrows(Swap(from), Mirror(t), id);
        MirrorTurns(from, t);
      }
      RunSentGrows(DoTurn(from, t), ts[1..], s, left, id);
    }
  }

  /** Four bytes read spell the type, and the bytes after them follow the writer's. */
  predicate ReadsAs(typ: U32, got: seq<byte>, sent: seq<Sym>) {
    |got| >= 4 ==> |sent| >= 4 && GetU32(got[..4]) == typ && got[4..] <= sent[4..]
  }

  /**
    Typed streams compose. The opener has a window of at least four, the acceptor
    any window; after any run, the opener writes the type `typ` as the first write
    on its new stream `id` and the write is accepted. However the run goes on, once
    the other application holds four bytes of that stream they spell exactly `typ`,
    and what it reads after them is a prefix of what was written after them.
  */
  lemma TypedStreamsCompose(
      c: Config, before: seq<Turn>, s: Session, left: bool,
      id: StreamID, typ: U32, slot: bool, after: seq<Turn>, t: Session)
    requires Runs(c, before, s) && c.Window(left) >= 4 && id != 0
    requires IsUnwritten(From(s, left).a, id, c.Window(left))
    requires CanTurn(s, TypeWrite(left, id, typ, slot))
    requires var w := DoTurn(s, TypeWrite(left, id, typ, slot));
      Sent(From(w, left).a, id) != [] && SessionRun(w, after, t)
    ensures ReadsAs(typ, Delivered(From(t, left).b, id), Sent(From(t, left).a, id))
  {
    hide SessionOk, Runs, SessionRun, CanTurn, DoTurn, HalfOf, PutU32, GetU32, Sent, Delivered, From, IsUnwritten;
    RunsAreOk(c, before, s);
    TurnKeeps(s, TypeWrite(left, id, typ, slot));
    TypeArrivesWhole(s, c.Window(left), left, id, typ, slot);
    TypeStaysInFront(DoTurn(s, TypeWrite(left, id, typ, slot)), after, t, left, id, typ);
  }

  lemma TypeStaysInFront(w: Session, after: seq<Turn>, t: Session, left: bool, id: StreamID, typ: U32)
    requires SessionOk(w) && SessionRun(w, after, t) && id != 0 && id in From(w, left).a.ports
    requires Sent(From(w, left).a, id) == PutU32(typ)
    ensures ReadsAs(typ, Delivered(From(t, left).b, id), Sent(From(t, left).a, id))
  {
    hide SessionOk, SessionRun, Sent, Delivered, PutU32, GetU32;
    RunSentGrows(w, after, t, left, id);
    SessionRunKeeps(w, after, t);
    SwapKeeps(t);
    DeliveredInOrder(Swap(From(t, left)), id);
    TypeInFront(Delivered(From(t, left).b, id), Sent(From(t, left).a, id), typ);
  }

  lemma TypeInFront(got: seq<byte>, sent: seq<Sym>, typ: U32)
    requires got <= sent && PutU32(typ) <= sent
    ensures ReadsAs(typ, got, sent)
  {
    PutThenGet(typ, []);
    hide PutU32, GetU32;
    assert |got| >= 4 ==> got[..4] == PutU32(typ) + [];
  }

  predicate IsUnwritten(e: Endpoint, id: StreamID, window: nat) {
    var user := HalfOf(e, id).port.user;
    user.Some? && Unwritten(user.value, window) && Sent(e, id) == []
  }

  function TypeWrite(left: bool, id: StreamID, typ: U32, slot: bool): Turn {
    if left then TurnA(App(id, Write(PutU32(typ), slot))) else TurnB(App(id, Write(PutU32(typ), slot)))
  }

  lemma TypeArrivesWhole(s: Session, window: nat, left: bool, id: StreamID, typ: U32, slot: bool)
    requires SessionOk(s) && window >= 4 && id != 0
    requires IsUnwritten(From(s, left).a, id, window)
    requires CanTurn(s, TypeWrite(left, id, typ, slot))
    ensures var w := DoTurn(s, TypeWrite(left, id, typ, slot));
      && id in From(w, left).a.ports
      && (Sent(From(w, left).a, id) != [] ==> Sent(From(w, left).a, id) == PutU32(typ))
  {
    hide SessionOk, HalfOk;
    var e := From(s, left).a;
    var h := HalfOf(e, id);
    var p := h.port;
    assert id in e.ports;
    assert Usable(h);
    TypeIsWrittenWhole(p.user.value, window, p.inbox, InboxEnded(h), SinkOf(h), typ, slot);
    hide PollWrite;
    WithHalfAt(e, id, DoWrite(h, PutU32(typ), slot));
    assert PutU32(typ)[..4] == PutU32(typ) && [] + PutU32(typ) == PutU32(typ);
  }
}
