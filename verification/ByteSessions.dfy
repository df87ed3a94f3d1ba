/**
  The session over byte wires: frames are encoded, the bytes arrive in pieces of
  any size, and the codec decodes them. Every run over bytes is a run over frames.
*/
module ByteSessions {
  import opened Wrappers
  import opened Constrained
  import opened MuxErrors
  import opened Frames
  import opened Codec
  import opened Flows
  import opened Credits
  import opened Balances
  import Windows
  import opened Halves
  import HalfInvariants
  import opened Endpoints
  import opened EndpointInvariants
  import opened EndpointTheorems
  import opened Sessions
  import opened SessionTheorems

  // ---- one wire ----

  /** Bytes written but not yet received, and the receiver's decoder. */
  datatype ByteWire = ByteWire(transit: seq<byte>, decoder: Decoder)

  const NEW_WIRE: ByteWire := ByteWire([], Decoder(None, []))

  /** The frames the receiver has still to decode, and the decoder afterwards. */
  function Rest(w: ByteWire): Drained {
    Drain(Feed(w.decoder, w.transit))
  }

  /** No frame is cut short at the end of the wire. */
  predicate Clean(w: ByteWire) {
    Rest(w).next == Decoder(None, [])
  }

  lemma DecodeFeed(d: Decoder, x: seq<byte>)
    ensures DecodeOnce(d).frame.Some? ==>
      DecodeOnce(Feed(d, x)) == Decoded(Feed(DecodeOnce(d).next, x), DecodeOnce(d).frame)
    ensures DecodeOnce(d).frame.None? ==>
      DecodeOnce(Feed(DecodeOnce(d).next, x)) == DecodeOnce(Feed(d, x))
  {
    hide DecodeFrame, DecodeHeader;
    if d.header.None? && |d.buf| >= 8 {
      assert (d.buf + x)[..8] == d.buf[..8];
      assert (d.buf + x)[8..] == d.buf[8..] + x;
    }
    if d.header.Some? || |d.buf| >= 8 {
      var h := if d.header.Some? then d.header.value else DecodeHeader(d.buf[..8]);
      var buf := if d.header.Some? then d.buf else d.buf[8..];
      if |buf| >= h.length {
        assert (buf + x)[..h.length] == buf[..h.length];
        assert (buf + x)[h.length..] == buf[h.length..] + x;
      }
    }
  }

  /** Decoding a frame takes it off the front of what is left. */
  lemma DecodeTakesFirst(w: ByteWire)
    ensures var o := DecodeOnce(w.decoder);
      var v := w.(decoder := o.next);
      && (o.frame.Some? ==> Rest(w) == Drained([o.frame.value] + Rest(v).frames, Rest(v).next))
      && (o.frame.None? ==> Rest(v) == Rest(w))
  {
    hide DecodeOnce;
    DecodeFeed(w.decoder, w.transit);
  }

  lemma DrainUnfolds(d: Decoder)
    ensures var o := DecodeOnce(d);
      Drain(d) == if o.frame.None? then Drained([], o.next)
                  else Drained([o.frame.value] + Drain(o.next).frames, Drain(o.next).next)
    ensures DecodeOnce(d).frame.Some? ==> Weight(DecodeOnce(d).next) < Weight(d)
  {
    hide DecodeFrame, DecodeHeader;
  }

  lemma {:induction false} DrainFeed(d: Decoder, x: seq<byte>)
    ensures var now := Drain(d);
      var later := Drain(Feed(now.next, x));
      Drain(Feed(d, x)) == Drained(now.frames + later.frames, later.next)
    decreases Weight(d)
  {
    var o := DecodeOnce(d);
    DecodeFeed(d, x);
    DrainUnfolds(d);
    DrainUnfolds(Feed(d, x));
    hide DecodeOnce, Drain, Weight;
    if o.frame.Some? {
      DrainFeed(o.next, x);
    } else {
      DrainUnfolds(Feed(o.next, x));
      var later := Drain(Feed(o.next, x));
      assert [] + later.frames == later.frames;
    }
  }

  lemma FeedTwice(d: Decoder, a: seq<byte>, b: seq<byte>)
    ensures Feed(Feed(d, a), b) == Feed(d, a + b)
  {
    assert d.buf + a + b == d.buf + (a + b);
  }

  lemma FeedNew(bs: seq<byte>)
    ensures Feed(Decoder(None, []), bs) == Decoder(None, bs)
  {
    assert [] + bs == bs;
  }

  /** Bytes added to a clean wire are parsed on their own. */
  lemma AppendToClean(w: ByteWire, bs: seq<byte>)
    requires Clean(w)
    ensures var p := Drain(Decoder(None, bs));
      Rest(w.(transit := w.transit + bs)) == Drained(Rest(w).frames + p.frames, p.next)
  {
    hide Drain;
    var d := Feed(w.decoder, w.transit);
    DrainFeed(d, bs);
    FeedTwice(w.decoder, w.transit, bs);
    FeedNew(bs);
    hide Feed;
  }

  lemma EncodedFrameDrains(f: Frame)
    requires WellFormed(f)
    ensures Drain(Decoder(None, Encode(f).value)) == Drained([f], Decoder(None, []))
  {
    var bs := Encode(f).value;
    ParseEncoded(f, []);
    assert bs + [] == bs;
    assert [f] + [] == [f];
    DrainParses(Decoder(None, bs), bs);
  }

  // ---- GOAWAY ends a wire ----

  /** What a reader takes off a wire: nothing after a GOAWAY. */
  function UpToGoAway(fs: seq<Frame>): seq<Frame> {
    if fs == [] then []
    else if fs[0].body.GoAway? then [fs[0]]
    else [fs[0]] + UpToGoAway(fs[1..])
  }

  predicate NoGoAway(fs: seq<Frame>) {
    forall k :: 0 <= k < |fs| ==> !fs[k].body.GoAway?
  }

  lemma {:induction false} UpToGoAwayAppend(a: seq<Frame>, b: seq<Frame>)
    requires NoGoAway(a)
    ensures UpToGoAway(a + b) == a + UpToGoAway(b)
    decreases |a|
  {
    if a == [] {
      assert a + b == b;
    } else {
      UpToGoAwayAppend(a[1..], b);
      assert (a + b)[1..] == a[1..] + b;
      assert (a + b)[0] == a[0];
    }
  }

  /** A GOAWAY as the writer encodes it: the peer decodes the cut-down frame first. */
  lemma EncodedGoAwayDrains(g: Frame)
    requires g.body.GoAway? && g.header.typ == GoAwayType && Encode(g).Some?
    requires g.header.length <= |EncodeBody(g.body)|
    ensures var fs := Drain(Decoder(None, Encode(g).value)).frames;
      fs != [] && fs[0] == OnWire(g) && OnWire(g).body.GoAway? && UpToGoAway(fs) == [OnWire(g)]
  {
    var bs := Encode(g).value;
    HeaderRoundTrip(g.header);
    assert bs[..8] == EncodeHeader(g.header);
    assert bs[8..] == EncodeBody(g.body);
    hide DecodeHeader, EncodeHeader, EncodeBody, Drain;
    var o := DecodeOnce(Decoder(None, bs));
    assert o.frame == Some(OnWire(g));
    DrainUnfolds(Decoder(None, bs));
  }

  // ---- the session ----

  datatype ByteSession = ByteSession(a: Endpoint, b: Endpoint, ab: ByteWire, ba: ByteWire)

  function ByteSwap(s: ByteSession): ByteSession {
    ByteSession(s.b, s.a, s.ba, s.ab)
  }

  /** What the writer puts on the connection when it takes the input `i`. */
  function WireBytes(e: Endpoint, i: Input): seq<byte>
    requires Enabled(e, i)
  {
    var out := Step(e, i).wire;
    if out == [] then []
    else
      var f := if i.PollSystem? && e.mgr.sys[0].body.GoAway?
               then e.mgr.sys[0].(body := e.mgr.sys[0].body.(lastStreamId := e.mgr.lastRemote)) else out[0];
      if Encode(f).Some? then Encode(f).value else []
  }

  predicate ByteCan(s: ByteSession, i: Input) {
    if i.TakeFrame? then s.a.reader.Idle? && DecodeOnce(s.ba.decoder).frame == Some(i.f) else Enabled(s.a, i)
  }

  function ByteAct(s: ByteSession, i: Input): ByteSession
    requires ByteCan(s, i)
  {
    if i.TakeFrame? then
      s.(a := Endpoints.TakeStep(s.a, i.f), ba := s.ba.(decoder := DecodeOnce(s.ba.decoder).next))
    else
      s.(a := Step(s.a, i).end, ab := s.ab.(transit := s.ab.transit + WireBytes(s.a, i)))
  }

  /**
    A turn of either end, the arrival of some bytes at it, or a decoder call that
    asks for more input.
  */
  datatype ByteTurn = ActTurn(left: bool, i: Input) | Arrive(left: bool, n: nat) | Peek(left: bool)

  function Arrived(w: ByteWire, n: nat): ByteWire
    requires n <= |w.transit|
  {
    ByteWire(w.transit[n..], Feed(w.decoder, w.transit[..n]))
  }

  predicate NearCan(s: ByteSession, t: ByteTurn) {
    match t
    case ActTurn(_, i) => ByteCan(s, i)
    case Arrive(_, n) => n <= |s.ba.transit|
    case Peek(_) => DecodeOnce(s.ba.decoder).frame.None?
  }

  function NearTurn(s: ByteSession, t: ByteTurn): ByteSession
    requires NearCan(s, t)
  {
    match t
    case ActTurn(_, i) => ByteAct(s, i)
    case Arrive(_, n) => s.(ba := Arrived(s.ba, n))
    case Peek(_) => s.(ba := s.ba.(decoder := DecodeOnce(s.ba.decoder).next))
  }

  predicate ByteCanTurn(s: ByteSession, t: ByteTurn) {
    NearCan(if t.left then s else ByteSwap(s), t)
  }

  function ByteDoTurn(s: ByteSession, t: ByteTurn): ByteSession
    requires ByteCanTurn(s, t)
  {
    if t.left then NearTurn(s, t) else ByteSwap(NearTurn(ByteSwap(s), t))
  }

  // ---- bytes refine frames ----

  /** The frame wire `fs` is what the byte wire carries. */
  predicate Carries(w: ByteWire, fs: seq<Frame>, writing: bool, reading: bool) {
    && (writing ==> Clean(w) && Rest(w).frames == fs && NoGoAway(fs))
    && (reading ==> UpToGoAway(Rest(w).frames) == fs)
  }

  predicate Refines(s: ByteSession, t: Session) {
    && s.a == t.a && s.b == t.b
    && Carries(s.ab, t.ab, s.a.writing, Reading(s.b.reader))
    && Carries(s.ba, t.ba, s.b.writing, Reading(s.a.reader))
  }

  lemma CarriesAfterSend(w: ByteWire, fs: seq<Frame>, reading: bool, f: Frame, writing: bool)
    requires Carries(w, fs, true, reading) && WellFormed(f) && !f.body.GoAway?
    ensures Carries(w.(transit := w.transit + Encode(f).value), fs + [f], writing, reading)
  {
    assert Encode(f).Some?;
    hide Rest, WellFormed;
    AppendToClean(w, Encode(f).value);
    EncodedFrameDrains(f);
    UpToGoAwayAppend(fs + [f], []);
    assert fs + [f] + [] == fs + [f];
  }

  lemma CarriesAfterGoAway(w: ByteWire, fs: seq<Frame>, reading: bool, g: Frame)
    requires Carries(w, fs, true, reading)
    requires g.body.GoAway? && g.header.typ == GoAwayType && Encode(g).Some? && g.header.length <= |EncodeBody(g.body)|
    ensures Carries(w.(transit := w.transit + Encode(g).value), fs + [OnWire(g)], false, reading)
  {
    hide Rest, OnWire, EncodeBody, Encode;
    AppendToClean(w, Encode(g).value);
    EncodedGoAwayDrains(g);
    UpToGoAwayAppend(fs, Drain(Decoder(None, Encode(g).value)).frames);
  }

  lemma CarriesAfterTake(w: ByteWire, fs: seq<Frame>, writing: bool)
    requires Carries(w, fs, writing, true) && DecodeOnce(w.decoder).frame.Some?
    ensures fs != [] && fs[0] == DecodeOnce(w.decoder).frame.value
    ensures var v := w.(decoder := DecodeOnce(w.decoder).next);
      Carries(v, fs[1..], writing, !fs[0].body.GoAway?)
  {
    hide Rest, DecodeOnce;
    DecodeTakesFirst(w);
    var v := w.(decoder := DecodeOnce(w.decoder).next);
    var f := DecodeOnce(w.decoder).frame.value;
    assert Rest(w).frames[0] == f && Rest(w).frames[1..] == Rest(v).frames;
  }

  lemma CarriesAfterMove(w: ByteWire, fs: seq<Frame>, writing: bool, reading: bool, n: nat)
    requires Carries(w, fs, writing, reading)
    ensures n <= |w.transit| ==> Carries(Arrived(w, n), fs, writing, reading)
    ensures DecodeOnce(w.decoder).frame.None? ==>
      Carries(w.(decoder := DecodeOnce(w.decoder).next), fs, writing, reading)
  {
    hide DecodeOnce, Drain;
    DecodeTakesFirst(w);
    if n <= |w.transit| {
      assert w.decoder.buf + w.transit[..n] + w.transit[n..] == w.decoder.buf + w.transit by {
        assert w.transit[..n] + w.transit[n..] == w.transit;
      }
    }
  }

  /** The reader stops reading after a GOAWAY. */
  lemma TakenGoAwayStops(e: Endpoint, f: Frame)
    requires WireFrame(f) && f.body.GoAway?
    ensures !Reading(Endpoints.TakeStep(e, f).reader)
  {
  }

  lemma TakeRefines(s: ByteSession, t: Session, i: Input)
    requires Refines(s, t) && SessionOk(t) && i.TakeFrame? && ByteCan(s, i)
    ensures CanTake(t, i) && Refines(ByteAct(s, i), Act(t, i))
  {
    hide SessionOk, DecodeOnce, Endpoints.TakeStep;
    CarriesAfterTake(s.ba, t.ba, s.b.writing);
    var f := t.ba[0];
    assert WireFrame(f) by { WiresOf(t); }
    if f.body.GoAway? { TakenGoAwayStops(s.a, f); }
    assert Endpoints.TakeStep(s.a, f).writing == s.a.writing by { TakeWrites(s.a, f); }
    hide Carries;
    assert Act(t, i).ab == t.ab && Act(t, i).ba == t.ba[1..];
    CarriesLess(ByteAct(s, i).ba, t.ba[1..], s.b.writing, !f.body.GoAway?, s.b.writing, Reading(ByteAct(s, i).a.reader));
  }

  lemma TakeWrites(e: Endpoint, f: Frame)
    ensures Endpoints.TakeStep(e, f).writing == e.writing
  {
  }

  lemma CarriesLess(w: ByteWire, fs: seq<Frame>, writing: bool, reading: bool, writing': bool, reading': bool)
    requires Carries(w, fs, writing, reading) && (writing' ==> writing) && (reading' ==> reading)
    ensures Carries(w, fs, writing', reading')
  {
  }

  /** The near end's outgoing wires after it took the input `i` agree. */
  predicate SentRefines(s: ByteSession, t: Session, i: Input)
    requires Enabled(s.a, i)
  {
    var r := Step(s.a, i);
    Carries(s.ab.(transit := s.ab.transit + WireBytes(s.a, i)), t.ab + r.wire, r.end.writing, Reading(s.b.reader))
  }

  lemma QuietRefines(s: ByteSession, t: Session, i: Input)
    requires Refines(s, t) && Enabled(s.a, i) && Step(s.a, i).wire == []
    requires Step(s.a, i).end.writing ==> s.a.writing
    ensures SentRefines(s, t, i)
  {
    hide Carries, Step;
    assert s.ab.transit + [] == s.ab.transit && t.ab + [] == t.ab;
    CarriesLess(s.ab, t.ab, s.a.writing, Reading(s.b.reader), Step(s.a, i).end.writing, Reading(s.b.reader));
  }

  lemma GoAwayRefines(s: ByteSession, t: Session, i: Input)
    requires Refines(s, t) && SessionOk(t) && Enabled(s.a, i) && Step(s.a, i).wire != [] && s.a.writing
    requires i.PollSystem? && s.a.mgr.sys[0].body.GoAway?
    ensures SentRefines(s, t, i)
  {
    hide SessionOk, Carries, Step, OnWire, EncodeBody, Encode;
    SentGoAway(t, i.io);
    var f := s.a.mgr.sys[0];
    CarriesAfterGoAway(s.ab, t.ab, Reading(s.b.reader), f.(body := f.body.(lastStreamId := s.a.mgr.lastRemote)));
  }

  lemma PlainRefines(s: ByteSession, t: Session, i: Input)
    requires Refines(s, t) && SessionOk(t) && !i.TakeFrame? && Enabled(s.a, i) && |Step(s.a, i).wire| == 1 && s.a.writing
    requires !(i.PollSystem? && s.a.mgr.sys[0].body.GoAway?)
    ensures SentRefines(s, t, i)
  {
    hide SessionOk, Carries, Step;
    SentFrameIsPlain(t, i);
    var r := Step(s.a, i);
    assert r.wire == [r.wire[0]];
    CarriesAfterSend(s.ab, t.ab, Reading(s.b.reader), r.wire[0], r.end.writing);
  }

  lemma StepRefines(s: ByteSession, t: Session, i: Input)
    requires Refines(s, t) && SessionOk(t) && !i.TakeFrame? && Enabled(s.a, i)
    ensures Refines(ByteAct(s, i), Act(t, i))
  {
    hide SessionOk, Carries, Step, WireBytes;
    var r := Step(s.a, i);
    StepMonotone(s.a, i);
    CarriesLess(s.ba, t.ba, s.b.writing, Reading(s.a.reader), s.b.writing, Reading(r.end.reader));
    if r.wire == [] {
      QuietRefines(s, t, i);
    } else if i.PollSystem? && s.a.mgr.sys[0].body.GoAway? {
      GoAwayRefines(s, t, i);
    } else {
      PlainRefines(s, t, i);
    }
  }

  lemma StepMonotone(e: Endpoint, i: Input)
    requires Enabled(e, i) && !i.TakeFrame?
    ensures var r := Step(e, i);
      && (r.end.writing ==> e.writing) && (Reading(r.end.reader) ==> Reading(e.reader))
      && |r.wire| <= 1 && (r.wire != [] ==> e.writing)
  {
    hide DoAccept, DoSend, DoMark, Encode, OnWire, Usable;
    match i
    case PollStream(j, io) => PollWire(HalfOf(e, j), j, io);
    case App(j, call) => CallKeepsFrame(HalfOf(e, j), call);
    case AcceptQueue(ok) => AcceptKeepsWriting(HalfOf(e, e.reader.id), ok);
    case SendPoll(slot) => SendKeepsWriting(HalfOf(e, e.reader.id), slot);
    case MarkClosed => MarkKeepsWriting(HalfOf(e, e.reader.id));
    case _ =>
  }

  lemma AcceptKeepsWriting(h: Half, ok: bool)
    requires h.hand.Some? && h.hand.value.Accepting?
    ensures DoAccept(h, ok).half.writing == h.writing
  {
  }

  lemma SendKeepsWriting(h: Half, slot: bool)
    requires h.hand.Some? && h.hand.value.Sending?
    ensures DoSend(h, slot).half.writing == h.writing
  {
  }

  lemma MarkKeepsWriting(h: Half)
    ensures DoMark(h).writing == h.writing
  {
  }

  /** A GOAWAY from the system queue: what is encoded, and that the writer stops. */
  lemma SentGoAway(t: Session, io: bool)
    requires SessionOk(t) && Enabled(t.a, PollSystem(io)) && t.a.mgr.sys[0].body.GoAway?
    requires Step(t.a, PollSystem(io)).wire != []
    ensures var e := t.a;
      var g := e.mgr.sys[0].(body := e.mgr.sys[0].body.(lastStreamId := e.mgr.lastRemote));
      && g.header.typ == GoAwayType && Encode(g).Some? && g.header.length <= |EncodeBody(g.body)|
      && Step(e, PollSystem(io)).wire == [OnWire(g)] && !Step(e, PollSystem(io)).end.writing
  {
    hide LaneAt, EndpointOk, OnWire;
    assert SystemFrame(t.a.mgr.sys[0]) by { assert Tidy(t.a); }
  }

  /** Every other frame on the wire encodes and decodes to itself. */
  lemma SentFrameIsPlain(t: Session, i: Input)
    requires SessionOk(t) && Enabled(t.a, i) && !i.TakeFrame? && Step(t.a, i).wire != []
    requires !(i.PollSystem? && t.a.mgr.sys[0].body.GoAway?)
    ensures WellFormed(Step(t.a, i).wire[0]) && !Step(t.a, i).wire[0].body.GoAway?
  {
    var e := t.a;
    if i.PollSystem? {
      assert SystemFrame(e.mgr.sys[0]) by { hide LaneAt, EndpointOk; assert Tidy(e); }
      hide SessionOk;
      SystemWire(e, i.io);
      ConformingIsWellFormed(e.mgr.sys[0]);
    } else {
      assert i.PollStream? by { OnlyPollsEmit(e, i); }
      var h := HalfOf(e, i.id);
      assert HalfInvariants.HalfOk(h, e.window) && i.id != 0 by {
        hide LaneAt, HalfInvariants.HalfOk;
        LinkedAt(e, i.id);
        UserIsMade(e, i.id);
        assert Tidy(e);
      }
      hide SessionOk, HalfInvariants.HalfOk, DoPoll;
      PollConforms(h, i.id, i.io, e.window);
      PollWire(h, i.id, i.io);
      ConformingIsWellFormed(DoPoll(h, i.id, i.io).wire[0]);
    }
  }

  lemma OnlyPollsEmit(e: Endpoint, i: Input)
    requires Enabled(e, i) && Step(e, i).wire != []
    ensures i.PollStream? || i.PollSystem?
  {
    hide DoPoll, SystemStep;
  }

  lemma NearRefines(s: ByteSession, t: Session, u: ByteTurn)
    requires Refines(s, t) && SessionOk(t) && NearCan(s, u)
    ensures if u.ActTurn? then CanTake(t, u.i) && Refines(NearTurn(s, u), Act(t, u.i)) else Refines(NearTurn(s, u), t)
  {
    hide SessionOk, Act, Enabled, ByteAct, Carries;
    match u
    case ActTurn(_, i) => if i.TakeFrame? { TakeRefines(s, t, i); } else { StepRefines(s, t, i); }
    case Arrive(_, n) => CarriesAfterMove(s.ba, t.ba, s.b.writing, Reading(s.a.reader), n);
    case Peek(_) => CarriesAfterMove(s.ba, t.ba, s.b.writing, Reading(s.a.reader), 0);
  }

  /** One turn over bytes is one turn over frames, or none. */
  lemma TurnRefines(s: ByteSession, t: Session, u: ByteTurn) returns (ts: seq<Turn>, t': Session)
    requires Refines(s, t) && SessionOk(t) && ByteCanTurn(s, u)
    ensures SessionRun(t, ts, t') && Refines(ByteDoTurn(s, u), t') && SessionOk(t')
    ensures |ts| <= 1 && (ts == [] ==> t' == t)
  {
    hide SessionOk, Act, NearTurn, NearCan, Carries, CanTake;
    if !u.left {
      SwapKeeps(t);
    }
    NearRefines(if u.left then s else ByteSwap(s), if u.left then t else Swap(t), u);
    if u.ActTurn? {
      var turn := if u.left then TurnA(u.i) else TurnB(u.i);
      ts, t' := [turn], DoTurn(t, turn);
      TurnKeeps(t, turn);
      assert ts[1..] == [];
    } else {
      ts, t' := [], t;
    }
  }

  // ---- runs ----

  ghost predicate ByteRun(from: ByteSession, us: seq<ByteTurn>, s: ByteSession)
    decreases |us|
  {
    if us == [] then from == s
    else ByteCanTurn(from, us[0]) && ByteRun(ByteDoTurn(from, us[0]), us[1..], s)
  }

  function NewByteSession(c: Config): ByteSession {
    ByteSession(NewEndpoint(true, c.windowA, c.limitA), NewEndpoint(false, c.windowB, c.limitB), NEW_WIRE, NEW_WIRE)
  }

  lemma {:induction false} RunsConcatenate(a: Session, ts: seq<Turn>, b: Session, us: seq<Turn>, c: Session)
    requires SessionRun(a, ts, b) && SessionRun(b, us, c)
    ensures SessionRun(a, ts + us, c)
    decreases |ts|
  {
    hide DoTurn, CanTurn;
    if ts == [] {
      assert ts + us == us;
    } else {
      RunsConcatenate(DoTurn(a, ts[0]), ts[1..], b, us, c);
      assert (ts + us)[0] == ts[0] && (ts + us)[1..] == ts[1..] + us;
    }
  }

  lemma {:induction false} ByteRunRefines(from: ByteSession, us: seq<ByteTurn>, s: ByteSession, t: Session)
    returns (ts: seq<Turn>, t': Session)
    requires ByteRun(from, us, s) && Refines(from, t) && SessionOk(t)
    ensures SessionRun(t, ts, t') && Refines(s, t') && SessionOk(t')
    decreases |us|
  {
    hide SessionOk, Refines, ByteDoTurn, ByteCanTurn;
    if us == [] {
      ts, t' := [], t;
    } else {
      var first, mid := TurnRefines(from, t, us[0]);
      var more, last := ByteRunRefines(ByteDoTurn(from, us[0]), us[1..], s, mid);
      RunsConcatenate(t, first, mid, more, last);
      ts, t' := first + more, last;
    }
  }

  /** Every state reached over byte wires has the same endpoints as one reached over frame wires. */
  lemma BytesRefineFrames(c: Config, us: seq<ByteTurn>, s: ByteSession)
    returns (ts: seq<Turn>, t: Session)
    requires ByteRun(NewByteSession(c), us, s)
    ensures Runs(c, ts, t) && t.a == s.a && t.b == s.b && Refines(s, t)
  {
    var from, start := NewByteSession(c), NewSession(c);
    NewSessionIsOk(c);
    hide SessionOk;
    assert Refines(from, start);
    ts, t := ByteRunRefines(from, us, s, start);
  }

  /** End-to-end delivery through the codec, for every way the connection cuts the bytes. */
  lemma EndToEndOverBytes(c: Config, us: seq<ByteTurn>, s: ByteSession, id: StreamID)
    requires ByteRun(NewByteSession(c), us, s) && id != 0
    ensures Delivered(s.a, id) <= Sent(s.b, id)
    ensures Delivered(s.b, id) <= Sent(s.a, id)
  {
    hide Runs, ByteRun, Delivered, Sent;
    var ts, t := BytesRefineFrames(c, us, s);
    EndToEndDelivery(c, ts, t, id);
  }

  function ByteFrom(s: ByteSession, left: bool): ByteSession {
    if left then s else ByteSwap(s)
  }

  /** Complete end of stream through the codec. */
  lemma CompleteEofOverBytes(c: Config, us: seq<ByteTurn>, s: ByteSession, left: bool, id: StreamID)
    requires ByteRun(NewByteSession(c), us, s) && id != 0
    requires FinReceived(ByteFrom(s, left).a, id) && HalfOf(ByteFrom(s, left).a, id).port.user.Some?
    ensures var v := ByteFrom(s, left);
      && Sent(v.b, id) == Delivered(v.a, id) + HalfOf(v.a, id).port.user.value.readBuf + [FIN]
      && !HalfInvariants.CanWrite(HalfOf(v.b, id))
  {
    hide Runs, ByteRun, Delivered, Sent, FinReceived, HalfInvariants.CanWrite, HalfOf, Refines;
    var ts, t := BytesRefineFrames(c, us, s);
    CompleteEof(c, ts, t, left, id);
  }

  /** No flow control reset through the codec, when the sender's window is not the larger one. */
  lemma FlowControlNeverTriggersOverBytes(c: Config, us: seq<ByteTurn>, s: ByteSession, left: bool, slot: bool)
    requires ByteRun(NewByteSession(c), us, s) && ByteCan(ByteFrom(s, left), SendPoll(slot))
    requires c.Window(!left) <= c.Window(left)
    ensures var v := ByteFrom(s, left);
      DoSend(HalfOf(v.a, v.a.reader.id), slot).next != Reset(FlowControl)
  {
    hide Runs, ByteRun, DoSend, HalfOf, Refines;
    var ts, t := BytesRefineFrames(c, us, s);
    FlowControlNeverTriggers(c, ts, t, left, slot);
  }

  /**
    Credit conservation through the codec. The frames on their way are those the
    bytes on the wire still decode to; this is stated while the two writers run.
  */
  lemma CreditIsConservedOverBytes(c: Config, us: seq<ByteTurn>, s: ByteSession, left: bool, id: StreamID)
    requires ByteRun(NewByteSession(c), us, s) && id != 0
    ensures var v, sender, receiver := ByteFrom(s, left), c.Window(!left), c.Window(left);
      var x, y := HalfOf(v.a, id), HalfOf(v.b, id);
      var total := Outstanding(y, Only(Rest(v.ba).frames, id), x, Only(Rest(v.ab).frames, id), sender);
      && (id in v.a.mgr.streams && v.a.writing && v.b.writing ==> total + receiver <= v.a.mgr.streams[id].window + sender)
      && (id in v.a.mgr.streams ==>
            Budget(y, sender) + DataBytes(y.port.outbox) + Uncharged(x) + receiver <= v.a.mgr.streams[id].window + sender)
      && (id in v.a.ports && SendLive(y) && RecvLive(x) ==>
            id in v.a.mgr.streams && total + receiver == v.a.mgr.streams[id].window + sender)
      && (y.port.user.Some? && y.made ==>
            forall k :: 0 <= k <= Credit(y.port.inbox) ==>
              Windows.Raise(y.port.user.value.window, sender, k) == y.port.user.value.window + k)
  {
    hide Runs, ByteRun, Budget, Credit, DataBytes, Uncharged, Only, Rest, RecvLive, Windows.Raise;
    var ts, t := BytesRefineFrames(c, us, s);
    CreditIsConserved(c, ts, t, left, id);
    WritingOf(ByteFrom(s, left).b, id);
    WritingOf(ByteFrom(s, left).a, id);
    assert RecvLive(HalfOf(ByteFrom(s, left).a, id)) ==> ByteFrom(s, left).a.writing by { LiveWrites(HalfOf(ByteFrom(s, left).a, id)); }
    hide HalfOf;
  }

  lemma LiveWrites(x: Half)
    ensures RecvLive(x) ==> x.writing
  {
  }
}
