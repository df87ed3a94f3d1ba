/** Exactly which sessions can meet a flow control reset. */
module Overruns {
  import opened Constrained
  import opened MuxErrors
  import opened Frames
  import opened Halves
  import opened HalfInvariants
  import opened Lanes
  import opened Balances
  import opened LaneSteps
  import opened Endpoints
  import opened EndpointInvariants
  import opened Sessions
  import opened SessionTheorems
  import opened SampleRun

  // ---- an endpoint that may not have streams ----

  /** With a stream limit of zero no stream is ever made. */
  predicate Barren(e: Endpoint) {
    e.mgr.limit == 0 && e.ports == map[]
  }

  lemma BarrenStays(e: Endpoint, i: Input)
    requires EndpointOk(e) && Enabled(e, i) && Barren(e)
    ensures Barren(Step(e, i).end)
  {
    hide Step, HalfStep, AllHalves, IdsOk;
    var g := Step(e, i).end;
    StreamsStayWithinLimit(e, i);
    forall id: StreamID ensures id !in g.ports {
      StepView(e, i, id);
      if id in g.ports {
        MadeOnlyBy(e, i, id);
        if i.OpenStream? { OpenedWithinLimit(e, id); } else { FullTakesNothing(e, i, id); }
      }
    }
  }

  lemma FullTakesNothing(e: Endpoint, i: Input, id: StreamID)
    requires Enabled(e, i) && Barren(e) && |e.mgr.streams| == 0 && i.TakeFrame? && i.f.header.streamId == id && i.f.IsSyn()
    ensures !HalfStep(e, i, id).made
  {
  }

  lemma TurnBarren(s: Session, t: Turn, left: bool)
    requires SessionOk(s) && CanTurn(s, t) && Barren(From(s, left).a)
    ensures Barren(From(DoTurn(s, t), left).a)
  {
    hide SessionOk, Step, Barren, Act, CanTake;
    SwapKeeps(s);
    var v := if t.TurnA? then s else Swap(s);
    LanesAfterAct(v, t.i, 1);
    ActEnds(v, t.i);
    assert EndpointOk(v.a) by { EndsOf(v); }
    if t.TurnA? == left {
      BarrenStays(v.a, t.i);
    }
  }

  lemma {:induction false} RunBarren(from: Session, ts: seq<Turn>, s: Session, left: bool)
    requires SessionRun(from, ts, s) && SessionOk(from) && Barren(From(from, left).a)
    ensures Barren(From(s, left).a)
    decreases |ts|
  {
    hide SessionOk, DoTurn, Barren;
    if ts == [] {
    } else {
      TurnKeeps(from, ts[0]);
      TurnBarren(from, ts[0], left);
      RunBarren(DoTurn(from, ts[0]), ts[1..], s, left);
    }
  }

  // ---- what a refusal needs ----

  /** A refusal for want of window needs a stream at the receiver and more data in hand than its window. */
  lemma RefusalNeedsData(h: Half, slot: bool)
    requires h.hand.Some? && h.hand.value.Sending? && DoSend(h, slot).next == Reset(FlowControl)
    ensures h.handle.Some? && h.handle.value.window < h.hand.value.charge
  {
  }

  /** A peer without the stream has put no data on the way. */
  lemma NothingFromNowhere(x: Half, xy: seq<Frame>, y: Half, yx: seq<Frame>, opens: bool, near: nat, far: nat, slot: bool)
    requires Joined(x, xy, y, yx, opens, near, far) && x.hand.Some? && x.hand.value.Sending?
    requires DoSend(x, slot).next == Reset(FlowControl)
    ensures x.made && y.made && far > near
  {
    RefusalNeedsData(x, slot);
    hide Direction, ReaderOk, Balanced, SenderOk, DoSend;
  }

  lemma InHand(e: Endpoint)
    requires e.reader.Holding?
    ensures HalfOf(e, e.reader.id).hand.Some? && HalfOf(e, e.reader.id).hand.value == e.reader.hand
  {
  }

  lemma NoPortNoHalf(e: Endpoint, id: StreamID)
    ensures e.ports == map[] ==> !HalfOf(e, id).made
  {
  }

  lemma RefusalNeedsStreams(v: Session, slot: bool)
    requires SessionOk(v) && Refused(v, slot)
    ensures v.a.ports != map[] && v.b.ports != map[] && v.b.window > v.a.window
  {
    hide SessionOk, DoSend, Joined, Only, Own, HalfOf;
    var id := v.a.reader.id;
    assert id != 0 by { ReaderIdNotZero(v); }
    JoinedAt(v, id);
    InHand(v.a);
    NothingFromNowhere(HalfOf(v.a, id), Only(v.ab, id), HalfOf(v.b, id), Only(v.ba, id), Own(v.a, id), v.a.window, v.b.window, slot);
    NoPortNoHalf(v.a, id);
    NoPortNoHalf(v.b, id);
  }

  /**
    Some run ends in a flow control reset at one end if and only if the other
    end's window is larger and both ends may have streams.
  */
  lemma OverrunsExactlyWhenLarger(c: Config, left: bool, slot: bool)
    ensures (exists ts, s :: Runs(c, ts, s) && Refused(From(s, left), slot))
       <==> c.Window(!left) > c.Window(left) && c.limitA > 0 && c.limitB > 0
  {
    hide Runs, Refused;
    forall ts, s | Runs(c, ts, s) && Refused(From(s, left), slot)
      ensures c.Window(!left) > c.Window(left) && c.limitA > 0 && c.limitB > 0
    {
      FromIsOk(c, ts, s, left);
      RefusalNeedsStreams(From(s, left), slot);
      StreamsNeedLimits(c, ts, s);
    }
    if c.Window(!left) > c.Window(left) && c.limitA > 0 && c.limitB > 0 {
      var ts, s := LargerWindowOverruns(c, left, slot);
    }
  }

  lemma StreamsNeedLimits(c: Config, ts: seq<Turn>, s: Session)
    requires Runs(c, ts, s)
    ensures (s.a.ports != map[] ==> c.limitA > 0) && (s.b.ports != map[] ==> c.limitB > 0)
  {
    hide SessionOk, SessionRun;
    NewSessionIsOk(c);
    if c.limitA == 0 { RunBarren(NewSession(c), ts, s, true); }
    if c.limitB == 0 { RunBarren(NewSession(c), ts, s, false); }
  }
}
