/** Both directions of one stream between two correct endpoints, and every step of one of them. */
module LaneSteps {
  import opened Wrappers
  import opened Constrained
  import opened Frames
  import opened Streams
  import opened StreamManagers
  import opened Flows
  import opened StreamFacts
  import opened Halves
  import opened HalfInvariants
  import opened HalfSteps
  import opened Lanes
  import opened Credits
  import opened Balances

  /** The side that did not open the stream never sends SYN. */
  predicate Acceptor(h: Half) {
    NoSyn(Queued(h)) && (h.port.user.Some? ==> !h.port.user.value.needsSyn)
  }

  /**
    `xy` and `yx` are the frames of this stream on the two wires; `opens` says `x`
    opens it. `near` is the window of `x`'s end and `far` that of `y`'s.
  */
  predicate LaneOk(x: Half, xy: seq<Frame>, y: Half, yx: seq<Frame>, opens: bool, near: nat, far: nat) {
    && Direction(x.port.emitted, x.writing, xy, y, opens)
    && Direction(y.port.emitted, y.writing, yx, x, !opens)
    && ReaderOk(x) && ReaderOk(y)
    && CreditOk(x, xy, y, yx, near, far) && CreditOk(y, yx, x, xy, far, near)
    && Balanced(x, xy, y, yx, near, far) && Balanced(y, yx, x, xy, far, near)
    && Acceptor(if opens then y else x)
  }

  lemma LaneSwap(x: Half, xy: seq<Frame>, y: Half, yx: seq<Frame>, opens: bool, near: nat, far: nat)
    ensures LaneOk(x, xy, y, yx, opens, near, far) == LaneOk(y, yx, x, xy, !opens, far, near)
  {
    hide Direction, ReaderOk, CreditOk, Balanced, Acceptor;
  }

  /** Both invariants of the two ends and the lane between them. */
  predicate Joined(x: Half, xy: seq<Frame>, y: Half, yx: seq<Frame>, opens: bool, near: nat, far: nat) {
    HalfOk(x, near) && HalfOk(y, far) && LaneOk(x, xy, y, yx, opens, near, far)
  }

  // ---- putting a step together ----

  lemma Assemble(x: Half, g: Half, xy: seq<Frame>, put: seq<Frame>, y: Half, taken: seq<Frame>, rest: seq<Frame>, opens: bool, near: nat, far: nat)
    requires LaneOk(x, xy, y, taken + rest, opens, near, far)
    requires Direction(g.port.emitted, g.writing, xy + put, y, opens)
    requires Direction(y.port.emitted, y.writing, rest, g, !opens)
    requires ReaderOk(g) && (opens || Acceptor(g))
    requires Spends(x, g, taken, put, near) && Refunds(x, g, taken, put, near)
    requires SpendsAll(x, g, taken, put, near) && RefundsAll(x, g, taken, put)
    requires !x.made && g.made ==> Balanced(y, rest, g, xy + put, far, near)
    ensures LaneOk(g, xy + put, y, rest, opens, near, far)
  {
    hide Direction, ReaderOk, CreditOk, Acceptor, Spends, Refunds, Balanced, SpendsAll, RefundsAll;
    SenderStepKeepsCredit(x, g, taken, rest, xy, put, y, near, far);
    ReceiverStepKeepsCredit(x, g, taken, rest, xy, put, y, far, near);
    SenderStepKeepsBalance(x, g, taken, rest, xy, put, y, near, far);
    if x.made || !g.made {
      ReceiverStepKeepsBalance(x, g, taken, rest, xy, put, y, far, near);
    }
  }

  /** A step that puts nothing on the wire and takes nothing off it. */
  lemma QuietLane(x: Half, g: Half, xy: seq<Frame>, y: Half, yx: seq<Frame>, opens: bool, near: nat, far: nat)
    requires LaneOk(x, xy, y, yx, opens, near, far)
    requires Spends(x, g, [], [], near) && Refunds(x, g, [], [], near)
    requires SpendsAll(x, g, [], [], near) && RefundsAll(x, g, [], [])
    requires g.port.emitted == x.port.emitted && (g.writing ==> x.writing)
    requires Acceptor(x) ==> Acceptor(g)
    requires g.made == x.made && (g.reading ==> x.reading)
    requires HandFrames(g) == HandFrames(x) || (HandFrames(g) == [] && (RecvOpen(g) ==> Flow(HandFrames(x)) == []))
    requires RecvOpen(g) ==> RecvOpen(x) && Arrived(g) == Arrived(x)
    requires Arrived(g) <= Arrived(x) && AllConforming(g.port.inbox)
    requires ReaderOk(g)
    ensures LaneOk(g, xy, y, yx, opens, near, far)
  {
    hide Direction, ReaderOk, CreditOk, Balanced, Acceptor, Spends, Refunds, SpendsAll, RefundsAll, RecvOpen, AllConforming, Flow, Arrived;
    assert xy + [] == xy && [] + yx == yx;
    QuietReceiverKeeps(y.port.emitted, y.writing, yx, x, g, !opens);
    if g.writing != x.writing {
      StopWritingKeeps(x.port.emitted, x.writing, xy, y, opens);
    }
    Assemble(x, g, xy, [], y, [], yx, opens, near, far);
  }

  // ---- the application's calls ----

  /** What is on its way to `x` ends at the first end mark. */
  lemma ArrivedEndsOnce(x: Half, xy: seq<Frame>, y: Half, yx: seq<Frame>, opens: bool, near: nat, far: nat)
    requires Joined(x, xy, y, yx, opens, near, far)
    ensures Arrived(x) <= Flow(y.port.emitted) <= y.port.sent
    ensures FinLast(y.port.sent) && FinLast(Arrived(x))
  {
    FinLastPrefix(Arrived(x), y.port.sent);
  }

  lemma ReadLane(x: Half, xy: seq<Frame>, y: Half, yx: seq<Frame>, opens: bool, near: nat, far: nat, room: nat, slot: bool)
    requires Joined(x, xy, y, yx, opens, near, far) && Usable(x) && x.made
    ensures LaneOk(DoRead(x, room, slot), xy, y, yx, opens, near, far)
  {
    hide PollRead, Flow, DataBytes, Credit, WndIncFrame, SenderOk, Spends, Refunds, SpendsAll, RefundsAll, Absorbed, FinLast, CreditOk, Balanced, Spells;
    var g := DoRead(x, room, slot);
    var p := x.port;
    var st := p.user.value;
    var o := PollRead(st, p.inbox, InboxEnded(x), SinkOf(x), room, slot);
    ArrivedEndsOnce(x, xy, y, yx, opens, near, far);
    BudgetFits(x, xy, y, yx, opens, near, far);
    ReadStep(x, room, slot, near);
    ReadBalances(x, room, slot, near);
    var taken, mid := ReadFacts(st, p.inbox, InboxEnded(x), SinkOf(x), room, slot);
    FoundTaken(p.inbox, o.inbox, taken);
    var n := if o.result.ReadOk? then |o.result.bytes| else 0;
    assert AllConforming(p.inbox) && AllConforming(o.inbox) by { InboxConforms(x, xy, y, yx, opens, near, far, taken, o.inbox); }
    hide Direction;
    assert g.port.delivered == p.delivered + mid.readBuf[..n];
    AbsorbKeepsReader(x, g, taken, mid, n);
    assert Acceptor(x) ==> Acceptor(g) by {
      OwnFramesConform([], false, n);
      AbsorbedSizes(st, taken, mid);
      NoSynSnoc(x.port.emitted, p.outbox, WndIncFrame(n));
    }
    hide Acceptor, ReaderOk, Arrived;
    QuietLane(x, g, xy, y, yx, opens, near, far);
  }

  lemma NoSynSnoc(a: seq<Frame>, b: seq<Frame>, f: Frame)
    ensures NoSyn(a + b) && !f.IsSyn() ==> NoSyn(a + (b + [f]))
  {
    assert a + (b + [f]) == (a + b) + [f];
  }

  lemma InboxConforms(x: Half, xy: seq<Frame>, y: Half, yx: seq<Frame>, opens: bool, near: nat, far: nat, taken: seq<Frame>, rest: seq<Frame>)
    requires LaneOk(x, xy, y, yx, opens, near, far) && Took(x.port.inbox, rest, taken)
    ensures AllConforming(x.port.inbox) && AllConforming(rest)
  {
    assert forall i :: 0 <= i < |rest| ==> rest[i] == x.port.inbox[|taken| + i];
  }

  lemma BudgetFits(x: Half, xy: seq<Frame>, y: Half, yx: seq<Frame>, opens: bool, near: nat, far: nat)
    requires LaneOk(x, xy, y, yx, opens, near, far)
    ensures Budget(x, near) <= near
  {
  }

  lemma WriteLane(x: Half, xy: seq<Frame>, y: Half, yx: seq<Frame>, opens: bool, near: nat, far: nat, buf: seq<byte>, slot: bool)
    requires Joined(x, xy, y, yx, opens, near, far) && Usable(x) && x.made
    ensures LaneOk(DoWrite(x, buf, slot), xy, y, yx, opens, near, far)
  {
    hide PollWrite, Flow, DataBytes, Credit, DataFrame, WriteLen, SenderOk, Spends, Refunds, SpendsAll, RefundsAll, Absorbed, FinLast, CreditOk, Balanced, Spells;
    var g := DoWrite(x, buf, slot);
    var p := x.port;
    var st := p.user.value;
    var o := PollWrite(st, p.inbox, InboxEnded(x), SinkOf(x), buf, slot);
    ArrivedEndsOnce(x, xy, y, yx, opens, near, far);
    BudgetFits(x, xy, y, yx, opens, near, far);
    WriteStep(x, buf, slot, near);
    WriteBalances(x, buf, slot, near);
    var taken, mid := WriteFacts(st, p.inbox, InboxEnded(x), SinkOf(x), buf, slot);
    FoundTaken(p.inbox, o.inbox, taken);
    assert AllConforming(p.inbox) && AllConforming(o.inbox) by { InboxConforms(x, xy, y, yx, opens, near, far, taken, o.inbox); }
    hide Direction;
    assert g.port.delivered == p.delivered + mid.readBuf[..0];
    AbsorbKeepsReader(x, g, taken, mid, 0);
    assert Acceptor(x) ==> Acceptor(g) by {
      if o.result.WriteOk? {
        OwnFramesConform(buf[..o.result.n], st.needsSyn, 0);
        NoSynSnoc(x.port.emitted, p.outbox, DataFrame(buf[..o.result.n], st.needsSyn));
      }
    }
    hide Acceptor, ReaderOk, Arrived;
    QuietLane(x, g, xy, y, yx, opens, near, far);
  }

  lemma CloseLane(x: Half, xy: seq<Frame>, y: Half, yx: seq<Frame>, opens: bool, near: nat, far: nat, o: CloseOutcome)
    requires Joined(x, xy, y, yx, opens, near, far) && Usable(x) && x.made
    requires o.st == x.port.user.value.(writeClosed := o.st.writeClosed)
    requires o.sink.items == x.port.outbox || o.sink.items == x.port.outbox + [FinFrame()]
    ensures LaneOk(AfterClose(x, o), xy, y, yx, opens, near, far)
  {
    hide Flow, DataBytes, Credit, FinFrame, SenderOk, Spends, Refunds, SpendsAll, RefundsAll, CreditOk, Balanced, Spells, Conforming;
    var g := AfterClose(x, o);
    ClosingStep(x, o, near);
    ClosingBalances(x, o, near);
    OwnFramesConform([], false, 0);
    NoSynSnoc(x.port.emitted, x.port.outbox, FinFrame());
    assert AllConforming(g.port.inbox) by { assert Direction(y.port.emitted, y.writing, yx, x, !opens); }
    hide Direction;
    QuietLane(x, g, xy, y, yx, opens, near, far);
  }

  lemma FlushLane(x: Half, xy: seq<Frame>, y: Half, yx: seq<Frame>, opens: bool, near: nat, far: nat, slot: bool, broken: bool)
    requires Joined(x, xy, y, yx, opens, near, far) && Usable(x) && x.made
    ensures LaneOk(DoFlush(x, slot, broken), xy, y, yx, opens, near, far)
  {
    hide Joined, AfterClose;
    CloseFacts(x.port.user.value, SinkOf(x), slot, slot, broken);
    CloseLane(x, xy, y, yx, opens, near, far, PollFlush(x.port.user.value, SinkOf(x), slot, broken));
  }

  lemma ShutdownLane(x: Half, xy: seq<Frame>, y: Half, yx: seq<Frame>, opens: bool, near: nat, far: nat, slot: bool, flushSlot: bool, broken: bool)
    requires Joined(x, xy, y, yx, opens, near, far) && Usable(x) && x.made
    ensures LaneOk(DoShutdown(x, slot, flushSlot, broken), xy, y, yx, opens, near, far)
  {
    hide Joined, AfterClose, LaneOk;
    CloseFacts(x.port.user.value, SinkOf(x), slot, flushSlot, broken);
    CloseLane(x, xy, y, yx, opens, near, far, PollShutdown(x.port.user.value, SinkOf(x), slot, flushSlot, broken));
  }

  // ---- steps that only close ----

  /** The half lost parts or had flags set, and nothing else. */
  predicate Closes(x: Half, g: Half) {
    && g.made == x.made && (g.reading ==> x.reading) && (g.writing ==> x.writing)
    && g.port.emitted == x.port.emitted && g.port.outbox == x.port.outbox && g.port.sent == x.port.sent
    && g.port.got == x.port.got && g.port.delivered == x.port.delivered
    && ((g.port.user == x.port.user && g.port.inbox == x.port.inbox) || (g.port.user.None? && g.port.inbox == []))
    && ((HandFrames(g) == HandFrames(x) && Uncharged(g) == Uncharged(x))
        || (HandFrames(g) == [] && (HandFrames(x) == [] || !g.reading)))
    && (g.handle.Some? ==>
          && x.handle.Some? && g.handle.value.window == x.handle.value.window
          && (x.handle.value.dataWriteClosed ==> g.handle.value.dataWriteClosed))
    && (x.port.inboxClosed ==> g.port.inboxClosed)
  }

  lemma ClosesSpends(x: Half, g: Half, window: nat)
    requires Closes(x, g) && HalfOk(x, window)
    ensures Spends(x, g, [], [], window) && Refunds(x, g, [], [], window)
    ensures SpendsAll(x, g, [], [], window) && RefundsAll(x, g, [], [])
  {
    hide SenderOk, StreamFrames, AllFromWire, DataBytes, Credit, ByteCount;
    FlowNone();
  }

  lemma CloseOnlyLane(x: Half, g: Half, xy: seq<Frame>, y: Half, yx: seq<Frame>, opens: bool, near: nat, far: nat)
    requires Joined(x, xy, y, yx, opens, near, far) && Closes(x, g)
    ensures LaneOk(g, xy, y, yx, opens, near, far)
  {
    hide Flow, SenderOk, Spends, Refunds, SpendsAll, RefundsAll, CreditOk, Balanced, Spells, Conforming, WindowOk, DataBytes, Credit;
    ClosesSpends(x, g, near);
    FlowNone();
    assert AllConforming(x.port.inbox) by { assert Direction(y.port.emitted, y.writing, yx, x, !opens); }
    hide Direction;
    assert Arrived(g) <= Arrived(x) by {
      if g.port.inbox == [] {
        assert Arrived(g) == g.port.got;
      }
    }
    QuietLane(x, g, xy, y, yx, opens, near, far);
  }

  // ---- the writer ----

  lemma {:induction false} SynHasNothingBefore(a: seq<Frame>, f: Frame, b: seq<Frame>)
    requires SynFirst(a + ([f] + b)) && f.IsSyn() && AllConforming(a) && Conforming(f)
    ensures NoData(a) && f.body.Data?
    decreases |a|
  {
    var all := a + ([f] + b);
    if a == [] {
      assert all == [f] + b;
    } else {
      assert all[1..] == a[1..] + ([f] + b);
      assert all[1..][|a| - 1] == f;
      if !a[0].body.Data? {
        SynHasNothingBefore(a[1..], f, b);
      }
    }
  }

  /** A stream that was made by a SYN has an opener that sent it. */
  lemma OpenerIsMade(x: Half, xy: seq<Frame>, y: Half, yx: seq<Frame>, near: nat, far: nat)
    requires Joined(x, xy, y, yx, false, near, far) && x.made
    ensures y.made
  {
    hide SenderOk, WindowOk;
  }

  lemma PollLane(x: Half, xy: seq<Frame>, y: Half, yx: seq<Frame>, opens: bool, near: nat, far: nat, id: StreamID, io: bool)
    requires Joined(x, xy, y, yx, opens, near, far) && CanPoll(x) && x.handle.Some?
    ensures var e := DoPoll(x, id, io); LaneOk(e.half, xy + e.wire, y, yx, opens, near, far)
  {
    hide Flow, SynFirst, Conforming, FinStops, FinLast, DataBytes, Credit, Spends, Refunds, SpendsAll, RefundsAll, CreditOk, Balanced, Spells, WindowOk, Codec.Encode;
    var e := DoPoll(x, id, io);
    var g := e.half;
    var p := x.port;
    assert x.made;
    assert !opens ==> y.made by { if !opens { OpenerIsMade(x, xy, y, yx, near, far); } }
    PollStep(x, id, io, near);
    PollBalances(x, id, io, near);
    assert Direction(y.port.emitted, y.writing, yx, g, !opens) by { PollReceives(x, xy, y, yx, opens, near, far, id, io); }
    assert opens || Acceptor(g) by { PollAccepts(x, id, io); }
    assert Direction(g.port.emitted, g.writing, xy + e.wire, y, opens) by { PollEmits(x, xy, y, yx, opens, near, far, id, io); }
    assert ReaderOk(g);
    assert [] + yx == yx;
    hide Direction, ReaderOk, Acceptor, DoPoll;
    Assemble(x, g, xy, e.wire, y, [], yx, opens, near, far);
  }

  lemma PollReceives(x: Half, xy: seq<Frame>, y: Half, yx: seq<Frame>, opens: bool, near: nat, far: nat, id: StreamID, io: bool)
    requires Joined(x, xy, y, yx, opens, near, far) && CanPoll(x) && x.handle.Some?
    ensures Direction(y.port.emitted, y.writing, yx, DoPoll(x, id, io).half, !opens)
    ensures ReaderOk(DoPoll(x, id, io).half)
  {
    hide Flow, SynFirst, Conforming, SenderOk, CreditOk, Balanced, Spells, WindowOk, Codec.Encode;
    QuietReceiverKeeps(y.port.emitted, y.writing, yx, x, DoPoll(x, id, io).half, !opens);
  }

  lemma PollAccepts(x: Half, id: StreamID, io: bool)
    requires CanPoll(x) && x.handle.Some?
    ensures Acceptor(x) ==> Acceptor(DoPoll(x, id, io).half)
  {
    hide Flow, Codec.Encode;
    var g := DoPoll(x, id, io).half;
    var p := x.port;
    assert !FinFrame().IsSyn();
    if Acceptor(x) {
      assert forall i :: 0 <= i < |p.emitted| ==> p.emitted[i] == Queued(x)[i];
      if p.outbox != [] {
        assert Queued(x)[|p.emitted|] == p.outbox[0];
        assert p.emitted + [p.outbox[0]] + p.outbox[1..] == Queued(x);
      }
    }
  }

  lemma PollEmits(x: Half, xy: seq<Frame>, y: Half, yx: seq<Frame>, opens: bool, near: nat, far: nat, id: StreamID, io: bool)
    requires Joined(x, xy, y, yx, opens, near, far) && CanPoll(x) && x.handle.Some? && (!opens ==> y.made)
    ensures var e := DoPoll(x, id, io);
      Direction(e.half.port.emitted, e.half.writing, xy + e.wire, y, opens)
  {
    hide Direction, Flow, SynFirst, FinStops, FinLast, ReaderOk, CreditOk, Balanced, Codec.Encode, WindowOk, NoData, Conforming;
    var e := DoPoll(x, id, io);
    var p := x.port;
    assert xy + [] == xy && p.emitted + [] == p.emitted;
    if p.code != 0 && !x.handle.value.needsFin {
    } else if p.outbox != [] || x.handle.value.needsFin {
      var f := if p.outbox != [] then p.outbox[0] else FinFrame();
      assert Conforming(f) && (f.IsSyn() ==> opens && NoData(p.emitted) && f.body.Data?) by { NextFrameFits(x, opens, xy, y, yx, near, far); }
      if e.wire == [] {
        LoseKeeps(p.emitted, true, xy, y, opens, f);
      } else {
        EmitKeeps(p.emitted, xy, y, opens, f, id);
      }
    }
  }

  /** The next frame of a stream is in shape, and a SYN comes before any other data. */
  lemma NextFrameFits(x: Half, opens: bool, xy: seq<Frame>, y: Half, yx: seq<Frame>, near: nat, far: nat)
    requires Joined(x, xy, y, yx, opens, near, far)
    ensures var f := if x.port.outbox != [] then x.port.outbox[0] else FinFrame();
      Conforming(f) && (f.IsSyn() ==> opens && NoData(x.port.emitted) && f.body.Data?)
  {
    hide Direction, Flow, FinStops, FinLast, ReaderOk, CreditOk, Balanced, WindowOk, SynFirst, NoData, Conforming;
    var p := x.port;
    OwnFramesConform([], false, 0);
    if p.outbox != [] && p.outbox[0].IsSyn() {
      var f := p.outbox[0];
      assert p.outbox == [f] + p.outbox[1..];
      assert Queued(x)[|p.emitted|] == f;
      SynHasNothingBefore(p.emitted, f, p.outbox[1..]);
    }
  }

  // ---- the reader ----

  lemma TakeLane(x: Half, xy: seq<Frame>, y: Half, f: Frame, rest: seq<Frame>, opens: bool, near: nat, far: nat, full: bool)
    requires Joined(x, xy, y, [f] + rest, opens, near, far) && x.reading && x.hand.None?
    ensures f.IsSyn() ==> !x.made && !opens
    ensures Conforming(f)
    ensures LaneOk(DoTake(x, f, full, near).half, xy, y, rest, opens, near, far)
  {
    hide Flow, SynFirst, Conforming, FinStops, FinLast, Spends, Refunds, SpendsAll, RefundsAll, CreditOk, Balanced, Spells, WindowOk, SenderOk;
    var yx := [f] + rest;
    assert yx[0] == f && yx[1..] == rest;
    assert Conforming(f) by { assert Direction(y.port.emitted, y.writing, yx, x, !opens); }
    TakeKeeps(y.port.emitted, y.writing, yx, x, !opens, full, near);
    var g := DoTake(x, f, full, near).half;
    Credits.TakeStep(x, f, full, near);
    TakeBalances(x, f, full, near);
    assert xy + [] == xy;
    assert g.port.emitted == x.port.emitted && g.writing == x.writing && (opens || Acceptor(g)) && ReaderOk(g) by {
      TakeReads(x, f, full, near, opens);
    }
    assert !x.made && g.made ==> f.IsSyn() && !full && f.body.Data? by { ConformingKinds(f); }
    hide Direction, ReaderOk, Acceptor, DoTake;
    if !x.made && g.made {
      SynStartsBalance(x, y, f, rest, xy, !opens, near, far);
    }
    Assemble(x, g, xy, [], y, [f], rest, opens, near, far);
  }

  lemma TakeReads(x: Half, f: Frame, full: bool, window: nat, opens: bool)
    requires Linked(x) && ReaderOk(x) && (opens || Acceptor(x)) && (f.IsSyn() ==> !x.made && !opens)
    ensures var g := DoTake(x, f, full, window).half;
      g.port.emitted == x.port.emitted && g.writing == x.writing && (opens || Acceptor(g)) && ReaderOk(g)
  {
    hide StreamFrames, AllFromWire, Undeliverable, Spells, Route;
    if f.IsSyn() {
      FreshReader(Made(x, window, false).(hand := Some(Accepting(f))), window);
    } else {
      hide ReaderOk, Acceptor;
      RouteKeeps(x, f);
      SameReader(x, Route(x, f).half);
    }
  }

  lemma RouteKeeps(x: Half, f: Frame)
    ensures var g := Route(x, f).half; g == x.(hand := g.hand, reading := g.reading)
  {
  }

  lemma SameReader(x: Half, g: Half)
    requires g == x.(hand := g.hand, reading := g.reading)
    ensures ReaderOk(g) == ReaderOk(x) && Acceptor(g) == Acceptor(x)
  {
    hide Spells, NoSyn;
  }

  lemma FreshReader(h: Half, window: nat)
    requires h.port == NewPort(window, false)
    ensures ReaderOk(h) && Acceptor(h)
  {
    assert Queued(h) == [];
  }

  lemma SendLane(x: Half, xy: seq<Frame>, y: Half, yx: seq<Frame>, opens: bool, near: nat, far: nat, slot: bool)
    requires Joined(x, xy, y, yx, opens, near, far) && x.hand.Some? && x.hand.value.Sending?
    ensures LaneOk(DoSend(x, slot).half, xy, y, yx, opens, near, far)
  {
    hide Flow, SynFirst, Conforming, Spends, Refunds, SpendsAll, RefundsAll, CreditOk, Balanced, Spells, RecvOpen, FrameFlow, PollSend, HalfOk, Direction;
    var g := DoSend(x, slot).half;
    assert Conforming(x.hand.value.f) by { HandConforms(x, xy, y, yx, opens, near, far); }
    SendKeeps(y.port.emitted, y.writing, yx, x, !opens, slot, near);
    SendStep(x, slot, near);
    SendBalances(x, slot, near) by { BudgetFits(x, xy, y, yx, opens, near, far); }
    SendShape(x, slot, near);
    assert [] + yx == yx && xy + [] == xy;
    assert g.port.emitted == x.port.emitted && g.port.outbox == x.port.outbox && g.writing == x.writing;
    hide Direction, DoSend;
    Assemble(x, g, xy, [], y, [], yx, opens, near, far);
  }

  lemma AcceptLane(x: Half, xy: seq<Frame>, y: Half, yx: seq<Frame>, opens: bool, near: nat, far: nat, ok: bool)
    requires Joined(x, xy, y, yx, opens, near, far) && x.hand.Some? && x.hand.value.Accepting?
    ensures LaneOk(DoAccept(x, ok).half, xy, y, yx, opens, near, far)
  {
    hide Joined, HalfOk, LaneOk, Conforming;
    var g := DoAccept(x, ok).half;
    assert Conforming(x.hand.value.f) by { HandConforms(x, xy, y, yx, opens, near, far); }
    ConformingKinds(x.hand.value.f);
    CloseOnlyLane(x, g, xy, y, yx, opens, near, far);
  }

  lemma HandConforms(x: Half, xy: seq<Frame>, y: Half, yx: seq<Frame>, opens: bool, near: nat, far: nat)
    requires Joined(x, xy, y, yx, opens, near, far) && HandFrames(x) != []
    ensures Conforming(HandFrames(x)[0])
  {
  }

  // ---- making a stream, and frames from the system queue ----

  lemma OpenLane(x: Half, xy: seq<Frame>, y: Half, yx: seq<Frame>, near: nat, far: nat)
    requires Joined(x, xy, y, yx, true, near, far) && !x.made
    ensures LaneOk(Made(x, near, true), xy, y, yx, true, near, far)
  {
    hide Flow, SynFirst, Conforming, Spends, Refunds, SpendsAll, RefundsAll, CreditOk, Balanced, WindowOk, SenderOk, StreamFrames, AllFromWire;
    var g := Made(x, near, true);
    OpenKeeps(y.port.emitted, y.writing, yx, x, near, true);
    MadeStep(x, near, true);
    MadeBalances(x, near, true);
    OpenStartsBalance(x, xy, y, yx, near, far);
    assert [] + yx == yx && xy + [] == xy;
    assert ReaderOk(g) && g.port.emitted == x.port.emitted && g.writing == x.writing;
    hide Direction, ReaderOk, Acceptor;
    Assemble(x, g, xy, [], y, [], yx, true, near, far);
  }

  lemma RstLane(x: Half, xy: seq<Frame>, y: Half, yx: seq<Frame>, opens: bool, near: nat, far: nat, f: Frame)
    requires Joined(x, xy, y, yx, opens, near, far) && Conforming(f) && f.body.Rst?
    ensures LaneOk(x, xy + [f], y, yx, opens, near, far)
  {
    hide Flow, SynFirst, Conforming, CreditOk, Balanced, SenderOk, StreamFrames, AllFromWire, DataBytes, Credit;
    SystemFrameKeeps(x.port.emitted, x.writing, xy, y, opens, f);
    FlowNone();
    FlowOne(f);
    assert [] + yx == yx;
    assert Spends(x, x, [], [f], near) && Refunds(x, x, [], [f], near);
    assert SpendsAll(x, x, [], [f], near) && RefundsAll(x, x, [], [f]);
    hide Direction, ReaderOk, Acceptor, Spends, Refunds, SpendsAll, RefundsAll;
    Assemble(x, x, xy, [f], y, [], yx, opens, near, far);
  }
}
