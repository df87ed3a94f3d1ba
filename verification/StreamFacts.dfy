/** What the polls of a stream do to its buffers, windows and queues. */
module StreamFacts {
  import opened Constrained
  import opened MuxErrors
  import opened Frames
  import opened StreamOutput
  import opened Streams
  import opened Flows

  function Payloads(fs: seq<Frame>): seq<byte> {
    if fs == [] then [] else Payload(fs[0]) + Payloads(fs[1..])
  }

  lemma {:induction false} PayloadsLength(fs: seq<Frame>)
    ensures |Payloads(fs)| == DataBytes(fs)
    decreases |fs|
  {
    if fs == [] {
    } else {
      PayloadsLength(fs[1..]);
    }
  }

  /** The effect of absorbing the frames `fs`, apart from the closed flag. */
  ghost predicate Absorbed(st: StreamState, fs: seq<Frame>, out: StreamState) {
    && out.readBuf == st.readBuf + Payloads(fs)
    && out.maxWindow == st.maxWindow && out.writeClosed == st.writeClosed && out.needsSyn == st.needsSyn
    && st.window <= out.window <= st.maxWindow
    && (st.window + Credit(fs) <= st.maxWindow ==> out.window == st.window + Credit(fs))
    && (st.dataReadClosed ==> out.dataReadClosed)
    && (FIN in Flow(fs) ==> out.dataReadClosed)
  }

  /** `taken` frames left the front of the inbox. */
  ghost predicate Took(inbox: seq<Frame>, rest: seq<Frame>, taken: seq<Frame>) {
    inbox == taken + rest
  }

  lemma ConsFlows(f: Frame, fs: seq<Frame>)
    ensures Payloads([f] + fs) == Payload(f) + Payloads(fs)
    ensures Flow([f] + fs) == FrameFlow(f) + Flow(fs) && Credit([f] + fs) == FrameCredit(f) + Credit(fs)
  {
    hide Payload, FrameFlow, FrameCredit;
    assert ([f] + fs)[1..] == fs;
  }

  lemma AbsorbEffect(st: StreamState, f: Frame)
    requires StreamFrame(f) && st.window <= st.maxWindow
    ensures var mid := Absorb(st, f);
      && mid.readBuf == st.readBuf + Payload(f)
      && mid == st.(readBuf := mid.readBuf, window := mid.window, dataReadClosed := mid.dataReadClosed)
      && st.window <= mid.window <= st.maxWindow
      && (st.window + FrameCredit(f) <= st.maxWindow ==> mid.window == st.window + FrameCredit(f))
      && (st.dataReadClosed || FIN in FrameFlow(f) ==> mid.dataReadClosed)
  {
    assert st.readBuf + [] == st.readBuf;
    assert FIN in FrameFlow(f) ==> f.IsFin();
  }

  lemma AbsorbedStep(st: StreamState, f: Frame, fs: seq<Frame>, out: StreamState)
    requires StreamFrame(f) && st.window <= st.maxWindow
    requires Absorbed(Absorb(st, f), fs, out)
    ensures Absorbed(st, [f] + fs, out)
  {
    hide Absorb, Payloads, Payload, Flow, FrameFlow, Credit, FrameCredit;
    ConsFlows(f, fs);
    AbsorbEffect(st, f);
    assert st.readBuf + Payload(f) + Payloads(fs) == st.readBuf + (Payload(f) + Payloads(fs));
  }

  lemma AbsorbedNothing(st: StreamState)
    requires st.window <= st.maxWindow
    ensures Absorbed(st, [], st) && Absorbed(st, [], st.(dataReadClosed := true))
  {
    assert st.readBuf + Payloads([]) == st.readBuf;
  }

  lemma AbsorbedOne(st: StreamState, f: Frame)
    requires StreamFrame(f) && st.window <= st.maxWindow
    ensures var mid := Absorb(st, f);
      && Absorbed(st, [f], mid) && mid.window <= mid.maxWindow
      && (mid.dataReadClosed ==> st.dataReadClosed || FIN in FrameFlow(f))
  {
    AbsorbedNothing(Absorb(st, f));
    AbsorbedStep(st, f, [], Absorb(st, f));
    assert [f] + [] == [f];
    if f.IsFin() {
      var flow := FrameFlow(f);
      assert flow[|flow| - 1] == FIN;
    }
  }

  lemma {:induction false} RecvFacts(st: StreamState, inbox: seq<Frame>, closed: bool, target: HeaderType) returns (taken: seq<Frame>)
    requires StreamFrames(inbox) && st.window <= st.maxWindow
    ensures var r := RecvType(st, inbox, closed, target);
      && Took(inbox, r.inbox, taken)
      && Absorbed(st, taken, r.st)
      && (r.st.dataReadClosed ==> st.dataReadClosed || closed || FIN in Flow(taken))
    decreases |inbox|
  {
    hide Absorbed, Absorb, Flow, FrameFlow, StreamFrames;
    if inbox == [] {
      taken := [];
      AbsorbedNothing(st);
    } else {
      var f := inbox[0];
      assert StreamFrame(f) && StreamFrames(inbox[1..]) by { FirstStreamFrame(inbox); }
      var mid := Absorb(st, f);
      AbsorbedOne(st, f);
      FlowOne(f);
      assert inbox == [f] + inbox[1..];
      if f.header.typ == target {
        taken := [f];
      } else {
        var more := RecvFacts(mid, inbox[1..], closed, target);
        taken := [f] + more;
        AbsorbedStep(st, f, more, RecvType(mid, inbox[1..], closed, target).st);
        FlowAppend([f], more);
      }
    }
  }

  lemma FirstStreamFrame(fs: seq<Frame>)
    requires StreamFrames(fs) && fs != []
    ensures StreamFrame(fs[0]) && StreamFrames(fs[1..])
  {
  }

  lemma {:induction false} PayloadsAppend(a: seq<Frame>, b: seq<Frame>)
    ensures Payloads(a + b) == Payloads(a) + Payloads(b)
    decreases |a|
  {
    if a == [] {
      assert a + b == b;
    } else {
      PayloadsAppend(a[1..], b);
      assert (a + b)[1..] == a[1..] + b;
    }
  }

  lemma AbsorbedTwice(st: StreamState, a: seq<Frame>, mid: StreamState, b: seq<Frame>, out: StreamState)
    requires Absorbed(st, a, mid) && Absorbed(mid, b, out)
    ensures Absorbed(st, a + b, out)
  {
    hide Payloads, Flow, Credit;
    PayloadsAppend(a, b);
    FlowAppend(a, b);
    CreditAppend(a, b);
    assert st.readBuf + Payloads(a) + Payloads(b) == st.readBuf + Payloads(a + b);
  }

  /**
    `poll_read`: absorb some frames, then hand over the first `n` buffered bytes
    and, unless the sink is closed, queue the matching credit.
  */
  lemma {:induction false} ReadFacts(st: StreamState, inbox: seq<Frame>, closed: bool, sink: Sink, room: nat, slot: bool)
    returns (taken: seq<Frame>, mid: StreamState)
    requires StreamFrames(inbox) && st.window <= st.maxWindow
    ensures var o := PollRead(st, inbox, closed, sink, room, slot);
      var n := if o.result.ReadOk? then |o.result.bytes| else 0;
      && Took(inbox, o.inbox, taken)
      && Absorbed(st, taken, mid)
      && n <= |mid.readBuf| && n <= WNDINC_MAX && n <= room
      && (o.result.ReadOk? ==> o.result.bytes == mid.readBuf[..n])
      && o.st == mid.(readBuf := mid.readBuf[n..])
      && (o.st.dataReadClosed ==> st.dataReadClosed || closed || FIN in Flow(taken))
      && o.sink.connected == sink.connected
      && (sink.connected || sink.code != 0 ==> o.sink.code == sink.code)
      && (n > 0 && sink.connected && sink.code == 0 ==> o.sink.items == sink.items + [WndIncFrame(n)])
      && (n == 0 || !sink.connected || sink.code != 0 ==> o.sink.items == sink.items)
    decreases |inbox|, !st.dataReadClosed
  {
    hide RecvType, Flow, StreamFrames;
    if st.readBuf != [] || st.dataReadClosed {
      taken, mid := [], st;
      AbsorbedNothing(st);
    } else {
      hide Absorbed;
      var r := RecvType(st, inbox, closed, DataType);
      taken := RecvFacts(st, inbox, closed, DataType);
      mid := r.st;
      assert mid.window <= mid.maxWindow by { AbsorbedWindow(st, taken, mid); }
      if r.ready {
        var more, last := ReadFacts(mid, r.inbox, closed, sink, room, slot);
        AbsorbedTwice(st, taken, mid, more, last);
        FlowAppend(taken, more);
        TookTwice(inbox, taken, r.inbox, more, PollRead(mid, r.inbox, closed, sink, room, slot).inbox);
        taken, mid := taken + more, last;
      }
    }
  }

  lemma AbsorbedWindow(st: StreamState, fs: seq<Frame>, out: StreamState)
    requires Absorbed(st, fs, out)
    ensures out.window <= out.maxWindow
  {
  }

  lemma TookTwice(inbox: seq<Frame>, a: seq<Frame>, rest: seq<Frame>, b: seq<Frame>, last: seq<Frame>)
    requires Took(inbox, rest, a) && Took(rest, last, b)
    ensures Took(inbox, last, a + b)
  {
  }

  /** `poll_write`: absorb frames only when out of credit, then queue at most one DATA frame. */
  lemma WriteFacts(st: StreamState, inbox: seq<Frame>, closed: bool, sink: Sink, buf: seq<byte>, slot: bool)
    returns (taken: seq<Frame>, mid: StreamState)
    requires StreamFrames(inbox) && st.window <= st.maxWindow
    ensures var o := PollWrite(st, inbox, closed, sink, buf, slot);
      && Took(inbox, o.inbox, taken)
      && Absorbed(st, taken, mid)
      && (mid.dataReadClosed ==> st.dataReadClosed || closed || FIN in Flow(taken))
      && o.sink.connected == sink.connected
      && (sink.connected || sink.code != 0 ==> o.sink.code == sink.code)
      && (if o.result.WriteOk? then
            && st.writeClosed.None? && sink.connected && sink.code == 0
            && o.result.n <= mid.window && o.result.n <= |buf| && o.result.n <= LENGTH_MAX
            && o.result.n == WriteLen(mid.window, |buf|)
            && o.st == mid.(needsSyn := false, window := mid.window - o.result.n)
            && o.sink.items == sink.items + [DataFrame(buf[..o.result.n], st.needsSyn)]
          else
            && o.sink.items == sink.items
            && o.st == mid.(writeClosed := o.st.writeClosed, needsSyn := o.st.needsSyn)
            && (o.st.needsSyn ==> st.needsSyn) && (st.writeClosed.Some? ==> o.st.writeClosed.Some?)
            && (o.st.needsSyn == st.needsSyn || o.st.writeClosed.Some?))
  {
    if st.writeClosed.None? && st.window == 0 {
      taken := RecvFacts(st, inbox, closed, WndIncType);
      mid := RecvType(st, inbox, closed, WndIncType).st;
    } else {
      taken, mid := [], st;
      assert Payloads([]) == [] && Flow([]) == [];
    }
  }

  /** A read hands over the front of the unread bytes and leaves the rest. */
  lemma ReadTakesFront(st: StreamState, inbox: seq<Frame>, closed: bool, sink: Sink, room: nat, slot: bool)
    requires StreamFrames(inbox) && st.window <= st.maxWindow
    ensures var o := PollRead(st, inbox, closed, sink, room, slot);
      && st.readBuf + Payloads(inbox)
         == (if o.result.ReadOk? then o.result.bytes else []) + (o.st.readBuf + Payloads(o.inbox))
      && (o.result.ReadOk? ==> |o.result.bytes| <= room)
      && o.st.window <= o.st.maxWindow
  {
    hide PollRead, Payloads, Flow, Credit, StreamFrames;
    var o := PollRead(st, inbox, closed, sink, room, slot);
    var taken, mid := ReadFacts(st, inbox, closed, sink, room, slot);
    PayloadsAppend(taken, o.inbox);
    var n := if o.result.ReadOk? then |o.result.bytes| else 0;
    CutFront(st.readBuf, Payloads(taken), Payloads(o.inbox), n);
  }

  lemma CutFront(a: seq<byte>, b: seq<byte>, c: seq<byte>, n: nat)
    requires n <= |a + b|
    ensures a + (b + c) == (a + b)[..n] + ((a + b)[n..] + c)
  {
  }

  /** A write leaves the unread bytes alone. */
  lemma WriteKeepsUnread(st: StreamState, inbox: seq<Frame>, closed: bool, sink: Sink, buf: seq<byte>, slot: bool)
    requires StreamFrames(inbox) && st.window <= st.maxWindow
    ensures var o := PollWrite(st, inbox, closed, sink, buf, slot);
      st.readBuf + Payloads(inbox) == o.st.readBuf + Payloads(o.inbox)
  {
    hide PollWrite, Payloads, Flow, Credit, StreamFrames, DataFrame, WriteLen;
    var o := PollWrite(st, inbox, closed, sink, buf, slot);
    var taken, mid := WriteFacts(st, inbox, closed, sink, buf, slot);
    PayloadsAppend(taken, o.inbox);
    CutFront(st.readBuf, Payloads(taken), Payloads(o.inbox), 0);
  }

  /**
    `poll_shutdown` queues one FIN exactly when the write side is open and the sink
    takes it, and closes the write side then or with the sink's error; `poll_flush`
    queues nothing.
  */
  lemma CloseFacts(st: StreamState, sink: Sink, slot: bool, flushSlot: bool, broken: bool)
    ensures var o := PollShutdown(st, sink, slot, flushSlot, broken);
      && o.sink.connected == sink.connected
      && (sink.connected || sink.code != 0 ==> o.sink.code == sink.code)
      && o.st == st.(writeClosed := o.st.writeClosed)
      && (o.st.writeClosed.None? <==> st.writeClosed.None? && sink.code == 0 && sink.connected && !slot)
      && o.sink.items == if st.writeClosed.None? && sink.code == 0 && sink.connected && slot
                         then sink.items + [Frame(Header(0, DataType, Flags(true, false), 0), Data([]))] else sink.items
    ensures var o := PollFlush(st, sink, slot, broken);
      && o.sink.connected == sink.connected
      && (sink.connected || sink.code != 0 ==> o.sink.code == sink.code)
      && o.st == st.(writeClosed := o.st.writeClosed)
      && (st.writeClosed.Some? ==> o.st.writeClosed.Some?)
      && o.sink.items == sink.items
  {
    hide ErrorOf, ErrorCode;
  }
}
