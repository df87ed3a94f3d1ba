/**
  What each poll of a stream answers, in terms of what it finds: the inbox, the
  credit, the state of the sink.
*/
module StreamOutcomes {
  import opened Wrappers
  import opened Constrained
  import opened MuxErrors
  import opened Frames
  import opened StreamOutput
  import opened Streams
  import opened StreamFacts

  // ---- closing ----

  /** Whether a sink is unusable, and the error it reports then. */
  predicate Fails(sink: Sink, e: Error) {
    if sink.code != 0 then e == ErrorOf(sink.code) else !sink.connected && e == SessionClosed
  }

  /** The sink after an operation on it: one that finds the receiver gone leaves the code of "session closed". */
  predicate Noticed(sink: Sink, after: Sink, failed: bool) {
    after.connected == sink.connected && after.code == if failed && sink.code == 0 then 0x0E else sink.code
  }

  /**
    `poll_flush`: the sink's error, once, and for good as the reason of later
    writes; otherwise done as soon as the channel has drained.
  */
  lemma FlushOutcome(st: StreamState, sink: Sink, slot: bool, broken: bool)
    ensures var o := PollFlush(st, sink, slot, broken);
      var failed := sink.code != 0 || (broken && !sink.connected);
      && (if failed then o.result.Ready? && o.result.result.Err? && Fails(sink, o.result.result.error)
          else o.result == if slot then Ready(Ok(())) else Pending)
      && o.st == (if failed then st.(writeClosed := Some(o.result.result.error)) else st)
      && o.sink.items == sink.items && Noticed(sink, o.sink, failed)
  {
    hide ErrorOf;
  }

  /**
    `poll_shutdown`. One empty DATA frame with FIN and nothing else is queued
    exactly when the write side is open and the sink takes it. The poll is done
    when a FIN was sent, now or earlier, and the channel has drained; it fails with
    the sink's error; it waits otherwise.
  */
  lemma ShutdownOutcome(st: StreamState, sink: Sink, slot: bool, flushSlot: bool, broken: bool)
    ensures var o := PollShutdown(st, sink, slot, flushSlot, broken);
      var failed := sink.code != 0 || (!sink.connected && (st.writeClosed.None? || broken));
      && o.sink.items == (if st.writeClosed.None? && sink.code == 0 && sink.connected && slot
           then sink.items + [Frame(Header(0, DataType, Flags(true, false), 0), Data([]))] else sink.items)
      && (if failed then o.result.Ready? && o.result.result.Err? && Fails(sink, o.result.result.error)
          else o.result == if (st.writeClosed.Some? || slot) && flushSlot then Ready(Ok(())) else Pending)
      && o.st == st.(writeClosed :=
           if failed then Some(o.result.result.error)
           else if st.writeClosed.None? && slot then Some(StreamClosed) else st.writeClosed)
      && Noticed(sink, o.sink, failed)
  {
    hide ErrorOf;
  }

  // ---- receiving ----

  /** The first frame with a header of type `t` is number `k`; there is none when `k` is the length. */
  predicate FirstOfType(fs: seq<Frame>, t: HeaderType, k: nat) {
    && k <= |fs|
    && (forall j :: 0 <= j < k ==> fs[j].header.typ != t)
    && (k < |fs| ==> fs[k].header.typ == t)
  }

  predicate AnyFin(fs: seq<Frame>) {
    exists j :: 0 <= j < |fs| && fs[j].IsFin()
  }

  /** The frames that a wait for type `t` takes: up to the first one of that type, or all. */
  function Until(fs: seq<Frame>, k: nat): seq<Frame>
    requires k <= |fs|
  {
    if k < |fs| then fs[..k + 1] else fs
  }

  /**
    `poll_recv_frame_type` stops at the first frame of the wanted type and takes
    that one. Without one it takes them all, and the wait is over only at the end of
    the inbox.
  */
  lemma {:induction false} ReceiveStopsAtFirst(st: StreamState, inbox: seq<Frame>, closed: bool, target: HeaderType, k: nat)
    requires StreamFrames(inbox) && FirstOfType(inbox, target, k)
    ensures var r := RecvType(st, inbox, closed, target);
      && inbox == Until(inbox, k) + r.inbox
      && r.ready == (k < |inbox| || closed)
      && (r.st.dataReadClosed <==> st.dataReadClosed || AnyFin(Until(inbox, k)) || (k == |inbox| && closed))
    decreases |inbox|
  {
    hide Absorb, AnyFin, StreamFrames, RecvType;
    RecvUnfolds(st, inbox, closed, target);
    if inbox == [] {
      assert !AnyFin([]) by { AnyFinOf([]); }
    } else {
      var f, rest := inbox[0], inbox[1..];
      FirstStreamFrame(inbox);
      var mid := Absorb(st, f);
      AbsorbedFin(st, f);
      AnyFinOf([]);
      if f.header.typ == target {
        assert k == 0 && Until(inbox, k) == [f] + [];
        AnyFinCons(f, []);
      } else {
        FirstInRest(inbox, target, k);
        hide FirstOfType;
        ReceiveStopsAtFirst(mid, rest, closed, target, k - 1);
        AnyFinCons(f, Until(rest, k - 1));
        assert Until(inbox, k) == [f] + Until(rest, k - 1);
      }
    }
  }

  lemma RecvUnfolds(st: StreamState, inbox: seq<Frame>, closed: bool, target: HeaderType)
    requires StreamFrames(inbox)
    ensures RecvType(st, inbox, closed, target) ==
      if inbox == [] then Received(if closed then st.(dataReadClosed := true) else st, [], closed)
      else if inbox[0].header.typ == target then Received(Absorb(st, inbox[0]), inbox[1..], true)
      else RecvType(Absorb(st, inbox[0]), inbox[1..], closed, target)
  {
    hide Absorb;
  }

  lemma AbsorbedFin(st: StreamState, f: Frame)
    requires StreamFrame(f)
    ensures Absorb(st, f).dataReadClosed == (st.dataReadClosed || f.IsFin())
  {
  }

  lemma AnyFinOf(fs: seq<Frame>)
    ensures fs == [] ==> !AnyFin(fs)
  {
  }

  lemma FirstInRest(fs: seq<Frame>, t: HeaderType, k: nat)
    requires fs != [] && FirstOfType(fs, t, k) && fs[0].header.typ != t
    ensures k > 0 && FirstOfType(fs[1..], t, k - 1)
  {
  }

  lemma AnyFinCons(f: Frame, fs: seq<Frame>)
    ensures AnyFin([f] + fs) <==> f.IsFin() || AnyFin(fs)
  {
    var all := [f] + fs;
    assert f.IsFin() ==> all[0].IsFin();
    forall j | 0 <= j < |fs| && fs[j].IsFin() ensures AnyFin(all) {
      assert all[j + 1].IsFin();
    }
  }

  // ---- reading ----

  /** The smaller of a number and a bound, after the number was cut to 32 bits. */
  function Cut(n: nat, bound: nat): (r: nat)
    ensures r <= n && r <= bound
  {
    var m := n % 0x1_0000_0000;
    if m <= bound then m else bound
  }

  /** Every frame's header type is that of its body. */
  predicate Typed(fs: seq<Frame>) {
    forall j :: 0 <= j < |fs| ==> fs[j].header.typ == TypeOfBody(fs[j].body)
  }

  /** The answer to a read of a stream in state `st` that has something to say: bytes, or the end. */
  predicate ReadAnswer(st: StreamState, sink: Sink, room: nat, slot: bool, o: ReadOutcome) {
    var n := Cut(if |st.readBuf| <= room then |st.readBuf| else room, 0x7FFF_FFFF);
    if n == 0 then o.st == st && o.sink == sink && o.result == ReadOk([])
    else if sink.code == 0 && sink.connected && !slot then o.st == st && o.sink == sink && o.result == ReadPending
    else
      && o.st == st.(readBuf := st.readBuf[n..]) && o.result == ReadOk(st.readBuf[..n])
      && o.sink.items == (if sink.code == 0 && sink.connected
           then sink.items + [Frame(Header(4, WndIncType, Flags(false, false), 0), WndInc(n))] else sink.items)
      && Noticed(sink, o.sink, sink.code != 0 || !sink.connected)
  }

  /** The end was reached, as far as the receive loop notices: it looks only when a DATA frame or the end of the inbox stops it. */
  predicate EndSeen(st: StreamState, taken: seq<Frame>, mid: StreamState, closed: bool) {
    mid.dataReadClosed && (st.dataReadClosed || closed || (taken != [] && taken[|taken| - 1].header.typ == DataType))
  }

  /** `taken` is just enough of the inbox to have bytes or see the end; `mid` is the stream after absorbing it. */
  ghost predicate JustEnough(st: StreamState, inbox: seq<Frame>, rest: seq<Frame>, taken: seq<Frame>, mid: StreamState, closed: bool) {
    && inbox == taken + rest && Absorbed(st, taken, mid)
    && (st.readBuf != [] || st.dataReadClosed ==> taken == [])
    && (taken == [] ==> mid == st || closed)
    && (taken != [] ==> Payloads(taken[..|taken| - 1]) == [])
  }

  /**
    `poll_read`. It absorbs frames until there are bytes to read or the end is
    seen, and not one frame more than that takes. Then it hands over the front of
    the buffer and returns as much credit, even when the sink is closed; it waits
    for a place to put the credit; and it reports the end as an empty read. With
    neither bytes nor the end it has emptied the inbox and waits.
  */
  lemma {:induction false} ReadOutcomes(st: StreamState, inbox: seq<Frame>, closed: bool, sink: Sink, room: nat, slot: bool)
    returns (taken: seq<Frame>, mid: StreamState)
    requires StreamFrames(inbox) && Typed(inbox) && st.window <= st.maxWindow
    ensures var o := PollRead(st, inbox, closed, sink, room, slot);
      && JustEnough(st, inbox, o.inbox, taken, mid, closed)
      && if mid.readBuf != [] || EndSeen(st, taken, mid, closed) then ReadAnswer(mid, sink, room, slot, o)
         else o == ReadOutcome(mid, [], sink, ReadPending) && !closed
    decreases |inbox|, !st.dataReadClosed
  {
    hide RecvType, StreamFrames, Absorbed, Typed, PollRead, ReadAnswer;
    if st.readBuf != [] || st.dataReadClosed {
      taken, mid := [], st;
      AbsorbedNothing(st);
      ReadAnswers(st, inbox, closed, sink, room, slot);
    } else {
      var r := RecvType(st, inbox, closed, DataType);
      ReadWaits(st, inbox, closed, sink, room, slot);
      mid := r.st;
      taken := ReceivedData(st, inbox, closed);
      AbsorbedBuffer(st, taken, mid);
      if r.ready {
        var more, last := ReadOutcomes(mid, r.inbox, closed, sink, room, slot);
        EnoughTwice(st, inbox, r.inbox, PollRead(mid, r.inbox, closed, sink, room, slot).inbox, taken, mid, more, last, closed);
        taken, mid := taken + more, last;
      }
    }
  }

  /** Receiving once and then reading on takes just enough. */
  lemma EnoughTwice(
      st: StreamState, inbox: seq<Frame>, rest: seq<Frame>, left: seq<Frame>,
      taken: seq<Frame>, mid: StreamState, more: seq<Frame>, last: StreamState, closed: bool)
    requires st.readBuf == [] && !st.dataReadClosed
    requires inbox == taken + rest && Absorbed(st, taken, mid) && JustEnough(mid, rest, left, more, last, closed)
    requires taken == [] ==> mid == st || closed
    requires taken != [] ==> Payloads(taken[..|taken| - 1]) == []
    requires (closed && mid.dataReadClosed) || (taken != [] && taken[|taken| - 1].header.typ == DataType)
    ensures JustEnough(st, inbox, left, taken + more, last, closed)
    ensures EndSeen(st, taken + more, last, closed) == EndSeen(mid, more, last, closed)
  {
    hide Absorbed, Payloads;
    AbsorbedTwice(st, taken, mid, more, last);
    AbsorbedBuffer(st, taken, mid);
    TookMore(taken, more);
    assert taken + (more + left) == (taken + more) + left;
  }

  lemma ReadAnswers(st: StreamState, inbox: seq<Frame>, closed: bool, sink: Sink, room: nat, slot: bool)
    requires StreamFrames(inbox) && (st.readBuf != [] || st.dataReadClosed)
    ensures var o := PollRead(st, inbox, closed, sink, room, slot);
      ReadAnswer(st, sink, room, slot, o) && o.inbox == inbox
  {
    hide RecvType, ErrorOf;
  }

  /** A wait for data takes no payload before the frame it stops at. */
  lemma ReceivedData(st: StreamState, inbox: seq<Frame>, closed: bool) returns (taken: seq<Frame>)
    requires StreamFrames(inbox) && Typed(inbox) && st.window <= st.maxWindow
    ensures var r := RecvType(st, inbox, closed, DataType);
      && inbox == taken + r.inbox && Absorbed(st, taken, r.st) && r.st.window <= r.st.maxWindow
      && StreamFrames(r.inbox) && Typed(r.inbox)
      && (taken == [] ==> r.st == st || closed)
      && (taken != [] ==> Payloads(taken[..|taken| - 1]) == [])
      && (r.ready ==> (closed && r.st.dataReadClosed) || (taken != [] && taken[|taken| - 1].header.typ == DataType))
      && (!r.ready ==> r.inbox == [] && !closed && Payloads(taken) == [] && (taken != [] ==> taken[|taken| - 1].header.typ != DataType))
  {
    EmptyInbox(st, closed);
    hide RecvType, StreamFrames, Absorbed;
    var k := FindType(inbox, DataType);
    ReceiveStopsAtFirst(st, inbox, closed, DataType, k);
    taken := RecvFacts(st, inbox, closed, DataType);
    CutEqual(taken, Until(inbox, k), RecvType(st, inbox, closed, DataType).inbox);
    AbsorbedWindow(st, taken, RecvType(st, inbox, closed, DataType).st);
    NoPayload(inbox[..k]);
    assert taken != [] ==> taken[..|taken| - 1] == if k < |inbox| then inbox[..k] else inbox[..k][..|taken| - 1];
    if taken != [] && k == |inbox| { NoPayload(inbox[..k][..|taken| - 1]); assert inbox[..k] == taken; }
  }

  lemma EmptyInbox(st: StreamState, closed: bool)
    ensures !closed ==> RecvType(st, [], closed, DataType).st == st
  {
  }

  lemma {:induction false} FindType(fs: seq<Frame>, t: HeaderType) returns (k: nat)
    ensures FirstOfType(fs, t, k)
    decreases |fs|
  {
    if fs == [] || fs[0].header.typ == t {
      k := 0;
    } else {
      var j := FindType(fs[1..], t);
      k := j + 1;
      assert forall i :: 0 < i <= |fs| - 1 ==> fs[i] == fs[1..][i - 1];
    }
  }

  lemma CutEqual(a: seq<Frame>, b: seq<Frame>, rest: seq<Frame>)
    requires a + rest == b + rest
    ensures a == b
  {
    assert |a| == |b|;
    assert a == (a + rest)[..|a|] && b == (b + rest)[..|b|];
  }

  lemma {:induction false} NoPayload(fs: seq<Frame>)
    requires Typed(fs) && forall j :: 0 <= j < |fs| ==> fs[j].header.typ != DataType
    ensures Payloads(fs) == []
    decreases |fs|
  {
    if fs == [] {
    } else {
      assert fs[0].header.typ == TypeOfBody(fs[0].body);
      NoPayload(fs[1..]);
    }
  }

  lemma AbsorbedBuffer(st: StreamState, fs: seq<Frame>, out: StreamState)
    requires Absorbed(st, fs, out)
    ensures out.readBuf == st.readBuf + Payloads(fs)
  {
  }

  lemma TookMore(a: seq<Frame>, b: seq<Frame>)
    ensures b != [] ==> (a + b)[|a + b| - 1] == b[|b| - 1] && (a + b)[..|a + b| - 1] == a + b[..|b| - 1]
    ensures b != [] ==> Payloads((a + b)[..|a + b| - 1]) == Payloads(a) + Payloads(b[..|b| - 1])
    ensures b == [] ==> a + b == a
  {
    if b != [] {
      assert (a + b)[..|a + b| - 1] == a + b[..|b| - 1];
      PayloadsAppend(a, b[..|b| - 1]);
    }
  }

  lemma ReadWaits(st: StreamState, inbox: seq<Frame>, closed: bool, sink: Sink, room: nat, slot: bool)
    requires StreamFrames(inbox) && st.readBuf == [] && !st.dataReadClosed
    ensures var r := RecvType(st, inbox, closed, DataType);
      PollRead(st, inbox, closed, sink, room, slot) ==
        if r.ready then PollRead(r.st, r.inbox, closed, sink, room, slot) else ReadOutcome(r.st, r.inbox, sink, ReadPending)
  {
    hide RecvType;
  }

  // ---- writing ----

  /** The answer to an attempt to queue bytes of `buf` from state `st`. */
  predicate WriteAnswer(st: StreamState, sink: Sink, buf: seq<byte>, slot: bool, o: WriteOutcome) {
    if sink.code != 0 || !sink.connected then
      && o.result.ConnectionReset? && Fails(sink, o.result.e)
      && o.st == st.(writeClosed := Some(o.result.e))
      && o.sink.items == sink.items && Noticed(sink, o.sink, true)
    else if !slot then o.result == WritePending && o.st == st && o.sink == sink
    else
      var most := Cut(|buf|, 0xFF_FFFF);
      var n := if most <= st.window then most else st.window;
      && o.result == WriteOk(n)
      && o.st == st.(needsSyn := false, window := st.window - n)
      && o.sink == sink.(items := sink.items + [Frame(Header(n, DataType, Flags(false, st.needsSyn), 0), Data(buf[..n]))])
  }

  /**
    `poll_write`. A closed write side breaks the pipe with the reason it was closed
    for. Without credit the poll absorbs frames up to the first WNDINC and waits
    when there is none and the inbox has not ended. Then a closed sink resets the
    connection with its error, which also closes the write side; a full one makes
    the poll wait; an open one gets one DATA frame with as much of `buf` as the
    credit and one frame allow, and with SYN if it is the first.
  */
  lemma WriteOutcomes(st: StreamState, inbox: seq<Frame>, closed: bool, sink: Sink, buf: seq<byte>, slot: bool, k: nat)
    returns (mid: StreamState)
    requires StreamFrames(inbox) && st.window <= st.maxWindow && FirstOfType(inbox, WndIncType, k)
    ensures var o := PollWrite(st, inbox, closed, sink, buf, slot);
      var waits := st.writeClosed.None? && st.window == 0;
      var taken := if waits then Until(inbox, k) else [];
      && inbox == taken + o.inbox && Absorbed(st, taken, mid) && (taken == [] ==> mid == st || closed)
      && if st.writeClosed.Some? then o == WriteOutcome(st, inbox, sink, BrokenPipe(st.writeClosed.value))
         else if waits && k == |inbox| && !closed then o == WriteOutcome(mid, [], sink, WritePending)
         else WriteAnswer(mid, sink, buf, slot, o)
  {
    hide RecvType, Absorbed, StreamFrames, FirstOfType, Until, WriteAnswer, Offer;
    AbsorbedNothing(st);
    UntilEmpty(inbox, WndIncType, k);
    if st.writeClosed.None? && st.window == 0 {
      var r := RecvType(st, inbox, closed, WndIncType);
      ReceiveStopsAtFirst(st, inbox, closed, WndIncType, k);
      var taken := RecvFacts(st, inbox, closed, WndIncType);
      CutEqual(taken, Until(inbox, k), r.inbox);
      mid := r.st;
      EmptyWait(st, inbox, closed);
    } else {
      mid := st;
    }
    OfferAnswers(mid, PollWrite(st, inbox, closed, sink, buf, slot).inbox, sink, buf, slot);
  }

  lemma OfferAnswers(st: StreamState, inbox: seq<Frame>, sink: Sink, buf: seq<byte>, slot: bool)
    ensures WriteAnswer(st, sink, buf, slot, Offer(st, inbox, sink, buf, slot))
  {
    hide ErrorOf;
  }

  lemma EmptyWait(st: StreamState, inbox: seq<Frame>, closed: bool)
    requires StreamFrames(inbox)
    ensures inbox == [] && !closed ==> RecvType(st, inbox, closed, WndIncType).st == st
  {
  }

  lemma UntilEmpty(fs: seq<Frame>, t: HeaderType, k: nat)
    requires FirstOfType(fs, t, k)
    ensures k <= |fs| && (Until(fs, k) == [] <==> fs == [])
  {
  }
}
