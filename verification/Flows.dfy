/**
  What a sequence of frames carries for one stream, seen as a flow of symbols:
  the payload bytes in order, and an end mark for every FIN.
*/
module Flows {
  import opened Constrained
  import opened Frames
  import opened Streams

  type Sym = s: int | 0 <= s <= 256

  /** The end mark, distinct from every byte. */
  const FIN: Sym := 256

  function Payload(f: Frame): seq<byte> {
    if f.body.Data? then f.body.data else []
  }

  function FrameFlow(f: Frame): seq<Sym> {
    Payload(f) + if StreamFrame(f) && f.IsFin() then [FIN] else []
  }

  function Flow(fs: seq<Frame>): seq<Sym> {
    if fs == [] then [] else FrameFlow(fs[0]) + Flow(fs[1..])
  }

  function DataBytes(fs: seq<Frame>): nat {
    if fs == [] then 0 else |Payload(fs[0])| + DataBytes(fs[1..])
  }

  function FrameCredit(f: Frame): nat {
    if f.body.WndInc? then f.body.inc else 0
  }

  function Credit(fs: seq<Frame>): nat {
    if fs == [] then 0 else FrameCredit(fs[0]) + Credit(fs[1..])
  }

  /** Nothing follows an end mark. */
  predicate FinLast(s: seq<Sym>) {
    forall i :: 0 <= i < |s| - 1 ==> s[i] != FIN
  }

  predicate NoData(fs: seq<Frame>) {
    forall i :: 0 <= i < |fs| ==> !fs[i].body.Data?
  }

  predicate NoSyn(fs: seq<Frame>) {
    forall i :: 0 <= i < |fs| ==> !fs[i].IsSyn()
  }

  /** Only the first DATA frame may carry SYN. */
  predicate SynFirst(fs: seq<Frame>) {
    fs == [] || (if fs[0].body.Data? then NoSyn(fs[1..]) else !fs[0].IsSyn() && SynFirst(fs[1..]))
  }

  /** The frames a correct endpoint sends for a stream. */
  predicate Conforming(f: Frame) {
    && f.header.typ == TypeOfBody(f.body)
    && f.header.length == BodyLen(f.body)
    && match f.body
       case Data(bs) => f.IsFin() ==> bs == [] && !f.IsSyn()
       case WndInc(_) => f.header.flags == NO_FLAGS
       case Rst(_) => f.header.flags == NO_FLAGS
       case _ => false
  }

  predicate AllConforming(fs: seq<Frame>) {
    forall i :: 0 <= i < |fs| ==> Conforming(fs[i])
  }

  // ---- concatenation ----

  lemma {:induction false} FlowAppend(a: seq<Frame>, b: seq<Frame>)
    ensures Flow(a + b) == Flow(a) + Flow(b)
    decreases |a|
  {
    hide FrameFlow, Payload, FrameCredit;
    if a == [] {
      assert a + b == b;
    } else {
      FlowAppend(a[1..], b);
      assert (a + b)[1..] == a[1..] + b;
    }
  }

  lemma {:induction false} DataBytesAppend(a: seq<Frame>, b: seq<Frame>)
    ensures DataBytes(a + b) == DataBytes(a) + DataBytes(b)
    decreases |a|
  {
    hide FrameFlow, Payload, FrameCredit;
    if a == [] {
      assert a + b == b;
    } else {
      DataBytesAppend(a[1..], b);
      assert (a + b)[1..] == a[1..] + b;
    }
  }

  lemma {:induction false} CreditAppend(a: seq<Frame>, b: seq<Frame>)
    ensures Credit(a + b) == Credit(a) + Credit(b)
    decreases |a|
  {
    hide FrameFlow, Payload, FrameCredit;
    if a == [] {
      assert a + b == b;
    } else {
      CreditAppend(a[1..], b);
      assert (a + b)[1..] == a[1..] + b;
    }
  }

  lemma FlowOne(f: Frame)
    ensures Flow([f]) == FrameFlow(f)
    ensures DataBytes([f]) == |Payload(f)|
    ensures Credit([f]) == FrameCredit(f)
  {
    assert [f][1..] == [];
  }

  lemma FlowNone()
    ensures Flow([]) == [] && DataBytes([]) == 0 && Credit([]) == 0
  {
  }

  lemma FlowSnoc(fs: seq<Frame>, f: Frame)
    ensures Flow(fs + [f]) == Flow(fs) + FrameFlow(f)
    ensures DataBytes(fs + [f]) == DataBytes(fs) + |Payload(f)|
    ensures Credit(fs + [f]) == Credit(fs) + FrameCredit(f)
  {
    FlowOne(f);
    FlowAppend(fs, [f]);
    DataBytesAppend(fs, [f]);
    CreditAppend(fs, [f]);
  }

  lemma {:induction false} NoDataNoFlow(fs: seq<Frame>)
    requires NoData(fs) && AllConforming(fs)
    ensures Flow(fs) == [] && DataBytes(fs) == 0
    decreases |fs|
  {
    if fs == [] {
    } else {
      NoDataNoFlow(fs[1..]);
    }
  }

  lemma {:induction false} FlowHasNoMarkWithoutFin(fs: seq<Frame>)
    requires forall i :: 0 <= i < |fs| ==> !fs[i].IsFin()
    ensures FIN !in Flow(fs)
    decreases |fs|
  {
    if fs == [] {
    } else {
      FlowHasNoMarkWithoutFin(fs[1..]);
    }
  }

  lemma {:induction false} SynFirstSnoc(fs: seq<Frame>, f: Frame)
    requires SynFirst(fs)
    requires !f.IsSyn() || (NoData(fs) && f.body.Data?)
    ensures SynFirst(fs + [f])
    decreases |fs|
  {
    if fs == [] {
      assert fs + [f] == [f];
    } else {
      assert (fs + [f])[1..] == fs[1..] + [f];
      if !fs[0].body.Data? {
        SynFirstSnoc(fs[1..], f);
      }
    }
  }

  lemma {:induction false} NoSynIsSynFirst(fs: seq<Frame>)
    requires NoSyn(fs)
    ensures SynFirst(fs)
    decreases |fs|
  {
    if fs == [] {
    } else {
      NoSynIsSynFirst(fs[1..]);
    }
  }

  lemma {:induction false} SynFirstPrefix(a: seq<Frame>, b: seq<Frame>)
    requires SynFirst(a + b)
    ensures SynFirst(a)
    decreases |a|
  {
    if a == [] {
    } else {
      assert (a + b)[1..] == a[1..] + b;
      if a[0].body.Data? {
        forall i | 0 <= i < |a[1..]| ensures !a[1..][i].IsSyn() {
          assert a[1..][i] == (a + b)[1..][i];
        }
      } else {
        SynFirstPrefix(a[1..], b);
      }
    }
  }

  lemma {:induction false} FinShowsInFlow(fs: seq<Frame>, i: int)
    requires 0 <= i < |fs| && StreamFrame(fs[i]) && fs[i].IsFin()
    ensures FIN in Flow(fs)
    decreases |fs|
  {
    if i == 0 {
      var h := FrameFlow(fs[0]);
      assert h[|h| - 1] == FIN;
    } else {
      FinShowsInFlow(fs[1..], i - 1);
    }
  }
}
