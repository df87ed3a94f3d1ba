/**
  Reading a PROXY protocol header in front of a byte stream
  (ngrok/src/proxy_proto.rs). The header parser is a parameter; the functions
  give each poll as a value.
*/
module ProxyHeaders {
  import opened Wrappers
  import opened Constrained

  const MAX_HEADER_LEN: nat := 536
  const MIN_HEADER_LEN: nat := 16
  const CR: byte := 13

  /** What the parser says about a buffer; `n` is the length of the header. */
  datatype ParseResult<H, E> = Parsed(h: H, n: nat) | NotProxy | Failed(e: E)

  datatype ReadState<H, E> =
    | Reading(last: Option<E>, buf: seq<byte>)
    | Refused(e: E, buf: seq<byte>)
    | Found(h: Option<H>, buf: seq<byte>)
    | Off

  /** An I/O error, by its code. */
  type IoError = nat

  // ---- the inner reader ----

  /** What the inner reader does when it is polled next; a `Give` without bytes is the end. */
  datatype ReadEvent = Wait | Give(n: nat) | Break(n: nat, e: IoError)

  /** The bytes still to come and the reader's future behaviour; with no behaviour left it waits. */
  datatype Source = Source(unread: seq<byte>, script: seq<ReadEvent>)

  datatype ReadPoll = ReadWait | ReadDone | ReadBroke(e: IoError)

  datatype Taken = Taken(src: Source, bytes: seq<byte>, poll: ReadPoll)

  /** The inner `poll_read` into a buffer with `room` free bytes. */
  function InnerRead(src: Source, room: nat): (t: Taken)
    ensures t.bytes + t.src.unread == src.unread && |t.bytes| <= room
    ensures t.poll.ReadWait? ==> t.bytes == []
    ensures t.src.script == if src.script == [] then [] else src.script[1..]
    ensures !t.poll.ReadWait? ==> src.script != []
  {
    if src.script == [] then Taken(src, [], ReadWait)
    else
      var ev := src.script[0];
      var n := if ev.Wait? then 0 else Min(ev.n, Min(room, |src.unread|));
      Taken(Source(src.unread[n..], src.script[1..]), src.unread[..n],
            match ev
            case Wait => ReadWait
            case Give(_) => ReadDone
            case Break(_, e) => ReadBroke(e))
  }

  // ---- reading the header ----

  /** Long enough to parse, and not cut off inside a line end. */
  predicate Parseable(buf: seq<byte>) {
    |buf| >= MIN_HEADER_LEN && buf[|buf| - 1] != CR
  }

  function From(buf: seq<byte>, n: nat): seq<byte> {
    buf[Min(n, |buf|)..]
  }

  /** The state after the buffer was looked at. */
  function Examine<H, E>(parse: seq<byte> -> ParseResult<H, E>, last: Option<E>, buf: seq<byte>): ReadState<H, E> {
    if !Parseable(buf) then Reading(last, buf)
    else
      match parse(buf)
      case Parsed(h, n) => Found(Some(h), From(buf, n))
      case NotProxy => Found(None, buf)
      case Failed(e) => if |buf| >= MAX_HEADER_LEN then Refused(e, buf) else Reading(Some(e), buf)
  }

  /** `HeaderSpins`: the source loops without reading or changing anything, for ever. */
  datatype HeaderPoll = HeaderWait | HeaderDone | HeaderBroke(e: IoError) | HeaderSpins

  datatype HeaderOutcome<H, E> = HeaderOutcome(st: ReadState<H, E>, src: Source, poll: HeaderPoll)

  /** The state when the inner reader ended or failed. */
  function AtEnd<H, E>(last: Option<E>, buf: seq<byte>): ReadState<H, E> {
    if last.Some? then Refused(last.value, buf) else Found(None, buf)
  }

  /** `poll_read_header_once`. */
  function PollHeader<H, E>(parse: seq<byte> -> ParseResult<H, E>, st: ReadState<H, E>, src: Source): HeaderOutcome<H, E>
    decreases |src.script|, st.Reading?
  {
    if !st.Reading? then HeaderOutcome(st, src, HeaderDone)
    else if |st.buf| < MAX_HEADER_LEN then
      var t := InnerRead(src, MAX_HEADER_LEN - |st.buf|);
      var buf := st.buf + t.bytes;
      if t.poll.ReadWait? then HeaderOutcome(Reading(st.last, buf), t.src, HeaderWait)
      else if t.poll.ReadBroke? then HeaderOutcome(AtEnd(st.last, buf), t.src, HeaderBroke(t.poll.e))
      else if t.bytes == [] then HeaderOutcome(AtEnd(st.last, buf), t.src, HeaderDone)
      else PollHeader(parse, Examine(parse, st.last, buf), t.src)
    else
      var next := Examine(parse, st.last, st.buf);
      if next.Reading? then HeaderOutcome(next, src, HeaderSpins) else HeaderOutcome(next, src, HeaderDone)
  }

  /** What `proxy_header` reports in a state. */
  function Reported<H, E>(st: ReadState<H, E>): Result<Option<H>, E> {
    match st
    case Refused(e, _) => Err(e)
    case Reading(last, _) => if last.Some? then Err(last.value) else Ok(None)
    case Found(h, _) => Ok(h)
    case Off => Ok(None)
  }

  // ---- reading the stream ----

  datatype PayloadPoll = PayloadWait | PayloadDone | PayloadBroke(e: IoError) | PayloadSpins

  datatype PayloadOutcome<H, E> = PayloadOutcome(st: ReadState<H, E>, src: Source, bytes: seq<byte>, poll: PayloadPoll)

  function PayloadOf(p: ReadPoll): PayloadPoll {
    match p
    case ReadWait => PayloadWait
    case ReadDone => PayloadDone
    case ReadBroke(e) => PayloadBroke(e)
  }

  function WithRemainder<H, E>(st: ReadState<H, E>, rest: seq<byte>): ReadState<H, E> {
    match st
    case Refused(e, _) => Refused(e, rest)
    case Found(h, _) => Found(h, rest)
    case _ => st
  }

  /** `poll_read`: the header first, then what was read past it, then the inner reader. */
  function PollPayload<H, E>(parse: seq<byte> -> ParseResult<H, E>, st: ReadState<H, E>, src: Source, room: nat): PayloadOutcome<H, E> {
    var o := PollHeader(parse, st, src);
    match o.poll
    case HeaderWait => PayloadOutcome(o.st, o.src, [], PayloadWait)
    case HeaderBroke(e) => PayloadOutcome(o.st, o.src, [], PayloadBroke(e))
    case HeaderSpins => PayloadOutcome(o.st, o.src, [], PayloadSpins)
    case HeaderDone =>
      if (o.st.Refused? || o.st.Found?) && o.st.buf != [] then
        var n := Min(|o.st.buf|, room);
        PayloadOutcome(WithRemainder(o.st, o.st.buf[n..]), o.src, o.st.buf[..n], PayloadDone)
      else
        var t := InnerRead(o.src, room);
        PayloadOutcome(o.st, t.src, t.bytes, PayloadOf(t.poll))
  }

  // ---- runs ----

  datatype Call = AskHeader | ReadInto(room: nat)

  /** The read side of a stream and all bytes it has handed over. */
  datatype Incoming<H, E> = Incoming(st: ReadState<H, E>, src: Source, delivered: seq<byte>)

  function NewIncoming<H, E>(input: seq<byte>, script: seq<ReadEvent>): Incoming<H, E> {
    Incoming(Reading(None, []), Source(input, script), [])
  }

  function DoCall<H, E>(parse: seq<byte> -> ParseResult<H, E>, r: Incoming<H, E>, c: Call): Incoming<H, E> {
    match c
    case AskHeader => var o := PollHeader(parse, r.st, r.src); Incoming(o.st, o.src, r.delivered)
    case ReadInto(room) =>
      var o := PollPayload(parse, r.st, r.src, room);
      Incoming(o.st, o.src, r.delivered + o.bytes)
  }

  function DoCalls<H, E>(parse: seq<byte> -> ParseResult<H, E>, r: Incoming<H, E>, cs: seq<Call>): Incoming<H, E>
    decreases |cs|
  {
    if cs == [] then r else DoCalls(parse, DoCall(parse, r, cs[0]), cs[1..])
  }

  // ---- what is assumed of the parser ----

  /**
    A header lies inside its buffer, and a verdict does not change when more
    bytes follow; a failure may, since the header may just be incomplete. Only
    buffers the source would parse are concerned.
  */
  ghost predicate PrefixStable<H(!new), E(!new)>(parse: seq<byte> -> ParseResult<H, E>) {
    && (forall b :: parse(b).Parsed? ==> parse(b).n <= |b|)
    && (forall a, b :: Parseable(a) && Parseable(b) && a <= b && !parse(a).Failed? ==> parse(b) == parse(a))
  }

  /** The parser says `v` about the first `k` bytes of the input. */
  ghost predicate Says<H, E>(parse: seq<byte> -> ParseResult<H, E>, input: seq<byte>, k: nat, v: ParseResult<H, E>) {
    k <= |input| && k <= MAX_HEADER_LEN && Parseable(input[..k]) && parse(input[..k]) == v
  }

  /** The two limits, and the byte that a buffer to parse does not end in. */
  lemma HeaderLimits(buf: seq<byte>)
    ensures Parseable(buf) <==> |buf| >= 16 && buf[|buf| - 1] != 13
    ensures Head(buf) == if |buf| <= 536 then buf else buf[..536]
  {
  }

  /** The bytes that can decide about a header. */
  function Head(input: seq<byte>): seq<byte> {
    input[..Min(|input|, MAX_HEADER_LEN)]
  }

  // ---- reports ----

  /** A report says what the parser says: the header, that there is none, or the error. */
  ghost predicate Reports<H, E>(r: Result<Option<H>, E>, v: ParseResult<H, E>) {
    match v
    case Parsed(h, _) => r == Ok(Some(h))
    case NotProxy => r == Ok(None)
    case Failed(e) => r == Err(e)
  }

  /** A report without a verdict: the last failure if there was one, else no header. */
  ghost predicate ReportsLast<H, E>(r: Result<Option<H>, E>, last: Option<E>) {
    if last.Some? then r == Err(last.value) else r == Ok(None)
  }

  /**
    Looking at the buffer settles the report when it can be parsed; otherwise the
    last failure stands. Reading goes on while it cannot be parsed, and after a
    failure on fewer than 536 bytes.
  */
  lemma ExamineReports<H, E>(parse: seq<byte> -> ParseResult<H, E>, last: Option<E>, buf: seq<byte>)
    ensures var st, parseable := Examine(parse, last, buf), |buf| >= 16 && buf[|buf| - 1] != 13;
      && (if parseable then Reports(Reported(st), parse(buf)) else ReportsLast(Reported(st), last))
      && (st.Reading? <==> !parseable || (parse(buf).Failed? && |buf| < 536))
      && !st.Off?
  {
  }

  /**
    The end of the inner reader, or its failure, keeps the report as it stands: the
    last failure if there was one, else no header. It is final then, and no byte is
    lost. A wait changes nothing.
  */
  lemma EndKeepsTheReport<H, E>(parse: seq<byte> -> ParseResult<H, E>, last: Option<E>, buf: seq<byte>, src: Source)
    requires |buf| < 536 && src.script != []
    ensures var o, ev := PollHeader(parse, Reading(last, buf), src), src.script[0];
      && ReportsLast(Reported<H, E>(Reading(last, buf)), last)
      && (ev.Wait? ==> o == HeaderOutcome(Reading(last, buf), Source(src.unread, src.script[1..]), HeaderWait))
      && (ev.Break? || (ev.Give? && (ev.n == 0 || src.unread == [])) ==>
            && !o.st.Reading? && !o.st.Off? && ReportsLast(Reported(o.st), last)
            && o.poll == (if ev.Break? then HeaderBroke(ev.e) else HeaderDone)
            && o.st.buf + o.src.unread == buf + src.unread)
  {
    var t := InnerRead(src, MAX_HEADER_LEN - |buf|);
    assert t.poll.ReadWait? ==> buf + t.bytes == buf;
    assert src.unread[0..] == src.unread;
    assert buf + t.bytes + t.src.unread == buf + src.unread;
  }

  // ---- transparency ----

  /** What is known while the header is being read. */
  ghost predicate ReadingOk<H, E>(parse: seq<byte> -> ParseResult<H, E>, input: seq<byte>, last: Option<E>, buf: seq<byte>, unread: seq<byte>) {
    && buf + unread == input && |buf| <= MAX_HEADER_LEN
    && (Parseable(buf) ==> last.Some? && |buf| < MAX_HEADER_LEN && parse(buf) == Failed(last.value))
    && (last.Some? ==> exists k :: Says(parse, input, k, Failed(last.value)))
    && (last.Some? ==> |buf| >= MIN_HEADER_LEN)
  }

  /** Delivered, buffered and unread bytes make up the input, less exactly the reported header. */
  ghost predicate Transparent<H, E>(parse: seq<byte> -> ParseResult<H, E>, input: seq<byte>, r: Incoming<H, E>) {
    match r.st
    case Reading(last, buf) => r.delivered == [] && ReadingOk(parse, input, last, buf, r.src.unread)
    case Refused(e, buf) =>
      r.delivered + buf + r.src.unread == input && exists k :: Says(parse, input, k, Failed(e))
    case Found(Some(h), buf) =>
      exists k: nat, n: nat :: Says(parse, input, k, Parsed(h, n)) && n <= k && r.delivered + buf + r.src.unread == input[n..]
    case Found(None, buf) => r.delivered + buf + r.src.unread == input
    case Off => r.delivered + r.src.unread == input
  }

  lemma ExamineKeeps<H(!new), E(!new)>(parse: seq<byte> -> ParseResult<H, E>, input: seq<byte>, last: Option<E>, buf: seq<byte>, src: Source)
    requires PrefixStable(parse)
    requires buf + src.unread == input && |buf| <= MAX_HEADER_LEN
    requires last.Some? ==> |buf| >= MIN_HEADER_LEN && exists k :: Says(parse, input, k, Failed(last.value))
    ensures Transparent(parse, input, Incoming(Examine(parse, last, buf), src, []))
  {
    assert input[..|buf|] == buf;
    var v := parse(buf);
    assert v.Parsed? ==> v.n <= |buf|;
    assert Parseable(buf) ==> Says(parse, input, |buf|, v);
    hide PrefixStable, Transparent, Parseable, Says;
    if Parseable(buf) {
      match v
      case Parsed(h, n) => FoundKeeps(parse, input, h, n, buf, src);
      case NotProxy => AtEndKeeps(parse, input, None, buf, src);
      case Failed(e) => FailureKeeps(parse, input, e, buf, src);
    } else {
      WaitingKeeps(parse, input, last, buf, src);
    }
  }

  lemma WaitingKeeps<H, E>(parse: seq<byte> -> ParseResult<H, E>, input: seq<byte>, last: Option<E>, buf: seq<byte>, src: Source)
    requires buf + src.unread == input && |buf| <= MAX_HEADER_LEN && !Parseable(buf)
    requires last.Some? ==> |buf| >= MIN_HEADER_LEN && exists k :: Says(parse, input, k, Failed(last.value))
    ensures Transparent(parse, input, Incoming(Reading(last, buf), src, []))
  {
  }

  lemma FoundKeeps<H, E>(parse: seq<byte> -> ParseResult<H, E>, input: seq<byte>, h: H, n: nat, buf: seq<byte>, src: Source)
    requires buf + src.unread == input && n <= |buf| && Says(parse, input, |buf|, Parsed(h, n))
    ensures Transparent(parse, input, Incoming(Found(Some(h), From(buf, n)), src, []))
  {
    assert input[n..] == [] + From(buf, n) + src.unread;
  }

  lemma FailureKeeps<H, E>(parse: seq<byte> -> ParseResult<H, E>, input: seq<byte>, e: E, buf: seq<byte>, src: Source)
    requires buf + src.unread == input && |buf| <= MAX_HEADER_LEN && parse(buf) == Failed(e)
    requires Says(parse, input, |buf|, Failed(e))
    ensures var st := if |buf| >= MAX_HEADER_LEN then Refused(e, buf) else Reading(Some(e), buf);
      Transparent(parse, input, Incoming(st, src, []))
  {
    assert [] + buf + src.unread == input && input[..|buf|] == buf;
  }

  lemma AtEndKeeps<H, E>(parse: seq<byte> -> ParseResult<H, E>, input: seq<byte>, last: Option<E>, buf: seq<byte>, src: Source)
    requires buf + src.unread == input
    requires last.Some? ==> exists k :: Says(parse, input, k, Failed(last.value))
    ensures Transparent(parse, input, Incoming(AtEnd(last, buf), src, []))
  {
    assert [] + buf + src.unread == input;
  }

  lemma {:induction false} PollHeaderKeeps<H(!new), E(!new)>(parse: seq<byte> -> ParseResult<H, E>, input: seq<byte>, r: Incoming<H, E>)
    requires PrefixStable(parse) && Transparent(parse, input, r)
    ensures var o := PollHeader(parse, r.st, r.src);
      Transparent(parse, input, Incoming(o.st, o.src, r.delivered))
    decreases |r.src.script|, r.st.Reading?
  {
    hide PrefixStable, Parseable, Says, Examine, InnerRead;
    if !r.st.Reading? {
    } else {
      var last, buf := r.st.last, r.st.buf;
      if |buf| < MAX_HEADER_LEN {
        var t := InnerRead(r.src, MAX_HEADER_LEN - |buf|);
        assert buf + t.bytes + t.src.unread == input;
        if t.poll.ReadDone? && t.bytes != [] {
          ExamineKeeps(parse, input, last, buf + t.bytes, t.src);
          PollHeaderKeeps(parse, input, Incoming(Examine(parse, last, buf + t.bytes), t.src, []));
        } else if t.poll.ReadWait? {
          assert buf + t.bytes == buf;
        } else {
          AtEndKeeps(parse, input, last, buf + t.bytes, t.src);
        }
      } else {
        ExamineKeeps(parse, input, last, buf, r.src);
      }
    }
  }

  lemma SplitThree(a: seq<byte>, b: seq<byte>, c: seq<byte>, n: nat)
    requires n <= |b|
    ensures a + b[..n] + b[n..] + c == a + b + c
  {
  }

  lemma PayloadKeeps<H(!new), E(!new)>(parse: seq<byte> -> ParseResult<H, E>, input: seq<byte>, r: Incoming<H, E>, room: nat)
    requires PrefixStable(parse) && Transparent(parse, input, r)
    ensures Transparent(parse, input, DoCall(parse, r, ReadInto(room)))
  {
    hide PrefixStable, Says, ReadingOk, InnerRead, PollHeader;
    PollHeaderKeeps(parse, input, r);
    var o := PollHeader(parse, r.st, r.src);
    PollHeaderEnds(parse, r.st, r.src);
    if o.poll.HeaderDone? {
      if (o.st.Refused? || o.st.Found?) && o.st.buf != [] {
        SplitThree(r.delivered, o.st.buf, o.src.unread, Min(|o.st.buf|, room));
      } else {
        var t := InnerRead(o.src, room);
        assert r.delivered + t.bytes + t.src.unread == r.delivered + o.src.unread;
        assert r.delivered + [] == r.delivered && r.delivered + t.bytes + [] == r.delivered + t.bytes;
      }
    } else {
      assert r.delivered + [] == r.delivered;
    }
  }

  /** A finished poll leaves the reading state; the others do not, except on an I/O error. */
  lemma {:induction false} PollHeaderEnds<H, E>(parse: seq<byte> -> ParseResult<H, E>, st: ReadState<H, E>, src: Source)
    ensures var o := PollHeader(parse, st, src);
      && (o.poll.HeaderDone? || o.poll.HeaderBroke? <==> !o.st.Reading?)
      && (o.poll.HeaderSpins? ==> |o.st.buf| >= MAX_HEADER_LEN && !Parseable(o.st.buf))
      && (st.Off? <==> o.st.Off?)
    decreases |src.script|, st.Reading?
  {
    hide InnerRead, Parseable;
    if !st.Reading? || |st.buf| >= MAX_HEADER_LEN {
    } else {
      var t := InnerRead(src, MAX_HEADER_LEN - |st.buf|);
      if t.poll.ReadDone? && t.bytes != [] {
        PollHeaderEnds(parse, Examine(parse, st.last, st.buf + t.bytes), t.src);
      }
    }
  }

  lemma {:induction false} CallsKeep<H(!new), E(!new)>(parse: seq<byte> -> ParseResult<H, E>, input: seq<byte>, r: Incoming<H, E>, cs: seq<Call>)
    requires PrefixStable(parse) && Transparent(parse, input, r)
    ensures Transparent(parse, input, DoCalls(parse, r, cs))
    decreases |cs|
  {
    hide PrefixStable, Transparent, PollHeader, PollPayload;
    if cs == [] {
    } else {
      match cs[0] {
        case AskHeader => PollHeaderKeeps(parse, input, r);
        case ReadInto(room) => PayloadKeeps(parse, input, r, room);
      }
      CallsKeep(parse, input, DoCall(parse, r, cs[0]), cs[1..]);
    }
  }

  /**
    Transparency. Whatever the inner reader does (short reads, waits, errors, an
    early end) and whatever is called, a reported header is the parser's verdict
    on the whole input, and the bytes delivered, buffered and unread are exactly
    the rest; without a header they are exactly the input. A reported error is the
    parser's about some first bytes of the input.
  */
  lemma HeaderStreamIsTransparent<H(!new), E(!new)>(parse: seq<byte> -> ParseResult<H, E>, input: seq<byte>, script: seq<ReadEvent>, cs: seq<Call>)
    requires PrefixStable(parse)
    ensures var r := DoCalls(parse, NewIncoming(input, script), cs);
      && !r.st.Off? && (r.st.Reading? ==> r.delivered == [])
      && Accounts(parse, input, Reported(r.st), r.delivered + r.st.buf + r.src.unread)
  {
    var start: Incoming<H, E> := NewIncoming(input, script);
    assert Transparent(parse, input, start);
    CallsKeep(parse, input, start, cs);
    NeverOff(parse, start, cs);
    hide DoCalls, PrefixStable, Accounts;
    TransparentAccounts(parse, input, DoCalls(parse, start, cs));
  }

  lemma TransparentAccounts<H(!new), E(!new)>(parse: seq<byte> -> ParseResult<H, E>, input: seq<byte>, r: Incoming<H, E>)
    requires PrefixStable(parse) && Transparent(parse, input, r) && !r.st.Off?
    ensures r.st.Reading? ==> r.delivered == []
    ensures Accounts(parse, input, Reported(r.st), r.delivered + r.st.buf + r.src.unread)
  {
    hide PrefixStable, Parseable;
    match r.st
    case Reading(last, buf) => assert [] + buf + r.src.unread == buf + r.src.unread;
    case Found(Some(h), buf) =>
      var k: nat, n: nat :| Says(parse, input, k, Parsed(h, n)) && n <= k && r.delivered + buf + r.src.unread == input[n..];
      WholeVerdict(parse, input, k, Parsed(h, n));
    case _ =>
  }

  /**
    `bytes` are what a report leaves of the input: all of it, less the header that
    the report gives. The header, or the error reported, is the parser's.
  */
  ghost predicate Accounts<H, E>(parse: seq<byte> -> ParseResult<H, E>, input: seq<byte>, report: Result<Option<H>, E>, bytes: seq<byte>) {
    match report
    case Ok(Some(h)) => Removed(parse, input, h, bytes)
    case Ok(None) => bytes == input
    case Err(e) => bytes == input && exists k :: Says(parse, input, k, Failed(e))
  }

  /**
    `rest` is the input without the header `h` in front of it, which is what the
    parser finds in the input: in a prefix of at most 536 bytes, and in all of it
    unless it ends in a CR.
  */
  ghost predicate Removed<H, E>(parse: seq<byte> -> ParseResult<H, E>, input: seq<byte>, h: H, rest: seq<byte>) {
    exists k: nat, n: nat ::
      && Says(parse, input, k, Parsed(h, n)) && n <= k && rest == input[n..]
      && (Parseable(input) ==> parse(input) == Parsed(h, n))
  }

  lemma WholeVerdict<H(!new), E(!new)>(parse: seq<byte> -> ParseResult<H, E>, input: seq<byte>, k: nat, v: ParseResult<H, E>)
    requires PrefixStable(parse) && Says(parse, input, k, v) && !v.Failed?
    ensures Parseable(input) ==> parse(input) == v
    ensures Parseable(Head(input)) ==> parse(Head(input)) == v
  {
    assert input[..k] <= input && input[..k] <= Head(input);
  }

  // ---- the verdict does not depend on how the bytes arrive ----

  /** The inner reader neither fails nor ends early. */
  predicate Honest(script: seq<ReadEvent>) {
    forall i :: 0 <= i < |script| ==> script[i].Wait? || (script[i].Give? && script[i].n > 0)
  }

  /** The state is the one the parser's verdict on the head of the input calls for. */
  ghost predicate Decided<H, E>(parse: seq<byte> -> ParseResult<H, E>, input: seq<byte>, st: ReadState<H, E>) {
    match st
    case Found(Some(h), _) => parse(Head(input)).Parsed? && parse(Head(input)).h == h
    case Found(None, _) => parse(Head(input)).NotProxy?
    case Refused(e, _) => parse(Head(input)) == Failed(e)
    case _ => true
  }

  lemma ExamineDecides<H(!new), E(!new)>(parse: seq<byte> -> ParseResult<H, E>, input: seq<byte>, last: Option<E>, buf: seq<byte>, unread: seq<byte>)
    requires PrefixStable(parse) && Parseable(Head(input)) && buf + unread == input && |buf| <= MAX_HEADER_LEN
    ensures Decided(parse, input, Examine(parse, last, buf))
  {
    assert input[..|buf|] == buf;
    if Parseable(buf) && !parse(buf).Failed? {
      WholeVerdict(parse, input, |buf|, parse(buf));
    }
  }

  lemma ReadingDecides<H, E>(parse: seq<byte> -> ParseResult<H, E>, input: seq<byte>, last: Option<E>, buf: seq<byte>)
    ensures Decided(parse, input, Reading(last, buf))
  {
  }

  /** At the end of a short input the last failure is the verdict on all of it. */
  lemma EndDecides<H, E>(parse: seq<byte> -> ParseResult<H, E>, last: Option<E>, buf: seq<byte>)
    requires ReadingOk(parse, buf, last, buf, []) && |buf| < MAX_HEADER_LEN && Parseable(Head(buf))
    ensures Decided(parse, buf, AtEnd(last, buf))
  {
    assert Head(buf) == buf;
  }

  lemma HonestRead(src: Source, room: nat)
    requires Honest(src.script)
    ensures var t := InnerRead(src, room);
      && Honest(t.src.script) && !t.poll.ReadBroke?
      && (t.poll.ReadDone? && t.bytes == [] && room > 0 ==> src.unread == [])
  {
  }

  lemma {:induction false} PollDecides<H(!new), E(!new)>(parse: seq<byte> -> ParseResult<H, E>, input: seq<byte>, r: Incoming<H, E>)
    requires PrefixStable(parse) && Parseable(Head(input)) && Honest(r.src.script)
    requires Transparent(parse, input, r) && Decided(parse, input, r.st)
    ensures var o := PollHeader(parse, r.st, r.src); Decided(parse, input, o.st) && Honest(o.src.script)
    decreases |r.src.script|, r.st.Reading?
  {
    hide PrefixStable, Parseable, Examine, Says, Honest, InnerRead, Decided;
    if !r.st.Reading? {
    } else {
      var last, buf := r.st.last, r.st.buf;
      ReadingDecides(parse, input, last, buf);
      if |buf| < MAX_HEADER_LEN {
        var t := InnerRead(r.src, MAX_HEADER_LEN - |buf|);
        HonestRead(r.src, MAX_HEADER_LEN - |buf|);
        assert buf + t.bytes + t.src.unread == input;
        if t.poll.ReadDone? && t.bytes != [] {
          ExamineDecides(parse, input, last, buf + t.bytes, t.src.unread);
          ExamineKeeps(parse, input, last, buf + t.bytes, t.src);
          PollDecides(parse, input, Incoming(Examine(parse, last, buf + t.bytes), t.src, []));
        } else if t.poll.ReadDone? {
          assert buf + t.bytes == buf && buf == input;
          EndDecides(parse, last, buf);
        } else {
          assert buf + t.bytes == buf;
        }
      } else {
        ExamineDecides(parse, input, last, buf, r.src.unread);
      }
    }
  }

  lemma {:induction false} CallsDecide<H(!new), E(!new)>(parse: seq<byte> -> ParseResult<H, E>, input: seq<byte>, r: Incoming<H, E>, cs: seq<Call>)
    requires PrefixStable(parse) && Parseable(Head(input)) && Honest(r.src.script)
    requires Transparent(parse, input, r) && Decided(parse, input, r.st)
    ensures Decided(parse, input, DoCalls(parse, r, cs).st)
    decreases |cs|
  {
    hide PrefixStable, Parseable, Transparent, PollHeader;
    if cs == [] {
    } else {
      PollDecides(parse, input, r);
      match cs[0] {
        case AskHeader => PollHeaderKeeps(parse, input, r);
        case ReadInto(room) => PayloadKeeps(parse, input, r, room);
      }
      CallsDecide(parse, input, DoCall(parse, r, cs[0]), cs[1..]);
    }
  }

  lemma DecidedReports<H, E>(parse: seq<byte> -> ParseResult<H, E>, input: seq<byte>, st: ReadState<H, E>)
    requires Decided(parse, input, st) && !st.Off?
    ensures !st.Reading? ==> Reports(Reported(st), parse(Head(input)))
  {
  }

  /**
    One verdict for every chunking. Suppose the inner reader ends only at the end
    of the input. When the first 536 bytes can be parsed, that is, are at least
    16 and do not end in a CR, the outcome is the parser's one-shot verdict on
    those bytes, however they arrive: that is what is reported as soon as reading
    has ended. An input of fewer than 16 bytes is never parsed: whatever the parser
    would say, no header is reported.
  */
  lemma VerdictIsOneShot<H(!new), E(!new)>(parse: seq<byte> -> ParseResult<H, E>, input: seq<byte>, script: seq<ReadEvent>, cs: seq<Call>)
    requires PrefixStable(parse) && Honest(script)
    ensures var st := DoCalls(parse, NewIncoming(input, script), cs).st;
      && (Parseable(Head(input)) && !st.Reading? ==> Reports(Reported(st), parse(Head(input))))
      && (|input| < 16 ==> Reported(st) == Ok(None))
  {
    var start: Incoming<H, E> := NewIncoming(input, script);
    assert Transparent(parse, input, start);
    if |input| < 16 {
      ShortInputHasNoHeader(parse, input, script, cs);
    }
    NeverOff(parse, start, cs);
    hide PrefixStable, Parseable, Transparent, DoCalls, Reported, Reports, Decided;
    if Parseable(Head(input)) {
      assert Decided(parse, input, start.st) by { ReadingDecides(parse, input, None, []); }
      CallsDecide(parse, input, start, cs);
      DecidedReports(parse, input, DoCalls(parse, start, cs).st);
    }
  }

  /** Fewer than 16 bytes are never parsed, under any behaviour of the inner reader. */
  lemma ShortInputHasNoHeader<H(!new), E(!new)>(parse: seq<byte> -> ParseResult<H, E>, input: seq<byte>, script: seq<ReadEvent>, cs: seq<Call>)
    requires PrefixStable(parse) && |input| < 16
    ensures Reported(DoCalls(parse, NewIncoming(input, script), cs).st) == Ok(None)
  {
    var start: Incoming<H, E> := NewIncoming(input, script);
    assert Transparent(parse, input, start);
    CallsKeep(parse, input, start, cs);
    hide DoCalls, PrefixStable;
  }

  lemma {:induction false} NeverOff<H, E>(parse: seq<byte> -> ParseResult<H, E>, r: Incoming<H, E>, cs: seq<Call>)
    requires !r.st.Off?
    ensures !DoCalls(parse, r, cs).st.Off?
    decreases |cs|
  {
    hide PollHeader, Parseable;
    if cs == [] {
    } else {
      PollHeaderEnds(parse, r.st, r.src);
      NeverOff(parse, DoCall(parse, r, cs[0]), cs[1..]);
    }
  }

  // ---- finality and progress ----

  /** The report that a settled state stands for. */
  ghost predicate Settled<H, E>(st: ReadState<H, E>, r: Result<Option<H>, E>) {
    match st
    case Found(h, _) => r == Ok(h)
    case Refused(e, _) => r == Err(e)
    case Off => r == Ok(None)
    case Reading(_, _) => false
  }

  /**
    The header is read once. Later calls never change what was reported: the header
    or its absence, the error, or nothing when reading a header is switched off.
  */
  lemma {:induction false} VerdictIsFinal<H, E>(parse: seq<byte> -> ParseResult<H, E>, r: Incoming<H, E>, cs: seq<Call>)
    requires !r.st.Reading?
    ensures var s := DoCalls(parse, r, cs).st; Settled(r.st, Reported(r.st)) && Settled(r.st, Reported(s)) && Settled(s, Reported(s))
    decreases |cs|
  {
    hide InnerRead;
    if cs == [] {
    } else {
      assert PollHeader(parse, r.st, r.src) == HeaderOutcome(r.st, r.src, HeaderDone);
      VerdictIsFinal(parse, DoCall(parse, r, cs[0]), cs[1..]);
    }
  }

  /**
    A read of the stream. Until the header is settled it hands over nothing and
    passes on the wait or the error of the header read. Then come the bytes that were
    read past the header, as many as fit; and when these are used up, exactly what
    the inner reader gives.
  */
  lemma PayloadOutcomes<H, E>(parse: seq<byte> -> ParseResult<H, E>, st: ReadState<H, E>, src: Source, room: nat)
    ensures var o, h := PollPayload(parse, st, src, room), PollHeader(parse, st, src);
      match h.poll
      case HeaderWait => o == PayloadOutcome(h.st, h.src, [], PayloadWait)
      case HeaderBroke(e) => o == PayloadOutcome(h.st, h.src, [], PayloadBroke(e))
      case HeaderSpins => o == PayloadOutcome(h.st, h.src, [], PayloadSpins)
      case HeaderDone =>
        var left := if h.st.Off? || h.st.Reading? then [] else h.st.buf;
        var n := if |left| <= room then |left| else room;
        if left != [] then
          && o.bytes == left[..n] && o.poll == PayloadDone && o.src == h.src
          && !o.st.Off? && o.st.buf == left[n..] && Reported(o.st) == Reported(h.st)
        else o.st == h.st && FromInner(h.src, room, o.src, o.bytes, o.poll)
    ensures !st.Reading? ==> PollHeader(parse, st, src) == HeaderOutcome(st, src, HeaderDone)
  {
    hide PollHeader;
    SettledStays(parse, st, src);
    var h := PollHeader(parse, st, src);
    assert h.src.unread[0..] == h.src.unread && h.src.unread[..0] == [];
  }

  /** What the inner reader's next event makes of a read into `room` free bytes. */
  ghost predicate FromInner(src: Source, room: nat, after: Source, bytes: seq<byte>, poll: PayloadPoll) {
    if src.script == [] then after == src && bytes == [] && poll == PayloadWait
    else
      && after.script == src.script[1..] && bytes + after.unread == src.unread
      && match src.script[0]
         case Wait => bytes == [] && poll == PayloadWait
         case Give(n) => |bytes| == Min(n, Min(room, |src.unread|)) && poll == PayloadDone
         case Break(n, e) => |bytes| == Min(n, Min(room, |src.unread|)) && poll == PayloadBroke(e)
  }

  /** The inner reader always has bytes or the end to offer. */
  predicate Flowing(script: seq<ReadEvent>) {
    forall i :: 0 <= i < |script| ==> script[i].Give? && script[i].n > 0
  }

  /**
    Progress. Every read adds to the buffer or ends the header phase, so a poll
    uses up at most one read more than the buffer has free bytes.
  */
  lemma {:induction false} HeaderReadProgresses<H, E>(parse: seq<byte> -> ParseResult<H, E>, st: ReadState<H, E>, src: Source)
    requires Flowing(src.script) && (st.Reading? ==> |src.script| + |st.buf| > MAX_HEADER_LEN)
    ensures var o := PollHeader(parse, st, src);
      && (o.poll.HeaderDone? || o.poll.HeaderSpins?)
      && (st.Reading? && |st.buf| <= MAX_HEADER_LEN ==>
            |src.script| - |o.src.script| <= MAX_HEADER_LEN - |st.buf| + 1)
    decreases |src.script|, st.Reading?
  {
    hide Parseable;
    if !st.Reading? || |st.buf| >= MAX_HEADER_LEN {
    } else {
      var t := InnerRead(src, MAX_HEADER_LEN - |st.buf|);
      if t.bytes != [] {
        HeaderReadProgresses(parse, Examine(parse, st.last, st.buf + t.bytes), t.src);
      }
    }
  }

  /** The loop without progress needs an input whose byte 536 is a CR. */
  lemma SpinNeedsCr<H(!new), E(!new)>(parse: seq<byte> -> ParseResult<H, E>, input: seq<byte>, r: Incoming<H, E>)
    requires PrefixStable(parse) && Transparent(parse, input, r)
    ensures PollHeader(parse, r.st, r.src).poll.HeaderSpins? ==>
      |input| >= 536 && input[535] == 13
  {
    hide PrefixStable, PollHeader, Says;
    PollHeaderKeeps(parse, input, r);
    PollHeaderEnds(parse, r.st, r.src);
    var o := PollHeader(parse, r.st, r.src);
    if o.poll.HeaderSpins? {
      assert input[MAX_HEADER_LEN - 1] == o.st.buf[MAX_HEADER_LEN - 1];
    }
  }

  /** The first poll of a fresh stream whose inner reader offers all it can at once. */
  function AllAtOnce<H, E>(parse: seq<byte> -> ParseResult<H, E>, input: seq<byte>): HeaderOutcome<H, E> {
    PollHeader(parse, Reading(None, []), Source(input, [Give(MAX_HEADER_LEN), Give(1)]))
  }

  lemma AllAtOnceUnfolds<H, E>(parse: seq<byte> -> ParseResult<H, E>, input: seq<byte>)
    requires input != []
    ensures var src := Source(input[|Head(input)|..], [Give(1)]);
      AllAtOnce(parse, input) == PollHeader(parse, Examine(parse, None, Head(input)), src)
  {
    hide Examine;
    assert [] + Head(input) == Head(input);
    assert [Give(MAX_HEADER_LEN), Give(1)][1..] == [Give(1)];
  }

  /**
    When 536 bytes arrive at once, the poll never returns exactly when the last
    of them is a CR.
  */
  lemma SpinsExactlyOnCr<H, E>(parse: seq<byte> -> ParseResult<H, E>, input: seq<byte>)
    requires |input| >= 536
    ensures AllAtOnce(parse, input).poll.HeaderSpins? <==> input[535] == 13
  {
    AllAtOnceUnfolds(parse, input);
    hide AllAtOnce;
    PollHeaderEnds(parse, Examine(parse, None, Head(input)), Source(input[|Head(input)|..], [Give(1)]));
    assert Head(input)[MAX_HEADER_LEN - 1] == input[MAX_HEADER_LEN - 1];
  }

  /**
    A header that arrives together with the end of a short input is reported
    exactly when that input can be parsed: it has at least 16 bytes and does not
    end in a CR. Otherwise the stream claims that there is none.
  */
  lemma HeaderAtEndIsFoundExactlyIfParseable<H, E>(parse: seq<byte> -> ParseResult<H, E>, input: seq<byte>)
    requires |input| < 536 && parse(input).Parsed?
    ensures var reported, parseable := Reported(AllAtOnce(parse, input).st), |input| >= 16 && input[|input| - 1] != 13;
      && (reported == Ok(Some(parse(input).h)) <==> parseable)
      && (reported == Ok(None) <==> !parseable)
  {
    if input == [] {
      NothingArrives(parse);
    } else {
      AllAtOnceUnfolds(parse, input);
      hide AllAtOnce;
      assert Head(input) == input && input[|input|..] == [];
      EndOfInput(parse, input);
      hide PollHeader;
      SettledStays(parse, Examine(parse, None, input), Source([], [Give(1)]));
    }
  }

  lemma NothingArrives<H, E>(parse: seq<byte> -> ParseResult<H, E>)
    ensures AllAtOnce(parse, []).st == Found(None, [])
  {
    var t := InnerRead(Source([], [Give(MAX_HEADER_LEN), Give(1)]), MAX_HEADER_LEN);
    assert t.poll == ReadDone && |t.bytes| == 0;
    assert [] + t.bytes == [];
    hide InnerRead, Examine;
  }

  /** Every inner reader that ends only at the end of the input leads to the parser's verdict. */
  ghost predicate OneVerdict<H(!new), E(!new)>(parse: seq<byte> -> ParseResult<H, E>, input: seq<byte>) {
    forall script, cs :: Honest(script) ==> VerdictOf(parse, input, DoCalls(parse, NewIncoming(input, script), cs).st)
  }

  /** Reading goes on, or the parser's verdict on the input is reported. */
  ghost predicate VerdictOf<H, E>(parse: seq<byte> -> ParseResult<H, E>, input: seq<byte>, st: ReadState<H, E>) {
    st.Reading? || Reports(Reported(st), parse(input))
  }

  lemma OneVerdictOf<H(!new), E(!new)>(parse: seq<byte> -> ParseResult<H, E>, input: seq<byte>, script: seq<ReadEvent>, cs: seq<Call>)
    requires OneVerdict(parse, input) && Honest(script)
    ensures VerdictOf(parse, input, DoCalls(parse, NewIncoming(input, script), cs).st)
  {
  }

  /** A short input with a header has one verdict exactly when it can be parsed. */
  lemma OneVerdictExactlyIfParseable<H(!new), E(!new)>(parse: seq<byte> -> ParseResult<H, E>, input: seq<byte>)
    requires PrefixStable(parse) && |input| < 536 && parse(input).Parsed?
    ensures OneVerdict(parse, input) <==> |input| >= 16 && input[|input| - 1] != 13
  {
    HeaderLimits(input);
    hide PollHeader, Parseable;
    assert Head(input) == input;
    if Parseable(input) {
      forall script, cs | Honest(script)
        ensures VerdictOf(parse, input, DoCalls(parse, NewIncoming(input, script), cs).st)
      {
        VerdictIsOneShot(parse, input, script, cs);
      }
    } else {
      var script := [Give(MAX_HEADER_LEN), Give(1)];
      AllAtOnceEnds(parse, input);
      OneAsk(parse, NewIncoming(input, script));
      if OneVerdict(parse, input) {
        OneVerdictOf(parse, input, script, [AskHeader]);
      }
    }
  }

  lemma OneAsk<H, E>(parse: seq<byte> -> ParseResult<H, E>, r: Incoming<H, E>)
    ensures DoCalls(parse, r, [AskHeader]).st == PollHeader(parse, r.st, r.src).st
  {
    hide PollHeader;
    assert [AskHeader][1..] == [];
  }

  /** A short input is over after the second read. */
  lemma AllAtOnceEnds<H, E>(parse: seq<byte> -> ParseResult<H, E>, input: seq<byte>)
    requires |input| < MAX_HEADER_LEN && !Parseable(input)
    ensures AllAtOnce(parse, input).st == Found(None, input)
  {
    if input == [] {
      NothingArrives(parse);
    } else {
      AllAtOnceUnfolds(parse, input);
      assert Head(input) == input && input[|input|..] == [];
      EndOfInput(parse, input);
      hide AllAtOnce, PollHeader;
    }
  }

  /** The short form of a version 1 header, "PROXY UNKNOWN" and a line end: 15 bytes. */
  const UNKNOWN_V1: seq<byte> := [0x50, 0x52, 0x4F, 0x58, 0x59, 0x20, 0x55, 0x4E, 0x4B, 0x4E, 0x4F, 0x57, 0x4E, 0x0D, 0x0A]

  /**
    That header on its own, from a peer that sends it and closes, is missed in
    every run: no header is reported and its bytes are handed over as payload.
  */
  lemma LoneShortHeaderIsMissed<H(!new), E(!new)>(parse: seq<byte> -> ParseResult<H, E>, script: seq<ReadEvent>, cs: seq<Call>)
    requires PrefixStable(parse) && parse(UNKNOWN_V1).Parsed?
    ensures var r := DoCalls(parse, NewIncoming(UNKNOWN_V1, script), cs);
      && Reported(r.st) == Ok(None)
      && (r.st.Reading? || r.st.Found?)
      && r.delivered + r.st.buf + r.src.unread == UNKNOWN_V1
  {
    hide DoCalls, PrefixStable, Says;
    ShortInputHasNoHeader(parse, UNKNOWN_V1, script, cs);
    HeaderStreamIsTransparent(parse, UNKNOWN_V1, script, cs);
    var r := DoCalls(parse, NewIncoming(UNKNOWN_V1, script), cs);
    assert [] + r.st.buf + r.src.unread == r.st.buf + r.src.unread;
  }

  lemma SettledStays<H, E>(parse: seq<byte> -> ParseResult<H, E>, st: ReadState<H, E>, src: Source)
    ensures !st.Reading? ==> PollHeader(parse, st, src) == HeaderOutcome(st, src, HeaderDone)
  {
  }

  lemma EndOfInput<H, E>(parse: seq<byte> -> ParseResult<H, E>, buf: seq<byte>)
    requires |buf| < MAX_HEADER_LEN
    ensures PollHeader(parse, Reading(None, buf), Source([], [Give(1)])).st == Found(None, buf)
  {
    var t := InnerRead(Source([], [Give(1)]), MAX_HEADER_LEN - |buf|);
    assert t.poll == ReadDone && |t.bytes| == 0;
    assert buf + t.bytes == buf;
    hide InnerRead, Examine;
  }
}
