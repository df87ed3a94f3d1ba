/**
  The wire format (muxado/src/codec.rs): an eight-byte header holding a 24-bit
  length, a 4-bit type, 4 bits of flags and a 31-bit stream id, then the body.
*/
module Codec {
  import opened Wrappers
  import opened Constrained
  import opened MuxErrors
  import opened Frames

  // ---- headers ----

  function FlagBits(flags: Flags): nat {
    (if flags.fin then 1 else 0) + (if flags.syn then 2 else 0)
  }

  /** `from_bits_truncate`: the two unused bits are dropped. */
  function FlagsOf(bits: nat): Flags {
    Flags(bits % 2 == 1, bits / 2 % 2 == 1)
  }

  function DecodeHeader(bs: seq<byte>): (h: Header)
    requires |bs| == 8
  {
    var word := GetU32(bs[..4]);
    Header(word / 0x100, TypeOfByte(word % 0x100 / 0x10), FlagsOf(word % 0x10), Mask31(GetU32(bs[4..])))
  }

  function EncodeHeader(h: Header): (bs: seq<byte>)
    ensures |bs| == 8
  {
    var typeFlags := ByteOfType(h.typ) as int * 0x10 % 0x100 + FlagBits(h.flags);
    PutU32(h.length * 0x100 + typeFlags) + PutU32(h.streamId)
  }

  /** `validate_header`: the reason a header is refused, if it is. */
  function ValidateHeader(h: Header): Option<InvalidHeader> {
    match h.typ
    case DataType => if h.streamId == 0 then Some(ZeroStreamID) else None
    case GoAwayType =>
      if h.streamId != 0 then Some(NonZeroStreamID(h.streamId))
      else if h.length < 8 then Some(BelowMinLength(8, h.length)) else None
    case InvalidType(t) => Some(WrongType(t))
    case _ =>
      if h.streamId == 0 then Some(ZeroStreamID)
      else if h.length != 4 then Some(WrongLength(4, h.length)) else None
  }

  lemma Split16(q: nat, r: nat)
    requires r < 0x10
    ensures (q * 0x10 + r) / 0x10 == q && (q * 0x10 + r) % 0x10 == r
  {
  }

  lemma Split256(q: nat, r: nat)
    requires r < 0x100
    ensures (q * 0x100 + r) / 0x100 == q && (q * 0x100 + r) % 0x100 == r
  {
  }

  lemma HeaderWord(length: Length, t: nat, bits: nat)
    requires t < 4 && bits < 4
    ensures var word := length * 0x100 + (t * 0x10 + bits);
      word < U32_LIMIT && word / 0x100 == length && word % 0x100 / 0x10 == t && word % 0x10 == bits
  {
    Split256(length, t * 0x10 + bits);
    Split16(t, bits);
    Split16(length * 0x10 + t, bits);
  }

  lemma HeaderRoundTrip(h: Header)
    requires !h.typ.InvalidType?
    ensures DecodeHeader(EncodeHeader(h)) == h
    ensures SpellsHeader(EncodeHeader(h), h)
  {
    hide GetU32, PutU32, SpellsHeader;
    HeaderLayout(h, []);
    var t, bits := ByteOfType(h.typ), FlagBits(h.flags);
    assert t as int * 0x10 % 0x100 == t * 0x10;
    HeaderWord(h.length, t, bits);
    var word := h.length * 0x100 + (t * 0x10 + bits);
    PutThenGet(word, []);
    PutThenGet(h.streamId, []);
    var bs := EncodeHeader(h);
    assert bs[..4] == PutU32(word) + [] && bs[4..] == PutU32(h.streamId) + [];
  }

  // ---- whole frames ----

  /** `decode_frame`: a body of the announced length becomes a frame. */
  function DecodeFrame(h: Header, body: seq<byte>): (f: Frame)
    requires |body| == h.length
    ensures f.header == h
    ensures f.body.Invalid? <==> ValidateHeader(h).Some?
    ensures !f.body.Invalid? ==> TypeOfBody(f.body) == h.typ
  {
    if ValidateHeader(h).Some? then Frame(h, Invalid(ValidateHeader(h).value, body))
    else
      Frame(h, match h.typ
               case RstType => Rst(ErrorOf(GetU32(body)))
               case DataType => Data(body)
               case WndIncType => WndInc(Mask31(GetU32(body)))
               case GoAwayType => GoAway(Mask31(GetU32(body)), ErrorOf(GetU32(body[4..])), body[8..]))
  }

  function EncodeBody(b: Body): seq<byte> {
    match b
    case Rst(e) => PutU32(ErrorCode(e))
    case Data(bs) => bs
    case WndInc(inc) => PutU32(inc)
    case GoAway(last, e, message) => PutU32(last) + PutU32(ErrorCode(e)) + message
    case Invalid(_, bs) => bs
  }

  /** The encoder: `None` when the header is refused. */
  function Encode(f: Frame): Option<seq<byte>> {
    if ValidateHeader(f.header).Some? then None
    else Some(EncodeHeader(f.header) + EncodeBody(f.body))
  }

  /** A frame whose header describes its own encoded body. */
  predicate WellFormed(f: Frame) {
    && ValidateHeader(f.header).None?
    && f.header.typ == TypeOfBody(f.body)
    && f.header.length == |EncodeBody(f.body)|
  }

  lemma BodyRoundTrip(f: Frame)
    requires WellFormed(f)
    ensures DecodeFrame(f.header, EncodeBody(f.body)) == f
  {
    var bs := EncodeBody(f.body);
    match f.body
    case Rst(e) => PutThenGet(ErrorCode(e), []); ErrorRoundTrip(e); assert bs == PutU32(ErrorCode(e)) + [];
    case Data(_) =>
    case WndInc(inc) => PutThenGet(inc, []); assert bs == PutU32(inc) + [];
    case GoAway(last, e, message) =>
      PutThenGet(last, PutU32(ErrorCode(e)) + message);
      PutThenGet(ErrorCode(e), message);
      ErrorRoundTrip(e);
      assert bs == PutU32(last) + (PutU32(ErrorCode(e)) + message);
      assert bs[4..] == PutU32(ErrorCode(e)) + message;
      assert bs[8..] == message;
  }

  /** Whatever the decoder accepts is in normal form: it encodes, and decodes to itself. */
  lemma DecodedFramesAreWellFormed(h: Header, body: seq<byte>)
    requires |body| == h.length && ValidateHeader(h).None?
    ensures WellFormed(DecodeFrame(h, body))
    ensures Encode(DecodeFrame(h, body)).Some?
    ensures DecodeFrame(h, EncodeBody(DecodeFrame(h, body).body)) == DecodeFrame(h, body)
  {
    BodyRoundTrip(DecodeFrame(h, body));
  }

  // ---- the layout, byte by byte ----

  /** The number of a type on the wire. */
  ghost predicate NumbersType(n: int, t: HeaderType) {
    match t
    case RstType => n == 0
    case DataType => n == 1
    case WndIncType => n == 2
    case GoAwayType => n == 3
    case InvalidType(b) => n == b && n > 3
  }

  /** `n` is a number of the error `e`. */
  ghost predicate NumbersError(n: int, e: Error) {
    if 0 <= n < 16 then e == NUMBERED[n] else e == ErrorUnknown
  }

  /**
    Eight bytes spell a header: three bytes of length, most significant first;
    the type in the upper half of the fourth, FIN in its lowest bit and SYN in the
    one above; four bytes of stream id. The other bits do not matter.
  */
  ghost predicate SpellsHeader(bs: seq<byte>, h: Header) {
    && |bs| >= 8
    && (var a: int, b: int, c: int, low: int := bs[0], bs[1], bs[2], bs[3];
        && h.length == 0x1_0000 * a + 0x100 * b + c
        && NumbersType(low / 16, h.typ)
        && h.flags.fin == (low % 2 == 1)
        && h.flags.syn == (low % 4 >= 2))
    && h.streamId == Number(bs[4..8]) % 0x8000_0000
  }

  /** The unused bits of a header are zero. */
  ghost predicate UnusedZero(bs: seq<byte>) {
    |bs| >= 8 && bs[3] % 16 < 4 && bs[4] < 128
  }

  /** Bytes spell a body; the top bit of a stream id or of an increment does not matter. */
  ghost predicate SpellsBody(bs: seq<byte>, b: Body) {
    match b
    case Rst(e) => |bs| == 4 && NumbersError(Number(bs), e)
    case Data(data) => bs == data
    case WndInc(inc) => |bs| == 4 && inc == Number(bs) % 0x8000_0000
    case GoAway(last, e, message) =>
      && |bs| >= 8 && last == Number(bs) % 0x8000_0000 && NumbersError(Number(bs[4..]), e) && bs[8..] == message
    case Invalid(_, raw) => bs == raw
  }

  /** Why a header is refused. */
  ghost predicate Refuses(h: Header, why: InvalidHeader) {
    match why
    case WrongType(t) => h.typ == InvalidType(t)
    case ZeroStreamID => !h.typ.InvalidType? && h.typ != GoAwayType && h.streamId == 0
    case NonZeroStreamID(id) => h.typ == GoAwayType && h.streamId == id && id != 0
    case WrongLength(n, m) => (h.typ == RstType || h.typ == WndIncType) && h.streamId != 0 && n == 4 && h.length == m && m != 4
    case BelowMinLength(n, m) => h.typ == GoAwayType && h.streamId == 0 && n == 8 && h.length == m && m < 8
  }

  /** A header is refused exactly when there is such a reason, and for that reason. */
  lemma RefusedHeaders(h: Header, why: InvalidHeader)
    ensures ValidateHeader(h) == Some(why) <==> Refuses(h, why)
  {
  }

  /** What the encoder writes for a header of a known type, and what the decoder reads in any eight bytes. */
  lemma HeaderLayout(h: Header, bs: seq<byte>)
    ensures !h.typ.InvalidType? ==> SpellsHeader(EncodeHeader(h), h) && UnusedZero(EncodeHeader(h))
    ensures |bs| == 8 ==> SpellsHeader(bs, DecodeHeader(bs))
  {
    hide EncodeHeader, DecodeHeader, SpellsHeader, UnusedZero;
    if !h.typ.InvalidType? {
      EncodedLayout(h);
    }
    if |bs| == 8 {
      DecodedLayout(bs);
    }
  }

  lemma EncodedLayout(h: Header)
    requires !h.typ.InvalidType?
    ensures SpellsHeader(EncodeHeader(h), h) && UnusedZero(EncodeHeader(h))
  {
    hide PutU32, GetU32;
    var t: int, bits := ByteOfType(h.typ), FlagBits(h.flags);
    assert t * 0x10 % 0x100 == t * 0x10;
    var word := h.length * 0x100 + (t * 0x10 + bits);
    BigEndian(word, []);
    BigEndian(h.streamId, []);
    var bs := EncodeHeader(h);
    assert bs[..4] == PutU32(word) && bs[4..8] == PutU32(h.streamId);
    SplitWord(h.length, t * 0x10 + bits, bs[..4]);
    Split16(t, bits);
  }

  /** The bytes of a word are those of its upper 24 bits, then its lowest byte. */
  lemma SplitWord(length: Length, low: nat, bs: seq<byte>)
    requires low < 0x100 && |bs| == 4 && Number(bs) == length * 0x100 + low
    ensures var a: int, b: int, c: int := bs[0], bs[1], bs[2];
      length == 0x1_0000 * a + 0x100 * b + c && bs[3] == low
  {
    var a: int, b: int, c: int := bs[0], bs[1], bs[2];
    Split256(length, low);
    Split256(0x1_0000 * a + 0x100 * b + c, bs[3]);
  }

  lemma DecodedLayout(bs: seq<byte>)
    requires |bs| == 8
    ensures SpellsHeader(bs, DecodeHeader(bs))
  {
    hide PutU32, GetU32;
    BigEndian(0, bs[..4]);
    BigEndian(0, bs[4..]);
    assert bs[4..8] == bs[4..];
    WordParts(bs[0], bs[1], bs[2], bs[3]);
    LowNibble(bs[3]);
  }

  lemma WordParts(a: byte, b: byte, c: byte, low: byte)
    ensures var x: int, y: int, z: int, l: int := a, b, c, low;
      var word := 0x100_0000 * x + 0x1_0000 * y + 0x100 * z + l;
      word / 0x100 == 0x1_0000 * x + 0x100 * y + z && word % 0x100 == l && word % 0x10 == l % 0x10
  {
    var x: int, y: int, z: int, l: int := a, b, c, low;
    var length := 0x1_0000 * x + 0x100 * y + z;
    Split256(length, l);
    Split16(length * 0x10 + l / 0x10, l % 0x10);
  }

  lemma LowNibble(low: byte)
    ensures var l: int := low; l % 0x10 % 2 == l % 2 && (l % 0x10 / 2 % 2 == 1 <==> l % 4 >= 2)
  {
  }

  /** What the encoder writes for a body, and what the decoder reads in a body of the announced length. */
  lemma BodyLayout(b: Body, h: Header, bs: seq<byte>)
    ensures SpellsBody(EncodeBody(b), b)
    ensures |bs| == h.length ==> SpellsBody(bs, DecodeFrame(h, bs).body)
  {
    hide EncodeBody, DecodeFrame, SpellsBody;
    EncodedBodyLayout(b);
    if |bs| == h.length { DecodedBodyLayout(h, bs); }
  }

  lemma EncodedBodyLayout(b: Body)
    ensures SpellsBody(EncodeBody(b), b)
  {
    hide PutU32, GetU32, Number;
    match b
    case Rst(e) => BigEndian(ErrorCode(e), []);
    case WndInc(inc) => BigEndian(inc, []);
    case GoAway(last, e, message) => GoAwayLayout(last, e, message);
    case _ =>
  }

  lemma DecodedBodyLayout(h: Header, bs: seq<byte>)
    requires |bs| == h.length
    ensures SpellsBody(bs, DecodeFrame(h, bs).body)
  {
    hide PutU32, GetU32, Number;
    BigEndian(0, bs);
    if |bs| >= 8 { BigEndian(0, bs[4..]); }
  }

  lemma CodeNumbers(e: Error)
    ensures NumbersError(ErrorCode(e), e)
  {
  }

  lemma GoAwayLayout(last: StreamID, e: Error, message: seq<byte>)
    ensures SpellsBody(EncodeBody(GoAway(last, e, message)), GoAway(last, e, message))
  {
    hide PutU32, GetU32;
    CodeNumbers(e);
    hide NumbersError, ErrorCode;
    var bs := EncodeBody(GoAway(last, e, message));
    BigEndian(last, []);
    BigEndian(ErrorCode(e), []);
    FourFirst(PutU32(last), PutU32(ErrorCode(e)) + message);
    FourFirst(PutU32(ErrorCode(e)), message);
    hide Number;
    assert bs == PutU32(last) + (PutU32(ErrorCode(e)) + message);
    assert bs[8..] == message;
  }

  /** The bytes of a whole frame. */
  lemma FrameLayout(f: Frame)
    requires Encode(f).Some?
    ensures var bs := Encode(f).value;
      SpellsHeader(bs, f.header) && UnusedZero(bs) && SpellsBody(bs[8..], f.body)
  {
    hide EncodeHeader, EncodeBody, SpellsBody;
    HeaderLayout(f.header, []);
    BodyLayout(f.body, f.header, []);
    var bs := Encode(f).value;
    assert bs[4..8] == EncodeHeader(f.header)[4..8] && bs[8..] == EncodeBody(f.body);
  }

  lemma FourFirst(a: seq<byte>, b: seq<byte>)
    requires |a| == 4
    ensures Number(a + b) == Number(a) && (a + b)[4..] == b
  {
  }

  // ---- one-shot parsing ----

  datatype Parsed = Parsed(frames: seq<Frame>, rest: seq<byte>)

  /** The reference parser: all complete frames of a byte string, and what is left. */
  function ParseAll(bs: seq<byte>): Parsed
    decreases |bs|
  {
    if |bs| < 8 then Parsed([], bs)
    else
      var h := DecodeHeader(bs[..8]);
      if |bs| < 8 + h.length then Parsed([], bs)
      else
        var p := ParseAll(bs[8 + h.length..]);
        Parsed([DecodeFrame(h, bs[8..8 + h.length])] + p.frames, p.rest)
  }

  lemma {:induction false} ParseAppend(a: seq<byte>, x: seq<byte>)
    ensures ParseAll(a + x).frames == ParseAll(a).frames + ParseAll(ParseAll(a).rest + x).frames
    ensures ParseAll(a + x).rest == ParseAll(ParseAll(a).rest + x).rest
    decreases |a|
  {
    hide DecodeFrame, DecodeHeader;
    if |a| < 8 {
    } else {
      var h := DecodeHeader(a[..8]);
      var n := 8 + h.length;
      assert (a + x)[..8] == a[..8];
      if |a| < n {
      } else {
        ParseAppend(a[n..], x);
        assert (a + x)[8..n] == a[8..n];
        assert (a + x)[n..] == a[n..] + x;
      }
    }
  }

  // ---- the incremental decoder ----

  /** A decoder with its input buffer: the cached header and the bytes after it. */
  datatype Decoder = Decoder(header: Option<Header>, buf: seq<byte>)

  datatype Decoded = Decoded(next: Decoder, frame: Option<Frame>)

  /** One call of `FrameCodec::decode`. */
  function DecodeOnce(d: Decoder): Decoded {
    if d.header.None? && |d.buf| < 8 then Decoded(d, None)
    else
      var h := if d.header.Some? then d.header.value else DecodeHeader(d.buf[..8]);
      var buf := if d.header.Some? then d.buf else d.buf[8..];
      if |buf| < h.length then Decoded(Decoder(Some(h), buf), None)
      else Decoded(Decoder(None, buf[h.length..]), Some(DecodeFrame(h, buf[..h.length])))
  }

  function Weight(d: Decoder): nat {
    |d.buf| + if d.header.Some? then 8 else 0
  }

  datatype Drained = Drained(frames: seq<Frame>, next: Decoder)

  /** Calling `decode` until it asks for more input. */
  function Drain(d: Decoder): Drained
    decreases Weight(d)
  {
    var r := DecodeOnce(d);
    if r.frame.None? then Drained([], r.next)
    else
      var more := Drain(r.next);
      Drained([r.frame.value] + more.frames, more.next)
  }

  /** The decoder holds exactly the unparsed bytes `bs`, part of them as a cached header. */
  ghost predicate Holds(d: Decoder, bs: seq<byte>) {
    if d.header.None? then d.buf == bs
    else |bs| >= 8 && d.header.value == DecodeHeader(bs[..8]) && d.buf == bs[8..]
  }

  lemma {:induction false} DrainParses(d: Decoder, bs: seq<byte>)
    requires Holds(d, bs)
    ensures Drain(d).frames == ParseAll(bs).frames
    ensures Holds(Drain(d).next, ParseAll(bs).rest)
    decreases |bs|
  {
    hide DecodeFrame, DecodeHeader;
    var r := DecodeOnce(d);
    if |bs| < 8 {
    } else {
      var h := DecodeHeader(bs[..8]);
      var n := 8 + h.length;
      if |bs| < n {
      } else {
        assert bs[8..][..h.length] == bs[8..n];
        assert bs[8..][h.length..] == bs[n..];
        DrainParses(r.next, bs[n..]);
      }
    }
  }

  function Feed(d: Decoder, chunk: seq<byte>): Decoder {
    d.(buf := d.buf + chunk)
  }

  function DecodeChunks(d: Decoder, chunks: seq<seq<byte>>): Drained
    decreases |chunks|
  {
    if chunks == [] then Drained([], d)
    else
      var now := Drain(Feed(d, chunks[0]));
      var later := DecodeChunks(now.next, chunks[1..]);
      Drained(now.frames + later.frames, later.next)
  }

  function Concat(chunks: seq<seq<byte>>): seq<byte> {
    if chunks == [] then [] else chunks[0] + Concat(chunks[1..])
  }

  lemma FeedHolds(d: Decoder, bs: seq<byte>, x: seq<byte>)
    requires Holds(d, bs)
    ensures Holds(Feed(d, x), bs + x)
  {
    if d.header.Some? {
      assert (bs + x)[..8] == bs[..8] && (bs + x)[8..] == bs[8..] + x;
    }
  }

  lemma {:induction false} DecodeChunksParses(d: Decoder, bs: seq<byte>, chunks: seq<seq<byte>>)
    requires Holds(d, bs) && ParseAll(bs) == Parsed([], bs)
    ensures DecodeChunks(d, chunks).frames == ParseAll(bs + Concat(chunks)).frames
    ensures Holds(DecodeChunks(d, chunks).next, ParseAll(bs + Concat(chunks)).rest)
    decreases |chunks|
  {
    hide ParseAll, Drain, DecodeHeader;
    if chunks == [] {
      assert bs + Concat(chunks) == bs;
    } else {
      var x, more := chunks[0], Concat(chunks[1..]);
      var now := Drain(Feed(d, x));
      var rest := ParseAll(bs + x).rest;
      assert now.frames == ParseAll(bs + x).frames && Holds(now.next, rest) by {
        FeedHolds(d, bs, x);
        DrainParses(Feed(d, x), bs + x);
      }
      assert ParseAll(rest) == Parsed([], rest) by { ParseIsExhaustive(bs + x); }
      var later := DecodeChunks(now.next, chunks[1..]);
      assert later.frames == ParseAll(rest + more).frames && Holds(later.next, ParseAll(rest + more).rest) by {
        DecodeChunksParses(now.next, rest, chunks[1..]);
      }
      assert bs + Concat(chunks) == (bs + x) + more;
      ParseAppend(bs + x, more);
    }
  }

  lemma {:induction false} ParseIsExhaustive(bs: seq<byte>)
    ensures ParseAll(ParseAll(bs).rest) == Parsed([], ParseAll(bs).rest)
    decreases |bs|
  {
    hide DecodeFrame, DecodeHeader;
    if |bs| < 8 || |bs| < 8 + DecodeHeader(bs[..8]).length {
    } else {
      ParseIsExhaustive(bs[8 + DecodeHeader(bs[..8]).length..]);
    }
  }

  /**
    However the input is cut into chunks, a fresh decoder delivers the frames the
    one-shot parser finds in the whole input and keeps exactly the bytes that
    parser leaves over.
  */
  lemma IncrementalDecodingIsOneShotParsing(chunks: seq<seq<byte>>)
    ensures DecodeChunks(Decoder(None, []), chunks).frames == ParseAll(Concat(chunks)).frames
    ensures Holds(DecodeChunks(Decoder(None, []), chunks).next, ParseAll(Concat(chunks)).rest)
  {
    DecodeChunksParses(Decoder(None, []), [], chunks);
    assert [] + Concat(chunks) == Concat(chunks);
  }

  // ---- round trips ----

  predicate AllWellFormed(frames: seq<Frame>) {
    forall i :: 0 <= i < |frames| ==> WellFormed(frames[i])
  }

  function EncodeAll(frames: seq<Frame>): seq<byte>
    requires AllWellFormed(frames)
  {
    if frames == [] then [] else Encode(frames[0]).value + EncodeAll(frames[1..])
  }

  lemma ParseEncoded(f: Frame, tail: seq<byte>)
    requires WellFormed(f)
    ensures ParseAll(Encode(f).value + tail) == Parsed([f] + ParseAll(tail).frames, ParseAll(tail).rest)
  {
    var body := EncodeBody(f.body);
    var bs := Encode(f).value + tail;
    HeaderRoundTrip(f.header);
    BodyRoundTrip(f);
    hide DecodeFrame, DecodeHeader, EncodeHeader, EncodeBody, SpellsHeader;
    assert bs[..8] == EncodeHeader(f.header);
    assert bs[8..8 + |body|] == body;
    assert bs[8 + |body|..] == tail;
  }

  lemma {:induction false} ParseEncodedAll(frames: seq<Frame>, tail: seq<byte>)
    requires AllWellFormed(frames)
    ensures ParseAll(EncodeAll(frames) + tail)
         == Parsed(frames + ParseAll(tail).frames, ParseAll(tail).rest)
    decreases |frames|
  {
    hide ParseAll, EncodeHeader, EncodeBody;
    if frames == [] {
      assert EncodeAll(frames) + tail == tail;
      assert frames + ParseAll(tail).frames == ParseAll(tail).frames;
    } else {
      var more := EncodeAll(frames[1..]) + tail;
      ParseEncodedAll(frames[1..], tail);
      ParseEncoded(frames[0], more);
      assert EncodeAll(frames) + tail == Encode(frames[0]).value + more;
      assert [frames[0]] + (frames[1..] + ParseAll(tail).frames) == frames + ParseAll(tail).frames;
    }
  }

  /** Encoding any list of well-formed frames and decoding it in any chunks gives the list back. */
  lemma SequenceRoundTrip(frames: seq<Frame>, chunks: seq<seq<byte>>)
    requires AllWellFormed(frames)
    requires Concat(chunks) == EncodeAll(frames)
    ensures DecodeChunks(Decoder(None, []), chunks) == Drained(frames, Decoder(None, []))
  {
    IncrementalDecodingIsOneShotParsing(chunks);
    ParseEncodedAll(frames, []);
    assert EncodeAll(frames) + [] == EncodeAll(frames);
    assert frames + [] == frames;
  }

  /**
    A GOAWAY built by `Frame::goaway` never round-trips: the encoder refuses it
    when the message has fewer than eight bytes, and otherwise the decoder cuts
    eight bytes off the message and takes them for the start of another frame.
  */
  lemma GoAwayNeverRoundTrips(last: StreamID, e: Error, message: seq<byte>)
    ensures var f := GoAwayFrame(last, e, message);
      var sent := f.body.message;
      var m := |sent|;
      && sent <= message && (|message| <= LENGTH_MAX ==> sent == message)
      && if m < 8 then Encode(f).None?
         else
           && Encode(f).Some?
           && DecodeOnce(Decoder(None, Encode(f).value))
              == Decoded(Decoder(None, sent[m - 8..]), Some(f.(body := f.body.(message := sent[..m - 8]))))
  {
    var f := GoAwayFrame(last, e, message);
    var sent := f.body.message;
    var m := |sent|;
    if m >= 8 {
      HeaderRoundTrip(f.header);
      hide SpellsHeader, EncodeHeader, DecodeHeader;
      CutMessage(last, e, sent);
      var cut := f.(body := f.body.(message := sent[..m - 8]));
      BodyRoundTrip(cut);
      hide EncodeBody, DecodeFrame;
      var bs := Encode(f).value;
      assert bs[..8] == EncodeHeader(f.header);
      assert bs[8..] == EncodeBody(f.body);
    }
  }

  /** A header that counts the message alone covers all but the last eight bytes of it. */
  lemma CutMessage(last: StreamID, e: Error, message: seq<byte>)
    requires |message| >= 8
    ensures var bs, m := EncodeBody(GoAway(last, e, message)), |message|;
      |bs| == m + 8 && bs[..m] == EncodeBody(GoAway(last, e, message[..m - 8])) && bs[m..] == message[m - 8..]
  {
    hide PutU32, ErrorCode;
  }

  // ---- the codec object ----

  /** The growable input and output buffer (`BytesMut`). */
  class ByteBuffer {
    var data: seq<byte>

    constructor ()
      ensures data == []
    {
      data := [];
    }

    method SplitTo(n: nat) returns (head: seq<byte>)
      requires n <= |data|
      modifies this
      ensures head == old(data)[..n] && data == old(data)[n..]
    {
      head := data[..n];
      data := data[n..];
    }

    method Put(bs: seq<byte>)
      modifies this
      ensures data == old(data) + bs
    {
      data := data + bs;
    }
  }

  /** `FrameCodec`: both directions of the codec. */
  class FrameCodec {
    var inputHeader: Option<Header>

    constructor ()
      ensures inputHeader == None
    {
      inputHeader := None;
    }

    method Decode(b: ByteBuffer) returns (frame: Option<Frame>)
      modifies this, b
      ensures Decoded(Decoder(inputHeader, b.data), frame) == DecodeOnce(old(Decoder(inputHeader, b.data)))
      ensures old(inputHeader).None? && inputHeader.Some? ==>
        SpellsHeader(old(b.data), inputHeader.value) && b.data == old(b.data)[8..]
      ensures frame.None? ==>
        if inputHeader.Some? then |b.data| < inputHeader.value.length else b.data == old(b.data) && |b.data| < 8
      ensures frame.Some? ==>
        var start := if old(inputHeader).Some? then 0 else 8;
        var end := start + frame.value.header.length;
        && inputHeader == None && end <= |old(b.data)| && b.data == old(b.data)[end..]
        && (if start == 0 then frame.value.header == old(inputHeader).value else SpellsHeader(old(b.data), frame.value.header))
        && SpellsBody(old(b.data)[start..end], frame.value.body)
    {
      hide DecodeHeader, DecodeFrame, SpellsBody;
      ghost var input, cached := b.data, inputHeader;
      var header;
      if inputHeader.Some? {
        header := inputHeader.value;
      } else {
        if |b.data| < 8 {
          return None;
        }
        var bs := b.SplitTo(8);
        header := DecodeHeader(bs);
        inputHeader := Some(header);
        HeaderLayout(header, bs);
        assert bs[4..8] == input[4..8];
      }
      if |b.data| < header.length {
        return None;
      }
      var body := b.SplitTo(header.length);
      inputHeader := None;
      frame := Some(DecodeFrame(header, body));
      BodyLayout(frame.value.body, header, body);
      assert body == if cached.Some? then input[0..header.length] else input[8..8 + header.length];
    }

    method EncodeFrame(frame: Frame, buf: ByteBuffer) returns (r: Result<(), InvalidHeader>)
      modifies buf
      ensures r.Ok? <==> Encode(frame).Some?
      ensures r.Ok? ==> buf.data == old(buf.data) + Encode(frame).value
      ensures r.Ok? ==>
        var bs := buf.data[|old(buf.data)|..];
        SpellsHeader(bs, frame.header) && UnusedZero(bs) && SpellsBody(bs[8..], frame.body)
      ensures r.Err? ==> buf.data == old(buf.data) && Refuses(frame.header, r.error)
      ensures (exists why :: Refuses(frame.header, why)) ==> r.Err?
    {
      hide EncodeHeader, EncodeBody, SpellsHeader, UnusedZero, SpellsBody, Refuses, ValidateHeader;
      forall why ensures ValidateHeader(frame.header) == Some(why) <==> Refuses(frame.header, why) {
        RefusedHeaders(frame.header, why);
      }
      var bad := ValidateHeader(frame.header);
      if bad.Some? {
        return Err(bad.value);
      }
      FrameLayout(frame);
      ghost var start := buf.data;
      buf.Put(EncodeHeader(frame.header));
      buf.Put(EncodeBody(frame.body));
      assert buf.data == start + Encode(frame).value && buf.data[|start|..] == Encode(frame).value;
      r := Ok(());
    }

    /** What the framed reader does with each chunk: decode until more input is needed. */
    method DecodeAvailable(b: ByteBuffer, chunk: seq<byte>) returns (frames: seq<Frame>)
      modifies this, b
      ensures Drained(frames, Decoder(inputHeader, b.data))
           == Drain(Feed(old(Decoder(inputHeader, b.data)), chunk))
    {
      hide DecodeFrame, DecodeHeader;
      b.Put(chunk);
      ghost var start := Decoder(inputHeader, b.data);
      frames := [];
      var next := Decode(b);
      while next.Some?
        invariant Drain(start) ==
          (if next.None? then Drained(frames, Decoder(inputHeader, b.data))
           else var more := Drain(Decoder(inputHeader, b.data)); Drained(frames + [next.value] + more.frames, more.next))
        decreases Weight(Decoder(inputHeader, b.data)), next.Some?
      {
        frames := frames + [next.value];
        next := Decode(b);
      }
    }
  }
}
