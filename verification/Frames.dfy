/** Frames, headers and bodies (muxado/src/frame.rs). */
module Frames {
  import opened Constrained
  import opened MuxErrors

  datatype Flags = Flags(fin: bool, syn: bool)

  datatype HeaderType = RstType | DataType | WndIncType | GoAwayType | InvalidType(t: byte)

  datatype Header = Header(length: Length, typ: HeaderType, flags: Flags, streamId: StreamID)

  datatype Body =
    | Rst(error: Error)
    | Data(data: seq<byte>)
    | WndInc(inc: WndIncrement)
    | GoAway(lastStreamId: StreamID, reason: Error, message: seq<byte>)
    | Invalid(why: InvalidHeader, raw: seq<byte>)

  datatype Frame = Frame(header: Header, body: Body)
  {
    predicate IsFin() { header.flags.fin }
    predicate IsSyn() { header.flags.syn }
    function WithFin(): Frame { this.(header := header.(flags := header.flags.(fin := true))) }
    function WithSyn(): Frame { this.(header := header.(flags := header.flags.(syn := true))) }
    function WithStreamId(id: StreamID): Frame { this.(header := header.(streamId := id)) }
  }

  const NO_FLAGS := Flags(false, false)

  function TypeOfByte(t: byte): HeaderType {
    if t == 0 then RstType else if t == 1 then DataType else if t == 2 then WndIncType
    else if t == 3 then GoAwayType else InvalidType(t)
  }

  function ByteOfType(t: HeaderType): byte {
    match t
    case RstType => 0
    case DataType => 1
    case WndIncType => 2
    case GoAwayType => 3
    case InvalidType(b) => b
  }

  function TypeOfBody(b: Body): HeaderType {
    match b
    case Data(_) => DataType
    case GoAway(_, _, _) => GoAwayType
    case WndInc(_) => WndIncType
    case Rst(_) => RstType
    case Invalid(_, _) => InvalidType(0xFF)
  }

  /** `Body::len`: the fixed part only for GOAWAY. */
  function BodyLen(b: Body): nat {
    match b
    case Data(bs) => |bs|
    case GoAway(_, _, _) => 8
    case WndInc(_) => 4
    case Rst(_) => 4
    case Invalid(_, bs) => |bs|
  }

  /** `Body::clamp_len`. */
  function ClampLen(b: Body): (r: Body)
    ensures BodyLen(b) <= LENGTH_MAX ==> r == b
    ensures BodyLen(r) <= LENGTH_MAX
  {
    match b
    case Data(bs) => Data(bs[..Min(LENGTH_MAX, |bs|)])
    case Invalid(why, bs) => Invalid(why, bs[..Min(LENGTH_MAX, |bs|)])
    case _ => b
  }

  /** `Frame::from(Body)`. */
  function FromBody(b: Body): (f: Frame)
    ensures BodyLen(f.body) == f.header.length
    ensures TypeOfBody(f.body) == f.header.typ
  {
    var c := ClampLen(b);
    Frame(Header(BodyLen(c), TypeOfBody(c), NO_FLAGS, 0), c)
  }

  function RstFrame(id: StreamID, e: Error): Frame {
    Frame(Header(4, RstType, NO_FLAGS, id), Rst(e))
  }

  /** `Frame::goaway`: the header length counts the message and nothing else. */
  function GoAwayFrame(last: StreamID, e: Error, message: seq<byte>): Frame {
    var length: Length := Clamp(AsU32(|message|), LENGTH_MAX);
    Frame(Header(length, GoAwayType, NO_FLAGS, 0), GoAway(last, e, message[..length]))
  }

  /** The FIN that closes the sending half of a stream: an empty DATA frame. */
  function FinFrame(): Frame {
    FromBody(Data([])).WithFin()
  }
}
