/** muxado error codes (muxado/src/errors.rs). */
module MuxErrors {
  import opened Constrained

  datatype Error =
    | NoError | Protocol | Internal | FlowControl
    | StreamClosed | StreamRefused | StreamCancelled | StreamReset
    | FrameSizeError | AcceptQueueFull | EnhanceYourCalm | RemoteGoneAway
    | StreamsExhausted | WriteTimeout | SessionClosed | PeerEOF
    | ErrorUnknown

  datatype InvalidHeader =
    | ZeroStreamID
    | NonZeroStreamID(id: StreamID)
    | WrongLength(expected: Length, actual: Length)
    | BelowMinLength(expected: Length, actual: Length)
    | WrongType(t: byte)

  /** The number an error is sent as. */
  function ErrorCode(e: Error): U32 {
    match e
    case NoError => 0x00
    case Protocol => 0x01
    case Internal => 0x02
    case FlowControl => 0x03
    case StreamClosed => 0x04
    case StreamRefused => 0x05
    case StreamCancelled => 0x06
    case StreamReset => 0x07
    case FrameSizeError => 0x08
    case AcceptQueueFull => 0x09
    case EnhanceYourCalm => 0x0A
    case RemoteGoneAway => 0x0B
    case StreamsExhausted => 0x0C
    case WriteTimeout => 0x0D
    case SessionClosed => 0x0E
    case PeerEOF => 0x0F
    case ErrorUnknown => 0xFFFF_FFFF
  }

  /** The error a received number stands for. */
  function ErrorOf(code: U32): (e: Error)
    ensures ErrorCode(e) == code || (e == ErrorUnknown && 0x0F < code)
  {
    match code
    case 0x00 => NoError
    case 0x01 => Protocol
    case 0x02 => Internal
    case 0x03 => FlowControl
    case 0x04 => StreamClosed
    case 0x05 => StreamRefused
    case 0x06 => StreamCancelled
    case 0x07 => StreamReset
    case 0x08 => FrameSizeError
    case 0x09 => AcceptQueueFull
    case 0x0A => EnhanceYourCalm
    case 0x0B => RemoteGoneAway
    case 0x0C => StreamsExhausted
    case 0x0D => WriteTimeout
    case 0x0E => SessionClosed
    case 0x0F => PeerEOF
    case _ => ErrorUnknown
  }

  /** The errors with a number of their own below 16, in the order of their numbers. */
  const NUMBERED: seq<Error> := [
    NoError, Protocol, Internal, FlowControl, StreamClosed, StreamRefused, StreamCancelled, StreamReset,
    FrameSizeError, AcceptQueueFull, EnhanceYourCalm, RemoteGoneAway, StreamsExhausted, WriteTimeout, SessionClosed, PeerEOF]

  /**
    The numbers on the wire, all seventeen: the position in that list, and the
    largest 32-bit number for the unknown error. Every other number is read as the
    unknown error.
  */
  lemma ErrorNumbers(n: U32)
    ensures |NUMBERED| == 16
    ensures n < 16 ==> ErrorCode(NUMBERED[n]) == n && ErrorOf(n) == NUMBERED[n]
    ensures n >= 16 ==> ErrorOf(n) == ErrorUnknown
    ensures ErrorCode(ErrorUnknown) == 0xFFFF_FFFF
  {
    if n < 16 {
      assert ErrorCode(ErrorOf(n)) == n;
    }
  }

  /** Sending and receiving an error code loses nothing. */
  lemma ErrorRoundTrip(e: Error)
    ensures ErrorOf(ErrorCode(e)) == e
    ensures ErrorCode(e) == 0 <==> e == NoError
  {
  }
}
