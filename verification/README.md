# Verified model of muxado and of the PROXY header stream

muxado multiplexes byte streams over one connection. Each stream has credit-based
flow control in both directions and a life that goes from SYN to FIN or RST; a
session ends with GOAWAY. The second subject is the stream wrapper that reads or
writes a PROXY protocol header in front of a byte stream. The project models both
as they behave poll by poll and proves what holds in every run.

`dafny verify dfyconfig.toml` checks everything.

## How the model is built

- **Values and objects.** Each poll is a function on values (`PollRead`,
  `PollWrite`, `PollTask`, `PollSend`, `PollHeader`, ...). The classes (`Window`,
  `FrameCodec`, `ByteBuffer`, `SinkCloser`, `StreamSender`, `Stream`,
  `StreamManager`, `FrameDelivery`, `ProxyStream`) update their fields in place as
  the source does, with its loops, and each method is proved to compute that
  function. The endpoint machine is built from the same functions, so the theorems
  about runs are theorems about what the methods compute. What each poll answers is
  stated a second time, in terms of what it finds and in plain numbers, frames and
  bytes: `StreamOutcomes` and `Endings` for streams, `Replies` for the dispatcher,
  the reader and the system frames, the layout lemmas of `Codec` for the wire.
- **One stream id at one endpoint** (`Halves`): map entry, pending task, stream
  object, its two channels, the frame in the reader's hand, plus histories of what
  the application wrote and read. A sequence of frames is seen as a flow of bytes
  with an end mark for every FIN (`Flows`), so order, loss and end of stream are one
  statement.
- **One endpoint** (`Endpoints`): the manager, all streams, the reader between its
  atomic actions, the writer. `send_to_stream` gives up the lock between polls, so
  the frame stays in the reader's hand and other steps interleave.
- **Two endpoints** (`Sessions`), each with its own window and stream limit, joined
  by two FIFO wires of frames;
  `ByteSessions` replaces the wires by bytes that arrive in pieces of any size.
- **Nondeterminism.** Ready or Pending, a free channel slot, an I/O failure and the
  order of steps are inputs of a step. A theorem over all runs covers every
  schedule.

Files build on each other in this order: `Constrained`, `MuxErrors`, `Frames`,
`Codec`; `Windows`, `StreamOutput`, `Streams`, `StreamManagers`; `Flows`,
`StreamFacts`, `StreamOutcomes`; `Halves`, `HalfInvariants`, `HalfSteps`; `Lanes`,
`Credits`, `Balances`, `LaneSteps`; `Endpoints`, `EndpointInvariants`,
`EndpointTheorems`, `SealedStreams`, `Endings`, `Replies`, `ManagerObjects`; `Sessions`, `SessionTheorems`, `ByteSessions`,
`TypedStreams`, `SampleRun`, `Overruns`; `ProxyHeaders`, `ProxyStreams`.

## Where code and promise differ

- `muxado/PROTOCOL.md:43` gives the SYN flag the mask 0x10; the code uses the
  second-lowest bit (`muxado/src/frame.rs:39`). The model follows the code.
- A GOAWAY built by `Frame::goaway` carries a length without its eight fixed bytes.
  `Codec.GoAwayNeverRoundTrips` shows that it never survives the codec;
  `EndpointTheorems.ReaderCrashesOnlyOnBadGoAway` says exactly which frames take
  the reader down. On the wire of a session such a frame is what the peer decodes
  from its bytes.
- Closing a sink with the "no error" code leaves it open
  (`StreamOutput.CloseWithNoErrorLeavesOpen`, if and only if).
- A SYN with an id that is in use breaks the agreement of map and tasks
  (`EndpointTheorems.AgreementNeedsFreshId`, if and only if). Against an arbitrary
  remote fresh ids are an enabling condition of taking a frame; between two correct
  endpoints they are proved (`SessionTheorems.SynIdsAreAlwaysFresh`). The allocator
  moves on exactly below the 31-bit bound (`EndpointTheorems.AllocatorSaturates`),
  which is the enabling condition of opening a stream.
- The two ends' windows are configured apart and not negotiated
  (`muxado/src/session.rs:87-90`), though each end credits itself with its own window
  for sending. Some run meets a flow control reset at one end if and only if the
  other end's window is larger and both may have streams
  (`Overruns.OverrunsExactlyWhenLarger`). Delivery, end of stream and credit
  conservation hold for all windows.
- After a refused DATA frame no DATA frame, hence no DATA with FIN, reaches the
  stream (`SealedStreams.RefusalIsFinal`); a FIN flag on a WNDINC frame still does
  (`SealedStreams.FinEntersSealedOnlyOnCredit`, if and only if).
- The header read loop never returns when 536 bytes arrive and the last is a CR
  (`ProxyHeaders.SpinsExactlyOnCr`). A loop that never returns is modelled as the
  outcome `HeaderSpins`.
- A header that arrives together with the end of a short input is reported exactly
  when that input has at least 16 bytes and does not end in a CR
  (`ProxyHeaders.HeaderAtEndIsFoundExactlyIfParseable`). So the short form of a
  version 1 header (section 2.1 of the PROXY protocol specification), 15 bytes, is
  missed from a peer that sends it alone (`ProxyHeaders.LoneShortHeaderIsMissed`).
- The header write loop does not return while the inner writer reports writes of
  zero bytes (`ProxyStreams.ZeroWritesNeverEndThePoll`); one poll writes the rest of
  the header if and only if the inner writer takes that much before it first waits or
  fails (`ProxyStreams.HeaderIsWrittenExactlyIfTaken`).
- A frame refused on stream 0, such as a DATA header with that id, is answered by an
  RST for stream 0. The encoder refuses that RST and the writer ends
  (`Replies.ResetCrosses`).
- An RST with the number of "no error" takes the duty to send a FIN away without
  closing the sink: the stream is removed without notice when it is dropped
  (`Endings.HushedStreamEndsSilently`). Without such an RST no stream ends without
  notice (`Endings.NoSilentEnd`).
- The GOAWAY for an invalid frame reaches the peer without the last eight bytes of its
  message, as any GOAWAY does (`Replies.GoAwayCrosses`).
- A FIN on a WNDINC frame is not seen by the read that absorbs it: that read waits for
  DATA or the end of the inbox, the next one reports the end
  (`StreamOutcomes.ReadOutcomes`).
- A write without credit, whose inbox has ended, queues an empty DATA frame and takes
  no byte (`StreamOutcomes.WriteOutcomes`).
- A SYN with id 0 makes a stream none of whose frames the encoder takes; the first
  one ends the writer (`EndpointTheorems.StreamFramesEncode`).
- `open_typed` ignores how much of the type its single write took; it is the whole
  type exactly when the window is at least four (`TypedStreams.TypeIsWrittenWhole`).

## Model

| member | source | states |
|---|---|---|
| SessionTheorems.EndToEndDelivery | muxado/src/stream.rs:163-290 | In every run of two endpoints with any two windows, on every stream and both ways, the bytes read are a prefix of the bytes the peer's writes accepted, across resets, drops, closes and frames refused by flow control |
| SessionTheorems.CompleteEof | muxado/src/stream.rs:213-241 | Whatever the two windows: when a FIN has reached a stream, bytes read plus bytes buffered are everything the peer ever wrote, and the peer can write no more |
| SessionTheorems.EofWithoutClosureIsComplete | muxado/src/stream.rs:132-145 | Whatever the two windows: a reader at end of file whose inbox the session has not closed has read everything the peer wrote |
| SessionTheorems.FlowControlNeverTriggers | muxado/src/stream_manager.rs:348-360 | When the sender's window is not larger than the receiver's, in no run does dispatching a frame at the receiver end in a flow control reset |
| SessionTheorems.CreditIsConserved | muxado/src/window.rs:16-34 | For any two windows and in every reachable state, sender's credit, credit in flight and data in flight exceed the receiver's free window by at most the difference of the two configured windows, and by exactly that while both ends are live; arriving credit is never cut by the cap |
| SessionTheorems.SenderWindowIsConserved | muxado/src/stream.rs:149-160 | While both ends are live, every byte of the window the sender was configured with is in exactly one place: its credit, credit or data on the way, data unread at the receiver, or credit the receiver has still to send |
| SessionTheorems.CreditComesBack | muxado/src/stream.rs:213-229 | Whenever nothing of a live stream is queued, on its way or unread, the sender has its whole window again, so it is not starved |
| Overruns.OverrunsExactlyWhenLarger | muxado/src/stream_manager.rs:354-366 | Some run ends in a flow control reset at one end if and only if the other end's window is larger and both stream limits are above zero |
| SessionTheorems.SynIdsAreAlwaysFresh | muxado/src/stream_manager.rs:459-477 | Between correct endpoints with any windows the next frame always has a fresh SYN id of the sender's parity and a body matching its header |
| SessionTheorems.RunsAreOk | muxado/src/session.rs:212-360 | Every reachable session, whatever windows and limits its ends have, satisfies the joint invariant of both endpoints, both wires and all streams |
| SampleRun.AByteArrives | muxado/src/session.rs:212-360 | Runs do carry data: for every byte, all windows and limits above zero, some run opens a stream, writes, dispatches and reads it, and delivers exactly that byte |
| SampleRun.LargerWindowOverruns | muxado/src/stream_manager.rs:354-366 | For all windows with the sender's larger, and either side sending, some run has the receiver refuse a frame for want of window while its application still holds the stream |
| Sessions.TurnKeeps | muxado/src/session.rs:212-360 | Any step of either endpoint keeps the joint invariant |
| Sessions.LaneTurn | muxado/src/stream_manager.rs:177-406 | Any step of an endpoint, whichever stream it is about, keeps every stream's delivery and credit invariant |
| Sessions.NextFrameIsTakeable | muxado/src/session.rs:290-300 | The next frame on a wire between correct endpoints meets what the reader relies on |
| ByteSessions.BytesRefineFrames | muxado/src/codec.rs:136-206 | Every state reached over wires of bytes, cut anywhere, with any windows, has the endpoints of a state reached over wires of frames |
| ByteSessions.EndToEndOverBytes | muxado/src/session.rs:290-360 | End-to-end delivery with frames encoded, chopped up and decoded on the way, for any windows |
| ByteSessions.CompleteEofOverBytes | muxado/src/stream.rs:213-241 | Complete end of stream over bytes, for any windows |
| ByteSessions.FlowControlNeverTriggersOverBytes | muxado/src/stream_manager.rs:348-360 | No flow control reset over bytes when the sender's window is not the larger one |
| ByteSessions.CreditIsConservedOverBytes | muxado/src/window.rs:16-34 | Credit conservation over bytes, the inequality and the equality, counting what the bytes on the wires still decode to while both writers run |
| ByteSessions.TurnRefines | muxado/src/session.rs:325-345 | One step over bytes is one step over frames, or none and no change |
| ByteSessions.DrainFeed | muxado/src/codec.rs:141-164 | Decoding what is there and later the rest equals decoding all at once |
| Lanes.SendKeeps | muxado/src/stream_manager.rs:391-403 | Dispatch of a frame, delivered or refused, keeps the order of what reaches the stream |
| Lanes.TakeKeeps | muxado/src/session.rs:212-225 | Taking a frame off the wire keeps the order of the stream's flow; a SYN meets an id not yet in use |
| Lanes.AbsorbKeepsReader | muxado/src/stream.rs:163-179 | Moving frames from inbox to read buffer and out to the application neither loses nor reorders bytes |
| Credits.SenderStepKeepsCredit | muxado/src/stream.rs:257-287 | A step of the sender that spends no more than its credit keeps the credit inequality between two windows |
| Credits.ReceiverStepKeepsCredit | muxado/src/stream_manager.rs:235-237 | A step of the receiver that grants no more than was consumed keeps the credit inequality between two windows |
| Credits.NeverFlowControl | muxado/src/stream_manager.rs:348-366 | Under the credit invariant, when the sender's window is not the larger one, the frame in hand fits the window, so the dispatcher's result is not a flow control error |
| Balances.SenderStepKeepsBalance | muxado/src/stream.rs:257-287 | A step of a live sender in which only written bytes use up credit keeps the exact balance of the two windows |
| Balances.ReceiverStepKeepsBalance | muxado/src/stream_manager.rs:235-237 | A step of a live receiver in which credit sent and window regained go together keeps the exact balance |
| Balances.SynStartsBalance | muxado/src/stream_manager.rs:459-477 | When a SYN makes the receiver's stream, everything the sender wrote is queued, on the wire or in hand, so the balance starts exact |
| Balances.SendBalances | muxado/src/stream_manager.rs:346-368 | A poll of the dispatch loses no credit and charges the window by what it takes out of the hand, while the stream is live |
| Balances.WriteBalances | muxado/src/stream.rs:248-290 | A write on a live stream uses up exactly the credit for the bytes it accepts and loses none of the credit it absorbs while waiting |
| EndpointTheorems.ReceiveBound | muxado/src/stream_manager.rs:298-366 | Against any remote with fresh SYN ids, free window + bytes in hand, inbox and read buffer + unsent credit never exceed the configured window, with equality while stream, sink and reader live |
| EndpointTheorems.MapAndTasksAgree | muxado/src/stream_manager.rs:206-219 | While not gone away the pending tasks are exactly the map's streams, each once, within the limit; a ready task finds its stream |
| EndpointTheorems.ClosedSinkNeedsNoFin | muxado/src/stream_manager.rs:221-232 | In every reachable state a closed sink in the map needs no FIN |
| EndpointTheorems.InboxHoldsStreamFrames | muxado/src/stream.rs:127-178 | In every reachable state a stream's inbox holds only DATA and WNDINC frames whose header type is that of the body, so `handle_frame` does not panic and returns the type the receive loop compares |
| EndpointTheorems.OutgoingLifecycle | muxado/src/stream.rs:275-325 | In what is emitted for a stream only the first DATA frame can carry SYN, at most one FIN occurs, no DATA follows it, and the flow is a prefix of what was written |
| EndpointTheorems.ResetSilences | muxado/src/stream_manager.rs:326-344 | A received RST with a non-zero code leaves its stream with nothing to emit |
| EndpointTheorems.NothingFollowsReset | muxado/src/stream_manager.rs:227-270 | Once a stream is silenced, no run takes another frame for it from its own queue or makes up a FIN |
| EndpointTheorems.ResetIsFinal | muxado/src/stream_manager.rs:326-344 | From any reachable state, after an RST with a non-zero code was dispatched, no run yields another frame of that stream's own |
| Endings.PollOutcomes | muxado/src/stream_manager.rs:206-270 | In any reachable state, a polled stream puts on the wire exactly the front of its queue with its id; with an empty queue exactly one empty DATA frame with FIN if one is owed and nothing otherwise, and the stream is removed; with a closed sink nothing |
| Endings.NoSilentEnd | muxado/src/stream_manager.rs:239-268 | In every run in which no RST with the number of "no error" is taken for the stream: a closed write side has put a FIN behind all it wrote, and a stream gone from the manager of a living session has emitted a FIN, unless an error closed its sink |
| Endings.HushedStreamEndsSilently | muxado/src/stream_manager.rs:326-344 | After an RST with the number of "no error" a dropped stream is removed and nothing is sent for it |
| Endings.ReadsSeeTheEnd | muxado/src/stream.rs:132-145 | With nothing buffered or waiting a read sees the end if and only if it was seen before, the session closed the inbox, or the manager let go of the stream |
| Endings.WritesReachTheQueue | muxado/src/stream.rs:257-287 | A ready write with credit queues one DATA frame with the front of the bytes while the manager holds the queue, and otherwise closes the stream with "session closed" and queues nothing |
| Endings.ClosingCalls | muxado/src/stream.rs:293-325 | A shutdown puts one FIN behind everything written if the write side is open and the sink takes it; a second shutdown and a flush never do; dropping the stream leaves its queue and closes its inbox |
| Replies.DispatchOutcomes | muxado/src/stream_manager.rs:293-406 | One poll of the dispatch, for every frame and stream: refused, and why (unknown, sealed or gone stream: StreamClosed; too little window: FlowControl), with the stream sealed and its sink closed; an RST closes the sink with its error; a welcome frame is charged and queued, or kept already charged; anything else is dropped |
| Replies.ReaderMoves | muxado/src/session.rs:212-287 | Where the reader goes from each step: by header type, refusal, FIN and end of the connection; an undeliverable body is reset with Internal |
| Replies.RefusalIsAnswered | muxado/src/session.rs:242-254 | In any reachable state a polled frame is refused exactly when there is a reason; the next step of the reader then puts exactly one RST with that stream and that reason behind the queued system frames and changes nothing else |
| Replies.EveryRefusalIsAnswered | muxado/src/session.rs:212-287 | Over every run in which the reader is not aborted, system frames taken, queued and about to be queued are together exactly the RSTs for the refused frames, the GOAWAYs for invalid frames and those of the session's closing |
| Replies.QueueMoves | muxado/src/stream_manager.rs:187-203 | System frames are first in, first out, nothing else touches them, and no stream is polled before they are gone |
| Replies.ResetCrosses | muxado/src/stream_manager.rs:187-203 | A polled RST is put on the wire and decodes to itself, for every stream but 0, where it ends the writer |
| Replies.GoAwayCrosses | muxado/src/stream_manager.rs:187-203 | A polled GOAWAY is stamped with the last remote id, closes all sinks with SessionClosed, clears map and tasks and ends the writer; the peer sees its message less eight bytes, or nothing below eight |
| Replies.RemoteGoAwayClosesStreams | muxado/src/session.rs:266-272 | A received GOAWAY drops every stream from the map and closes its sink with the error received |
| Replies.NothingAfterGoAway | muxado/src/stream_manager.rs:177-182 | Once gone away or with its writer ended, an endpoint sends nothing in any run |
| Replies.ClosingEndsInboxes | muxado/src/session.rs:304-308 | When the reader ends, every stream of the map sees the end of its inbox and keeps what is in it |
| Replies.DroppingEndsStreams | muxado/src/stream_output.rs:61-72 | When both tasks are gone, every stream finds its inbox ended and its sink disconnected |
| Replies.UnacceptedIsDropped | muxado/src/session.rs:221-224 | A new stream that the accept queue does not take, or that the reader ends with, is dropped |
| Replies.NothingAfterFin | muxado/src/session.rs:255-262 | After a delivered FIN, in any run, no byte reaches the stream and DATA for it is refused with StreamClosed |
| Replies.IdsMove | muxado/src/stream_manager.rs:459-466 | The last remote id is that of the last SYN below the limit; local ids go up by exactly two |
| Replies.ProcessedMoves | muxado/src/session.rs:255-257 | The last stream processed changes exactly when a dispatch ends without an error |
| EndpointTheorems.StreamFramesEncode | muxado/src/codec.rs:201-206 | Every frame sent for a stream passes the encoder's checks and describes itself; over a working connection the writer goes on if and only if the id is not zero or nothing was due, and stream 0 never gets a frame out |
| EndpointTheorems.NextIdIsNew | muxado/src/stream_manager.rs:459-466 | Below the bound the next local id is non-zero, unused, of the own parity and larger than all earlier local ids |
| EndpointTheorems.AllocatorSaturates | muxado/src/stream_manager.rs:463-465 | The clamped id grows and keeps its parity if and only if two more ids fit |
| EndpointTheorems.AgreementNeedsFreshId | muxado/src/stream_manager.rs:467-477 | Creating a stream keeps map and tasks in agreement if and only if the id is not in the map |
| EndpointTheorems.ReaderCrashesOnlyOnBadGoAway | muxado/src/session.rs:212-274 | The reader reaches its `unreachable!` if and only if the header is a GOAWAY with non-zero id or length below eight and the frame is routed: without SYN at once, with SYN below the stream limit and once accepted; otherwise SYN handling halts it first |
| EndpointInvariants.StepKeeps | muxado/src/session.rs:212-360 | Every step of an endpoint keeps its invariant for all streams, its ids and its limit; the step that answers a refused frame queues exactly one RST with its stream and reason, the one that answers an invalid frame one GOAWAY with Protocol, and both return to the next frame |
| EndpointInvariants.StepView | muxado/src/stream_manager.rs:177-406 | An endpoint step seen from one stream id is that stream's own step; the other streams keep everything but endpoint-wide flags |
| EndpointInvariants.NewEndpointIsOk | muxado/src/stream_manager.rs:108-128 | A new endpoint satisfies the invariant |
| SealedStreams.NothingEntersSealed | muxado/src/stream_manager.rs:321-324 | Once a stream is sealed, in any run and against any remote, the bytes that reached it never grow again |
| SealedStreams.RefusalIsFinal | muxado/src/stream_manager.rs:391-403 | From any reachable state, after a frame of a known stream was answered by a reset, in any run the bytes that reached the stream never grow, and no FIN reaches it unless a WNDINC taken for it carries one |
| SealedStreams.NoFinEntersSealed | muxado/src/stream.rs:164-166 | Over any run that takes no WNDINC with FIN for it, what has arrived at a sealed stream, end marks included, never grows |
| SealedStreams.RefusalSeals | muxado/src/stream_manager.rs:391-403 | A DATA frame answered by a reset, or a received RST, seals the stream and enters nothing |
| SealedStreams.OnlyCreditEnters | muxado/src/stream_manager.rs:321-324 | A sealed stream stays sealed and takes nothing but WNDINC frames |
| SealedStreams.FinEntersSealedOnlyOnCredit | muxado/src/stream.rs:164-166 | A FIN reaches a sealed stream if and only if it is the flag of a WNDINC for a known live stream with room |
| SealedStreams.ParsedFramesAreFromWire | muxado/src/codec.rs:106-134 | Every frame parsed from any bytes has a body of its header's type or an invalid body |
| ManagerObjects.DispatchIsRetrySafe | muxado/src/stream_manager.rs:298-366 | Over any number of polls in any circumstances the windows found lose at most the frame's bytes in all, exactly these when it is queued, and nothing after a pending poll; it is queued at most once |
| ManagerObjects.PollAccounts | muxado/src/stream_manager.rs:348-366 | One poll takes off the window exactly what it takes off the charge; a pending poll owes nothing more |
| ManagerObjects.FrameDelivery.HandleFrame | muxado/src/stream_manager.rs:320-368 | The closure computes its specification on handle, closer and channel and gives the frame away only when it is queued |
| ManagerObjects.FrameDelivery.Poll | muxado/src/stream_manager.rs:374-404 | One poll of `send_to_stream` computes its specification; after a pending poll the frame is still there, so its unwrap never meets nothing |
| ManagerObjects.PollKeepsAgreement | muxado/src/stream_manager.rs:206-269 | A polled task finds its stream, and map and tasks agree again afterwards |
| ManagerObjects.StreamManager.constructor | muxado/src/stream_manager.rs:108-128 | A new manager is the initial manager of the endpoint machine |
| ManagerObjects.StreamManager.GoAway | muxado/src/stream_manager.rs:140-145 | Empties the map and closes every sink that was in it, first code winning |
| ManagerObjects.StreamManager.CloseSenders | muxado/src/stream_manager.rs:151-155 | Closes every stream's inbox and changes nothing else in it |
| ManagerObjects.StreamManager.CreateStream | muxado/src/stream_manager.rs:450-483 | Fails if and only if the map is at its limit; otherwise adds exactly one entry and one task under the remote or the next local id |
| ManagerObjects.StreamManager.PollSystemFrame | muxado/src/stream_manager.rs:190-203 | System frames come first; a GOAWAY gets the last remote id and clears map and tasks |
| ManagerObjects.StreamManager.PollStreamTask | muxado/src/stream_manager.rs:206-272 | A ready task yields the front of its queue with the stream's id, raising the window for a WNDINC and settling the FIN; with an empty queue it yields one empty DATA frame with FIN if and only if the stream still owes one, and the stream is removed |
| Codec.IncrementalDecodingIsOneShotParsing | muxado/src/codec.rs:141-164 | For all bytes and every split into chunks the decoder yields the frames and leftover of a recursive whole-buffer parser |
| Codec.SequenceRoundTrip | muxado/src/codec.rs:141-206 | Well-formed frames encoded, concatenated, split anywhere and decoded come back exactly, with nothing left |
| Codec.DecodeChunksParses | muxado/src/codec.rs:141-164 | The same from any intermediate decoder state |
| Codec.ParseEncodedAll | muxado/src/codec.rs:168-206 | Parsing the encoding of frames followed by any tail gives the frames, then the parse of the tail |
| Codec.ParseAppend | muxado/src/codec.rs:141-164 | Parsing distributes over appended bytes |
| Codec.HeaderRoundTrip | muxado/src/codec.rs:30-41 | The 24/4/4/32-bit packing has the documented layout and loses nothing of a header with a known type |
| Codec.HeaderLayout | muxado/src/codec.rs:168-176 | Byte by byte, for every header of a known type and any eight bytes: three bytes of length, type 0 to 3 in the upper half of the fourth, FIN its bit 0 and SYN its bit 1, four bytes of stream id, big-endian; reserved bits are written as zero and ignored when read |
| Codec.BodyLayout | muxado/src/codec.rs:179-195 | The bytes of every body, written and read: error codes by their numbers, increments and ids of 31 bits, big-endian, data and messages as they are |
| Codec.RefusedHeaders | muxado/src/codec.rs:43-103 | A header is refused for a reason if and only if that reason holds of it |
| Codec.BodyRoundTrip | muxado/src/codec.rs:106-134 | A well-formed frame's body decodes to itself under its header |
| Codec.DecodedFramesAreWellFormed | muxado/src/codec.rs:106-134 | Any frame decoded under a valid header is in range, encodes, and decodes to itself again |
| Codec.DecodeFrame | muxado/src/codec.rs:106-134 | The body is invalid if and only if the header is refused, otherwise of the header's type |
| Codec.GoAwayNeverRoundTrips | muxado/src/frame.rs:105-120 | A GOAWAY frame as built, from a message of any length, is refused by the encoder below eight message bytes and otherwise decodes without the last eight, which are left over as the start of another frame |
| Codec.FrameCodec.Decode | muxado/src/codec.rs:141-164 | A call takes one frame off the buffer, its header and body read as the wire layout says, byte by byte, or caches the header, or waits because bytes are missing; it computes one step of the decoder |
| Codec.FrameCodec.EncodeFrame | muxado/src/codec.rs:201-206 | Appends bytes that spell header and body in the wire layout, unused bits zero, if and only if no check refuses the header; otherwise leaves the buffer alone and gives the reason |
| Codec.FrameCodec.DecodeAvailable | muxado/src/codec.rs:136-164 | Feeding a chunk and decoding until nothing comes yields all frames it completes |
| Streams.Stream.HandleFrame | muxado/src/stream.rs:163-179 | Data goes to the read buffer, credit to the capped window, FIN closes reading |
| Streams.Stream.PollRecvFrameType | muxado/src/stream.rs:127-147 | The receive loop absorbs frames up to the wanted type or the end of the inbox |
| Streams.Stream.PollSendWndInc | muxado/src/stream.rs:149-160 | Queues credit when the sink is ready and ignores a closed sink |
| Streams.Stream.PollReadInto | muxado/src/stream.rs:208-243 | The read loop computes its specification on buffer, inbox and sink |
| Streams.Stream.PollWriteFrom | muxado/src/stream.rs:248-290 | Waits for credit when there is none, then queues at most one frame |
| Streams.Stream.PollFlushSink | muxado/src/stream.rs:293-300 | A failed flush closes the write side |
| Streams.Stream.PollShutdownSink | muxado/src/stream.rs:302-325 | Queues one empty DATA frame with FIN if and only if the write side is open and the sink takes it; the result (done, waiting, or the sink's error) and the write side afterwards are given for every case |
| StreamFacts.ReadFacts | muxado/src/stream.rs:208-243 | A read hands over the front of what was absorbed and queues exactly that much credit, unless the sink is closed |
| StreamFacts.WriteFacts | muxado/src/stream.rs:248-290 | A write absorbs frames only without credit, spends exactly what it accepts, and queues exactly those bytes |
| StreamFacts.CloseFacts | muxado/src/stream.rs:302-325 | Shutdown queues exactly one FIN when the write side is open and the sink takes it, and nothing otherwise; the write side stays open only while the sink makes it wait |
| StreamFacts.ReadTakesFront | muxado/src/stream.rs:208-243 | Bytes read, buffered and waiting after a read are those before it, in order |
| StreamOutcomes.ReadOutcomes | muxado/src/stream.rs:208-243 | A read absorbs just as many frames as it takes to have bytes or see the end; then it hands over the front of the buffer up to the caller's room with a WNDINC for as many bytes, waits only when an open sink has no place for it, reports the end as an empty read, and otherwise has emptied the inbox and waits |
| StreamOutcomes.WriteOutcomes | muxado/src/stream.rs:248-290 | For every state and sink: broken pipe with the reason of the closing; a wait for the first WNDINC when out of credit; reset with the sink's error, closing the write side; a wait for a place; or one DATA frame with min(credit, bytes offered, 2^24-1) bytes, SYN on the first |
| StreamOutcomes.ShutdownOutcome | muxado/src/stream.rs:302-325 | For every state and sink: one empty DATA frame with FIN if and only if the write side is open and the sink takes it; done when a FIN was sent and the channel has drained, the sink's error, or a wait; the write side closed accordingly |
| StreamOutcomes.FlushOutcome | muxado/src/stream.rs:293-300 | The sink's error, which closes the write side, or done or waiting as the channel is; nothing is queued |
| StreamOutcomes.ReceiveStopsAtFirst | muxado/src/stream.rs:127-147 | A wait for a frame type takes the inbox up to and including the first such frame, or all of it, and is over at the end of the inbox alone; reading is closed exactly by a FIN taken or that end |
| StreamOutput.FirstCloseWins | muxado/src/stream_output.rs:61-147 | After the first non-zero close, any interleaving of operations keeps that code and queue, and every operation returns that error |
| StreamOutput.CloseWithNoErrorLeavesOpen | muxado/src/stream_output.rs:124-133 | Closing an open sink changes nothing if and only if the code is "no error" |
| StreamOutput.SinkCloser.CloseWith | muxado/src/stream_output.rs:124-133 | The first code stays |
| StreamOutput.StreamSender.PollReady | muxado/src/stream_output.rs:61-72 | Reports the close error, else notices a gone receiver and closes with "session closed" |
| StreamOutput.StreamSender.StartSend | muxado/src/stream_output.rs:74-83 | Queues the frame only on an open, connected sink |
| StreamOutput.StreamSender.PollFlush | muxado/src/stream_output.rs:85-97 | Reports the close error, else the channel's state |
| Windows.Window.Inc | muxado/src/window.rs:16-22 | Credit is added in full if and only if it fits under the maximum |
| Windows.Window.Dec | muxado/src/window.rs:28-34 | Takes as much as there is and reports it; nothing is lost |
| Constrained.PutThenGet | muxado/src/codec.rs:168-195 | A 32-bit value survives big-endian writing and reading |
| Constrained.GetThenPut | muxado/src/codec.rs:30-41 | Four bytes survive reading and writing |
| Constrained.BigEndian | muxado/src/codec.rs:168-195 | Four bytes written or read stand for the sum of 2^24, 2^16, 2^8 and 1 times their values |
| Constrained.Clamp | muxado/src/constrained.rs:32-44 | In-range values stay, larger ones become the maximum |
| Constrained.Mask31 | muxado/src/constrained.rs:47-57 | The top bit is dropped and nothing else |
| MuxErrors.ErrorRoundTrip | muxado/src/errors.rs:53-83 | Every error survives its code, and only "no error" has code zero |
| MuxErrors.ErrorNumbers | muxado/src/errors.rs:13-83 | The number of each of the seventeen errors, and the error of every number |
| Frames.FromBody | muxado/src/frame.rs:57-71 | The header's type and length describe the clamped body |
| TypedStreams.TypedStreamsCompose | muxado/src/typed.rs:131-165 | With a window of at least four at the opener and any window at the acceptor, in every run, the first four bytes the acceptor reads spell the opener's type and later bytes are a prefix of those written after it |
| TypedStreams.TypeIsWrittenWhole | muxado/src/typed.rs:153-165 | The single write of the type takes all of it if and only if the window is at least four; on a window above zero it is accepted exactly by an open sink with a place, and fails exactly on an unusable one; a pending write leaves the stream as new |
| TypedStreams.AcceptTyped | muxado/src/typed.rs:131-146 | Over any wake-ups, with any frames arriving in between, the four bytes taken are the front of the unread and arriving bytes and the rest stays unread; or it fails at an end of stream before four bytes, or waits losing nothing; once four bytes are there and the credit finds a place, four wake-ups are enough |
| TypedStreams.OpenTyped | muxado/src/typed.rs:153-165 | Over any wake-ups, with any frames arriving in between, queues one DATA frame with SYN holding the type up to the window; fails only on an unusable sink and always there; waits, unwritten, only as long as the sink has no place |
| TypedStreams.EmptyReadIsEof | muxado/src/stream.rs:213-241 | A read into a non-empty buffer returns nothing only at end of stream |
| TypedStreams.RunSentGrows | muxado/src/stream.rs:248-290 | In every run what an application wrote is never taken back |
| ProxyHeaders.HeaderStreamIsTransparent | ngrok/src/proxy_proto.rs:57-143 | For every chunking, wait and error pattern and every sequence of calls, delivered + buffered + unread bytes are the input less exactly the reported header; a reported header is the parser's verdict on the input, a reported error the parser's about some first bytes of it |
| ProxyHeaders.VerdictIsOneShot | ngrok/src/proxy_proto.rs:46-143 | When the inner reader neither fails nor ends early and the first 536 bytes are at least 16 and do not end in CR: once reading is over, what is reported is the parser's verdict on them, header, absence or error, however they arrive; for an input below 16 bytes no header is reported whatever the parser would say |
| ProxyHeaders.VerdictIsFinal | ngrok/src/proxy_proto.rs:46-70 | A settled state reports its header, its absence or its error, a disabled one no header, and after any later calls exactly the same |
| ProxyHeaders.ExamineReports | ngrok/src/proxy_proto.rs:108-141 | Looking at the buffer reports the parser's verdict if it has at least 16 bytes and does not end in CR, else the last failure; reading goes on in the latter case and after a failure below 536 bytes |
| ProxyHeaders.EndKeepsTheReport | ngrok/src/proxy_proto.rs:89-105 | When the inner reader ends or fails, the last failure stays the report, or that there is no header, reading is over and no byte is lost; a wait changes nothing |
| ProxyHeaders.PayloadOutcomes | ngrok/src/proxy_proto.rs:256-282 | A read passes on the header's wait or error without bytes, then hands over the remainder up to the caller's room, then exactly what the inner reader gives |
| ProxyHeaders.HeaderLimits | ngrok/src/proxy_proto.rs:27-31 | The limits are 16 and 536 bytes and the byte not to end in is 13 |
| ProxyHeaders.HeaderReadProgresses | ngrok/src/proxy_proto.rs:62-142 | With bytes or the end always on offer a poll does not wait and uses at most one read more than the buffer has free bytes |
| ProxyHeaders.SpinNeedsCr | ngrok/src/proxy_proto.rs:73-117 | The loop without progress needs an input whose byte 536 is a CR |
| ProxyHeaders.SpinsExactlyOnCr | ngrok/src/proxy_proto.rs:73-117 | When 536 bytes arrive at once, the poll never returns if and only if the last is a CR |
| ProxyHeaders.HeaderAtEndIsFoundExactlyIfParseable | ngrok/src/proxy_proto.rs:90-117 | A header that arrives with the end of an input below 536 bytes is reported if and only if the input has at least 16 bytes and does not end in CR; otherwise it is reported absent |
| ProxyHeaders.OneVerdictExactlyIfParseable | ngrok/src/proxy_proto.rs:90-117 | An input below 536 bytes with a header gets the parser's verdict under every chunking if and only if it has at least 16 bytes and does not end in CR |
| ProxyHeaders.ShortInputHasNoHeader | ngrok/src/proxy_proto.rs:114-117 | Fewer than 16 bytes are never parsed: in every run no header is reported |
| ProxyHeaders.LoneShortHeaderIsMissed | ngrok/src/proxy_proto.rs:90-117 | The 15-byte header "PROXY UNKNOWN" with its line end, sent alone, is missed in every run and handed over as payload |
| ProxyHeaders.PollHeaderEnds | ngrok/src/proxy_proto.rs:62-142 | A poll leaves the reading state if and only if it finishes or fails |
| ProxyStreams.HeaderIsWrittenOnce | ngrok/src/proxy_proto.rs:165-191 | Under any short writes, waits and errors the inner writer has received a prefix of the header, then accepted payload: nothing twice, nothing interleaved |
| ProxyStreams.HeaderWriteProgresses | ngrok/src/proxy_proto.rs:165-191 | An inner writer that always takes a byte gets the whole header in one poll |
| ProxyStreams.HeaderIsWrittenExactlyIfTaken | ngrok/src/proxy_proto.rs:165-191 | For any inner writer, one poll writes the rest of the header if and only if the writer takes that many bytes before it first waits or fails; otherwise it ends with that wait or error, and exactly what was taken is gone from the front |
| ProxyStreams.PayloadIsOffered | ngrok/src/proxy_proto.rs:290-303 | A write takes no payload until the header is written; then the payload is offered and the answer is the inner writer's |
| ProxyStreams.ZeroWritesNeverEndThePoll | ngrok/src/proxy_proto.rs:182-187 | A poll uses up any number of writes that take nothing, without returning or changing anything |
| ProxyStreams.HeaderCrossesTheWire | ngrok/src/proxy_proto.rs:256-303 | A writer and a reader joined: a reported header is the one written and what is delivered is payload in order; under an honest reader the header is found if it lies in the first 536 bytes and these are at least 16 and do not end in CR; below 16 bytes it is missed |
| ProxyStreams.ProxyStream.PollReadHeaderOnce | ngrok/src/proxy_proto.rs:57-143 | The read loop on the state computes its specification |
| ProxyStreams.ProxyStream.PollRead | ngrok/src/proxy_proto.rs:256-282 | Header first, then the remainder, then the inner reader |
| ProxyStreams.ProxyStream.PollWriteHeaderOnce | ngrok/src/proxy_proto.rs:165-191 | The write loop on the state computes its specification |
| ProxyStreams.ProxyStream.PollWrite | ngrok/src/proxy_proto.rs:290-303 | Payload is offered only after the whole header |

## Left out

- Wakers, task spawning, locks and scheduling: a step may happen whenever its guard holds. Liveness and wake-up claims are not made.
- Channel capacities: whether a channel has a free slot is an input of each step, so the model allows more schedules than the source.
- The moment between `poll_ready` and `start_send` of a sink, in which another task may close it: a poll is one atomic step.
- The moment between a manager poll and the end of the writer's send: they are one step. A send that fails puts nothing on the wire, where the source may leave part of a frame; the writer ends either way.
- An inner writer that takes nothing for ever: a run of the model is finite, so the loop that does not return shows as a poll that uses up any number of such writes.
- The `closed` flag of the session handle, which refuses new streams as soon as a close was asked for: in the model they are refused by the limit and by the end of the writer.
- `poll_close` of the sink, the accept queue's capacity and the error paths of the session builder.
- A second instance of a stream created by a duplicate SYN: the endpoint machine takes fresh SYN ids only; what a duplicate does to map and tasks is in `EndpointTheorems.AgreementNeedsFreshId`.
- Local ids after saturation: opening a stream is enabled below the bound only.
- Reader and writer of `muxado/src/session.rs` as objects: they are steps of the endpoint machine, since they consist of awaits on the objects modelled here.
- The `proxy_protocol` crate: parsing is a parameter assumed prefix-stable on buffers the source would parse, and an encoded header is given by its bytes; encoding errors are not modelled.
- The capacity of the header buffer is taken to be exactly the 536 bytes that are asked for.
- An inner reader that fills bytes and still reports Pending, which its contract excludes.
- `poll_flush` and `poll_shutdown` of the header stream, which are passed on unchanged, and its hyper adapters.
- Heartbeats, the ngrok session, tunnels, forwarding and configuration: timers, network and field copying.
- GOAWAY debug messages as text: they are bytes.
- TypedStreams.OpenTyped: works on a stream already opened; the request to the session is the `OpenStream` step of the endpoint machine.
- TypedStreams.AcceptTyped: works on a stream already accepted, for the same reason.
