# aiomsg, verified

A Dafny model of the delivery machinery of aiomsg, a small message protocol with one
implementation per language, and proofs about it. The model follows the Rust crates
`rust-lib-async` and `rust-lib-sync` and the C library `c-lib`:

- the wire format, its frame reassembly, and the C decoder's in-place buffer
  (`Protocol`, `FrameDecoder`, `CDecoder`);
- the server half of the WebSocket transport, section 5 of RFC 6455, as a function on byte
  strings, as the asynchronous stream adapter and as the C feed loop and read loop
  (`WebSocket`, `WebSocketBytes`, `WsStream`, `CWebSocket`, `CSession`), with the sniffing in
  front of it (`Sniffing`) and the hand-written base64 and SHA-1 padding behind it (`Base64`);
- the at-least-once broker: one state machine both crates share (`Broker`), what each command
  does to it (`BrokerEffects`, `BrokerRouting`, `BrokerTimers`), its laws over whole runs
  (`BrokerLaws`, `BrokerDuties`, `BrokerTrace`), the asynchronous object with its deadline
  queue (`AsyncSpec`, `AsyncBroker`), the synchronous object (`SyncBroker`), and the
  synchronous broker and timer threads with the two channels between them (`ResendTimer`,
  `SyncSystem`);
- brokers talking to each other (`Delivery`) and sessions registering with a broker
  (`Registration`);
- the TLS writer's two locks (`TlsWriter`);
- the C broker's linked list of pending messages (`CSweep`) and the hand-off of connection
  objects between its threads (`ConnOwnership`).

A function on values specifies each component; where the code updates state in place, a
class with the same fields and loops is proved to move as that function says, and the laws
are proved about the function. `BrokerEffects`, `WebSocketBytes` and the layout lemmas state
what those functions do without naming them, with the conditions and numbers written out. Protocols between threads are state machines over their
atomic steps, and their laws hold for every sequence of steps.

## Assumptions

- The clock never runs backwards. Reading k of a component's clock is `clock(k)`.
- The 64-bit id counter and the round-robin cursor do not wrap. The wire form of an id keeps
  only 64 bits of the counter, which `Protocol.MsgIdRoundTrip` states exactly.
- Machine words are 64 bits wide, so no sum of lengths below 2^63 wraps.
- Channels are unbounded and first in, first out. A failed socket write is the end of its
  connection: after one, nothing more reaches the wire, and the C read loop forwards nothing more.
- A broker handles a command as one step. Its messages to the timer thread may be received at
  any later time.
- Random ids of the C broker come from a given source; nothing is claimed about their being
  distinct.
- The retry budget starts again at MAX_RETRIES when a message re-enters through the offline
  buffer, so the count of six transmissions is per stay outside the buffer, as in the code.

## Where the code and its comments differ

- The comment at c-lib/src/aiomsg.c:618 says that at teardown every connection has been freed
  through its CONN_DOWN. The broker exits when its table is empty, and neither a rejected
  duplicate nor a session still in its handshake is in the table, so their objects may stay
  unfreed: `ConnOwnership.RejectedDuplicateLeaks` and `ConnOwnership.LateRegistrationLeaks`
  give the runs, `ConnOwnership.LeakedIff` the exact condition for every object.
- The comment at rust-lib-async/src/broker.rs:268-269 says a request is acknowledged on the
  connection it arrived on. The code routes the acknowledgement by identity;
  `Registration.AckOnItsConnection` proves that under the session protocol this is the same
  connection.
- MAX_REQUEST_BYTES is checked after the byte is added and after the end of the head is looked
  for, so the asynchronous crate takes heads of one byte more.
- The C library reads the upgrade request by the chunk into 8192 bytes and drops what a chunk
  holds beyond them, even bytes of the first WebSocket frames: `Sniffing.FirstFramesLost` is
  a request that loses them all. They are complete if and only if the least number of chunks
  with which the buffer is full or holds a head brings at most 8192 bytes
  (`Sniffing.LeftoverComplete`).
- The C session forwards nothing of the read that ends it, so data envelopes that arrive in one
  read with a close or a violation are lost although they came before it: `CSession.CutMatters`
  gives the family, `CSession.HeardAll` the exact condition.
- The tombstone queue is a map from ids to deadlines only if no id is armed again while an
  older entry for it is queued (`ResendTimer.ArmStands`). The broker draws every id once, so
  it stays on the safe side (`SyncSystem.OpsStep`).

## Model

| member | source | states |
|---|---|---|
| Protocol.MsgIdRoundTrip | rust-lib-async/src/broker.rs:186-193 | a message id (salt and 64-bit counter) survives its 16-byte form if and only if the counter is below 2^64 |
| Protocol.DecodeBody | rust-lib-sync/src/protocol.rs:46-132 | decoding an encoded envelope gives that envelope back, if and only if its id fits |
| Protocol.DecodeCharacterized | rust-lib-sync/src/protocol.rs:96-132 | the complete set of byte strings that decode to an envelope: its encoding, plus trailing bytes for the types without a payload, and nothing else |
| Protocol.BodyLayout | rust-lib-sync/src/protocol.rs:46-90 | every envelope byte by byte: type numbers 1 to 5, field order, counter most significant byte first |
| Protocol.FrameLayout | rust-lib-async/src/protocol.rs:57-100 | the frame's length in four bytes, most significant first, then the envelope |
| Protocol.TakeFramePrefixed | rust-lib-async/src/protocol.rs:57-100 | a length-prefixed frame is split off unchanged, rest included, if and only if it is shorter than 2^32 bytes (the prefix is a truncated 32-bit length) |
| Protocol.TakeFrameFaithful | rust-lib-sync/src/protocol.rs:240-250 | whatever is split off was on the wire: prefix, frame and rest make up the buffer |
| Protocol.FramesChunked | rust-lib-sync/src/protocol.rs:195-250 | the frames and the leftover of a stream do not depend on where it was cut into reads |
| Protocol.FramesFaithful | rust-lib-sync/src/protocol.rs:240-250 | frames and leftover account for every byte of the stream, and the leftover holds no whole frame |
| Protocol.FramesOfWire | rust-lib-sync/src/protocol.rs:240-250 | a wire of frames splits into exactly those frames with nothing left |
| Protocol.StreamRoundTrip | rust-lib-async/src/protocol.rs:57-148 | any list of sendable envelopes, encoded one after the other, decodes to that list in order |
| FrameDecoding.FrameDecoder.ExtendFrom | rust-lib-sync/src/protocol.rs:226-228 | appends, keeping the account: popped frames and buffer are the received stream |
| FrameDecoding.FrameDecoder.TakeFrame | rust-lib-sync/src/protocol.rs:240-250 | hands out the next frame of the stream, and nothing only if none is complete |
| FrameDecoding.FrameDecoder.ReadOnce | rust-lib-sync/src/protocol.rs:195-222 | buffered frames come before the transport is touched; a fruitless read loses nothing; closed and failed exactly when the read says so |
| FrameDecoding.FrameDecoder.ForwardFrames | rust-lib-sync/src/conn.rs:283-304 | forwards, in order, exactly the data envelopes among the buffered frames and keeps the incomplete tail |
| FrameDecoding.ForwardedIsSent | rust-lib-sync/src/conn.rs:283-304 | what the broker is handed from a peer's stream is every data envelope the peer sent, once, in order |
| CDecoding.Decoder.Compact | c-lib/src/protocol.c:108-133 | moving the unread bytes to the front of the array leaves the view unchanged |
| CDecoding.Decoder.Grow | c-lib/src/protocol.c:108-133 | the doubling loop ends and makes room for n bytes without overshooting by more than a factor of two; the view is unchanged |
| CDecoding.Decoder.Push | c-lib/src/protocol.c:108-133 | through compaction and growth the view becomes the old view followed by the new bytes |
| CDecoding.Decoder.Pop | c-lib/src/protocol.c:135-152 | pops the first complete envelope of the view, or nothing and changes nothing |
| CDecoding.Drain | c-lib/src/protocol.c:135-152 | popping until nothing comes gives all complete envelopes of the view and leaves the rest |
| CDecoding.ForwardFrames | c-lib/src/aiomsg.c:795-823 | the broker is handed, in order, exactly the complete envelopes that parse and are neither heartbeat nor hello; the incomplete tail stays |
| CDecoding.Reassemble | c-lib/src/protocol.c:97-152 | any chunking of a byte stream pops exactly the stream's envelopes |
| WebSocket.MaskedTwice | rust-lib-async/src/ws.rs:340-352 | masking is its own inverse for every payload and mask |
| WebSocketBytes.XorDiffers | rust-lib-async/src/ws.rs:340-352 | a bit of the unmasked byte is set exactly where payload and mask bit differ |
| WebSocketBytes.ParseExactly | rust-lib-async/src/ws.rs:298-352 | for every input: when it is refused, when it is incomplete, and else opcode, length and bytes used from the numbers on the wire, and each payload byte as the exclusive or of its byte and mask byte i mod 4 |
| WebSocketBytes.ServerFrameBytes | rust-lib-async/src/ws.rs:116-132 | a server frame is final, unmasked, has the shortest length field that fits, and the payload as it is |
| WebSocketBytes.HandleByNumber | rust-lib-async/src/ws.rs:353-375 | what each opcode number does and the very bytes of the close it queues: the client's own code, 1000 for none, 1003 for text, 1002 else |
| WebSocketBytes.BadRefused | c-lib/src/ws.c:264-350 | a forbidden frame ends the session with 1002, once |
| WebSocket.VerdictStable | c-lib/src/ws.c:264-350 | a parse verdict other than "need more" cannot be changed by later bytes |
| WebSocket.ConsumeChunked | c-lib/src/ws.c:264-350 | cutting a stream in two at any byte changes neither payload, queued frames, close nor verdict |
| WebSocket.ChunkIndependence | c-lib/src/ws.c:264-350 | any sequence of feed calls ends in the state of a single call with all the bytes |
| WebSocket.CloseOnceKept | rust-lib-async/src/ws.rs:290-296 | at most one close frame is queued, a session that is over has queued one, and an over session changes no more |
| WebSocket.ClientFrameParses | rust-lib-async/src/ws.rs:298-375 | every conforming client frame, in any length encoding that fits and under any mask, parses to its opcode and payload and is consumed exactly |
| WebSocket.ConsumeItems | rust-lib-async/src/ws.rs:298-375 | fragments interleaved with pings and pongs deliver the fragments' bytes in order and queue one pong per ping, in order |
| WebSocket.ClosingHandshake | rust-lib-async/src/ws.rs:353-375 | a close frame is echoed with its code once, and nothing behind it is looked at |
| WebSocket.Refusals | rust-lib-async/src/ws.rs:298-375 | text is refused with 1003, unknown opcodes and unmasked frames with 1002 |
| WebSocket.Transparency | rust-lib-async/src/ws.rs:298-375 | for any envelopes, fragmentation, masks, interleaved control frames and read boundaries, adapter plus frame decoder yield exactly the envelopes and the pongs answer the pings |
| WebSocket.ServerFrameReadable | rust-lib-async/src/ws.rs:116-132 | a client reads a server frame back exactly, if and only if the payload is shorter than 2^63 |
| WebSocket.WireFramesReadable | rust-lib-async/src/ws.rs:116-132 | a sequence of server frames reads back as that sequence |
| WsStreams.WsStream.QueueFrame | rust-lib-async/src/ws.rs:285-288 | written bytes and unwritten tail stay the in-order concatenation of whole frames, one more now |
| WsStreams.WsStream.QueueClose | rust-lib-async/src/ws.rs:290-296 | queues a close unless one was queued before |
| WsStreams.WsStream.FlushOut | rust-lib-async/src/ws.rs:381-396 | under partial, pending and failed writes the wire only grows and no byte is lost or repeated; done means every queued frame is on the wire; it stops short exactly as the inner stream refuses a write: blocked for a pending one, failed for an error or a write of nothing |
| WsStreams.WsStream.ReadFrame | rust-lib-async/src/ws.rs:298-352 | the header checks and the unmasking loop compute the parse of the input buffer |
| WsStreams.WsStream.ParseOne | rust-lib-async/src/ws.rs:298-375 | handles one frame: what remains to be consumed is unchanged, payload and end are reported exactly, and what it queues goes behind everything queued before |
| WsStreams.WsStream.Dispatch | rust-lib-async/src/ws.rs:353-375 | each opcode's effect on payload, queued frames and verdict, with the outbound traffic law kept and nothing queued before overtaken |
| WsStreams.WsStream.PollRead | rust-lib-async/src/ws.rs:399-449 | about all bytes of the inner stream: delivers their payload without loss or repetition; the end comes only after a close, a violation or the inner stream's own end, with the payload of the whole input delivered; it blocks or fails only as the inner stream's last answer, with every byte read so far parsed and delivered; its pongs and close go behind everything queued before, and all is written unless the inner stream refuses |
| WsStreams.WsStream.PollWrite | rust-lib-async/src/ws.rs:453-470 | a write is accepted whole, as exactly one binary frame behind everything queued before, or not at all; it is refused only as the inner stream refuses what was queued before, never when nothing was waiting |
| WsStreams.WsStream.PollFlush | rust-lib-async/src/ws.rs:472-478 | flushed means every frame ever queued is on the wire, whole and in order; not flushed, that the inner stream refused a write |
| WsStreams.WsStream.PollShutdown | rust-lib-async/src/ws.rs:480-487 | queues close 1000 once over all calls |
| WsStreams.WsStream.DeliveredIsPrefix | rust-lib-async/src/ws.rs:399-449 | at any moment the caller holds a prefix of what all the bytes of the inner stream, read or unread, carry |
| CWebSocket.ByteBuffer.Append | c-lib/src/ws.c:33-51 | the growing append ends and appends |
| CWebSocket.EncodeFrame | c-lib/src/ws.c:210-241 | the frame built byte by byte is the server frame |
| CWebSocket.WsSession.ScanFrame | c-lib/src/ws.c:272-315 | the header scan at any offset agrees with the parse of the unread bytes |
| CWebSocket.WsSession.UnmaskInPlace | c-lib/src/ws.c:316-322 | unmasks the payload where it lies and changes nothing else |
| CWebSocket.WsSession.QueueClose | c-lib/src/ws.c:255-262 | a failure queues one close frame with its code, once |
| CWebSocket.WsSession.Feed | c-lib/src/ws.c:264-350 | one call moves decoder, output, close flag and carried tail exactly as consuming old tail and new bytes does |
| CWebSocket.FeedReads | c-lib/src/aiomsg.c:707-720 | over all reads of a connection, decoder bytes, wire bytes and verdict are those of one read of everything |
| CSession.ServeReads | c-lib/src/aiomsg.c:1008-1060 | the broker is handed the data envelopes complete in the payload of the reads before the one that ends the session, in order and once; which read that is, is determined |
| CSession.LiveMost | c-lib/src/aiomsg.c:1042-1049 | the reads forwarded leave the session open, and the one after them ends it |
| CSession.HeardAll | c-lib/src/aiomsg.c:707-720 | that is the front of what all reads carry, and all of it if and only if the read that ends the session completes no data envelope |
| CSession.CutMatters | c-lib/src/aiomsg.c:1042-1049 | for any envelopes in any fragmentation and a close behind them: read apart, every data envelope is handed over, read as one, none |
| Sniffing.Sniff | rust-lib-async/src/ws.rs:147-188 | which bytes are taken for each verdict: raw keeps its first byte, an upgrade takes exactly the shortest head of at most 8193 bytes, and when it is refused |
| Sniffing.Prefixed.PollRead | rust-lib-async/src/ws.rs:195-228 | prefix and inner stream come out as one stream, nothing lost or repeated; the end is reported only when all of both is delivered, and blocked or failed is the inner stream's own answer |
| Sniffing.ReadRequest | c-lib/src/aiomsg.c:851-905 | for chunks of at most 2048 bytes: takes chunks up to the first with which the 8192-byte buffer is full or holds the end of a head, no more and no fewer, and the verdict is the one on the bytes so taken |
| Sniffing.LeftoverComplete | c-lib/src/aiomsg.c:851-905 | reading stops at the least number of chunks with which 8192 bytes are there or a head ends within them; which of the three verdicts that gives; the head found is the first of the stream; the bytes behind it are handed on complete if and only if at most 8192 bytes were taken, else exactly those beyond the 8192nd are lost |
| Sniffing.FirstFramesLost | c-lib/src/aiomsg.c:851-905 | a request of 8192 bytes whose last chunk carries any frames: every byte of the frames is read and lost |
| Base64.Base64Encode | rust-lib-async/src/ws.rs:584-607 | the loop computes the encoding |
| Base64.Base64Decode | rust-lib-async/src/ws.rs:609-633 | the loop with its 32-bit accumulator computes the decoding |
| Base64.RoundTrip | rust-lib-async/src/ws.rs:584-633 | every byte string survives encoding and decoding although the accumulator loses high bits |
| Base64.DecodeSpells | rust-lib-async/src/ws.rs:609-633 | any text at all: fails exactly on a foreign character in front of the trailing padding, else gives every whole run of eight bits its six-bit digits spell |
| Base64.DecodeFails | rust-lib-async/src/ws.rs:609-633 | decoding fails exactly on a foreign character |
| Base64.EncodedLength | rust-lib-async/src/ws.rs:584-607 | four characters per started group of three bytes |
| Sha1Padding.Pad | rust-lib-async/src/ws.rs:531-540 | the padding loop ends with the padded message of FIPS 180-4, a multiple of 64 bytes |
| Sha1Padding.PaddedLayout | rust-lib-async/src/ws.rs:531-540 | message, 0x80, zeros, bit length most significant byte first, in the fewest 64-byte blocks |
| Sha1Padding.PaddedInjective | rust-lib-async/src/ws.rs:531-540 | messages whose bit length fits 64 bits never share a padded form |
| BrokerLaws.ConnectedStep | rust-lib-async/src/broker.rs:112-314 | every command keeps `order` a duplicate-free enumeration of `conns`, each entry with its own channel, and the buffer empty while anyone is connected |
| BrokerLaws.BudgetedStep | rust-lib-async/src/broker.rs:155-314 | ids linked by a resend carry the same message; for every pending message, retries left and transmissions since it last left the buffer add up to six; a message is dropped only after its sixth |
| BrokerLaws.ConservedStep | rust-lib-async/src/broker.rs:144-314 | sent messages are, as a multiset, those routed plainly, buffered, pending, acknowledged and dropped |
| BrokerLaws.FateStep | rust-lib-async/src/broker.rs:155-314 | the ids drawn are, each once, those pending, acknowledged, dropped, returned to the buffer or superseded by a resend |
| BrokerLaws.ExactlyOneFate | rust-lib-async/src/broker.rs:155-314 | an id this broker drew has exactly one of the five fates |
| BrokerLaws.OrderStep | rust-lib-async/src/broker.rs:144-252 | unacknowledged sends: what was routed followed by the buffer is what was sent, in order |
| BrokerLaws.RunInv | rust-lib-async/src/broker.rs:112-142 | all of these hold after any commands |
| BrokerLaws.NoSilentLoss | rust-lib-async/src/broker.rs:144-314 | from the empty broker through any run: the account of sent messages; a dropped message has been transmitted under exactly six distinct ids, each issued for it, a pending one under one to six; buffering only while alone |
| BrokerLaws.SendOrder | rust-lib-async/src/broker.rs:144-252 | at most once: routed messages followed by the buffer are the sent messages, at every point of every run |
| BrokerEffects.RouteSends | rust-lib-async/src/broker.rs:196-228 | which peers an envelope goes to (the target if connected, everyone, or the peer at the cursor), that each of their channels and no other gets it at its end, and that only log and cursor change else |
| BrokerEffects.PublishReachesAll | rust-lib-async/src/broker.rs:205-209 | a published envelope is written to every connected peer |
| BrokerEffects.SendEffect | rust-lib-async/src/broker.rs:144-180 | the whole new state for a sent message: kept in the buffer with nothing else changed while nobody is connected; else under the next id with timer, pending entry of budget 5 and one request exactly if the guarantee is at least once and the message is targeted or round-robin; else as plain data |
| BrokerEffects.ExpireEffect | rust-lib-async/src/broker.rs:299-314 | the whole new state for an expiry: unchanged if stale, dropped if exhausted, back in the buffer with ids, timers and routes untouched while nobody is connected, else sent again with one retry less |
| BrokerEffects.ReceivedEffect | rust-lib-async/src/broker.rs:262-283 | the whole new state for a received envelope: data of either kind is handed over with its sender, a request is acknowledged to its sender under its id, an acknowledgement settles its own message, the rest changes nothing |
| BrokerEffects.UpEffect | rust-lib-async/src/broker.rs:230-252 | a new peer joins at the end of the order with its own channel, the backlog leaves the buffer, and nothing is delivered, settled, dropped or answered else |
| BrokerEffects.DuplicateEffect | rust-lib-async/src/broker.rs:230-238 | a second connection of a peer is answered no, and its channel stays empty and outside the table |
| BrokerEffects.DownEffect | rust-lib-async/src/broker.rs:254-260 | the peer's entry and its place in the order go; everything else, the cursor included, stays |
| BrokerDuties.AlwaysDutiful | rust-lib-async/src/broker.rs:112-314 | over any run the log of routes is exactly the posted messages, the transmissions in order of their ids and the acknowledgements owed; data is routed only while somebody is connected and to whom the mode says; each message goes by the guarantee it was sent under |
| BrokerDuties.GuaranteeKept | rust-lib-async/src/broker.rs:155-157 | at least once with round robin nothing ever goes out without an id; at most once nothing ever has one; at least once, what goes out plain is published |
| BrokerDuties.NoIdleTransmission | rust-lib-async/src/broker.rs:155-314 | every id ever drawn was routed once for its own message while somebody was connected: no retry is spent on nobody |
| BrokerDuties.SixWentOut | rust-lib-async/src/broker.rs:299-314 | a dropped message went out six times under six ids, each time while somebody was connected |
| BrokerDuties.FirstInFirstOut | rust-lib-async/src/broker.rs:144-314 | over any run, whatever the guarantee: the messages gone out for the first time, then the buffer, are the messages that came (sent, or returned by an expiry) in the order in which they came |
| BrokerDuties.RunDelivers | rust-lib-async/src/broker.rs:262-274 | over any run the application is handed the payloads of all data received, plain or requested, in order, each with its sender |
| BrokerRouting.RouteReaches | rust-lib-async/src/broker.rs:196-228 | each recipient's channel gets the envelope once, at its end, every other channel is unchanged, and the round robin has one recipient |
| BrokerRouting.SoundStep | rust-lib-async/src/broker.rs:155-283 | each peer's channel holds a subsequence, in send order, of the unacknowledged messages, and only requests whose payload and target are those issued under their id |
| BrokerRouting.SoundRun | rust-lib-async/src/broker.rs:112-142 | that after any commands |
| BrokerTrace.TracedStep | rust-lib-async/src/broker.rs:196-252 | each registered connection's channel is exactly the envelopes routed to its peer since its ConnectionUp, in order, and a departed or rejected one's a prefix of them; the requests routed are those issued, each once, in order of their ids |
| BrokerTrace.WrittenExactly | rust-lib-async/src/broker.rs:112-142 | that after any commands, from the empty broker |
| BrokerRouting.HitsExact | rust-lib-async/src/broker.rs:221-228 | how often a position comes up in k turns, in closed form |
| BrokerRouting.Fairness | rust-lib-async/src/broker.rs:221-228 | k consecutive round-robin routes over n fixed peers give every peer floor(k/n) or ceiling(k/n), n routes exactly one, from any cursor |
| BrokerTimers.StepTimers | rust-lib-async/src/broker.rs:155-314 | what each command asks of the timers: every id drawn armed once and in order, an acknowledgement cancels its own id, no other pending message is touched |
| AsyncSpec.SettleNotDue | rust-lib-async/src/broker.rs:155-180 | entries appended while firing lie beyond the sampled time, so the loop that drains the queue it appends to ends |
| AsyncSpec.TimedApply | rust-lib-async/src/broker.rs:144-283 | every command keeps the deadline queue sorted, free of repeated ids and complete for the pending ones, and adds exactly the entries of the ids it drew |
| AsyncSpec.FireDueExact | rust-lib-async/src/broker.rs:288-314 | a firing loop leaves no deadline at or before the sampled time, settles every due id, and touches no later deadline and no message behind one |
| AsyncSpec.ServeLawful | rust-lib-async/src/broker.rs:112-142 | every law of the broker holds after any mixture of commands and wake-ups under any monotone clock |
| AsyncSpec.NothingOverdue | rust-lib-async/src/broker.rs:288-297 | after any run, a wake-up leaves no overdue pending message |
| AsyncBrokers.AsyncBroker.NextMsgId | rust-lib-async/src/broker.rs:186-193 | the id of the next counter value, and the counter moves on |
| AsyncBrokers.AsyncBroker.NextRoundRobin | rust-lib-async/src/broker.rs:221-228 | the peer at the cursor, and the cursor moves on; nothing without peers |
| AsyncBrokers.AsyncBroker.Route | rust-lib-async/src/broker.rs:196-219 | channels and cursor change as the routing function says |
| AsyncBrokers.AsyncBroker.Transmit | rust-lib-async/src/broker.rs:155-180 | the object's fields move as the specification's transmit, with one deadline per id drawn |
| AsyncBrokers.AsyncBroker.HandleSend | rust-lib-async/src/broker.rs:144-151 | buffers while nobody is connected, else transmits |
| AsyncBrokers.AsyncBroker.HandleUp | rust-lib-async/src/broker.rs:230-252 | rejects a duplicate, else registers it and sends the whole backlog in order |
| AsyncBrokers.AsyncBroker.HandleDown | rust-lib-async/src/broker.rs:254-260 | removes the identity from the table and its first position from the order |
| AsyncBrokers.AsyncBroker.HandleReceived | rust-lib-async/src/broker.rs:262-283 | delivers the payload and routes the acknowledgement to its sender; an acknowledgement settles its pending message and no other |
| AsyncBrokers.AsyncBroker.FireResend | rust-lib-async/src/broker.rs:299-314 | stale, exhausted, buffered or sent again under a fresh id, as the specification's expiry |
| AsyncBrokers.AsyncBroker.FireDueResends | rust-lib-async/src/broker.rs:288-297 | the popping loop ends and equals the specification's wake-up |
| AsyncBrokers.AsyncBroker.Serve | rust-lib-async/src/broker.rs:112-142 | one round of the main loop is one step of the specification |
| BrokerParts.CopyToAll | rust-lib-async/src/broker.rs:205-209 | the loop over the table's values gives every connection one copy at its end, in whatever order it visits them |
| BrokerParts.Without | rust-lib-async/src/broker.rs:256-258 | the position search and removal take out the first occurrence only |
| SyncBrokers.SyncBroker.Route | rust-lib-sync/src/broker.rs:269-291 | channels and cursor change as the routing function says |
| SyncBrokers.SyncBroker.Transmit | rust-lib-sync/src/broker.rs:233-253 | the fields move as the specification's transmit, one Arm sent for the id drawn |
| SyncBrokers.SyncBroker.HandleUp | rust-lib-sync/src/broker.rs:302-317 | rejects a duplicate, else registers it and sends the whole backlog in order |
| SyncBrokers.SyncBroker.HandleDown | rust-lib-sync/src/broker.rs:319-324 | removes the identity from the table and its first position from the order |
| SyncBrokers.SyncBroker.HandleReceived | rust-lib-sync/src/broker.rs:326-342 | delivers the payload and routes the acknowledgement to its sender; an acknowledgement settles its message and sends one Cancel, a stray one sends none |
| SyncBrokers.SyncBroker.HandleResend | rust-lib-sync/src/broker.rs:344-355 | stale, exhausted, buffered or sent again under a fresh id |
| SyncBrokers.SyncBroker.Serve | rust-lib-sync/src/broker.rs:203-219 | one command is one step of the state machine the laws are about |
| ResendTimer.ArmStands | rust-lib-sync/src/broker.rs:105-108 | arming does what a plain map from ids to deadlines does if and only if the queue holds no earlier entry for the id |
| ResendTimer.RearmedTooSoon | rust-lib-sync/src/broker.rs:82-123 | a run of whole turns of the loop: an id armed, cancelled and armed again fires ahead of its second deadline |
| ResendTimer.CancelStands | rust-lib-sync/src/broker.rs:109-111 | cancelling removes the id from the plain map, whatever tombstone stays behind |
| ResendTimer.PopStands | rust-lib-sync/src/broker.rs:113-122 | what fires is armed and due at its own deadline; every other id keeps its time |
| ResendTimer.FireAllRefines | rust-lib-sync/src/broker.rs:113-122 | a wake-up fires exactly the armed ids that are due, each once, earliest first, and leaves the others armed |
| ResendTimer.TimerThread.Process | rust-lib-sync/src/broker.rs:104-112 | one message's effect on queue and armed set |
| ResendTimer.TimerThread.Turn | rust-lib-sync/src/broker.rs:82-123 | one turn of the thread's loop sends exactly what the firing loop of the specification fires |
| SyncSystem.OpsStep | rust-lib-sync/src/broker.rs:233-355 | the broker arms no id twice, arms every pending id, and cancels only settled ids after their Arm |
| SyncSystem.ExactlyOneToken | rust-lib-sync/src/broker.rs:78-123 | every pending id has exactly one live token: an Arm under way, a countdown, or a timeout under way |
| SyncSystem.AlwaysJoint | rust-lib-sync/src/broker.rs:78-355 | from the start, in every interleaving of broker, timer and both channels: no pending message unwatched, no countdown for a settled one without its cancellation under way, nothing fires twice, and all broker laws |
| SyncSystem.NoOrphan | rust-lib-sync/src/broker.rs:78-355 | from the start through any interleaving, a pending message has exactly one live token |
| SyncSystem.Quiescent | rust-lib-sync/src/broker.rs:78-355 | with both channels empty the armed ids are the pending ids |
| SyncSystem.SettledForGood | rust-lib-sync/src/broker.rs:258-264 | a settled id never becomes pending again |
| SyncSystem.LateTimeout | rust-lib-sync/src/broker.rs:344-355 | a timeout that lost the race against the acknowledgement changes nothing, now or later |
| Delivering.RequestAnswered | rust-lib-async/src/broker.rs:267-274 | the second half of a request: writing an acknowledgement whose payload has been handed to the application keeps every written acknowledgement backed by a delivery |
| Delivering.DeliverRequest | rust-lib-async/src/broker.rs:267-274 | the first half: the payload is in the delivery queue while the acknowledgement is still owed |
| Delivering.TwoHalves | rust-lib-async/src/broker.rs:262-283 | the two halves are together the broker's step on the request |
| Delivering.OwingWaits | rust-lib-async/src/broker.rs:112-142 | a broker that owes an acknowledgement stands still until it is written, whatever the others do |
| Delivering.GoodDeliver | rust-lib-async/src/broker.rs:262-283 | receiving any envelope ever written to this broker, in any order, any number of times, with other brokers moving between a delivery and its acknowledgement, keeps that true for all brokers |
| Delivering.DeliveredFirst | rust-lib-async/src/broker.rs:267-274 | for any brokers and any run, at every moment, also between a delivery and its acknowledgement: the payload behind any acknowledgement ever written is in the writer's delivery queue |
| Delivering.AcknowledgedMeansDelivered | rust-lib-async/src/broker.rs:155-283 | for any brokers and any run: a message settled by an acknowledgement is, payload and sender, in the delivery queue of a peer it may go to |
| Delivering.AcknowledgedAtMostDelivered | rust-lib-async/src/broker.rs:155-283 | for any brokers and any run, sender and payload: messages settled by an acknowledgement are no more than deliveries, so no two share one |
| Registration.StepTable | rust-lib-async/src/broker.rs:230-260 | what each command does to the connection table and the answers |
| Registration.TurnLeaves | rust-lib-async/src/conn.rs:272-277 | a ConnectionDown keeps the protocol: it finds its own session's entry |
| Registration.TurnArrives | rust-lib-async/src/conn.rs:190-207 | a ConnectionUp keeps the protocol: accepted exactly if the identity is free |
| Registration.ActAllAgreed | rust-lib-async/src/conn.rs:161-278 | the registration protocol's invariant in every interleaving of any number of sessions |
| Registration.AlwaysAgreed | rust-lib-async/src/conn.rs:161-278 | from the start, with any number of sessions and any repeated identities, in every interleaving, the protocol's invariant holds |
| Registration.DownRemovesItsOwn | rust-lib-async/src/broker.rs:254-260 | a ConnectionDown, naming only an identity, removes the entry of the session that sent it and no other |
| Registration.AckOnItsConnection | rust-lib-async/src/broker.rs:267-274 | an acknowledgement, routed by identity, goes out on the very connection its request came in on |
| Registration.OneOpen | rust-lib-async/src/conn.rs:190-207 | at most one session of an identity is open |
| TlsWriter.Connection.DrainInto | rust-lib-sync/src/conn.rs:866-881 | draining ends and moves the whole outbound queue, in order |
| TlsWriter.Connection.Extract | rust-lib-sync/src/conn.rs:856-882 | the feed and drain loop ends for any frame length, any positive limit and any earlier queue; the result is the earlier queue and then the records of the whole frame |
| TlsWriter.AlwaysInOrder | rust-lib-sync/src/conn.rs:679-889 | from the start, in every interleaving of any number of threads: the ciphertext on the wire, extracted and still queued is the records of whole frames in their encryption order, numbered without gaps, with control bytes only between records; after a failed write the wire is a prefix of that; the lock holders are who they say they are |
| TlsWriter.OrderedStep | rust-lib-sync/src/conn.rs:825-889 | each step keeps the order of records |
| TlsWriter.LocksStep | rust-lib-sync/src/conn.rs:825-889 | no thread holds conn while it waits for write_sock or writes to the socket |
| TlsWriter.NoDeadlock | rust-lib-sync/src/conn.rs:825-889 | if any thread is busy, some thread's next step waits for no lock |
| TlsWriter.FeedingFinishes | rust-lib-sync/src/conn.rs:856-882 | the holder of conn always has a step of its own that needs neither socket nor lock, and each brings it nearer to letting go |
| CSweep.CBroker.Push | c-lib/src/aiomsg.c:394-395 | the new node stands in front of the old list |
| CSweep.CBroker.Unlink | c-lib/src/aiomsg.c:420-427 | removing a node through the link that leads to it removes that node and keeps the list a chain |
| CSweep.CBroker.Track | c-lib/src/aiomsg.c:377-401 | a fresh entry with a later deadline in front of the list, and one request routed |
| CSweep.CBroker.Transmit | c-lib/src/aiomsg.c:365-402 | tracked exactly if the guarantee is at least once and the message is targeted or round-robin; plain data is routed and leaves the list alone |
| CSweep.CBroker.Submit | c-lib/src/aiomsg.c:404-411 | a sent message is buffered while nobody is connected, else transmitted with the full budget |
| CSweep.CBroker.ConnUp | c-lib/src/aiomsg.c:453-481 | a duplicate changes nothing; any other connection empties the buffer: the whole backlog is routed in order, each tracked message with an entry of its own in front of the list |
| CSweep.CBroker.BacklogSent | c-lib/src/aiomsg.c:470-480 | of a flushed backlog every message is routed once, in order, with its own payload, as a request exactly if at least once to one peer; the requests are those of the new entries, each with budget 5 and 5000 milliseconds |
| CSweep.CBroker.ConnDown | c-lib/src/aiomsg.c:497-505 | only a connection in the table counts; nothing else changes |
| CSweep.CBroker.Resend | c-lib/src/aiomsg.c:428-437 | an expired entry is dropped, buffered or sent again according to its retries and the connections |
| CSweep.CBroker.HandleExpired | c-lib/src/aiomsg.c:424-437 | after the removal and a push in front, the link still leads to the next node |
| CSweep.CBroker.Expire | c-lib/src/aiomsg.c:420-441 | the sweep ends although it lengthens the list it walks, and equals the entry-by-entry sweep |
| CSweep.SweepCloses | c-lib/src/aiomsg.c:420-441 | every expired entry is handled exactly once in list order; the new list is the fresh entries, newest first, then the survivors in order |
| CSweep.SweepSplits | c-lib/src/aiomsg.c:420-441 | handled and surviving entries partition the list |
| CSweep.SweepAlive | c-lib/src/aiomsg.c:420-441 | no entry on the new list is due at the sampled time |
| CSweep.CBroker.Soonest | c-lib/src/aiomsg.c:442-451 | -1 for an empty list, else the least time left on any entry |
| CSweep.CBroker.HandleAck | c-lib/src/aiomsg.c:521-533 | an acknowledgement removes the first entry with its id and no other; buffer, routes and connections stay as they are |
| ConnOwnership.SwapOutIs | c-lib/src/aiomsg.c:497-505 | filling the gap with the last entry removes exactly the one connection |
| ConnOwnership.ActAllHanded | c-lib/src/aiomsg.c:549-651 | the hand-off invariant in every interleaving of sessions, application and broker, with shutdown at any time |
| ConnOwnership.AlwaysHanded | c-lib/src/aiomsg.c:549-651 | from the start, in every interleaving of sessions, application and broker, with shutdown at any time, the hand-off invariant holds |
| ConnOwnership.NeverTouchedAfterFree | c-lib/src/aiomsg.c:930-1103 | no step dereferences or frees a freed object, and a session that sent CONN_DOWN touches its object no more |
| ConnOwnership.FreedForGood | c-lib/src/aiomsg.c:483-505 | a freed object is never in the broker's table again |
| ConnOwnership.DownEvictsOnlyItself | c-lib/src/aiomsg.c:497-505 | a CONN_DOWN takes out its own entry only; that of a rejected duplicate takes out none |
| ConnOwnership.ExitFreesTheDone | c-lib/src/aiomsg.c:549-651 | when the broker exits, exactly the finished sessions' objects are freed, and the others are unregistered or rejected |
| ConnOwnership.LeakedIff | c-lib/src/aiomsg.c:616-646 | for any run up to the broker's exit and any run after it: an object is freed in the end if and only if its session had sent CONN_DOWN by the exit, or gives up before registration |
| ConnOwnership.RejectedDuplicateLeaks | c-lib/src/aiomsg.c:616-646 | a run from the start with two sessions of one peer: both done, the broker gone, the accepted one's object freed, the rejected duplicate's not |
| ConnOwnership.LateRegistrationLeaks | c-lib/src/aiomsg.c:616-646 | a run from the start with a single session that registers after the broker has exited: its object is never freed |

## Left out

- CSweep.CBroker.Transmit: which connections a routed frame goes to; routing is the log of what
  is routed.
- CSweep.CBroker.Expire: allocation failure inside a resend, which loses the message, is not
  modelled.
- TlsWriter.Connection.Write: the TLS library is a bounded outbound queue that turns the k-th
  chunk into the k-th record; decryption, and the reader's retry while the library's input
  buffers are full, are not modelled.
- AsyncBrokers.AsyncBroker.HandleReceived: its contract shows the state after the whole command;
  that delivery comes before the acknowledgement is stated where the two are steps of their own
  (`Delivering.DeliveredFirst`).
- ResendTimer.TimerThread.Turn: the shutdown message and a broker that is gone, both of which end the
  thread's loop, are not modelled; nor is the brokers' close command.
- Sha1Padding.Pad: the compression rounds of SHA-1 are not modelled.
- ConnOwnership.LeakedIff: a CONN_DOWN that cannot be allocated, which the code leaks on
  purpose, is not modelled.
- CSession.ServeReads: the check of the peer's HELLO is not modelled; a session that fails it
  forwards nothing. Time limits and shutdown only end the sequence of reads earlier.
- Sniffing.Sniff: parsing the request head and the text of the responses are not modelled.
- WsStreams.WsStream.PollWrite: a data frame after a close frame is not excluded, as in the code.
- TlsWriter.NoDeadlock: a reader can wait for a writer that is stuck in a socket write, because
  its control flush takes the same outer lock; only the discipline on the inner lock is claimed.
- Registration.ActAllAgreed: sessions that end before their ConnectionUp send nothing and do not
  appear.
- Stream continuity of the synchronous crate's plain session, which drops a partial frame left
  in the decoder after the handshake; the frame decoder itself loses nothing.
- Heartbeats, handshake timeouts and reconnection: time appears only as the clock that deadlines
  are compared with.
- The C broker's own routing table and round robin, the synchronous crate's WebSocket
  session and the ports to other languages: the same state machines again. The Python port does
  not pass its remaining count on (python-lib/aiomsg/__init__.py:529), so the retry bound is not a
  property of it.
- Sockets, name resolution, certificates, thread and task primitives, logging and the public
  builders.
