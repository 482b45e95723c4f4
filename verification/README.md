# netty: codecs, state machines and accounting protocols

netty is an async HTTP/1, HTTP/2 and HTTP/3 client. This project models the parts of it that
are written by hand rather than delegated to a protocol crate, and proves what they promise over
every input and every run:

- the HTTP/1 body codec (`ChunkedSpec`, `ChunkedGrammar`, `MemRead`, `ChunkedDecode`,
  `ChunkedEncode`): the incremental chunked decoder against an independent grammar of section 7.1
  of RFC 9112, fed in arbitrary fragments, and its encoder;
- HTTP/3 admission and drain (`Drain`) and the end of one exchange (`Http3Body`);
- the HTTP Datagram registry, its round robin and its blocked senders (`Datagrams`,
  `DatagramRegistry`, `DatagramSchedule`, `DatagramDriver`, `DatagramWake`);
- the HTTP/1 connection and dispatcher (`Http1Conn`, `Http1Dispatch`, `Http1Loop`);
- capsule framing of a MASQUE tunnel and its sender and receiver (`Varint`, `Capsules`,
  `UdpTunnel`);
- buffers and channels: the write buffer (`WriteBuffer`), the one-slot body channel
  (`BodyChannel`), the CONNECT tunnel's write side (`ConnectTunnel`), the CONNECT proxy's head
  reader (`ProxyHead`), the request hand-off with the extended CONNECT gate (`Handoff`);
- framing headers (`Framing`, `RequestFraming`) and the head completeness scan (`HeadScan`).

Objects the source updates in place are classes whose methods are proved against functions of
their state. Concurrent parts are transition systems: one step is one atomic operation, one lock
section, one waker call or one iteration of a polling loop, the steps interleave freely, and a
theorem speaks about every list of steps. Outside answers (reads, writes, polls, wakeups of the
application) are parameters or scripts fixed in advance, so a statement for all scripts is a
statement for all environments. Integers are unbounded; the 64-bit limits of the source are
written out where the source checks them. `Bytes` holds what the modules share.

Two statements one might expect are false of the code; each has a run or an input that shows
it, and the exact condition under which it holds. After an explicit shutdown a request may still
become active (`Drain.ShutdownMayRace`): some continuation starts one if and only if the semaphore
had already chosen one (`Drain.StartsAfterShutdownIff`), and a check that finds no reservation
left excludes that (`Drain.NoReservationNoRace`). The drain caused by dropping the last sender has no such gap
(`Drain.DrainSafety`). A Transfer-Encoding line that does not read as visible ASCII is extended
with `, chunked` but still does not count as chunked
(`RequestFraming.UnreadableStaysUnchunked`); the repaired line counts as chunked if and only if the
last line was readable (`RequestFraming.AddedChunked`).

Members of a class are named with the class. Verify everything with
`dafny verify dfyconfig.toml`.

## Model

| member | source | states |
|---|---|---|
| `ChunkedSpec.RunSplit` | src/proto/http1/decode.rs:303-635 | a stream cut anywhere decodes as its first part continued by its second: same machine, data, bytes used and verdict |
| `ChunkedGrammar.RunDigits` | src/proto/http1/decode.rs:258-400 | a run of hex digits leaves exactly its value as chunk size, and overflow is reported iff the value exceeds u64 |
| `ChunkedGrammar.RunExt` | src/proto/http1/decode.rs:419-449 | extension bytes are accepted iff the body-wide count stays under the limit |
| `ChunkedGrammar.RunLine` | src/proto/http1/decode.rs:336-471 | a whole size line leads to the body or the last chunk with its exact size |
| `ChunkedGrammar.RunBody` | src/proto/http1/decode.rs:473-501 | chunk data is handed on byte for byte and counted down to zero |
| `ChunkedGrammar.RunChunks` | src/proto/http1/decode.rs:303-527 | any list of well-formed chunks yields their concatenated data and ends where a size line starts |
| `ChunkedGrammar.RunField` | src/proto/http1/decode.rs:529-614 | a trailer line is stored with its CRLF and counted iff it stays within the byte and the field limit |
| `ChunkedGrammar.RunFields` | src/proto/http1/decode.rs:529-635 | a trailer section within both limits ends the message and is stored whole |
| `ChunkedGrammar.AcceptsRendered` | src/proto/http1/decode.rs:303-635 | every message of the grammar within the limits is decoded to its data and trailer block, using exactly its bytes whatever follows |
| `ChunkedGrammar.AcceptedIsRendered` | src/proto/http1/decode.rs:303-635 | every accepted stream starts with a message of the grammar within the limits |
| `ChunkedGrammar.AcceptsExactlyTheGrammar` | src/proto/http1/decode.rs:303-635 | the decoder accepts a stream iff such a message starts it |
| `MemRead.Reader.ReadMem` | src/proto/http1/io.rs:330-348 | a read is pending iff the transport blocks and an error iff it breaks; otherwise a prefix of at most `len` bytes, empty only at end of file |
| `ChunkedDecode.Decoder.Step` | src/proto/http1/decode.rs:303-635 | one state transition on one read does what the byte-wise machine does on the bytes read, and is pending iff the read is |
| `ChunkedDecode.Decoder.DecodeChunked` | src/proto/http1/decode.rs:177-229 | one poll returns data, trailers or the error the machine reaches, having read exactly those bytes; it is pending only when the transport blocked or stopped answering, and every other read took a byte |
| `ChunkedDecode.Decoder.Decode` | src/proto/http1/decode.rs:150-244 | the same for all three body kinds, with their end-of-file rules |
| `ChunkedDecode.Decoder.DecodeLength` | src/proto/http1/decode.rs:157-176 | a sized body hands on at most what remains and fails on early end of file |
| `ChunkedDecode.Decoder.DecodeEof` | src/proto/http1/decode.rs:230-242 | a close-delimited body ends exactly at end of file |
| `ChunkedDecode.PollsRun` | src/proto/http1/decode.rs:150-244 | any list of polls, however the reads were cut, amounts to one run over the bytes they took |
| `ChunkedDecode.WholeStream` | src/proto/http1/decode.rs:150-244 | a settled decoder's data, verdict and bytes taken are those of one run over the whole stream |
| `ChunkedDecode.SameStreamSameBody` | src/proto/http1/decode.rs:150-244 | two settled readings of the same stream, cut differently, took the same bytes and gave the same data and outcome, on malformed input too |
| `ChunkedDecode.ReadBody` | src/proto/http1/decode.rs:150-244 | polling a stream to its end hands on the data and outcome of one run over it and leaves the rest unread; it does settle when no read breaks and more reads return bytes than that run uses |
| `ChunkedEncode.Hex` | src/proto/http1/encode.rs:313-362 | the printed chunk size is nonempty hexadecimal with exactly that value |
| `ChunkedEncode.SizeLineFits` | src/proto/http1/encode.rs:313-362 | every 64-bit size line fits the fixed 18-byte buffer |
| `ChunkedEncode.Encoder.Encode` | src/proto/http1/encode.rs:113-141 | one frame as a chunk, or as at most what remains of the length |
| `ChunkedEncode.Encoder.EncodeAndEnd` | src/proto/http1/encode.rs:191-227 | the last frame and terminator; keep-alive iff the length was reached |
| `ChunkedEncode.LengthIsExact` | src/proto/http1/encode.rs:103-141 | a sized body writes exactly the first `n` bytes of its frames and ends cleanly iff there were that many |
| `ChunkedEncode.EncodeTrailers` | src/proto/http1/encode.rs:143-189 | the trailer section holds exactly the declared and permitted fields in order, or nothing is written |
| `ChunkedEncode.WireIsRendered` | src/proto/http1/encode.rs:103-227 | what the encoder writes is a message of the decoder's grammar within its limits |
| `ChunkedEncode.Write` | src/proto/http1/conn.rs:634-726 | frames, then the end, a last frame or trailers, write exactly the specified bytes; trailers of which none is declared and permitted end the body plainly |
| `ChunkedEncode.SettledRoundTrip` | src/proto/http1/encode.rs:103-227 | every settled history of polls of the encoding, with anything following, gave exactly the frames and trailer block and took exactly the encoding |
| `ChunkedEncode.RoundTrip` | src/proto/http1/encode.rs:103-227 | encoder to decoder, for every list of nonempty frames, every way to end, every fragmentation and every following bytes: the decoder settles, returns exactly the frames and the declared trailer block, and leaves exactly what follows unread |
| `Drain.InvStep` | src/proto/http3/shared.rs:85-226 | every atomic step keeps the counters equal to the handles and requests they count, and an open drain without senders |
| `Drain.DrainSafety` | src/proto/http3/shared.rs:138-151 | in every run, a task that closes with admission open does so only when every request ever created has finished and none can be created |
| `Drain.ShutdownSafety` | src/proto/http3/shared.rs:93-151 | an explicit shutdown closes with nothing active, and nothing is ever active again iff the semaphore had chosen nobody at that point |
| `Drain.StartsAfterShutdownIff` | src/proto/http3/shared.rs:93-105 | once admission is closed, some continuation starts a request that was not active iff one was already chosen |
| `Drain.NoReservationNoRace` | src/proto/http3/shared.rs:148-151 | in every run, closed admission with no reservation left lets nothing start any more |
| `Drain.ShutdownMayRace` | src/proto/http3/shared.rs:187-199 | a run in which a request with a permit becomes active after the shutdown's close check |
| `Drain.CountersNeverUnderflow` | src/proto/http3/shared.rs:177-226 | whoever is about to decrement a counter still holds one |
| `Drain.PermitsConserved` | src/proto/http3/shared.rs:187-226 | available plus held permits equals the limit in every state of every run |
| `Drain.NoLostClose` | src/proto/http3/client.rs:280-353 | a task asleep on a drained idle connection with no wake in flight has been notified, and its next poll closes |
| `Http3Body.EveryExchange` | src/proto/http3/body.rs:190-328 | under every order of endings the slot is dropped exactly once, only after receiving and sending are over, and its permit returns exactly once |
| `Http3Body.Consume` | src/proto/http3/client.rs:1097-1104 | counting against a declared length is exact and refuses only an excess |
| `Http3Body.RecvBody.PollFrame` | src/proto/http3/body.rs:148-308 | delivered bytes never exceed the declared length; unless a failure was reported before, the body ends only when they equal it; a body stopped between polls reports its failure first; and it is pending only when the last read blocked or none answers any more |
| `Http3Body.RecvBody.Cancel` | src/proto/http3/body.rs:234-245 | stops receiving once, and exactly a body still being received then has an error for its next poll |
| `Http3Body.RecvBody.PipeDropped` | src/proto/http3/body.rs:217-226 | a finished or discarded pipe releases the exchange, and a failed one stops a response still being received, which then has an error for its next poll |
| `Http3Body.ReplayBody` | src/proto/http3/body.rs:140-308 | over any order of polls, cancels, drop and pipe endings: never more data than declared, an end before any failure is exact, a body stopped while being received fails on its next poll, and slot and permit are given back once when both directions are over |
| `Http3Body.Pipe.FinIsExact` | src/proto/http3/client.rs:884-982 | a FIN in the log means the sent data has the declared length and nothing follows trailers |
| `Http3Body.Pipe.Poll` | src/proto/http3/client.rs:892-982 | across any polling pattern the log only grows and keeps that order and length, and nothing is sent after its FIN; done means the FIN was submitted and answered or the peer stopped, failed a stream error or a body frame it must refuse, pending a waiting stream or body or 32 rounds |
| `Datagrams.FrameRoundTrip` | src/proto/http3/datagram.rs:392-397 | a framed packet decodes to its Quarter Stream ID and exactly its payload |
| `Datagrams.RegisterValid` | src/proto/http3/datagram.rs:173-205 | registering keeps exact counts, the limits and the exact rotation |
| `Datagrams.EnqueueValid` | src/proto/http3/datagram.rs:368-410 | so does an admitted send |
| `Datagrams.NextValid` | src/proto/http3/datagram.rs:278-297 | `next` serves the front session, rotates it behind the others while it has more, and skips nothing |
| `Datagrams.ReceiveValid` | src/proto/http3/datagram.rs:233-275 | so does a received packet, queued or dropped |
| `Datagrams.PollRecvValid` | src/proto/http3/datagram.rs:413-428 | so does taking a received payload |
| `Datagrams.CloseSendValid` | src/proto/http3/datagram.rs:444-457 | so does closing the send direction |
| `Datagrams.CloseRecvValid` | src/proto/http3/datagram.rs:494-505 | so does closing the receive direction |
| `Datagrams.CloseSessionValid` | src/proto/http3/datagram.rs:508-519 | so does removing a session |
| `DatagramRegistry.Registry.Receive` | src/proto/http3/datagram.rs:233-275 | the in-place update is the specified one; a payload is queued, or nothing changes; only a request without Datagram semantics is invalidated |
| `DatagramRegistry.Registry.Next` | src/proto/http3/datagram.rs:278-297 | the loop over stale entries returns the specified packet and state, with no subtraction below zero |
| `DatagramRegistry.Registry.TrySend` | src/proto/http3/datagram.rs:368-410 | admission with the error in the source's order of checks, and the whole new state |
| `DatagramRegistry.Registry.Ready` | src/proto/http3/datagram.rs:337-359 | readiness is the admission result for a payload of the largest size |
| `DatagramRegistry.Registry.PollRecv` | src/proto/http3/datagram.rs:413-428 | payloads in order; the end only without a payload and closed |
| `DatagramRegistry.Registry.CloseSend` | src/proto/http3/datagram.rs:444-457 | the queue, its bytes and its place in the rotation go |
| `DatagramRegistry.Registry.CloseRecv` | src/proto/http3/datagram.rs:494-505 | the received queue and its bytes go |
| `DatagramRegistry.Registry.CloseSession` | src/proto/http3/datagram.rs:508-519 | the session goes with both byte counts |
| `DatagramRegistry.Registry.Close` | src/proto/http3/datagram.rs:213-229 | every session goes and none is registered afterwards |
| `DatagramSchedule.StepInv` | src/proto/http3/datagram.rs:541-600 | every step keeps the registry valid, each session's packets in order, and one fate per fetched packet |
| `DatagramSchedule.EveryRun` | src/proto/http3/datagram.rs:278-297 | in every run the registry is valid and what reaches QUIC for a session is its admitted packets in order, none twice |
| `DatagramSchedule.Fair` | src/proto/http3/datagram.rs:278-297 | from any valid state, a session at position k is served or closed by the time `next` was called k + 1 times, whatever interleaves |
| `DatagramSchedule.FairRun` | src/proto/http3/datagram.rs:278-297 | the same in every run from the start |
| `DatagramSchedule.NothingAfterClose` | src/proto/http3/datagram.rs:566-598 | from any valid state with the send direction closed, at most the one packet whose open check had passed still reaches QUIC |
| `DatagramSchedule.ClosedRun` | src/proto/http3/datagram.rs:566-598 | the same in every run from the start |
| `DatagramSchedule.ClosingCloses` | src/proto/http3/datagram.rs:444-457 | closing the send half, the session or the registry closes the send direction |
| `DatagramDriver.Driver.Iterate` | src/proto/http3/datagram.rs:541-600 | each step of the driver object is the specified one and keeps every invariant |
| `DatagramDriver.Drive` | src/proto/http3/datagram.rs:541-600 | driven through any list of steps, the driver object reaches what the steps reach, and the transport took each session's admitted packets in order, none twice |
| `DatagramWake.StepInv` | src/conn/http3/datagram.rs:133-160 | every step keeps a parked sender listed and still refused, unless a wake is owed |
| `DatagramWake.NoLostWakeup` | src/conn/http3/datagram.rs:133-160 | in every run a sender that returned Pending as Full and was not woken still cannot be admitted, or a notification that wakes it is in flight |
| `DatagramWake.PendingQueuesNothing` | src/conn/http3/datagram.rs:133-160 | a poll that is not Ready queued nothing; a Ready one queued at most its one framed payload |
| `Http1Conn.Connection.DoTryKeepAlive` | src/proto/http1/conn.rs:431-481 | once both directions are done the connection is idle and takes a request iff reuse is allowed and the speculative read finds no end, and is closed for good otherwise; nothing else reopens, and nothing ruled out is lifted |
| `Http1Conn.Connection.ReadHeadDone` | src/proto/http1/conn.rs:166-243 | a body follows iff the head says so; a head against reuse rules it out; the next request may be written only after an empty response that allows reuse to a completely written request |
| `Http1Conn.Connection.ReadBodyDone` | src/proto/http1/conn.rs:271-335 | the body goes on iff the decoder has more; malformed or cut short closes reading; the next request may be written only after a complete body to a completely written request |
| `Http1Conn.Connection.DrainOrCloseRead` | src/proto/http1/conn.rs:773-789 | an unwanted body never stays open, and one that one read does not finish rules out reuse |
| `Http1Conn.Connection.DoWriteHead` | src/proto/http1/conn.rs:514-572 | after a head no other may be written but its response may be read; reuse is ruled out iff the head closes |
| `Http1Conn.Connection.DoWriteBody` | src/proto/http1/conn.rs:634-657 | a frame through the encoder, done when the length is reached |
| `Http1Conn.Connection.DoWriteBodyAndEnd` | src/proto/http1/conn.rs:678-696 | the last frame, closing when the body is short |
| `Http1Conn.Connection.DoEndBody` | src/proto/http1/conn.rs:698-726 | ends the body, or closes and reports a short one |
| `Http1Dispatch.KeptStep` | src/proto/http1/conn.rs:953-1034 | no iteration lifts ruled-out reuse or reopens a closed direction, and a head may be written again only from both directions done with reuse allowed |
| `Http1Dispatch.StepInv` | src/proto/http1/dispatch.rs:222-450 | every iteration keeps the last exchange aligned with the connection and the callbacks in order |
| `Http1Dispatch.NextRequest` | src/proto/http1/conn.rs:485-572 | in every run a request head is encoded only after every earlier request was encoded completely, its response decoded to the end and the i-th response head given to the i-th callback, and never after close, upgrade or ruled-out reuse |
| `Http1Dispatch.Pairing` | src/proto/http1/dispatch.rs:298-355 | in every run the i-th delivery goes to the callback of the i-th request and is the i-th response head or an error, at most one each |
| `Http1Dispatch.NoReuse` | src/proto/http1/conn.rs:953-1034 | once reuse is ruled out, a direction closed or an upgrade came, no further request is ever encoded |
| `Http1Dispatch.ShortBodyIsFinal` | src/proto/http1/conn.rs:698-726 | writing that leaves a body before its declared length is out ends the connection, whoever ended the body; so does losing its source, except that a late trailer frame is dropped |
| `Http1Dispatch.Reopening` | src/proto/http1/conn.rs:978-1030 | the connection becomes ready for a request only by going idle with both directions done and reuse allowed |
| `Http1Loop.Loop.TakeHead` | src/proto/http1/dispatch.rs:298-355 | a response head goes to the callback that waits, which is then gone |
| `Http1Loop.Loop.PollRead` | src/proto/http1/dispatch.rs:222-296 | one iteration of the read loop on the connection object does the specified step and keeps the invariant |
| `Http1Loop.Loop.PollWrite` | src/proto/http1/dispatch.rs:357-450 | so does one iteration of the write loop |
| `Http1Loop.Drive` | src/proto/http1/dispatch.rs:159-220 | driven through any list of iterations, the dispatcher object reaches what the steps reach, and the i-th outcome went to the i-th request with the i-th head |
| `Varint.RoundTrip` | src/proxy/masque/capsule.rs:24-48 | every integer below 2^62 decodes from its encoding with anything following, and no proper prefix decodes |
| `Varint.DecodePrefix` | src/proxy/masque/capsule.rs:40-48 | a decoded integer does not depend on what follows |
| `Capsules.Decoder.Decode` | src/proxy/masque/capsule.rs:69-107 | the loop returns what the one-call specification says and leaves its skip count and buffer |
| `Capsules.DecodedReads` | src/proxy/masque/capsule.rs:69-107 | one call leaves exactly the rest of the stream to be read, whatever follows |
| `Capsules.NeedIsBounded` | src/proxy/masque/capsule.rs:69-107 | a call that needs more holds fewer than 16 + 65535 bytes and no finished value |
| `Capsules.StreamingIsBatch` | src/proxy/masque/capsule.rs:51-113 | for every stream and split, the values, the malformed verdict and `is_partial` are those of one pass |
| `Capsules.RefusesExactlyOversized` | src/proxy/masque/tunnel.rs:577-591 | decoder and payload check refuse exactly the Context ID 0 payloads over 65527 bytes |
| `Capsules.EncodeDatagram` | src/proxy/masque/capsule.rs:16-22 | appends the capsule of a payload under Context ID 0 |
| `Capsules.PayloadsSurvive` | src/proxy/masque/capsule.rs:16-22 | however a list of encoded payloads is split, exactly they arrive and the stream ends cleanly |
| `UdpTunnel.UdpSender.PollWriteBuf` | src/proxy/masque/tunnel.rs:362-392 | buffered capsules move to the stream in order; ready without an error means none are left, and not ready that the last answer was not yet or none is left |
| `UdpTunnel.UdpSender.TrySend` | src/proxy/masque/tunnel.rs:265-298 | an accepted payload's capsule follows all earlier ones; too large iff over 65527 bytes; nothing is framed once closing or broken |
| `UdpTunnel.UdpSender.PollClose` | src/proxy/masque/tunnel.rs:346-356 | the FIN follows exactly the capsules of every framed payload, and sends are refused from the first call on |
| `UdpTunnel.UdpReceiver.PollRecv` | src/proxy/masque/tunnel.rs:433-512 | one poll returns the next payload of the stream or of the datagrams and leaves the other source as it was, the end, or that a source breaks the format; the sources take turns, and datagrams overtake the stream in its turn only when it had nothing; an error is reported again by every later poll |
| `UdpTunnel.ReceiveAll` | src/proxy/masque/tunnel.rs:433-512 | for every stream, every cut, every arrival of datagrams and any number of polls, the payloads are both sources' merged in order with none missing; the end comes only after the stream's last; and it is reached when reads and polls suffice |
| `WriteBuffer.BufList.Push` | src/proto/http1/buf.rs:20-25 | appends a buffer and its length |
| `WriteBuffer.BufList.Advance` | src/proto/http1/buf.rs:45-62 | drops exactly the first `cnt` bytes across buffers |
| `WriteBuffer.BufList.CopyToBytes` | src/proto/http1/buf.rs:80-101 | returns exactly the first `len` bytes and keeps the rest, in all three branches |
| `WriteBuffer.WriteBuf.AppendHeaders` | src/proto/http1/io.rs:125-133 | headers follow everything buffered, since nothing is queued |
| `WriteBuffer.WriteBuf.MaybeUnshift` | src/proto/http1/io.rs:451-464 | dropping written bytes changes nothing that is still to write |
| `WriteBuffer.WriteBuf.Buffer` | src/proto/http1/io.rs:529-564 | both strategies append the body buffer's bytes |
| `WriteBuffer.WriteBuf.Advance` | src/proto/http1/io.rs:608-621 | drops exactly the first `cnt` bytes of headers then queue |
| `WriteBuffer.Buffered.PollFlush` | src/proto/http1/io.rs:262-323 | written plus buffered bytes are unchanged; flushed iff nothing is left; pending means the last write blocked or none is answered any more, failed that it broke or took nothing; each answered write of an eager transport writes something |
| `WriteBuffer.Replay` | src/proto/http1/io.rs:125-323 | for either strategy, every transport and every list of operations, written then buffered bytes are the appended bytes of the operations carried out, in order; and a transport that keeps taking bytes carries out all of them |
| `BodyChannel.CheckedNew` | src/body/length.rs:34-45 | a length is accepted iff it cannot be mistaken for a sentinel |
| `BodyChannel.SubIf` | src/body/length.rs:48-55 | subtraction is exact on a known length and never makes or loses a sentinel |
| `BodyChannel.SenderInv` | src/body/chan.rs:69-126 | every sender step keeps order, length lockstep and both wake obligations |
| `BodyChannel.ReceiverInv` | src/body/chan.rs:142-218 | every receiver step keeps them too |
| `BodyChannel.InOrderAndComplete` | src/body/incoming.rs:118-127 | in every run data arrives in order with none displaced, end and trailers come only after all of it, and a sized body's remaining length is the decoder's plus what is on the way, so it never underflows |
| `BodyChannel.NoMissedWakeup` | src/body/chan.rs:69-218 | in every run a waiting receiver, and a waiting sender that reported no error, has nothing to do or a wake in flight |
| `ConnectTunnel.Stream.PollReady` | src/proto/http3/transport.rs:115-138 | pending bytes move to QUIC in order, at most 32 sends a poll; ready means none are left, pending that the last send blocked, none is answered any more or the 32 are used, and an error that the last send failed, took nothing or claimed more than was pending |
| `ConnectTunnel.Stream.SendData` | src/proto/http3/transport.rs:140-149 | accepted iff nothing is pending |
| `ConnectTunnel.Stream.PollFinish` | src/proto/http3/transport.rs:151-157 | the FIN is submitted only with nothing pending |
| `ConnectTunnel.StepInv` | src/proto/http3/upgrade.rs:323-387 | every step of application and pump keeps the accepted bytes once and in order on the wire, in the pump or in the channel |
| `ConnectTunnel.OnceInOrder` | src/proto/http3/upgrade.rs:323-387 | in every run QUIC took a prefix of the accepted bytes, and all of them before a FIN |
| `ConnectTunnel.BarrierMeans` | src/proto/http3/upgrade.rs:476-511 | an Ok flush means every accepted byte was taken by the transport; an Ok shutdown also means the FIN was submitted |
| `ConnectTunnel.FinishFollowsFlush` | src/proto/http3/upgrade.rs:487-511 | a shutdown behind a completed flush still issues its finish |
| `ConnectTunnel.NothingAfterFin` | src/proto/http3/upgrade.rs:549-567 | after the FIN nothing more is accepted or sent |
| `ConnectTunnel.FinStays` | src/proto/http3/upgrade.rs:549-567 | and every write is refused |
| `ProxyHead.ReadMore` | src/proxy/tunnel.rs:196-219 | a read of the allowed size never steps over the end of a head |
| `ProxyHead.ReadResponse` | src/proxy/tunnel.rs:189-256 | success took exactly the interim heads and a final 2xx head, within 8192 bytes, and left every later byte unread; refusals end at their head too, and every other outcome is that of the head being read, with no complete head passed over; a blocked read resumes, and with enough answering reads it comes to an end |
| `ProxyHead.OneResponse` | src/proxy/tunnel.rs:189-256 | a stream has at most one response at its front, so the tunnel begins at one place |
| `ProxyHead.ReadAnswer` | src/proxy/tunnel.rs:189-256 | when a response of at most 8192 bytes, which the parser waits for to its last byte, is at the front and enough reads answer, the outcome is what its final status says and exactly the tunnel behind it is left unread |
| `Handoff.Gate.Admit` | src/proto/http2/client.rs:431-449 | an extended CONNECT is parked iff the settings are unknown and refused iff the server disabled it; the shared flag says whether any is parked |
| `Handoff.Gate.PollSettle` | src/proto/http2/client.rs:453-471 | refuses all, keeps all, or drops exactly the callers that gave up, in order; the flag is kept |
| `Handoff.Gate.PopEnabled` | src/proto/http2/client.rs:474-481 | the oldest parked request, only when enabled; the flag is kept |
| `Handoff.Gate.Release` | src/proto/http2/client.rs:484-495 | returns every parked request and clears the flag |
| `Handoff.StepConserved` | src/proto/http2/client.rs:1003-1149 | every step moves requests between places without losing or doubling one |
| `Handoff.EveryRequest` | src/proto/http2/client.rs:1003-1149 | in every run an accepted request is in exactly one place and answered at most once, a returned one was never sent, one neither sent, given up nor invalid is never lost, and the flag equals "gate queue nonempty" |
| `Handoff.AllAnswered` | src/dispatch.rs:210-272 | once the dispatcher ended and no stream is left, every accepted request was answered exactly once |
| `Framing.FromDigits` | src/proto/headers.rs:76-101 | digits are accepted iff their decimal value fits 64 bits, with exactly that value |
| `Framing.ParseAll` | src/proto/headers.rs:48-74 | a length is found iff there is a field line and every item of every line is that number |
| `Framing.ContentLength` | src/proto/http3/client.rs:1077-1094 | the same length, with absent and illegal told apart |
| `Framing.ParsersAgree` | src/proto/http3/client.rs:1077-1094 | the HTTP/1 and HTTP/3 parsers agree on every list of field lines |
| `RequestFraming.DecimalSays` | src/proto/http1/role.rs:606-637 | the printed length parses back to itself |
| `RequestFraming.AddedChunked` | src/proto/headers.rs:108-139 | the repaired Transfer-Encoding ends in chunked iff its last line was readable |
| `RequestFraming.UnreadableStaysUnchunked` | src/proto/headers.rs:108-139 | a concrete line for which the repair does not make it chunked |
| `RequestFraming.RequestHead.SetLength` | src/proto/http1/role.rs:411-544 | Transfer-Encoding stays iff the encoder is chunked and then no Content-Length; a positive length, and any length the body knows itself, leaves a Content-Length that says it; and which framing is chosen for every head and body |
| `HeadScan.IsCompleteFast` | src/proto/http1/role.rs:91-112 | when the earlier bytes held no empty line, the partial scan finds one iff there is one anywhere |

## Left out

- Sockets, TLS, QUIC backends, executors, timers and the h2, h3, httparse, http and tokio crates: foreign code. The head parser is a parameter assumed to end a head at its blank line and to ignore what follows; a transport takes or returns some prefix; `Notify` and atomic wakers have the contracts their documentation states.
- Real memory ordering: each atomic operation, lock section and waker call is one sequentially consistent step.
- HTTP/2 flow control, ping and keep-alive timing, and the HTTP/2 request and response bodies.
- Option builders, errors and their text, extensions, tracing, `rt` adapters and the pool of connection settings: no state worth a theorem.
- SOCKS, MASQUE URI templates and the rest of the proxy connectors: single-branch validation.
- `ReadStrategy` and the size of read buffers: they decide only when a head is refused as too large.
- Folding obsolete line breaks in header values, header casing and ordering, and the parsing of heads.
- Reading::Continue of the HTTP/1 connection: a client never enters it, because a parsed response never asks for it; and an encoding error of a request head, which the client's encoder never returns.
- HTTP/0.9 responses, and the `want` hand-shake that lets one request be queued ahead on HTTP/1.
- The per-poll budgets of the dispatcher, the Datagram driver and the tunnel pump: runs of any length are allowed, so the theorems hold for every budget.
- ChunkedDecode.Decoder.DecodeChunked: trailer fields are returned as the stored block and its line count; parsing the block into a header map is httparse's.
- Drain.DrainSafety: for drains with admission open, which only dropping the last sender causes; `Drain.ShutdownSafety` says exactly what an explicit shutdown guarantees.
- BodyChannel.NoMissedWakeup: says nothing of a sender that reported an error, since taking a queued error need not wake it; and two errors may be delivered in either order.
- Handoff.EveryRequest: claims conservation, not first-in first-out order, since a newer extended CONNECT may overtake parked ones when the settings arrive between two reads of them.
- RequestFraming.RequestHead.SetLength: an absent body leaves the caller's own Content-Length in place, so a zero length need not match the header.
- DatagramWake.NoLostWakeup: for one sender among arbitrary others; the peer's settings arrive once, as the connection task publishes them.
- Stream resets and write wakers of the MASQUE tunnel, and its sender's HTTP Datagram path, which only forwards to the registry.
- ConnectTunnel.StepInv: a call of the application is one step, and QUIC framing around the payload bytes is not modelled.
- WriteBuffer.Buffered.PollFlush: how many slices a vectored write is offered is not modelled; the transport takes some prefix of what is buffered.
