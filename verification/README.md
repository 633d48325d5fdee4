# A model of the batching QUIC proxy

The repository puts a QUIC front end before an HTTP backend. A QUIC stream's request
becomes a libcurl transfer; libcurl's callbacks relay the response back to the stream;
UDP packets are read in batches with `recvmmsg` and written in batches with `sendmmsg`.
This project models the four event-driven machines that the repository itself owns, and
proves what holds over all their runs:

1. the life of a transfer: the graph of streams, proxies (`QuicProxyCurl`), the owning
   hash, the dead list, the epoll registrations and libcurl's raw pointers;
2. the packet writer: a 32-slot byte ring with a deque of pointers into it;
3. the relay of one transfer: response headers, fin, body, request headers, request body;
4. the packet reader and the edge-triggered read loop of the server.

`dafny verify dfyconfig.toml` checks everything.

## How it is built

Each machine comes in two layers. The lower one is a specification: values, and functions
that take one state to the next. The theorems over runs are lemmas about it. The upper one
is the program's own form: classes with mutable fields, arrays and raw object references.
Each of their methods is proved to do exactly one specified step, through a function
`View()` that reads the objects off as a value. `ProxyObjects.Serve` and
`PacketWriter.Serve` put the methods together: from new objects, over any legal events, the
objects are where the specified run is. So the run theorems hold of the objects.

| file | content |
|---|---|
| `Basics.dfy` | bytes, options, concatenation, the 64-bit `size_t` bound |
| `PacketFifo.dfy`, `PacketWriter.dfy` | the writer's steps and runs; the writer and its flush timer as classes |
| `PacketBatches.dfy`, `PacketReader.dfy` | what batched reading delivers; reader, socket and server loop as classes |
| `HeaderText.dfy` | printing and parsing header lines, the ordered header block |
| `Relay.dfy` | one transfer's frames, fin, body, upload and request headers |
| `TransferGraph.dfy` | the state of all transfers, its steps, what the environment may do |
| `TransferInvariant.dfy` | the invariant of that graph, kept by each step |
| `TransferRuns.dfy` | what holds over every run, also in the middle of an event |
| `OpenStream.dfy` | a run that leaves a stream open |
| `ProxyObjects.dfy` | streams, proxies, backend and curl timer as classes with real pointers |

In `TransferGraph` a step that follows a pointer to an object that has been freed, frees an
object twice, or lets the `size_t` subtraction of the upload wrap, sets a flag `fault`.
That no run sets it is part of the invariant. Results about runs are stated for every
`Moment`: between two events, after any number of callbacks of an event, or in its
`CheckCurlMultiInfo` after any number of messages. In `ProxyObjects` the same thing is a
precondition: a method may only be handed live objects, and the callers prove it.

## What is assumed of the environment

- `curl_easy_init` succeeds and its handle differs from those of all proxies not yet freed.
- A stream is fetched at most once, and its identity is not reused after it is destroyed.
- libcurl makes callbacks only for handles in the multi, and queues at most one DONE for
  each. A socket event or a timer event is a script of such callbacks in any order and
  number, and writing to a stream may close any live streams before the callback returns.
- A handle has at most one live socket, two handles share no descriptor, and the socket's
  removal is reported no later than the handle is removed from the multi. The documented
  build links libcurl with zlib only and with no HTTP/2 library (README-en.md:52-56), so
  transfers that run at the same time do not share a connection.
- Adding or removing a handle may make libcurl ask for a timeout; which one is an input.
- Destroying a stream first calls `CloseBackendResponseStream`. An ack is for bytes that
  were sent on the stream. Where it says so (`FreshAcks`), each ack is for some byte not
  acked before; QUIC may also ack a frame a second time, when it was sent in two packets,
  and all other results allow that.
- A stream refuses what is written after a fin: the call is recorded, but nothing is
  buffered. What a stream carries is stated of the calls.
- `WriteMultiplePackets` sends the first n of the queued packets, with n = 0 if its status
  is blocked. A packet fits in a slot. `DCHECK`s are not relied on: a write may come while
  the writer is blocked.
- `recvmmsg` takes min(16, waiting) datagrams and fails if none waits; more may arrive
  before each call. A sender's address fits in `sockaddr_storage`.
- Every header line ends in CRLF. For the theorems about whole responses: `100` blocks
  without a length first, then one final block; no chunk is empty; the body does not exceed
  a declared length (section 3.3.3 of RFC 7230); sizes sum to less than 2^64.
- `spdy_headers_` is empty after it was moved from. `StringToSizeT` leaves the value of the
  leading digits, after white space and one plus sign, saturated. `IsValidHeaderName` of
  the method is an input.
- `kEthernetMTU`, `kCmsgSpaceForReadPacket` and the read buffer size are parameters.

The value returned for a transfer without a stream, `CURLE_WRITE_ERROR`, is the number 23;
nothing is claimed about what libcurl does with it.

## What the code does that one may not expect

Each of these is stated exactly, for all inputs.

- A `BLOCKED` result of `WritePacket` does not mean that the packet was not taken. It was
  not taken exactly when the ring was full and its first flush sent nothing
  (`BlockedPacketIsTakenIff`). `BlockedAfterTaking` gives a run from a new writer where it
  was taken, and `WrittenAgainIsSentTwice` what a retry then does.
- A request header that occurs more than once is sent to the backend with its first value
  only, unless it is a cookie: the values are joined by NUL and then read as a C string
  (`RepeatedRequestHeaderIsCutIff`).
- A header line reads back as printed exactly when its name holds no `": "` and the line
  does not begin with `HTTP` (`RoundTripIff`). Of a field with the optional white space of
  section 3.2 of RFC 7230, exactly the form with one space before the value is read back
  (`FieldLineIff`). One with no space, like `Content-Length:5`, is dropped
  (`TightFieldIsDropped`), so a 404 with such a length gets its fin before its body
  (`TightLengthIsLost`).
- A response that is neither 200 nor 100, neither chunked nor of positive length, but has
  a body, gets its fin with the headers and then its body (`NothingFollowsFinIff`). A 404
  without a length is one (`BodyFollowsFin`).
- A response relayed without a fin ends its stream only by an ack that comes after the
  transfer was taken off and when nothing is buffered (`EndsOnlyOnLateAck`). So when the
  transfer is taken off it is decided: the stream is ended iff some byte is still buffered
  or unacked then (`EndsIffPending`), and otherwise stays open (`DrainedNeverEnds`).
  `StreamStaysOpen` gives such a run: a 200 without a length, sent and acked before its
  transfer is reported done.
- A proxy whose request has an invalid method stays in the hash for ever, also after its
  stream is destroyed (`FetchedIdleIff`, `IdleIsNeverReclaimed`).
- A clock reading of zero counts as no reading, so a batch may read the clock more than
  once (`OneReadingIff`).

## Model

| member | source | states |
|---|---|---|
| `TransferRuns.EveryPointerIsLive` | proxy_quic/quic_proxy_backend.cc:74-140 | at every moment of every run of fetches, closes, stream destructions, socket, transfer and timer events, no pointer to a freed object has been followed, and every proxy pointed at by a stream, an epoll registration or libcurl is owned by the hash under its own handle; every stream pointed at is live |
| `TransferRuns.DeadIsUnreachable` | proxy_quic/quic_proxy_backend.cc:112-140 | at every moment nothing points at a proxy on the dead list, so clearing the list frees only what cannot be reached |
| `TransferRuns.OnStackProxySurvives` | proxy_quic/quic_proxy_curl.cc:145-162 | the proxy whose OnEvent is running is still allocated after the CheckCurlMultiInfo it calls, for every script of callbacks, also one that ends its own transfer |
| `TransferRuns.LinksAreSymmetric` | proxy_quic/quic_proxy_backend.cc:62-88 | at every moment, so after each callback with its reentrant closes and after each message, a stream points at a proxy iff that proxy points at that stream |
| `TransferRuns.EpollAgreesWithLibcurl` | proxy_quic/quic_proxy_backend.cc:145-211 | at every moment, so after each socket callback, a descriptor is registered iff libcurl tracks it, with the owning proxy as callback, the interest libcurl last asked for, and that descriptor in the proxy |
| `TransferRuns.Conservation` | proxy_quic/quic_proxy_backend.cc:112-140 | at every moment, a proxy was created iff it is in exactly one of hash, dead list and freed, and the dead list has no duplicates |
| `TransferRuns.CreatedIsKept` | proxy_quic/quic_proxy_backend.cc:239-251 | from any state of the invariant, live and freed proxies together grow by exactly those fetched |
| `TransferRuns.FreedExactlyByQuietChecks` | proxy_quic/quic_proxy_backend.cc:103-141 | proxies are freed by exactly those events whose check reads no message, and then it is the dead list as it was before the event: never one buried by the same event |
| `TransferRuns.LookupsNeverMiss` | proxy_quic/quic_proxy_backend.cc:112-128 | each DONE message of a check, after all earlier ones were processed, finds its handle in the hash, under the proxy that libcurl's user pointer names |
| `TransferRuns.NewSocketFindsProxy` | proxy_quic/quic_proxy_backend.cc:180-191 | the lookup for a new socket never misses, and its descriptor is not registered yet |
| `TransferRuns.StepDetached` | proxy_quic/quic_proxy_stream.cc:41-48 | to a stream that lost its transfer an event can only send what is buffered, close on an ack, or destroy it; other events, with all their callbacks, leave it as it is |
| `TransferRuns.NothingWrittenAfterDetach` | proxy_quic/quic_proxy_curl.cc:169-178 | once a stream has lost its transfer, no header or body callback of any later event writes to it |
| `TransferRuns.SafeEndOfStream` | proxy_quic/quic_proxy_stream.cc:41-48 | whenever an ack newly closes the write side, the transfer is unlinked, nothing is buffered, no fin was sent; it happens once per stream and nothing is written afterwards in any continuation of the run |
| `TransferRuns.ClosedByAckOrFin` | proxy_quic/quic_proxy_stream.cc:41-48 | at every moment, a stream whose write side is closed has nothing buffered, and either was closed by an ack, once and with no transfer left, or was given a fin |
| `TransferRuns.AckLaw` | proxy_quic/quic_proxy_stream.cc:41-48 | an ack closes the write side iff the stream has no transfer and nothing is buffered; a stream that has its transfer only counts the bytes, and nothing else in the world changes |
| `TransferRuns.EndsOnlyOnLateAck` | proxy_quic/quic_proxy_stream.cc:41-48 | a detached stream without a fin has sent its fin at the end of a run iff the run held an ack at a moment when nothing was buffered |
| `TransferRuns.DrainedNeverEnds` | proxy_quic/quic_proxy_stream.cc:41-48 | a detached stream without a fin and with nothing buffered or unacked gets no fin in any run without a repeated ack |
| `TransferRuns.EndsIffPending` | proxy_quic/quic_proxy_stream.cc:41-48 | a detached stream without a fin, in a run without a repeated ack at whose end everything is sent and acked, got its fin iff something was buffered or unacked at the start |
| `OpenStream.StreamStaysOpen` | proxy_quic/quic_proxy_stream.cc:41-48 | a legal run from the start, with a complete response, that ends with everything sent and acked, the transfer gone, and no fin sent or waiting |
| `OpenStream.StreamIsNeverEnded` | proxy_quic/quic_proxy_stream.cc:41-48 | after that run the stream is open in every continuation without a repeated ack |
| `TransferRuns.StreamCarriesResponse` | proxy_quic/quic_proxy_curl.cc:164-245 | at every moment, the calls made on a stream in the middle of a response hold at most one fin and a prefix of the body, and after the whole response exactly the fins owed and the whole body |
| `TransferRuns.UploadIsRequestBody` | proxy_quic/quic_proxy_curl.cc:275-294 | at every moment after a fetch, what libcurl has read for the proxy is a prefix of the body of the request it was fetched with, and the whole of it when the position is at the end |
| `TransferRuns.UploadEndsIff` | proxy_quic/quic_proxy_curl.cc:283-293 | a read into a buffer with room gives nothing, the end of the upload, iff the whole body was read |
| `TransferGraph.UploadBodyIs` | proxy_quic/quic_proxy_curl.cc:114-129 | a body is uploaded iff the method is valid and POST, PUT or PATCH |
| `TransferRuns.MomentKeeps` | proxy_quic/quic_proxy_backend.cc:103-211 | from any state of the invariant, it holds at every moment, where the live and freed proxies and their requests are those after the last event |
| `TransferRuns.PrefixIsLegal` | proxy_quic/quic_proxy_backend.cc:145-170 | each point in the callbacks of an event is a moment: a prefix of a legal script is legal |
| `TransferRuns.FetchedIdleIff` | proxy_quic/quic_proxy_curl.cc:75-80 | a fetched proxy is in the hash but not in the multi iff its method is invalid |
| `TransferRuns.IdleIsNeverReclaimed` | proxy_quic/quic_proxy_curl.cc:75-80 | such a proxy is still in the hash after every run |
| `TransferRuns.TimerAfterEvent` | proxy_quic/quic_proxy_curl.cc:158-161 | after a socket event with no transfer running the curl timer is disarmed, whatever libcurl asked for during it; after any other event, of any kind, it is set as libcurl last asked: in its callbacks, when a fetch adds a handle, or when a finished one is removed |
| `TransferRuns.InvPointsAtLive` | proxy_quic/quic_proxy_backend.cc:79-195 | the invariant implies that everything pointed at is live and owned |
| `TransferRuns.StepKeeps` | proxy_quic/quic_proxy_backend.cc:53-237 | every legal event keeps the invariant of the graph |
| `TransferInvariant.FetchKeeps` | proxy_quic/quic_proxy_backend.cc:53-76 | fetching keeps ownership, links, multi, sockets and histories in order, for valid and invalid methods |
| `TransferInvariant.FetchLaw` | proxy_quic/quic_proxy_backend.cc:53-76 | what a fetch leaves, for a valid method or not: a new proxy in the hash, linked both ways, with nothing relayed, read or registered; in the multi iff the method is valid |
| `TransferInvariant.CloseKeeps` | proxy_quic/quic_proxy_backend.cc:79-89 | closing keeps the invariant and leaves the stream without a proxy |
| `TransferInvariant.AddSockKeeps` | proxy_quic/quic_proxy_backend.cc:180-195 | registering a new socket keeps the invariant |
| `TransferInvariant.SetSockKeeps` | proxy_quic/quic_proxy_backend.cc:197-211 | changing the interest keeps epoll and libcurl in agreement |
| `TransferInvariant.RemoveSockKeeps` | proxy_quic/quic_proxy_backend.cc:172-178 | unregistering the descriptor the proxy remembers removes the one libcurl meant, and keeps the invariant |
| `TransferGraph.NoSocketNoChange` | proxy_quic/quic_proxy_backend.cc:172-187 | a socket of a handle that is not hashed, a removal without a pointer or a remembered descriptor, and interest in a descriptor that is not registered change nothing |
| `TransferInvariant.TransferKeeps` | proxy_quic/quic_proxy_curl.cc:164-245 | a header or body callback, with streams closed while it writes, keeps the invariant, including that a stream's frames are what the relay makes of what it heard |
| `TransferInvariant.TransferCut` | proxy_quic/quic_proxy_curl.cc:169-172 | a callback for a transfer without a stream changes nothing |
| `TransferInvariant.DoneKeeps` | proxy_quic/quic_proxy_backend.cc:113-134 | a DONE message moves exactly its proxy from the hash to the front of the dead list, frees nothing, and keeps the invariant |
| `TransferInvariant.ClearKeeps` | proxy_quic/quic_proxy_backend.cc:138-140 | clearing the dead list keeps the invariant: no double free, no dangling pointer |
| `TransferInvariant.CheckKeeps` | proxy_quic/quic_proxy_backend.cc:103-141 | the whole loop keeps the invariant |
| `TransferGraph.TimerFiresWhenAsked` | proxy_quic/quic_proxy_backend.cc:213-237 | the timer is disarmed iff the timeout is negative, otherwise first expires after that many milliseconds, or after one nanosecond for zero, and then every second |
| `PacketFifo.WriterRefinesFifo` | proxy_quic/quic_proxy_packet_writer.cc:10-61 | from a new writer, over every interleaving of writes, timer flushes and SetWritable with any partial sends, packets on the wire followed by queued ones are the packets appended, bytes and addresses intact |
| `PacketFifo.RunIsFifo` | proxy_quic/quic_proxy_packet_writer.cc:10-61 | the same from any state of the ring, and the wire only grows |
| `PacketFifo.WriteIsFifo` | proxy_quic/quic_proxy_packet_writer.cc:10-42 | one write, with its up to two flushes, keeps the ring and appends the packet iff there is room after the first flush |
| `PacketFifo.LiveSlotsNeverAlias` | proxy_quic/quic_proxy_packet_writer.cc:28-31 | queued entries use different slots, and the slot of the next memcpy is free |
| `PacketFifo.NextSlot` | proxy_quic/quic_proxy_packet_writer.h:28-30 | the slot of a queued entry does not change when the 64-bit position counter advances, also when it wraps to zero |
| `PacketFifo.AppendKept` | proxy_quic/quic_proxy_packet_writer.cc:28-31 | copying a packet in changes no queued packet and appends exactly this one |
| `PacketFifo.FlushKept` | proxy_quic/quic_proxy_packet_writer.cc:44-61 | a flush moves packets from the queue's front to the wire's end and loses none |
| `PacketFifo.WriteStatusIsExact` | proxy_quic/quic_proxy_packet_writer.cc:20-41 | BLOCKED is returned iff a full ring moved nothing, then with EAGAIN, or the packet took the last slot and the flush after it was blocked, then with the result of that flush; else OK with the length; the flag is set with BLOCKED and only then; 32 packets are queued then; the packet is appended in all cases but the first |
| `PacketFifo.WireGrowsBySent` | proxy_quic/quic_proxy_packet_writer.cc:44-61 | over a run exactly as many packets leave as the kernel took in the flushes made |
| `PacketFifo.StepSends` | proxy_quic/sendmmsgtimer.cc:34-50 | the flushes of one event: of a full ring before a write, of one filled by it, of a nonempty queue by the timer unless it reads EAGAIN; the timer leaves the blocked flag, SetWritable clears it |
| `PacketFifo.BlockedPacketIsTakenIff` | proxy_quic/quic_proxy_packet_writer.cc:20-39 | after a BLOCKED result the packet was not taken iff the ring was full and the first flush sent nothing |
| `PacketFifo.BlockedAfterTaking` | proxy_quic/quic_proxy_packet_writer.cc:32-39 | a new writer takes 31 packets while the kernel takes none, and the next one is buffered and reported BLOCKED |
| `PacketFifo.WrittenAgainIsSentTwice` | proxy_quic/quic_proxy_packet_writer.cc:20-39 | writing such a packet again, when the kernel has room, appends it a second time |
| `PacketFifo.WireGrowsWithFlushes` | proxy_quic/quic_proxy_packet_writer.cc:44-61 | if every flush of a nonempty queue sends something, the wire grows by at least one packet per flush over the run |
| `PacketFifo.DrainBound` | proxy_quic/quic_proxy_packet_writer.cc:44-61 | then the packet at position k is on the wire, at its place, within k+1 flushes whatever is written meanwhile |
| `PacketFifo.TimerEmptiesQueue` | proxy_quic/sendmmsgtimer.cc:34-50 | as many timer flushes as there are packets empty the queue |
| `PacketWriter.QuicProxyPacketWriter.constructor` | proxy_quic/quic_proxy_packet_writer.cc:5-6 | a new writer is the empty ring |
| `PacketWriter.QuicProxyPacketWriter.WritePacket` | proxy_quic/quic_proxy_packet_writer.cc:10-42 | on the array and the deque: does one write step, with its result |
| `PacketWriter.QuicProxyPacketWriter.CopyIn` | proxy_quic/quic_proxy_packet_writer.cc:28-29 | the memcpy replaces the front of one row by the data and nothing else |
| `PacketWriter.QuicProxyPacketWriter.Flush` | proxy_quic/quic_proxy_packet_writer.cc:44-61 | erases exactly what was sent; the wire gets the bytes the ring holds at that moment; the result is the kernel's, or OK and 0 for an empty queue |
| `PacketWriter.SendMMsgTimer.OnEvent` | proxy_quic/sendmmsgtimer.cc:34-50 | flushes the writer unless the timer read fails with EAGAIN |
| `PacketWriter.Serve` | proxy_quic/quic_proxy_packet_writer.cc:5-61 | over any legal events the writer and timer objects stay where the specified run is, so wire and queue hold what was appended |
| `PacketBatches.DrainEmptiesSocket` | proxy_quic/quic_proxy_server.cc:223-228 | the read loop ends with the socket empty, having received everything in arrival order with nothing lost or repeated, while more arrives between batches |
| `PacketBatches.DrainIsFilter` | proxy_quic/quic_proxy_packet_reader.cc:90-161 | what is processed over the whole loop is the order-preserving filter of what was received: nonempty, not truncated, self address known; each with the data, sender, self address, hop limit and port of its datagram |
| `PacketBatches.DeliverIsFilter` | proxy_quic/quic_proxy_packet_reader.cc:90-161 | the same for one batch, for any fallback time |
| `PacketBatches.KeptAppend` | proxy_quic/quic_proxy_packet_reader.cc:90-120 | the filter keeps order and number |
| `PacketBatches.KeptOne` | proxy_quic/quic_proxy_packet_reader.cc:91-120 | a datagram passes iff it is not empty, fits in the buffer, its control data fits, and it has a self address |
| `PacketBatches.BatchSharesOneReading` | proxy_quic/quic_proxy_packet_reader.cc:88-144 | if the clock does not read zero, all packets of a batch without a kernel time get the same single reading, the others their own time, converted |
| `PacketBatches.OneReadingIff` | proxy_quic/quic_proxy_packet_reader.cc:136-140 | a batch reads the clock at most once iff its first reading is not zero or at most one packet needs it |
| `PacketBatches.BatchesConsume` | proxy_quic/quic_proxy_packet_reader.cc:78-83 | a batch is the first 16 of what waits, or all of it, and what remains is the rest in order; the measure of the loop |
| `PacketReader.FilledFromDatagram` | proxy_quic/quic_proxy_packet_reader.cc:69-79 | with the restored lengths, what the kernel leaves in a slot depends on the datagram only |
| `PacketReader.StaleHeaderLosesPacket` | proxy_quic/quic_proxy_packet_reader.cc:69-76 | without the reset loop it does not: a header left short by one datagram loses the next |
| `PacketReader.QuicProxyPacketReader.constructor` | proxy_quic/quic_proxy_packet_reader.cc:32-54 | the lengths and flags a new reader offers |
| `PacketReader.QuicProxyPacketReader.ResetHeaders` | proxy_quic/quic_proxy_packet_reader.cc:69-76 | brings lengths and flags of all 16 headers back to the constructor's |
| `PacketReader.QuicProxyPacketReader.Dispatch` | proxy_quic/quic_proxy_packet_reader.cc:88-162 | the scan of the filled arrays processes exactly the specified delivery of the batch |
| `PacketReader.QuicProxyPacketReader.ReadAndDispatchPackets` | proxy_quic/quic_proxy_packet_reader.cc:58-172 | the result is a function of the datagrams taken and the clock, whatever earlier calls left in headers and buffers; true iff the batch was full |
| `PacketReader.QuicProxyServer.OnEvent` | proxy_quic/quic_proxy_server.cc:214-243 | an EPOLLIN event terminates with an empty socket and the filter of everything received processed; the masks ask for replay as the dispatcher needs it |
| `HeaderText.HeaderRoundTrip` | proxy_quic/quic_proxy_curl.cc:247-272 | printing any list of printable headers and parsing the lines gives the lowercased names in order of first appearance, each with its values in order |
| `HeaderText.RoundTripIff` | proxy_quic/quic_proxy_curl.cc:250-272 | a printed line reads back as its header, name lowercased, iff the name holds no ": " and the line does not begin with "HTTP" |
| `HeaderText.LineIsClassified` | proxy_quic/quic_proxy_curl.cc:201-272 | what any line is taken for: the end of a block, a status line with the up to three characters after its first space or without a space, a field split at its first ": ", or nothing |
| `HeaderText.ToLowerIs` | proxy_quic/quic_proxy_curl.cc:270-271 | lowercasing turns the 26 capital letters into the small ones, one by one, and leaves all other characters |
| `HeaderText.LastStatusCounts` | proxy_quic/quic_proxy_curl.cc:258 | a status line replaces an earlier one of its block and leaves the fields alone |
| `HeaderText.FieldLineIff` | proxy_quic/quic_proxy_curl.cc:263-271 | a field written with optional white space reads back iff its name and line are free as above and the white space is one space before the value |
| `HeaderText.TightFieldIsDropped` | proxy_quic/quic_proxy_curl.cc:264-268 | a field with no space after the colon, and no ": " elsewhere, is dropped iff its line does not begin with "HTTP" |
| `HeaderText.PrintedLineIsField` | proxy_quic/quic_proxy_curl.cc:263-271 | such a line is split at the end of its name, whatever the value holds |
| `HeaderText.StatusLineYieldsCode` | proxy_quic/quic_proxy_curl.cc:250-261 | a status line yields its three-digit code (section 3.1.2 of RFC 7230) |
| `HeaderText.CollectedByName` | proxy_quic/quic_proxy_curl.cc:270-271 | appending headers to any block gives each name its old values and then the new ones in order |
| `HeaderText.CollectedNames` | proxy_quic/quic_proxy_curl.cc:270-271 | names keep the order of their first appearance |
| `HeaderText.CollectedOncePerName` | proxy_quic/quic_proxy_curl.cc:258-271 | whatever lines arrive, the collected block has one entry per name, and a lookup sees all of it |
| `HeaderText.DecimalReadsBack` | proxy_quic/quic_proxy_curl.cc:207-211 | a length printed in decimal, after any white space, with or without a plus sign, and before anything but a digit, is read back, up to the largest size_t |
| `HeaderText.NoNumberIsZero` | proxy_quic/quic_proxy_curl.cc:207-211 | a value that does not begin with a digit, a plus sign or white space reads as 0 |
| `Relay.RelayedFrames` | proxy_quic/quic_proxy_curl.cc:164-245 | the frames of a whole transfer: one headers frame per block, then each chunk as it came, with the place of the fin |
| `Relay.FinLaw` | proxy_quic/quic_proxy_curl.cc:229-243 | over a whole transfer: with a positive declared length one fin iff the body has that length, else none; with length 0 none iff the status is 200 or 100 or the joined transfer encodings are "chunked", else one |
| `Relay.NothingFollowsFinIff` | proxy_quic/quic_proxy_curl.cc:229-243 | no frame follows the fin iff there is no body, or a positive length, or the status is 200 or 100, or the joined transfer encodings are "chunked" |
| `Relay.EndOfBlockLaw` | proxy_quic/quic_proxy_curl.cc:203-244 | the end of any block, in any state: the length it declares or else the earlier one, a fin iff that is 0 and the status and encoding announce no body, and the block emptied |
| `Relay.BodyLaw` | proxy_quic/quic_proxy_curl.cc:174-188 | any chunk in any state: passed on and counted whole, with a fin iff the 64-bit count then equals the declared length |
| `Relay.LineLaw` | proxy_quic/quic_proxy_curl.cc:201-272 | what is returned for any line: its length, but 0 for a status line without a space; lines that are no status and no field change nothing; only the end of a block writes |
| `Relay.NamedLengthIsDeclared` | proxy_quic/quic_proxy_curl.cc:207-211 | a field named "Content-Length", in that case, with a number below 2^64 declares it |
| `Relay.BodyFollowsFin` | proxy_quic/quic_proxy_curl.cc:229-243 | for every status but 200 and 100, a response with a body and no length gets a fin on its headers and then the body |
| `Relay.DroppedFieldIsAbsent` | proxy_quic/quic_proxy_curl.cc:264-268 | a dropped field changes nothing, anywhere in a transfer |
| `Relay.TightLengthIsLost` | proxy_quic/quic_proxy_curl.cc:229-268 | with "Content-Length:" and any number without a space, and any status but 200 and 100, the fin comes with the headers and the body after it |
| `Relay.BodyIsRelayedWhole` | proxy_quic/quic_proxy_curl.cc:164-189 | for every split into chunks the relayed bytes are the body |
| `Relay.FeedBody` | proxy_quic/quic_proxy_curl.cc:174-178 | from any point of a transfer, the fin falls on the last chunk iff that completes the declared length, and on no earlier one |
| `Relay.CutTransfer` | proxy_quic/quic_proxy_curl.cc:164-245 | a transfer cut off anywhere has written a prefix of the frames: at most one fin, and a prefix of the body |
| `Relay.UploadReplay` | proxy_quic/quic_proxy_curl.cc:275-294 | for any positive buffer sizes the reads concatenate to the request body and are then empty for ever, after at most as many calls as there are bytes |
| `Relay.ReplayIsPrefix` | proxy_quic/quic_proxy_curl.cc:275-294 | from any position and for any sizes, the reads are the next bytes of the body |
| `Relay.ReplayEndsEmpty` | proxy_quic/quic_proxy_curl.cc:283-293 | once the sizes reach the end of the body, each later read is empty |
| `Relay.RepeatedRequestHeaderIsCutIff` | proxy_quic/quic_proxy_curl.cc:59-62 | a request header reaches libcurl whole iff it has at most one value or is a cookie; otherwise with its first value only |
| `Relay.CStringIs` | proxy_quic/quic_proxy_curl.cc:59-62 | what libcurl gets of a text is its longest prefix without NUL |
| `Relay.JoinedIsSeparated` | proxy_quic/quic_proxy_curl.cc:59-60 | several values are joined by "; " for cookies and by NUL for all others |
| `Relay.RequestLinesPrint` | proxy_quic/quic_proxy_curl.cc:53-63 | headers with a colon in front are dropped and all others are printed in order as "name: value", up to the first NUL; whole iff there is none |
| `ProxyObjects.QuicProxyStream.OnStreamFrameAcked` | proxy_quic/quic_proxy_stream.cc:31-50 | does the ack step on the stream object for the bytes newly acked; a proxy that is left is called, and is live |
| `ProxyObjects.QuicProxyCurl.constructor` | proxy_quic/quic_proxy_curl.cc:10-23 | a new proxy: no socket, linked to its stream, nothing relayed |
| `ProxyObjects.QuicProxyCurl.StartHttp` | proxy_quic/quic_proxy_curl.cc:50-134 | builds the request lines, stops before libcurl for an invalid method, otherwise enters the multi, with a body for POST, PUT and PATCH only, and sets the timer as asked |
| `ProxyObjects.QuicProxyCurl.AppendHeaders` | proxy_quic/quic_proxy_curl.cc:53-67 | the loop over the headers appends exactly the specified lines |
| `ProxyObjects.QuicProxyCurl.HttpHeaderCallback` | proxy_quic/quic_proxy_curl.cc:191-273 | on the objects: one header line relayed, also when the session closes streams during the write; what is returned |
| `ProxyObjects.QuicProxyCurl.SendHeaders` | proxy_quic/quic_proxy_curl.cc:206-244 | the end of a block: length, fin and the headers frame as the relay specifies |
| `ProxyObjects.QuicProxyCurl.CollectHeader` | proxy_quic/quic_proxy_curl.cc:247-272 | any other line changes the collected block as the relay specifies and writes nothing |
| `ProxyObjects.QuicProxyCurl.WriteQuicCallback` | proxy_quic/quic_proxy_curl.cc:164-189 | on the objects: one body chunk relayed, with fin when the running total meets the declared length |
| `ProxyObjects.QuicProxyCurl.ReadQuicCallback` | proxy_quic/quic_proxy_curl.cc:275-294 | the buffer holds the next bytes of the body, is otherwise untouched, and what it holds is added to what libcurl has read |
| `ProxyObjects.QuicProxyCurl.OnEvent` | proxy_quic/quic_proxy_curl.cc:145-162 | does the socket event on the objects; this proxy is live when it returns, its descriptor was the one that fired, and the streams and the remaining proxies are the same objects as before |
| `ProxyObjects.QuicProxyBackend.constructor` | proxy_quic/quic_curl_timer.cc:30-42 | the start of every run: nothing owned, the curl timer set to one second, repeating |
| `ProxyObjects.QuicProxyBackend.FetchResponseFromBackend` | proxy_quic/quic_proxy_backend.cc:53-76 | creates, links and starts a proxy as one fetch step, and keeps the invariant of the objects |
| `ProxyObjects.QuicProxyBackend.CreateProxyCurl` | proxy_quic/quic_proxy_backend.cc:239-251 | the new proxy is in the hash under its handle, and nothing else changes |
| `ProxyObjects.QuicProxyBackend.CloseBackendResponseStream` | proxy_quic/quic_proxy_backend.cc:79-89 | clears both directions of the link, if there is one |
| `ProxyObjects.QuicProxyBackend.CheckCurlMultiInfo` | proxy_quic/quic_proxy_backend.cc:103-141 | the loop processes all messages, clears the dead list only if there was none, and follows live pointers only |
| `ProxyObjects.QuicProxyBackend.FinishTransfer` | proxy_quic/quic_proxy_backend.cc:113-134 | one DONE message: out of the multi, from hash to dead list, unlinked |
| `ProxyObjects.QuicProxyBackend.CurlSockCB` | proxy_quic/quic_proxy_backend.cc:145-170 | chooses between removing, adding and changing a socket by the action and libcurl's pointer |
| `ProxyObjects.QuicProxyBackend.CurlRemoveSock` | proxy_quic/quic_proxy_backend.cc:172-178 | unregisters the descriptor that the proxy remembers, if any |
| `ProxyObjects.QuicProxyBackend.CurlAddSock` | proxy_quic/quic_proxy_backend.cc:180-195 | remembers, registers, sets the interest and gives libcurl the pointer; nothing if the handle is unknown |
| `ProxyObjects.QuicProxyBackend.CurlSetSock` | proxy_quic/quic_proxy_backend.cc:197-211 | read and write interest become those asked for |
| `ProxyObjects.QuicProxyBackend.CurlMultiTimerCB` | proxy_quic/quic_proxy_backend.cc:213-237 | sets the timer as specified for the timeout |
| `ProxyObjects.QuicCurlTimer.OnEvent` | proxy_quic/quic_curl_timer.cc:44-63 | does the timer event on the objects, or nothing on EAGAIN; the streams and the remaining proxies are the same objects as before |
| `ProxyObjects.HandleEvent` | proxy_quic/quic_proxy_backend.cc:53-237 | any legal event, on the objects: one step of the specification, and every object is an old one or new |
| `ProxyObjects.HandleEvents` | proxy_quic/quic_proxy_backend.cc:53-237 | any legal sequence of events, on the objects, is the specified run |
| `ProxyObjects.Serve` | proxy_quic/quic_proxy_backend.cc:53-237 | from a new backend, any legal sequence of events is the specified run from the start, with no fault, and what the objects point at is live |

## Left out

- The system calls themselves (`sendmmsg`, `recvmmsg`, `epoll`, `timerfd`, sockets): they are the assumed answers above.
- The inside of libcurl and of QUICHE: the multi's state machine, stream flow control, sessions, crypto. `CurlMulti` and `EpollServer` hold only what the backend can see of them, and the write side of a stream is a count of buffered bytes with its fin.
- Redirects that libcurl follows, interim responses other than `100`, trailers: the fin logic does not track them, so the theorems on whole responses do not cover them. The theorems on pointers do, since they allow any callbacks.
- Several sockets for one handle: `sockfd_` holds only one.
- Failure of `CreateProxyCurl`: the code logs it and goes on with a null proxy, so success is assumed.
- Callbacks that `curl_multi_add_handle` and `curl_multi_remove_handle` make, other than a timeout and, for the latter, the removal of the handle's socket.
- `ContinueDownload` and `ProgressQuicCallback`: empty, or never installed.
- PacketReader.QuicProxyPacketReader.ReadAndDispatchPackets: does not model the overflow counter `packets_dropped`, which is read from the first message's ancillary data and only offered by a getter of the server.
- PacketReader.QuicProxyServer.OnEvent: does not model `ProcessBufferedChlos` and `OnCanWrite`, which belong to the dispatcher; whether chlos or writes are pending is an input.
- Creation and registration of the timers' descriptors; the initial setting of the curl timer is in the start state.
- Options set on a handle other than the pointers and the upload body, the request URL, and logging.
- Destruction of the backend, server set-up, dispatcher, session, the command line program and `logrun.pl`: thin wrappers.
- libcurl's pointers for a handle that was removed from the multi: libcurl makes no callback for it any more.
- The deque's pointers into the ring are slot numbers, so pointer arithmetic outside the ring cannot be expressed.
