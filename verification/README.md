# Verified model of go-adbkit's protocol engines

This project models the parts of go-adbkit that speak binary protocols and proves what they keep:

- the **tcpusb bridge**: the ADB message packet and its incremental reader, the connection state machine, the id
  allocator and table of live services, the concurrent life of one bridged stream, whole connections with all their
  streams interleaved and whether those come to an end, the nesting of the mutexes, and what a peer that stops reading
  does to them;
- the **shell protocol v2 session**: frames, partial writes, concurrent writers, the blocking output streams, the exit
  code and truncation;
- the **sync file transfer**: chunked push and pull, directory listings, and whole sequences of calls on one
  connection, with the bytes sent and the results returned;
- the **framebuffer decoder**: bit fields and pixel indexing for images of any size.

`dafny verify dfyconfig.toml` checks everything.

## How the model is built

Code that updates fields is a class whose methods are proved against functions of the old state; loops are loops with
invariants. Behaviour that depends on the scheduler is a step function over a state, and the theorems speak of every
list of steps. Each such machine uses the same functions that the class methods are proved against.

- **Bytes.** Bytes and 32-bit words are bounded integers; the framebuffer uses 32-bit vectors. Wrap-around and
  truncation are written out (`ToU32`, `Checksum`, the shift operators).
- **The outside world.** A stream is a list of read answers (bytes, or an error together with bytes); a connection is a byte
  string and the error that follows it; a transport's write plan says how much each write takes. Random tokens, the auth
  handler, the device id and write failures are values of an `Env` chosen freely for each packet.
- **One service (`ServiceRuns`).** The opener goroutine, the forwarder, the packet handler and any caller of
  `ServiceMap.End` interleave freely. A step is one access outside the lock or one critical section, with two
  exceptions. The open path reads `transport`, writes `opened` and hands over its OKAY without the lock, so `End` is four
  steps (close the transport and read the id, hand over the CLSE, clear the transport, set `ended`) and a WRTE is two
  (the write to the device, the OKAY), between which only unlocked accesses can slip in. The 10 ms poll is a step that
  may happen at any time. The unlocked accesses to `transport` and `opened` are data races in Go; the model takes each of
  them as atomic and sequentially consistent.
- **The connection (`Connection`).** The packet loop tests `ended`, handles the packet, and inserts the service of an
  OPEN or waits for the service of any other packet, in separate steps: other goroutines may remove entries or end the
  socket in between. `Socket.End` sets its flag, takes the mutex of the table, and empties the table. A data field that
  is nil in the program is empty here; the reader produces no other empty data.
- **Whole connections (`SocketRuns`).** One `Connection` and one `ServiceRuns` state for every service it ever created,
  over one history. A service sees packets only through the table, `ServiceMap.End` visits the entries one by one, what
  a service hands over goes through `Socket.Write`, and its opener's removal is the table's. `SocketEnds` asks which
  services can come to an end, `SocketData` and `SocketClient` follow the bytes from the device to the client and back,
  `SocketWire` says what the bytes of the connection parse to, and `SocketWitnesses` holds runs that end badly.
- **Histories.** The state machines are tied to what happened around them, not only to their own fields: `OpenPath` reads
  the steps a service has taken, `Handshake` the packets a connection has handled, and the theorems there say which
  answers, limits and bytes those call for.
- **All inputs.** What the parsers make of arbitrary bytes is stated for every byte string (`ParseTotal`, `PullTotal`,
  `DirTotal`, `StatReplyTotal`, `FinalReplyTotal`, `SessionTotal`), and `SyncDevice` is the other side of the sync
  protocol, which reads the requests back.
- **Locks (`LockOrder`).** Every routine of the bridge is reduced to the order in which it takes and releases
  `ServiceMap.mu`, `Service.mu`, `Socket.writeMu` and `Socket.mu`; any number of goroutines perform any routines.
  Runs with and without preference for waiting writers are covered. A write to the client or to the device is an
  operation too; `StalledWrites` lets either side stop taking what is written to it.

## What does not hold

- The open path can dereference a nil transport. It does so exactly when `End` has cleared the field before the access,
  which may be before `ended` is set (`OpenPathPanics`, with a run in `PanicHappens`).
- The OKAY of an open can follow the CLSE of the same stream; it does exactly when `End` had handed the CLSE over, which
  with the mutex free means that the service has ended (`OpenOkayLate`, with a run in `OpenAndCloseCross`).
- A CLSE with id 0, which is meant for a failed open, can follow the OKAY. It does exactly when `End` read the id as 0
  and the opener has handed over its OKAY and not left (`ZeroCloseAfterOkay`); `End` reads 0 then exactly when the opener
  stands between the OKAY and setting `opened` (`ZeroIdRead`, with a run in `OpenAndCloseCross`).
- Ending a socket does not always empty its table for good. It does exactly when no OPEN is past the test of `ended` on
  its way into the table: one whose id is drawn, or one that is authorized, has a name and has not drawn yet
  (`EndIsFinal`, with runs of both kinds in `LateOpenHappens`). Such a service stays in the table until its own opener
  removes it, and the socket never ends it (`LateServiceStays`, `NoEndAfterSweep`).
- Not every service comes to an end. Some continuation finishes its opener and closes its transport exactly when it is
  not stuck (`FinishesUnlessStuck`): stuck is a service after the sweep of its socket that nobody is ending, whose
  forwarder waits for an OKAY or holds a chunk whose OKAY nobody will send, or reads nothing because the client negotiated
  a payload limit of 0, and for which the packet loop has no helpful packet in hand. Its transport then stays open for
  good (`StuckMeansLeaked`, with a run in `LeakHappens`). Before the end of the sweep no service is stuck
  (`ListedUntilSwept`). By itself, without client and socket, a service comes to an end exactly when it awaits nothing of
  that kind (`FinishesAloneUnlessAwaiting`).
- A packet for a stream can stop the packet loop of the whole connection. Exactly when (`PacketErrors`): an OKAY or a WRTE
  while the service has no transport yet and has not ended; a WRTE also when the device refuses its data before the end; a
  CLSE while the service has no transport yet, or once `End` has cleared it, although the entry may still be in the table.
  `EarlyPacketStops` and `CloseAnswerStops` are runs.
- `Socket.End` can hang when a peer stops reading: it ends the services before it closes the connection. The sweep can
  finish exactly when the mutex of the table, the mutex of every entry, and `writeMu` if a CLSE is still due, refused or
  not, are not jammed, that is, have no holder that comes to a withheld write or to another jammed mutex before it
  releases them (`SweepFinishesIff`, with a run in `HangHappens`). A write of the packet loop is enough for that; its
  writer need not hold the mutex of a service.
- `ReadFile` reports a truncated answer as a complete file exactly when the connection ends between two reads, even when
  the answer is the beginning of a failure (`ReadFileHidesCut`); `readData` itself never does (`PullCut`).
- The packet reader drops bytes exactly when they come together with a read error (`DroppedWithErrors`).
- `Assemble` gives back a readable packet exactly for payloads shorter than 2^32 - 24 bytes (`AssembleFaithful`).
- The first id drawn from a rolling counter is 2, not 1: the counter moves before it answers (`DrawOf`).

## Model

| member | source | states |
|---|---|---|
| `Bytes.WordCodec` | tcpusb/packet.go:54-59 | Little-endian words and their four bytes undo each other in both directions |
| `Packets.ComputeChecksum` | tcpusb/packet.go:31-37 | The loop with 32-bit wrap-around computes the byte sum modulo 2^32 |
| `Packets.ChecksumAdditive` | tcpusb/packet.go:31-37 | The checksum of a concatenation is the sum of the checksums modulo 2^32 |
| `Packets.ChecksumIsTrueSum` | tcpusb/packet.go:31-37 | It equals the true byte sum up to 16843009 bytes, and that bound is the largest |
| `Packets.ChecksumSeesOneByte` | tcpusb/packet.go:31-37 | Altering one byte alters the checksum, for every length |
| `Packets.Magic` | tcpusb/packet.go:40-42 | Bitwise exclusive or with all ones is the complement 0xffffffff - command |
| `Packets.PutHeader` | tcpusb/packet.go:54-59 | The six words are written in place in the order of the header |
| `Packets.Assemble` | tcpusb/packet.go:45-66 | The array filled in place is the header and the payload, with length truncation and the panic of a too short chunk as None |
| `PacketStream.HeaderCodec` | tcpusb/packet_reader.go:57-66 | Reading a header loses nothing and every header reads back |
| `PacketStream.PacketReader.constructor` | tcpusb/packet_reader.go:18-24 | A new reader has the whole stream ahead of it |
| `PacketStream.PacketReader.AppendChunk` | tcpusb/packet_reader.go:81-91 | Buffer plus bytes still to be taken stay the same; an error leaves the buffer alone, whatever bytes come with it |
| `PacketStream.DroppedWithErrors` | tcpusb/packet_reader.go:81-91 | All bytes that arrive are taken if and only if no error comes together with bytes |
| `PacketStream.PacketReader.TakeHeader` | tcpusb/packet_reader.go:57-66 | The first 24 bytes move from the buffer into the packet |
| `PacketStream.ParseTotal` | tcpusb/packet_reader.go:27-79 | For every byte string: when more is needed, when the magic word or the byte sum is wrong, and otherwise the packet that its words and body say; a packet without a body is not summed |
| `PacketStream.PacketReader.ReadPacket` | tcpusb/packet_reader.go:27-79 | For every state and every way of cutting the stream, the outcome is that of the one-shot parser on the whole input; a read error loses nothing that was taken and leaves an incomplete packet pending |
| `PacketStream.ReadAll` | tcpusb/packet_reader.go:27-91 | A caller that retries after read errors gets exactly the packets and the ending of the one-shot parse of the bytes taken, for every cut and every placing of errors |
| `PacketStream.WireReadsBack` | tcpusb/packet_reader.go:57-79 | One assembled message followed by anything parses to that message and leaves the rest |
| `PacketStream.WireIsAssembled` | tcpusb/packet.go:45-66 | The bytes used in the round trip are those of Assemble |
| `PacketStream.RoundTrip` | tcpusb/packet.go:45-66 | The concatenation of any list of assembled messages parses to that list and nothing else |
| `PacketStream.AssembleFaithful` | tcpusb/packet.go:46-53 | A message survives Assemble and parsing if and only if its payload is shorter than 2^32 - 24 bytes |
| `PacketStream.CommandsSpell` | tcpusb/packet.go:10-16 | On the wire the seven commands are their four letters |
| `PacketStream.WireByteByByte` | tcpusb/packet.go:45-66 | One packet byte by byte, which fixes the order of bytes, words and body |
| `PacketStream.AlteredBodyRejected` | tcpusb/packet_reader.go:42-44 | One altered body byte is always a checksum mismatch |
| `PacketStream.AlteredHeaderRejected` | tcpusb/packet_reader.go:68-70 | A replaced command word alone, or magic word alone, is always a magic mismatch |
| `IdTable.RollingCounter.constructor` | tcpusb/rolling_counter.go:11-17 | A new counter has made no draw |
| `IdTable.RollingCounter.Next` | tcpusb/rolling_counter.go:20-27 | The k-th draw is (k mod max) + 1, never 0 |
| `IdTable.DrawsDistinct` | tcpusb/rolling_counter.go:20-27 | Equal draws are at least max draws apart |
| `IdTable.ServiceMap.constructor` | tcpusb/service_map.go:13-18 | A new table is empty and its count agrees |
| `IdTable.ServiceMap.Insert` | tcpusb/service_map.go:21-32 | Adds the entry, or refuses and changes nothing exactly when the id is taken; count stays the number of entries |
| `IdTable.ServiceMap.Get` | tcpusb/service_map.go:35-40 | The entry of an id, if there is one |
| `IdTable.ServiceMap.Remove` | tcpusb/service_map.go:43-53 | Removes that entry only, also when it is gone already; count stays the number of entries |
| `IdTable.ServiceMap.Count` | tcpusb/service_map.go:56-60 | The separate counter is the number of entries |
| `IdTable.ServiceMap.End` | tcpusb/service_map.go:63-72 | Every entry is ended exactly once and the table is empty |
| `Connection.Socket.constructor` | tcpusb/socket.go:51-80 | The initial fields |
| `Connection.Socket.Write` | tcpusb/socket.go:120-133 | Refuses once the socket has ended; otherwise hands over exactly the packet |
| `Connection.Socket.HandleSyncPacket` | tcpusb/socket.go:166-175 | Answers with the next sync token |
| `Connection.Socket.HandleConnectionPacket` | tcpusb/socket.go:177-205 | Caps the payload size at 65535 and answers with a fresh token |
| `Connection.Socket.HandleAuthPacket` | tcpusb/socket.go:207-254 | Keeps the first signature; authorizes only with a signature, a key of 2 bytes and the handler's consent |
| `Connection.Socket.HandleOpenPacket` | tcpusb/socket.go:270-314 | Refuses without authorization; draws an id even for an empty name; inserts unless the id is taken |
| `Connection.Socket.ForwardServicePacket` | tcpusb/socket.go:316-334 | Refuses without authorization; packets for unknown services are dropped |
| `Connection.Socket.Handle` | tcpusb/socket.go:142-164 | Dispatch by command; an ended socket does nothing |
| `Connection.Socket.End` | tcpusb/socket.go:101-117 | Ends once, sets `ended` and empties the table |
| `Connection.HandledEffect` | tcpusb/socket.go:142-268 | What each packet other than OPEN can do to signature, authorization, payload limit, table and written packets; nothing is written after the end |
| `Connection.ConnectionHistory` | tcpusb/socket.go:142-334 | In every run authorized holds if and only if a non-empty signature and later an accepted key of 2 bytes were handled; until then no service exists and only SYNC and AUTH are written; the payload limit never exceeds 65535 |
| `Connection.AuthorizedForever` | tcpusb/socket.go:245-250 | Authorization never reverts |
| `Connection.IdsLastFullTurn` | tcpusb/socket.go:279-296 | In every run, with removals and ends anywhere, ErrServiceExists needs at least 2^32 - 1 draws since the holder got its id, and count is the number of entries |
| `Connection.EndIsFinal` | tcpusb/socket.go:101-148 | From the moment the flag is set, and again from the moment the table is emptied: the table is empty after the sweep in every continuation if and only if no OPEN is drawn and not inserted, or past the test of `ended`, authorized, with a name and not drawn |
| `Connection.LateOpenHappens` | tcpusb/socket.go:270-296 | Runs from a new connection that leave a service in the table after the sweep, with the id drawn before the end and after it |
| `Connection.LateServiceStays` | tcpusb/socket.go:101-117 | After the sweep an entry stays in every continuation in which no opener removes that id, and no second sweep takes place |
| `Handshake.RepliesAreTold` | tcpusb/socket.go:166-268 | In every run the packets the loop itself has written are exactly the answers to the packets handled, in order: SYNC with the next token, AUTH with the challenge of the last CNXN, CNXN with version, limit and device id; limit, challenge and counters are what the history says |
| `Handshake.StopsAtFatal` | tcpusb/socket.go:142-164 | A packet that is an error is the last one handled and stops the loop; without one only an OPEN or a service can have stopped it |
| `Handshake.LastIsInHand` | tcpusb/socket.go:270-296 | The OPEN being inserted, with the client's id, or the packet inside a service is the last packet handled |
| `Handshake.ServicePacketsPass` | tcpusb/socket.go:316-334 | A packet for a stream changes no field of the socket; it goes to the service with its id or is dropped |
| `Handshake.QuietAfterEnd` | tcpusb/socket.go:120-133 | Nothing is written in any continuation after the end |
| `Handshake.HandledInOrder` | tcpusb/socket.go:83-98 | Packets are handled in the order of arrival, all of them until the socket ends, and a prefix of them afterwards |
| `Bridge.Start` | tcpusb/socket.go:83-98 | The packets handled are, in order, a prefix of the one-shot parse of the bytes taken from the stream, all of it unless a read error or a handler stopped the loop; the fields are those of the packets handled; the socket ends |
| `ServiceCore.Service.constructor` | tcpusb/service.go:31-43 | The initial fields |
| `ServiceCore.Service.End` | tcpusb/service.go:51-75 | Closes the transport, sends CLSE with the id or 0, and ends, once |
| `ServiceCore.Service.HandleOkayPacket` | tcpusb/service.go:146-164 | Clears needAck, or reports a premature packet, or ignores it after the end |
| `ServiceCore.Service.HandleWritePacket` | tcpusb/service.go:166-191 | Passes the data on and answers with OKAY; no OKAY when the transport fails |
| `ServiceCore.Service.HandleClosePacket` | tcpusb/service.go:193-202 | Ends the service, or reports a premature packet |
| `ServiceCore.Service.InstallTransport` | tcpusb/service.go:102-109 | Stores the transport unless the service has ended |
| `ServiceCore.Service.ForwardChunk` | tcpusb/service.go:245-256 | Sends WRTE and asks for an acknowledgement unless the service has ended |
| `ServiceRuns.StepKeeps` | tcpusb/service.go:93-258 | Every step of every goroutine keeps the joint invariant of flags, log, flow control and data |
| `ServiceRuns.StopAndWait` | tcpusb/service.go:166-258 | In every interleaving an OKAY was handled between any two WRTE packets of a service; every WRTE passed to the device and every OKAY answering one pair off one to one, with at most the open's OKAY between the two, and only the one being handled is without an answer |
| `ServiceRuns.Conservation` | tcpusb/service.go:210-257 | The bytes read from the device are, in order, the payloads sent, at most one read dropped by an ended service, the read in flight, and what came together with the read error that stops the forwarder; each payload is non-empty and within the limit sampled before its read, at most 65535 |
| `ServiceRuns.CloseLifeCycle` | tcpusb/service.go:51-75 | ended implies no transport; at most one CLSE; after it no WRTE and no answer to a WRTE; a CLSE with the local id comes after the open's OKAY; both channels close at most once |
| `ServiceRuns.TransportClosedOnce` | tcpusb/service.go:93-109 | No transport is closed twice, and every one obtained is closed once the opener is done |
| `ServiceRuns.OpenPathPanics` | tcpusb/service.go:111-140 | The open path uses a nil transport if and only if the service has ended or End stands past the clearing of the field |
| `ServiceRuns.PanicHappens` | tcpusb/service.go:108-113 | A run in which it does, with `ended` not yet set |
| `ServiceRuns.OpenOkayLate` | tcpusb/service.go:123-127 | The open's OKAY follows the CLSE if and only if End had handed the CLSE over; with the mutex free, if and only if the service has ended |
| `ServiceRuns.ZeroCloseAfterOkay` | tcpusb/service.go:62-70 | A CLSE with id 0 follows the open's OKAY if and only if End read the id as 0 and the opener has handed over its OKAY and not left |
| `ServiceRuns.ZeroIdRead` | tcpusb/service.go:62-65 | End reads the id as 0 if and only if `opened` is not set; once the open's OKAY is out, if and only if the opener stands between that OKAY and setting `opened` |
| `ServiceRuns.OpenAndCloseCross` | tcpusb/service.go:63-70 | Runs in which CLSE comes before the open's OKAY, and in which a CLSE with id 0 comes after it |
| `ServiceRuns.EveryRunCanFinish` | tcpusb/service.go:93-258 | From every reachable state of a service some continuation finishes the opener with all transports closed, without a panic unless an end overtook the open; it uses an end of the socket still to come only if the service awaits an OKAY or a payload limit above 0 |
| `ServiceRuns.FinishesAloneUnlessAwaiting` | tcpusb/service.go:210-257 | Some continuation without packets of the client and without an end of the socket finishes the opener if and only if the service awaits nothing |
| `OpenPath.OpenPathIs` | tcpusb/service.go:93-144 | In every interleaving the steps of the opener are a beginning of one of the listed ways, cut short only by a panic |
| `OpenPath.OpenOkayEarned` | tcpusb/service.go:96-127 | The open's OKAY is handed over only after a successful dial, the stored transport, the name of the service taken and an OKAY of the device |
| `OpenPath.DeniedStaysClosed` | tcpusb/service.go:117-143 | After any other answer of the device no continuation has the open's OKAY or a WRTE, and every CLSE has id 0 |
| `OpenPath.PayloadsAllowed` | tcpusb/service.go:229-237 | Every payload is at most the limit that the last negotiation before some round of the forwarder had set, 4096 without one; the forwarder asks the device for exactly that much |
| `OpenPath.SentIsRead` | tcpusb/service.go:238-256 | What was sent to the client is, in order, a prefix of what reads of the device have returned |
| `SocketRuns.StepKeeps` | tcpusb/socket.go:83-334 | Every step of the packet loop, of Socket.End and of every goroutine of every service keeps the joint invariant of table, routing, sweep, history and wire |
| `SocketRuns.EachPartRuns` | tcpusb/socket.go:270-314 | In every run of a whole connection each service by itself is in a reachable state of `ServiceRuns` and the connection in one of `Connection`, which carries their safety theorems over; the history restricted to a service is its log, and all services see the same payload limit |
| `SocketRuns.SharedStopAndWait` | tcpusb/service.go:204-258 | In the history of a connection with any services an OKAY for a service was handled between any two of its WRTE packets |
| `SocketRuns.SharedClose` | tcpusb/service.go:51-75 | After the CLSE of a service nothing but the OKAY of its open follows in its name |
| `SocketRuns.WireIsHistory` | tcpusb/socket.go:120-133 | Until the socket ends, the OKAY, WRTE and CLSE packets on the wire are exactly those of the services' events, in order, with the local id, or the id of the CLSE, the client's id, and the payload of a WRTE; afterwards they are a prefix of them |
| `SocketRuns.PacketsReachTheirService` | tcpusb/socket.go:316-334 | A packet takes effect on the service with the id it carries, as that service's own step, and on no other |
| `SocketRuns.OnlyPacketsAreReceived` | tcpusb/socket.go:316-334 | Whatever the step, a service logs an OKAY or WRTE as received, or has its handler become busy, only by the delivery of the packet in hand of the packet loop, with its id, command and data |
| `SocketRuns.SweepEndsAll` | tcpusb/service_map.go:63-72 | When ServiceMap.End empties the table every service in it has ended, whatever ran beside it |
| `SocketRuns.LiveServicesListed` | tcpusb/socket.go:301-311 | A service that has not ended is in the table, or its opener has just removed it and ends it next, or, after at least 2^32 - 1 draws, another service of the connection has the same id |
| `SocketRuns.SameIdFarApart` | tcpusb/socket.go:279-296 | Two services of one connection have the same id only if at least 2^32 - 1 draws lie between them |
| `SocketData.AllSourced` | tcpusb/socket.go:279-296 | In every run each service stems from its own OPEN among the packets handled, with the client's id of that OPEN in the table, and its payload limits were in force after that OPEN |
| `SocketData.WireBelongs` | tcpusb/service.go:122-255 | Every OKAY, WRTE and CLSE on the wire has as second word the first word of the OPEN that created its service, as first word the service's id, or 0 in a CLSE; only a WRTE carries data, within a limit in force since that OPEN |
| `SocketData.WritesWithinLimit` | tcpusb/service.go:229-252 | No WRTE on the wire is longer than 4096 bytes or than what some CNXN of the client asked for, 65535 at most |
| `SocketData.OneLimitBinds` | tcpusb/service.go:229-252 | With one CNXN, before the first OPEN, its limit binds every WRTE |
| `SocketData.WireIsDeviceData` | tcpusb/service.go:238-256 | Below 2^32 - 1 draws the data of the WRTE packets of a stream is, in order, what its service sent until the socket ends, a prefix of it afterwards, and always a prefix of what was read from its device |
| `SocketClient.DeviceGetsClientData` | tcpusb/service.go:166-191 | What the device of a stream is given is, in order and without a gap, a prefix of the data of the WRTE packets the client has sent to that stream since its OPEN, and all of it but the packet in hand while the stream lives and the loop runs |
| `SocketEnds.ListedUntilSwept` | tcpusb/socket.go:301-311 | Until the sweep is over, a service that has not ended is in the table under its own id or its opener ends it next, whatever the number of draws; none is stuck |
| `SocketEnds.SocketCanEnd` | tcpusb/socket.go:101-117 | From every state before the end of the sweep some continuation completes it, and then every service has ended or is ended next by its opener |
| `SocketEnds.NoEndAfterSweep` | tcpusb/socket.go:101-117 | After the sweep no continuation has the socket visit or end a service |
| `SocketEnds.FinishesUnlessStuck` | tcpusb/service.go:204-258 | For every service of every reachable connection: some continuation finishes its opener with its transport closed if and only if it is not stuck |
| `SocketEnds.StuckMeansLeaked` | tcpusb/service.go:210-257 | In every continuation a stuck service has not ended, its opener has not finished and its transport is open |
| `SocketWitnesses.LeakHappens` | tcpusb/socket.go:270-314 | A run from a new connection to a stuck service: a late OPEN, an open, and one packet that is refused |
| `SocketWire.WireParses` | tcpusb/socket.go:120-133 | All packets handed to the connection but a CNXN fit into a message, and if those do too, the bytes parse into exactly those packets, in order, with nothing left over |
| `SocketRuns.PacketErrors` | tcpusb/service.go:146-202 | An OKAY is an error if and only if the service has no transport yet and has not ended; a WRTE if and only if it has not ended and either that holds or the device refuses its data; a CLSE if and only if it has no transport yet or End has cleared it |
| `SocketWitnesses.CloseAnswerStops` | tcpusb/service.go:193-202 | A run in which a client's CLSE for a stream the device has closed stops the packet loop |
| `SocketWitnesses.EarlyPacketStops` | tcpusb/service.go:146-202 | A run in which any packet for a stream that is still being dialled stops the packet loop |
| `LockOrder.RoutinesDisciplined` | tcpusb/service_map.go:63-72 | Every routine takes mutexes in strictly increasing order and releases them in reverse |
| `LockOrder.OneServiceLock` | tcpusb/service.go:51-75 | In every run no goroutine holds two service mutexes, or any mutex twice |
| `LockOrder.MutualExclusion` | tcpusb/service_map.go:21-72 | In every run a mutex that one goroutine holds for writing is held by no other |
| `LockOrder.NoCircularWait` | tcpusb/socket.go:101-140 | In every run no goroutines wait on each other's mutexes in a cycle of any length |
| `LockOrder.LocksNeverStuck` | tcpusb/service.go:211-257 | While some goroutine has an operation on mutexes or a write ahead, some goroutine can perform its own |
| `StalledWrites.ReleasedInReverse` | tcpusb/service.go:245-256 | Every mutex held is released, in the reverse order of acquisition |
| `StalledWrites.FinishesIffNotBlocked` | tcpusb/socket.go:120-133 | With a client or device that takes nothing more: a goroutine can finish what it is doing, with the help of all others, if and only if it has no withheld write and no jammed mutex ahead |
| `StalledWrites.WriteMuJammed` | tcpusb/socket.go:120-133 | writeMu is jammed if and only if its holder comes to a withheld write before it releases it |
| `StalledWrites.SweepFinishesIff` | tcpusb/socket.go:113-116 | ServiceMap.End can finish if and only if neither the table's mutex nor any entry's is jammed, nor writeMu if a CLSE is due, and no CLSE is itself withheld |
| `StalledWrites.HangHappens` | tcpusb/service.go:245-256 | A run in which a forwarder inside a write that the client does not take blocks the end of the socket |
| `ShellFrames.FrameReadsBack` | adb/device_shell_v2.go:347-366 | A valid frame reads back and the bytes after it are untouched |
| `ShellFrames.CutFrameFails` | adb/device_shell_v2.go:347-366 | A frame cut anywhere yields an error that comes from the end of the connection |
| `ShellFrames.FramesReadBack` | adb/device_shell_v2.go:369-378 | Any list of valid frames parses completely into that list |
| `ShellFrames.FrameByteByByte` | adb/device_shell_v2.go:369-378 | One frame byte by byte |
| `ShellFrames.BrokenFails` | adb/device_shell_v2.go:347-366 | Every byte string that does not begin with a whole frame: which error it gives, a length above 16 MiB included |
| `ShellFrames.SplitFrame` | adb/device_shell_v2.go:347-366 | Every other byte string begins with a valid frame |
| `ShellSession.Session.constructor` | adb/device_shell_v2.go:110-115 | The initial fields |
| `ShellSession.Session.ReadLoop` | adb/device_shell_v2.go:206-234 | The loop delivers what the demultiplexing function says, then closes everything |
| `ShellSession.Session.Wait` | adb/device_shell_v2.go:176-185 | The error of the loop, or ErrUnexpectedEOF without an exit frame, or the exit code |
| `ShellSession.Truncation` | adb/device_shell_v2.go:206-234 | Wherever the output is cut, Wait reports ErrUnexpectedEOF (or the error of a broken connection) with code 0, and the streams hold exactly the payloads of the frames received whole |
| `ShellSession.Completion` | adb/device_shell_v2.go:226-231 | On the full output Wait returns the exit byte, 0 if there is none, and no error |
| `ShellSession.SessionTotal` | adb/device_shell_v2.go:206-234 | For every byte string the device may send: the streams hold the payloads of the whole frames before the exit frame, or before the output breaks off, and Wait says which it was and how |
| `ShellWrites.StdinFramesMean` | adb/device_shell_v2.go:146-160 | Frames of 1 to 65536 bytes, all but the last of 65536, whose payloads put together are the input |
| `ShellWrites.CallsMean` | adb/device_shell_v2.go:146-173 | The frames of Write carry the input, that of Resize the rows and then the columns in decimal, that of CloseStdin nothing, each with its id |
| `ShellWrites.WriteAll` | adb/device_shell_v2.go:380-392 | Over partial writes: all of the bytes, or a prefix and failure |
| `ShellWrites.WriteFrame` | adb/device_shell_v2.go:369-378 | The encoded frame, or a prefix of it and failure |
| `ShellWrites.WriteStdin` | adb/device_shell_v2.go:146-160 | The frames of the input; on failure the complete frames of the first `written` bytes and a prefix of the next; a transport that always takes something never fails it |
| `ShellWrites.ProgramsValid` | adb/device_shell_v2.go:162-173 | Every frame of Write, Resize and CloseStdin is valid |
| `ShellWrites.FramesNeverMix` | adb/device_shell_v2.go:192-196 | For any number of concurrent callers and any splitting of the writes the wire parses into whole frames that merge the callers' own sequences in order |
| `ShellWrites.AllCanBeSent` | adb/device_shell_v2.go:192-196 | From every state some continuation sends all frames of all callers |
| `ShellStream.Stream.constructor` | adb/device_shell_v2.go:245-249 | Empty and open |
| `ShellStream.Stream.Write` | adb/device_shell_v2.go:264-272 | Appends |
| `ShellStream.Stream.Close` | adb/device_shell_v2.go:274-279 | Closes and keeps the buffer |
| `ShellStream.Stream.Take` | adb/device_shell_v2.go:258-261 | Takes as much of the front of the buffer as is asked for and leaves the rest; EOF exactly when nothing is left |
| `ShellStream.FifoNoLostWakeup` | adb/device_shell_v2.go:251-279 | In every interleaving of readers and writer: delivered plus buffered is written; a sleeping reader means an empty open buffer; EOF only after everything was delivered |
| `ShellStream.StreamIsFifo` | adb/device_shell_v2.go:251-279 | What readers got and what is buffered is, in order, all that was written; closed exactly once Close was called |
| `ShellStream.WriterNeverBlocks` | adb/device_shell_v2.go:236-279 | The session can always write to an open stream and always close it |
| `ShellStream.LookGives` | adb/device_shell_v2.go:251-262 | What a look of a reader delivers: the front of the buffer up to the size asked for, EOF on an empty closed stream, sleep on an empty open one |
| `ShellStream.ClosedStreamDrains` | adb/device_shell_v2.go:251-262 | From every reachable closed state any looks of any readers that ask for something, as many as there are bytes left, deliver everything |
| `ShellStream.OneReaderDrains` | adb/device_shell_v2.go:251-262 | One free reader alone can do it |
| `ShellStream.EofIsPermanent` | adb/device_shell_v2.go:251-262 | After an EOF every further read of every reader is EOF |
| `SyncClient.SyncService.SendCommandWithLength` | adb/sync.go:323-330 | The command and the word, filled in place |
| `SyncClient.SyncService.SendCommandWithArg` | adb/sync.go:333-348 | The command, the length and the argument, filled in place |
| `SyncClient.SyncService.ReadBytes` | adb/sync.go:360-366 | io.ReadFull on the connection |
| `SyncClient.SyncService.ReadErrorMessage` | adb/sync.go:308-320 | The message of a FAIL |
| `SyncClient.SyncService.ReadFinalReply` | adb/sync.go:290-305 | OKAY, FAIL or an unexpected reply |
| `SyncClient.SyncService.SendChunk` | adb/sync.go:233-240 | One DATA message |
| `SyncClient.SyncService.WriteData` | adb/sync.go:223-252 | Sends exactly the push bytes, or a prefix on a write error, and then reads one final reply |
| `SyncClient.SyncService.ReadDataInto` | adb/sync.go:255-287 | The loop computes the pull function; when the receiving writer fails it has taken a prefix of what was handed over, and the connection stands right after that DATA message |
| `SyncClient.SyncService.PushContent` | adb/sync.go:160-172 | Sends exactly the SEND request and the push bytes, or a prefix on a write error, and then reads one final reply |
| `SyncClient.SyncService.Stat` | adb/sync.go:57-89 | One request on the wire and its reply |
| `SyncClient.SyncService.Readdir` | adb/sync.go:100-105 | One request on the wire and its reply |
| `SyncClient.SyncService.ReadFileContent` | adb/sync.go:196-220 | One request on the wire and its reply, with an io.EOF of readData turned into success |
| `SyncClient.SyncService.ReadStat` | adb/sync.go:62-88 | The entry, ENOENT for mode 0, the message of a FAIL, or an unexpected reply |
| `SyncClient.SyncService.ReadEntries` | adb/sync.go:107-150 | The loop computes the listing function |
| `SyncLaws.ChunksMean` | adb/sync.go:227-243 | Chunks of 1 to 65536 bytes, all but the last of 65536, that together are the data |
| `SyncLaws.PushThenPull` | adb/sync.go:223-287 | The bytes of a push, read as a pull, give back the data and leave what follows |
| `SyncLaws.PullAccepts` | adb/sync.go:255-287 | Any chunking by the device is put together again |
| `SyncLaws.PullSound` | adb/sync.go:255-287 | A pull succeeds only on DATA messages followed by DONE and four bytes, and yields their concatenation |
| `SyncLaws.PullCut` | adb/sync.go:255-320 | A proper prefix of an answer, ending in DONE or in FAIL, never succeeds, and which error it gives |
| `SyncLaws.ReadFileHidesCut` | adb/sync.go:196-220 | ReadFile takes a truncated answer, ending in DONE or in FAIL, for a whole file if and only if the cut falls between two reads |
| `SyncLaws.Aligned` | adb/sync.go:57-151 | One request consumes exactly its own well-formed answer and returns what that answer says |
| `SyncLaws.EntriesConsumed` | adb/sync.go:107-138 | A listing returns the entries in order without "." and ".." |
| `SyncLaws.RequestsStayAligned` | adb/sync.go:57-320 | Over any sequence of requests, failures included, each consumes its own answer and the bytes after the last are untouched |
| `SyncLaws.PushArgReadsBack` | adb/sync.go:165-167 | The argument of a SEND is the path, a comma and the mode in decimal, and determines both, commas in the path included |
| `SyncLaws.PushModeMeans` | adb/sync.go:161-165 | The mode sent has bit 15 and otherwise the bits asked for, 0644 standing for none |
| `SyncReplies.WordsSpell` | adb/sync.go:13-21 | The words of the protocol are their four letters |
| `SyncReplies.FinalReplyTotal` | adb/sync.go:290-320 | For every byte string: a push succeeds on OKAY with four bytes and on nothing else, and which error anything else gives |
| `SyncReplies.StatReplyTotal` | adb/sync.go:62-88 | For every byte string: mode, size and time of a STAT in this order, no such file for mode 0, and which error anything else gives |
| `SyncReplies.PullTotal` | adb/sync.go:255-287 | For every byte string: what a pull hands over and which result or error its tail gives |
| `SyncReplies.ReadFileTotal` | adb/sync.go:196-220 | The same for ReadFile, which takes an end of the connection between two reads for the end of the file |
| `SyncReplies.DirTotal` | adb/sync.go:107-150 | For every byte string: the entries of a listing and which result or error its tail gives |
| `SyncReplies.DirSound` | adb/sync.go:107-150 | A listing is complete only on whole entries, DONE and 16 bytes, and lists them in order without the dots |
| `SyncReplies.DirCut` | adb/sync.go:107-150 | A proper prefix of a listing, ending in DONE or in FAIL, never succeeds, and which error it gives |
| `SyncCalls.Perform` | adb/sync.go:57-220 | One call sends at most its request; without write errors exactly that, and returns what the bytes received say |
| `SyncCalls.PerformAll` | adb/sync.go:57-320 | Any list of calls on one connection, without write errors, sends the requests in order; when the device answers each with a well-formed answer, each returns what its own answer says and the bytes after the last are untouched |
| `SyncDevice.CallReadsBack` | adb/sync.go:160-252 | A device reads from the bytes of one call its command, path, mode, data and time, and what follows is untouched |
| `SyncDevice.CallsReadBack` | adb/sync.go:57-348 | A device reads from the bytes of any list of calls exactly these calls, in order, with nothing left over |
| `Framebuffer.LoadPixel` | adb/device_screen.go:115-119 | The little-endian pixel word, or an index past the end exactly when the data is too short |
| `Framebuffer.DecodeFramebuffer` | adb/device_screen.go:93-148 | All indices are in bounds if and only if the data holds width * height * (bpp / 8) bytes, and then every pixel shows the bytes at its place |
| `Framebuffer.ChannelReadsBack` | adb/device_screen.go:107-138 | A channel comes back from its field whatever lies in the other fields |
| `Framebuffer.PixelReadsBack` | adb/device_screen.go:121-143 | A pixel packed into disjoint fields decodes to itself with alpha 255 |
| `Framebuffer.DecodedBits` | adb/device_screen.go:107-143 | For every pixel word and every fields inside it: each bit of each channel is the bit of the field that belongs there, and alpha is 255 without an alpha field |
| `Framebuffer.ImageReadsBack` | adb/device_screen.go:112-145 | Every pixel of a packed image of any size, 1 to 4 bytes a pixel, decodes to itself |
| `Framebuffer.DecodePacked` | adb/device_screen.go:93-148 | Decoding a packed image of any width and height restores it |

## Left out

- Dialling, deadlines, contexts and starting the adb server: network I/O; connections are byte strings here.
- Command wrappers and text scraping (packages, intents, forwards, properties, features): formatting around one request.
- tcpusb/server.go and tcpusb/bridge.go: the accept loop and its list of connections; its mutex is never held together with another.
- RSA and SHA-1: the program does not check signatures; the auth handler is an arbitrary answer for each packet.
- tryPush in tcpusb/service.go: never called.
- encodeData and the text of the device id: the service name sent to the device is not modelled, only whether sending it succeeds.
- The header of a framebuffer reply, Screencap, and image decoding by the standard library.
- Push: reads its reader to the end and then does what `PushContent` does.
- Connection.Socket.HandleOpenPacket: ends with the insertion; the opener goroutine it starts is in `SocketRuns`.
- Connection.Socket.ForwardServicePacket: takes the answer of the service as given; what the service does is in `SocketRuns`.
- Bridge.Start: is the packet loop with no opener running beside it; with them, table and written packets change in between, and `SocketRuns` covers that.
- SyncDevice.CallReadsBack: is for arguments shorter than 2^32 bytes; the length word of a longer one is truncated.
- Framebuffer.DecodedBits: is for fields inside the 32-bit word.
- SyncCalls.PerformAll: says nothing about the results after a write error, where the program has lost its place in the protocol; the single calls say what was sent.
- LockOrder.NoCircularWait: is about mutexes; waits for doneCh are in `SocketEnds`, waits for the client and the device in `StalledWrites`.
- LockOrder.LocksNeverStuck: takes every write to be taken by its peer; `StalledWrites` does not.
- SocketEnds.FinishesUnlessStuck: lets the device fail and lets every write be taken; a peer that withholds one is in `StalledWrites`, over the mutexes alone.
- StalledWrites.SweepFinishesIff: whether an entry has ended, and whether its CLSE is refused, is fixed for the sweep when it starts.
- SocketWire.WireParses: is about packets the connection takes whole; a failed write leaves part of one.
- ShellWrites.FramesNeverMix: covers callers without write errors; a caller that fails inside a frame leaves a torn frame on the wire.
- ShellStream.FifoNoLostWakeup: takes the session's discipline that its read loop is the only writer and closes last.
