# A verified model of the relay and its clients

Game processes exchange packets over a relay. A **hook** in each game wraps outgoing data in an envelope
(target id, sender id, data) and hands it to a **connection manager**, which frames it with a 4-byte
length and sends it over TCP. The **relay server** cuts each client's byte stream into packets, registers
a client under the 8-byte mark in its first packet, and forwards every later packet, without its first
8 bytes, to the client registered under those bytes. The manager at the other end cuts the stream into
packets again, and the hook there opens them one at a time.

This project models all of that and proves what it keeps, over every run: every cut into reads and
partial writes, every interleaving of clients, every answer of the kernel.

## The parts

| file | what it holds |
|---|---|
| `Wire.dfy` | the format: little-endian numbers, the printer `Frame`, the reference parser `Parse` |
| `Memory.dfy` | copying within and into arrays |
| `Relay.dfy` | the server as a function on values, one transition per epoll entry |
| `Switch.dfy` | what a history of handled packets and closings says about who is registered and who gets what |
| `RelayInvariant.dfy` | the invariant of every reachable state |
| `RelayServer.dfy` | the server as it is written: class `Server` with its maps, arrays and loops, proved to make the transitions |
| `RelayTheorems.dfy` | what the server promises over whole runs |
| `Lifetimes.dfy` | registering, closing, parting, and owners of a mark one after the other |
| `RelayEvents.dfy` | what one epoll entry does, and that every byte read is kept |
| `SelfForward.dfy` | a client that sends to its own mark |
| `Packets.dfy` | the client's packet queue and receive buffer, and streams cut into pieces |
| `Backoff.dfy` | the reconnect delay |
| `Peers.dfy` | the connection manager as a function on values, one operation per call or per piece of a pass |
| `PeersInvariant.dfy`, `PeersTheorems.dfy` | its invariant, and what it promises over runs of proper calls |
| `PeerEffects.dfy` | what each operation of the manager does to its peer, and what has been received and sent over a run |
| `Passes.dfy` | a processEvents pass, and sequences of public calls, as runs of those operations |
| `PassOrder.dfy` | what a pass consists of, in which order |
| `Reading.dfy` | choosing and reading packets, and the guard of the public read |
| `ClientManager.dfy` | the manager as it is written: class `ConnectionManager`, proved to make the operations |
| `Hook.dfy` | envelopes, the slot, class `SteamHook` |
| `HookCalls.dfy` | sequences of calls of the hook as runs over one connection |
| `Mailing.dfy` | what the calls of the hook do, one by one and over a run |
| `EndToEnd.dfy` | delivery from one hook to the other |
| `LateRegistration.dfy` | a run in which early data are lost |
| `Beginning.dfy` | the situation from which deliveries start is met |

The operating system appears as data. The server's `script` holds the answers to its writes; when it
runs out, writes block. What `read`, `recv`, `accept`, `connectWithTimeout`, `select` and the clock
return are parameters of the methods. `Possible` says what the system guarantees: fresh handles, reads
of at least one byte and no more than asked for, a clock that does not go back.

Sends beyond the bytes offered are cut to the bytes offered, so no assumption about them is needed.

## Where the code does less than one might expect

* The relay drops what A sends to B before B has registered. `EarlyDataIsLost` is such a run; `Delivery`
  says exactly what arrives, and when nothing is missing.
* Nothing on the sending side limits the size of data, but the relay closes a client as soon as it reads the
  length of an envelope over 65532 bytes, that is, of data over 65516 bytes. That envelope and everything
  after it is lost (`TooLongEndsIt`).
* A direct send in `sendPacket` does not look whether older bytes are still waiting. `OrderCanBeLost`
  gives two packets whose frames reach the other side in the wrong order. `SendOrderExact` says when a call
  is certain to keep the order: for packets below 16 MB, exactly when nothing is waiting. Delivery is proved
  for connections where no send overtakes.
* `disconnect` on a waiting peer reports Disconnected twice; on a dying one with auto-reconnect it leaves a
  waiting peer marked, and the next pass reports it again (`DisconnectExact`). `setAutoReconnect` on a
  waiting peer stops its retries until somebody calls `disconnect` for it (`SetAutoExact`,
  `DisconnectRevives`). The run theorems are about runs of safe (`Proper`) calls.
* A client that sends to its own mark can lose its connection while its packets are being handled;
  `ProcessCloses` says exactly when.
* A bad length empties the client's receive buffer, so what follows depends on how the stream was cut;
  `ChunkingExact` says for exactly which streams it does not.
* `readPacket` by itself drops a packet that does not fit; the public call never lets it come to that
  (`DiscardExact`, `Lossless`).
* A comment in `server/main.cpp` (line 531) calls the length field network byte order; the code, and
  this model, read it low byte first.

## Model

| member | source | states |
|---|---|---|
| `EndToEnd.Delivery` | hook/hook.cpp:312-326 | Two hooks, each alone on one lasting connection, and any run of the relay, whether A and B are still connected to it or have left: whatever the kernels, the cuts into reads and writes, and the other clients do, there are a moment at which both had become registered and a last moment at which neither had closed, at which the relay had handled A's registration and j, respectively k envelopes (both 0 if they never met); and the data B's hook has returned as coming from A are a prefix of the data for B in A's calls of SendP2PPacket j to k, and all of them once B's hook has drained what the relay wrote for it. Then nothing is missing exactly if no other call was for B. The calls counted are those that send did not refuse, made while A's hook had a peer to send to; that is every one, if its connection was told last at the start and is up at the end. Data of any size that fits 32 bits. Required: A's sends never overtook waiting bytes, B registers under its own id if at all, and nobody else's forwarded packet names A as sender |
| `EndToEnd.DeliveryOfCalls` | hook/hook.cpp:212-326 | The same for any two sequences of calls of the three functions of the hooks during which their managers tell no event, with the calls read off these sequences |
| `EndToEnd.DeliveryFromTheStart` | hook/hook.cpp:312-326 | If at some moment both were registered and of A's packets only the registration had been handled, B's hook hears from A a prefix of all the data A sent to B |
| `EndToEnd.DeliveryToTheEnd` | hook/hook.cpp:312-326 | If the relay has handled everything from A, A perhaps having left since, and B is still connected and has met A, then k is the number of A's calls: B hears a prefix of the data for B in all envelopes from j on, and all of them once it has drained what was written for it |
| `EndToEnd.TooLongEndsIt` | server/main.cpp:536-544 | Data over 65516 bytes, which the hook and sendPacket accept: the relay handles nothing from the first such envelope on; while the connection is open it has not yet read that envelope's length, and it closes for a bad length only there |
| `EndToEnd.RegistersUnderItsId` | hook/hook.cpp:351-354 | A client whose sends never overtook waiting bytes registers under its hook's id or not at all, still connected or closed |
| `Beginning.LinkedIsReached` | hook/hook.cpp:347-356 | The situation the delivery theorems start from is met: both clients right after connect, and a relay that has read both ids; both are then registered |
| `Beginning.InitializedCanConnect` | src/connection_manager.cpp:89-100 | A manager just initialized can make such a connection |
| `LateRegistration.EarlyDataIsLost` | server/main.cpp:459-467 | The run in which A registers and sends d1, then B registers, then A sends d2, for any ids and data: the relay drops d1, and B hears only d2, which is no prefix of d1, d2 |
| `EndToEnd.SenderEnd` | src/connection_manager.cpp:637-652 | Any prefix of the bytes the kernel took from A, with data of any size: the relay's parser finds a prefix of A's id followed by the envelopes of the calls its hook made; it meets a bad length exactly at the complete header of an envelope that is too long; and if it has everything and met none, it has found all of them |
| `EndToEnd.RelayPart` | server/main.cpp:449-491 | For any history of the relay, A and B open or closed: what a reader of everything forwarded to B hears from A is exactly the data for B in the envelopes handled between the moment they met and the moment they parted |
| `EndToEnd.ReceiverEnd` | src/packet_queue.cpp:65-101 | Any prefix of the bytes written to B, in any pieces: what the hook has returned from A is a prefix of what the relay forwarded; all of it when B has everything and has read it all |
| `EndToEnd.EnvelopesHeard` | hook/hook.cpp:316-326 | Envelopes that name dst, stripped of their first id by the relay and opened by the hook, give exactly the data sent to dst, in order |
| `EndToEnd.OnlyFromSource` | server/main.cpp:472-489 | If no other client names a as sender, what dst hears from a is what the relay forwarded from src |
| `Switch.Meeting` | server/main.cpp:425-473 | Two connections that are open and registered have a moment at which both had become registered, and before it nothing passed between them |
| `Switch.MeetIsFirst` | server/main.cpp:425-447 | Any moment with both registered comes after it |
| `Switch.PairSinceMeeting` | server/main.cpp:457-489 | From then on exactly what src addresses to dst's key is forwarded |
| `Switch.NothingBefore` | server/main.cpp:425-467 | Nothing is forwarded between two connections that are not both registered |
| `RelayEvents.FlushWrites` | server/main.cpp:215-240 | A flush in one formula: it writes as many of the waiting bytes as the answers take until they block or fail, keeps the rest, asks for EPOLLOUT exactly if bytes are left, and closes the connection exactly if a write fails first |
| `RelayEvents.WritableWrites` | server/main.cpp:242-249 | A writable event does that for its connection, after the rest of the entry, whenever it is still open |
| `RelayEvents.ForwardWrites` | server/main.cpp:479-488 | A forwarded packet is queued at its target as one frame and written at once, behind what waits there |
| `RelayEvents.EndCloses` | server/main.cpp:513-524 | A hang-up, the end of a client's stream and a failing read close its connection, record why, and free its mark |
| `RelayEvents.NothingHappens` | server/main.cpp:513-524 | Nothing to read and nothing to write, or an unknown fd, changes nothing |
| `RelayEvents.AcceptOpens` | server/main.cpp:342-398 | A client is taken in exactly if there is room and its socket could be set up; then with an id of its own and nothing read, waiting or registered |
| `RelayEvents.BytesAreKept` | server/main.cpp:513-526 | Over any run: what a connection, open or closed, has read is exactly what the reads of the run returned for it |
| `Lifetimes.LivelyRun` | server/main.cpp:322-339 | In every run nothing is handled for a connection after it was turned away or has closed, and none closes twice |
| `Lifetimes.Quieted` | server/main.cpp:322-339 | After a connection has closed it sends and gets nothing |
| `Lifetimes.UpToParting` | server/main.cpp:322-339 | What two connections exchange they exchange up to the last moment at which neither had closed |
| `Lifetimes.HandledOwns` | server/main.cpp:425-447 | A connection that has had a packet handled, was not turned away and has not closed is registered |
| `Lifetimes.FirstRegisters` | server/main.cpp:425-447 | A connection registers with its first packet or never |
| `Lifetimes.OwnedOrGone` | server/main.cpp:325-334 | An owner loses its mark only by closing |
| `Lifetimes.OwnersTakeTurns` | server/main.cpp:322-447 | Of two connections that have owned one mark, such as those of a client that reconnects, one had closed before the first packet of the other |
| `Lifetimes.HeardInTurn` | server/main.cpp:322-489 | Then every third connection gets everything from the one before anything from the other |
| `SelfForward.FlushCloses` | server/main.cpp:224-236 | A flush closes its connection exactly if a write fails before the buffer is empty and before a write blocks |
| `SelfForward.ProcessCloses` | server/main.cpp:479-488 | Handling a packet that is not refused closes the client it came from exactly if the packet is for its own mark and writing it, behind what is waiting, fails |
| `SelfForward.OnlyBySelf` | server/main.cpp:553-562 | At any event of any run: a packet loop that loses its own connection without refusing a packet leaves a packet forwarded from a client to itself in the history; clients that never name their own mark never meet it |
| `RelayTheorems.OutgoingStream` | server/main.cpp:472-489 | For every connection, open or closed: bytes written plus send_buf are the frames of the payloads forwarded to it in processing order, and any prefix of what was written parses without a bad header to a prefix of them |
| `RelayTheorems.ReceiverView` | server/main.cpp:215-240 | A receiver of any prefix holds whole forwarded payloads, none empty or torn, and at most one incomplete frame |
| `RelayTheorems.Reassembly` | server/main.cpp:532-563 | For every open connection the packets handled and the bytes kept are those the reference parser finds in all bytes read, and the buffer is not full |
| `RelayTheorems.ReassemblyClosed` | server/main.cpp:506-543 | The same for closed connections by cause: one closed for a bad length had handled every packet before the bad header, one refused had its last packet rejected, and a full buffer never closes one |
| `RelayTheorems.ChunkingForgotten` | server/main.cpp:526-563 | Two connections that sent the same bytes, however cut, in whatever runs, had the same packets handled and hold the same rest |
| `RelayTheorems.Fifo` | server/main.cpp:451-489 | What was forwarded from one connection to another is exactly what was deliverable when it was handled, in order |
| `RelayTheorems.PairOrder` | server/main.cpp:449-491 | From the moment both are registered B gets every non-empty payload A addresses to its mark, once and in order, and nothing else from A |
| `RelayTheorems.IndexAgreement` | server/main.cpp:435-443 | In every reachable state g_mark_to_fd is the map found by scanning the registered connections, their marks differ, at most 4 are open, and the branch for a target fd that is not open is not taken |
| `RelayTheorems.RefusalKeepsOwner` | server/main.cpp:322-334 | Refusing a registration and closing the refused connection changes neither the index nor any other connection |
| `RelayTheorems.Accounting` | server/main.cpp:420-489 | Bytes in = bytes out + waiting + discarded at closings + 8 per forwarded packet + packets that went nowhere; output never exceeds input; packets in split exactly into six ends |
| `RelayTheorems.WakeUps` | server/main.cpp:200-240 | After every event EPOLLOUT is requested for exactly the open connections with bytes to send, and no receive buffer is full or holds a complete packet |
| `RelayTheorems.RunGrows` | server/main.cpp:736-754 | A run only adds to the history of its beginning |
| `RelayInvariant.QuietRun` | server/main.cpp:736-754 | Every state reachable by possible events satisfies the whole invariant, for every script of kernel answers |
| `RelayInvariant.DecideIsJudge` | server/main.cpp:425-473 | The decision made on fds and the index is the switch's decision made on registrations and closings |
| `RelayInvariant.KeepsFlush` | server/main.cpp:215-240 | Flushing keeps identities, index, streams and the byte ledger |
| `RelayInvariant.KeepsDrain` | server/main.cpp:532-563 | The packet loop keeps the invariant and ends with write interest right and every buffer waiting |
| `RelayInvariant.FlushArms` | server/main.cpp:219-239 | After a flush write interest is on exactly if bytes are left, and no other connection has changed |
| `RelayInvariant.NeverDangling` | server/main.cpp:474-477 | The index never names an fd that is not open |
| `RelayInvariant.RoomToRead` | server/main.cpp:506-511 | A connection that waits for more bytes has room for them |
| `Switch.PairFifo` | server/main.cpp:457-489 | Nothing deliverable is lost, doubled or reordered, and nothing else is sent |
| `Switch.PairDelivery` | server/main.cpp:457-489 | While both ends stay registered dst gets exactly what src addresses to its key |
| `Switch.RegistrationHolds` | server/main.cpp:435-443 | A registration holds until its connection closes: nobody takes the key over |
| `Switch.DirectoryInjective` | server/main.cpp:425-443 | No connection owns two keys |
| `Switch.PacketsSplit` | server/main.cpp:421-489 | The packets counted are the sum of the counts of the six outcomes, and the seventh never occurs |
| `Relay.Process` | server/main.cpp:555-561 | Handling a packet shortens the receive buffer by at least five bytes, so the loop ends |
| `Relay.Flush` | server/main.cpp:215-240 | A flush opens no connection and leaves every receive buffer as it was |
| `RelayServer.LengthGuard` | server/main.cpp:536-544 | The guard refuses exactly the lengths outside 1..65532; its 32-bit sum alone would also let the four largest lengths through |
| `RelayServer.ReadPacketLength` | server/main.cpp:401-406 | The four bytes as a little-endian number |
| `RelayServer.WritePacketLength` | server/main.cpp:409-414 | Four bytes that read back as the length |
| `RelayServer.HandleParts` | server/main.cpp:418-492 | process_packet is: count the packet, then register or forward |
| `RelayServer.Server.constructor` | server/main.cpp:182-184 | A server starts with no connections and an empty index |
| `RelayServer.Server.CloseConnection` | server/main.cpp:322-339 | The connection leaves both maps; its mark leaves the index only if it was registered |
| `RelayServer.Server.UpdateEpollEvents` | server/main.cpp:200-213 | Write interest as asked |
| `RelayServer.Server.FlushRound` | server/main.cpp:224-236 | One write and what its result asks for: bytes dropped from the front, write interest, or a close |
| `RelayServer.Server.FlushSendBuffer` | server/main.cpp:215-240 | The loop over writes makes the transition Flush |
| `RelayServer.Server.HandleClientWrite` | server/main.cpp:242-249 | A writable event flushes a known connection |
| `RelayServer.Server.RegisterMark` | server/main.cpp:425-447 | A first packet of 8 bytes with a free mark registers; every other one is refused |
| `RelayServer.Server.Extend` | server/main.cpp:479-484 | The target's send buffer grows by exactly the frame of the payload |
| `RelayServer.Server.ForwardData` | server/main.cpp:449-491 | Drop, ignore or enqueue and flush, by size and target |
| `RelayServer.Server.ProcessPacket` | server/main.cpp:418-492 | Makes the transition Handle and tells whether the packet was refused |
| `RelayServer.Server.Consume` | server/main.cpp:165-172 | memmove leaves in the array exactly the bytes after the packet |
| `RelayServer.Server.StoreRead` | server/main.cpp:513-526 | The bytes read are put behind those already there |
| `RelayServer.Server.PacketRound` | server/main.cpp:532-563 | One round of the packet loop: stop, close on a bad length, or process and consume |
| `RelayServer.Server.ProcessPackets` | server/main.cpp:532-563 | The loop makes the transition Drain |
| `RelayServer.Server.HandleClientData` | server/main.cpp:495-564 | Read once, then all complete packets; close on end, error or full buffer |
| `RelayServer.Server.HandleNewConnection` | server/main.cpp:342-398 | At most four connections; a new one starts empty, with its own array |
| `RelayServer.Server.Dispatch` | server/main.cpp:736-754 | One epoll entry makes one transition Step |
| `RelayServer.Server.Serve` | server/main.cpp:736-754 | Any possible sequence of entries makes the run of the specification |
| `Memory.Memmove` | server/main.cpp:169-169 | Overlapping bytes move as if through a copy |
| `Wire.ParseFrameAll` | src/packet_queue.cpp:65-101 | Parsing what was printed gives the packets back and leaves nothing |
| `Wire.ParseStream` | src/packet_queue.cpp:91-98 | Packets re-framed and rest are the stream: nothing is lost or invented |
| `Wire.ParseAppend` | server/main.cpp:532-563 | Parsing a, then going on with what is left and b, is parsing a + b |
| `Wire.ParsePrefix` | src/packet_queue.cpp:85-89 | From any prefix of frames exactly the complete packets and the incomplete remainder |
| `Wire.LeValueOfBytes` | src/connection_manager.cpp:641-645 | Writing then reading a number in k little-endian bytes gives it back |
| `Wire.LeBytesOfValue` | src/packet_queue.cpp:71-76 | Reading then writing k bytes gives them back |
| `Wire.LongPackets` | server/main.cpp:536-544 | From any prefix of frames of any 32-bit size the parser finds a prefix of the packets, and meets a bad length exactly at the complete header of one that is too long; all of them if it has everything and met none |
| `Packets.FeedIsParse` | src/connection_manager.cpp:512-519 | Append-then-drain over any pieces equals one parse of the whole, for steady streams |
| `Packets.ChunkingExact` | src/packet_queue.cpp:78-83 | Chunking does not matter exactly for the streams with no bad length before their end |
| `Packets.UnsteadyDiffers` | src/packet_queue.cpp:78-83 | Otherwise two cuts of the stream leave different buffers, because a bad length empties the buffer |
| `Packets.FeedFrames` | src/packet_queue.cpp:65-101 | Any part of a sequence of frames with payloads of 1 byte to 1 MB, in any pieces: exactly the complete payloads, and exactly the incomplete frame is kept |
| `Packets.PacketQueue.Push` | src/packet_queue.cpp:11-19 | At the end of the queue |
| `Packets.PacketQueue.Pop` | src/packet_queue.cpp:21-29 | The front of a non-empty queue, otherwise nothing |
| `Packets.PacketQueue.Peek` | src/packet_queue.cpp:31-38 | The size of the front packet, queue unchanged |
| `Packets.PacketQueue.Clear` | src/packet_queue.cpp:50-54 | Empty |
| `Packets.ReceiveBuffer.Append` | src/packet_queue.cpp:60-63 | Bytes at the end |
| `Packets.ReceiveBuffer.TryParsePacket` | src/packet_queue.cpp:65-101 | Cuts a complete packet off the front; an impossible length empties the buffer; otherwise nothing changes |
| `Packets.Absorb` | src/connection_manager.cpp:513-519 | After append the loop queues all complete packets and keeps the rest |
| `Backoff.BackoffDelay` | src/connection_manager.cpp:618-625 | For all 32-bit inputs the loop computes base for attempt 0 and min(base * 2^attempt, max) afterwards, without 64-bit wrap-around |
| `Backoff.DelaysGrow` | src/connection_manager.cpp:618-625 | Delays never decrease exactly when base <= max |
| `Backoff.SaturationUnseen` | src/connection_manager.cpp:615-616 | From attempt 32 on the delay does not depend on the attempt, so the saturated counter changes nothing |
| `Backoff.WaitDoubles` | src/connection_manager.cpp:618-627 | While the cap is not reached the time before retry k is base * 2^k |
| `Backoff.WaitAtCap` | src/connection_manager.cpp:618-627 | From the first retry k whose delay reaches the cap, the time before retry k + n is that before retry k plus n * max |
| `PeersTheorems.Trichotomy` | src/connection_manager.h:19-34 | In every run of proper calls every peer is exactly one of up, dying (marked) and waiting (with empty buffers and a retry time) |
| `PeersTheorems.NeverStuck` | src/connection_manager.cpp:592-612 | A waiting peer whose time has come is tried, and a successful retry makes it up on empty buffers |
| `PeersTheorems.PassLeavesNoneDying` | src/connection_manager.cpp:557-586 | After removeDisconnected nothing is pending and every peer is up or waiting |
| `PeersTheorems.EventsAlternate` | src/connection_manager.cpp:557-586 | Connected and Disconnected alternate for every peer, Connected first, and the last tells whether it holds a socket |
| `PeersTheorems.DisconnectExact` | src/connection_manager.cpp:212-234 | disconnect keeps the invariant if and only if the peer is unknown, connected, or dying without auto-reconnect; and exactly then the events still alternate after the next removeDisconnected |
| `PeersTheorems.WaitingToldTwice` | src/connection_manager.cpp:212-230 | disconnect on a waiting peer reports Disconnected twice in a row |
| `PeersTheorems.DyingToldTwice` | src/connection_manager.cpp:227-231 | disconnect on a dying peer with auto-reconnect leaves it marked, and the next removeDisconnected reports Disconnected again |
| `PeersTheorems.WaitingIsReached` | src/connection_manager.cpp:227-230 | connect, setAutoReconnect and disconnect are a proper run that leads to a waiting peer |
| `PeersTheorems.DyingIsReached` | src/connection_manager.cpp:250-258 | connect, setAutoReconnect and a send that fails are a proper run that leads to a dying peer with auto-reconnect, the case of DyingToldTwice |
| `PeersTheorems.SetAutoExact` | src/connection_manager.cpp:198-210 | setAutoReconnect keeps the invariant if and only if the peer is unknown or holds a socket; called on a waiting peer, the peer is never due again in any run in which nobody calls disconnect for it |
| `PeersTheorems.StuckRun` | src/connection_manager.cpp:591-603 | A peer without socket, retry time and mark stays so in every run without disconnect for it |
| `PeersTheorems.DisconnectRevives` | src/connection_manager.cpp:227-230 | disconnect for such a peer with auto-reconnect makes it due after its base delay, and the retry can connect it |
| `PeersTheorems.SocketLedger` | src/connection_manager.cpp:212-234 | Every open socket is held by exactly one peer or the listener, none is closed twice, none is shared |
| `PeersTheorems.NothingHeldAfterShutdown` | src/connection_manager.cpp:102-117 | After shutdown nothing is open and nothing was closed twice |
| `PeersTheorems.RetryOnlyWithoutSocket` | src/connection_manager.cpp:601-607 | A retry never overwrites a live socket |
| `PeersTheorems.SendConservation` | src/connection_manager.cpp:248-267 | Bytes taken and bytes waiting are those of the frames accepted for sending; in order unless a direct send overtook |
| `PeersTheorems.SendOrderExact` | src/connection_manager.cpp:250-265 | sendPacket keeps the order whatever part of the frame the kernel takes if and only if nothing is waiting or all waiting bytes and all bytes of the frame are equal; for packets below 16843009 bytes, if and only if nothing is waiting. If the kernel takes nothing the order is kept |
| `PeersTheorems.SendOrderStep` | src/connection_manager.cpp:250-265 | For one answer of the kernel: what it took must commute with what was waiting |
| `PeersTheorems.OrderCanBeLost` | src/connection_manager.cpp:250-265 | Two packets on a new connection whose frames reach the peer in the wrong order: nothing in the code prevents it |
| `PeersTheorems.ReceiveConservation` | src/connection_manager.cpp:505-536 | Packets taken plus packets queued are the packets of the bytes received, per connection; a bad length is met exactly when the stream has one |
| `PeersTheorems.RetryTiming` | src/connection_manager.cpp:588-629 | By the clock read before the loop of attemptReconnects: retry k no earlier than the base delay and all delays before it allow, which is base * 2^k until the cap, and max more with every retry from the first that reaches it |
| `PeerEffects.RecvEffect` | src/connection_manager.cpp:505-536 | One recv for a connected peer: bytes are added to those received; the end of the stream makes it dying; nothing to read changes nothing |
| `PeerEffects.ExceptionEffect` | src/connection_manager.cpp:411-416 | An exception makes a connected peer dying |
| `PeerEffects.SendEffect` | src/connection_manager.cpp:236-268 | sendPacket for a connected peer: the kernel takes a beginning of the frame, the rest goes behind what waits, and the packet counts as sent; a failing send makes the peer dying and sends nothing |
| `PeerEffects.FlushEffect` | src/connection_manager.cpp:538-555 | processWrite moves as many waiting bytes to the kernel as it takes; an error makes the peer dying |
| `PeerEffects.JoinEffect` | src/connection_manager.cpp:168-196 | A socket connected or accepted is a new peer under the next id: on blank buffers, without auto-reconnect, told connected |
| `PeerEffects.DisconnectEffect` | src/connection_manager.cpp:212-234 | disconnect closes the peer's socket and tells Disconnected; then the peer is gone, or waits on blank buffers for its base delay if it is to reconnect; an unknown peer changes nothing |
| `PeerEffects.RetryEffect` | src/connection_manager.cpp:591-628 | A peer is tried exactly if it is to reconnect, is not connected, has an address and its time has come; then it is connected and told so, or its next time is set and its tries counted, with a counter that saturates |
| `PeerEffects.PopEffect` | src/connection_manager.cpp:337-355 | Taking a packet takes the front of that peer's queue, and nothing else changes |
| `PeerEffects.SettingsEffect` | src/connection_manager.cpp:198-210 | The settings of that peer become those given, its counter and retry time are cleared, and nothing else changes |
| `PeerEffects.ListenEffect` | src/connection_manager.cpp:119-158 | listen closes the old listener; then the manager listens exactly if the socket could be bound, and no other socket is left open |
| `PeerEffects.UnlistenEffect` | src/connection_manager.cpp:160-166 | stopListen closes the listener, if there is one, and nothing else |
| `PeerEffects.EpochIsRun` | src/connection_manager.cpp:505-519 | Over any proper run: the bytes received on the connection of a connected peer are those that recv returned for it since it began, and the packets sent are those given to sendPacket since then and not refused |
| `PeerEffects.NothingReceivedIsLost` | src/connection_manager.cpp:512-519 | So packets taken plus packets queued are the packets of all bytes that recv returned, and the incomplete rest is kept, as long as they have no bad length |
| `PeerEffects.NothingSentIsLost` | src/connection_manager.cpp:246-267 | And the bytes taken by the kernel plus those waiting are the frames of all packets given to sendPacket; in order unless a direct send overtook |
| `PeersInvariant.GoodStep` | src/connection_manager.cpp:358-434 | Every possible and proper operation keeps the manager's invariant |
| `PeersInvariant.GoodRun` | src/connection_manager.cpp:358-434 | It holds in every state of every proper run |
| `PeersInvariant.SortedDistinctOk` | src/connection_manager.cpp:559-561 | Sorting and removing duplicates keeps every id, once |
| `PeersInvariant.KeepsRemoveEach` | src/connection_manager.cpp:563-583 | Each marked peer is handled once, although it may have been marked several times |
| `PeersInvariant.EpochSend` | src/connection_manager.cpp:246-267 | A direct send of any part of a frame keeps the byte account |
| `PeersInvariant.EpochFlush` | src/connection_manager.cpp:543-549 | So does sending waiting bytes |
| `PeersInvariant.EpochRecv` | src/connection_manager.cpp:512-519 | Receiving any bytes keeps queue, buffer and stream in step |
| `PeersInvariant.TimedRetried` | src/connection_manager.cpp:605-627 | A retry keeps the spacing of retries, with the saturating counter |
| `PeersInvariant.ClosesAll` | src/connection_manager.cpp:109-111 | Closing the peers' sockets closes each once |
| `Passes.PassRuns` | src/connection_manager.cpp:358-434 | A processEvents pass, with the packets its callbacks send, is a run of the small operations |
| `Passes.CallsRun` | src/connection_manager.cpp:358-434 | So is every sequence of public calls; what holds of all runs holds between all calls |
| `Passes.CallsKeepGood` | src/connection_manager.cpp:358-434 | In particular the invariant |
| `Passes.EveryDuePeerTried` | src/connection_manager.cpp:588-607 | One attemptReconnects begins exactly one retry for every peer that is due |
| `PassOrder.PassIs` | src/connection_manager.cpp:358-434 | A pass consists of a retry of every peer, an accept of every arrival if it listens, the visits, one removal and again a retry of every peer, in this order; whoever is told connected in it is sent the greeting at once, and nothing else is sent |
| `PassOrder.ConnectedIsLookedAt` | src/connection_manager.cpp:402-427 | A peer that is connected when the pass begins, on a nonzero handle, is visited once if select finds anything ready, and its traffic in the whole pass is: an exception; or recv up to and with the first answer that is not data, if it is readable, and then one send of waiting bytes, if it is writable |
| `PassOrder.NoPass` | src/connection_manager.cpp:359-361 | An uninitialized manager does nothing |
| `PassOrder.CallsAre` | src/connection_manager.cpp:168-196 | connect with a connected socket is the new peer and its greeting, processEvents is a pass, every other call one operation |
| `ClientManager.CreateSendFrame` | src/connection_manager.cpp:637-652 | The pushes build the frame of the data |
| `ClientManager.NextTime` | src/connection_manager.cpp:615-627 | The time of the next retry, below 2^64 |
| `ClientManager.ConnectionManager.Initialize` | src/connection_manager.cpp:89-100 | Initialized |
| `ClientManager.ConnectionManager.SendPacket` | src/connection_manager.cpp:236-268 | True exactly if there is data, the peer is connected and send did not fail; the rest of the frame waits |
| `ClientManager.ConnectionManager.ProcessWrite` | src/connection_manager.cpp:538-555 | Waiting bytes the kernel took leave the front of the buffer; an error marks the peer |
| `ClientManager.ConnectionManager.ConnectionCallback` | hook/hook.cpp:347-364 | The callback, told an event: it keeps in mind whom to send to, and sends its packet to a peer that has connected |
| `ClientManager.ConnectionManager.Hear` | hook/hook.cpp:347-364 | g_connectedPeer is always the value that follows from the events told so far |
| `ClientManager.ConnectionManager.Connect` | src/connection_manager.cpp:168-196 | A new peer with the next id, on empty buffers, told connected |
| `ClientManager.ConnectionManager.AcceptNewConnections` | src/connection_manager.cpp:463-503 | The same for every accepted socket, only while listening |
| `ClientManager.ConnectionManager.SetAutoReconnect` | src/connection_manager.cpp:198-210 | Settings replaced, counter and retry time cleared |
| `ClientManager.ConnectionManager.LoseConnection` | src/connection_manager.cpp:563-582 | Socket closed, buffers emptied, callback told; then waiting or gone |
| `ClientManager.ConnectionManager.Disconnect` | src/connection_manager.cpp:212-234 | The same for a known peer |
| `ClientManager.ConnectionManager.RemoveDisconnected` | src/connection_manager.cpp:557-586 | Every distinct pending id handled once, then none pending |
| `ClientManager.ConnectionManager.Listen` | src/connection_manager.cpp:119-158 | The old listener closed first; a socket that cannot be bound is closed again |
| `ClientManager.ConnectionManager.StopListen` | src/connection_manager.cpp:160-166 | The listener closed |
| `ClientManager.ConnectionManager.Shutdown` | src/connection_manager.cpp:102-117 | Listener and all peers' sockets closed, all forgotten |
| `ClientManager.ConnectionManager.ProcessRead` | src/connection_manager.cpp:505-536 | recv until nothing, end or error; all complete packets queued |
| `ClientManager.ConnectionManager.VisitPeer` | src/connection_manager.cpp:405-425 | Exception, read, write for one peer that is still connected |
| `ClientManager.ConnectionManager.AttemptOne` | src/connection_manager.cpp:591-628 | One round of attemptReconnects |
| `ClientManager.ConnectionManager.AttemptReconnects` | src/connection_manager.cpp:588-629 | Every peer once, at one clock reading |
| `ClientManager.ConnectionManager.HighestHandle` | src/connection_manager.cpp:378-391 | The largest handle of a watched peer, 0 when there is none |
| `ClientManager.ConnectionManager.ProcessEvents` | src/connection_manager.cpp:358-434 | The whole pass makes the specification's pass |
| `ClientManager.ConnectionManager.IsPacketAvailable` | src/connection_manager.cpp:270-304 | The chosen peer and the size of its front packet |
| `ClientManager.ConnectionManager.ReadPacket` | src/connection_manager.cpp:306-356 | Pops from the chosen peer and answers only if the packet fits |
| `ClientManager.ConnectionManager.ReadChecked` | src/p2p_network.cpp:126-153 | The guarded read, state and all |
| `Reading.Lossless` | src/p2p_network.cpp:136-152 | P2P_ReadPacket answers Ok exactly when an initialized manager has a packet that fits; then the packet put back gives the queues of before, otherwise nothing changed |
| `Reading.DiscardExact` | src/connection_manager.cpp:337-344 | readPacket alone loses a packet exactly when the public read would answer that the buffer is too small; otherwise they do the same |
| `Reading.AnyFindsOne` | src/connection_manager.cpp:290-303 | Asking for any peer finds nobody exactly when no peer has a packet, in any order |
| `Reading.StatusExact` | src/p2p_network.cpp:126-141 | P2P_ReadPacket answers NotInitialized, InvalidParam and NoPacket exactly for an uninitialized manager, a buffer of no bytes, and no waiting packet, in this order |
| `Reading.PacketExact` | src/p2p_network.cpp:143-152 | Otherwise the packet that is due is the front one of the peer asked for, or of the first peer that has one: it is too big exactly if the buffer is smaller, and else it is returned |
| `Hook.EnvelopeRoundTrip` | hook/hook.cpp:314-324 | An envelope names its target first; without that it opens to its sender and its data |
| `Hook.PrefetchConserves` | hook/hook.cpp:218-247 | No mail is lost, doubled or reordered in the slot |
| `Hook.SoleUser` | hook/hook.cpp:217-326 | Over one lasting connection the hook takes exactly the packets popped from it; returned plus slot are those packets opened; and the packets accepted for sending are its id and then the envelopes of the calls of SendP2PPacket, in order |
| `Hook.ConnectBegins` | hook/hook.cpp:347-356 | So such a connection begins: after connect, with the id sent by the callback, and this peer as the one to send to |
| `Mailing.DispatchSends` | hook/hook.cpp:310-326 | With an initialized manager and the peer told connected last still connected, SendP2PPacket sends the frame of target id, own id and data to it: what the kernel does not take waits behind the rest; a failing send makes the peer dying. Otherwise it changes nothing |
| `Mailing.CurrentIsLast` | hook/hook.cpp:347-364 | The peer sent to is the one told connected last, until it is told disconnected |
| `Mailing.LookTakes` | hook/hook.cpp:217-247 | With an empty slot the first packet of the first peer that has one is taken from its queue; it is in the slot, opened, or thrown away if it is too short to name a sender |
| `Mailing.ReadReturns` | hook/hook.cpp:268-293 | ReadP2PPacket returns the mail in the slot and empties it |
| `Mailing.PollsReturnAll` | hook/hook.cpp:217-293 | Looking and reading as often as packets wait at the only peer returns the mail of all of them, in order, and leaves nothing |
| `Mailing.MailedIsPosted` | hook/hook.cpp:310-326 | Over any run the envelopes sent are those of the calls that send did not refuse, made while there was a peer to send to |
| `Mailing.AllMailed` | hook/hook.cpp:310-326 | Over a run alone on a connection that is up at its end and was told last at its start these are all calls that send did not refuse |
| `Mailing.SendsAreCalls` | hook/hook.cpp:310-326 | The calls among the events of a sequence of calls are those of the sequence |
| `HookCalls.CallsExtend` | hook/hook.cpp:212-326 | Any sequence of calls of IsP2PPacketAvailable, ReadP2PPacket and SendP2PPacket is a run of the hook's events, and it is a run alone on its first connection if and only if the manager told no event during the calls |
| `HookCalls.CallExtends` | hook/hook.cpp:212-326 | The step of it: one call continues such a run if and only if it tells no event |
| `HookCalls.CallRuns` | hook/hook.cpp:212-326 | The events of a call lead to the state the methods of SteamHook lead to |
| `HookCalls.ManagedRun` | hook/hook.cpp:215-215 | The operations of a pass, as events of the hook, change only its manager, and change it as the pass does |
| `HookCalls.EventsOfCalls` | hook/hook.cpp:212-326 | The events of IsP2PPacketAvailable are the operations of a pass, in order, and then one look; the other two calls are one event each |
| `Hook.CurrentIsOnLine` | hook/hook.cpp:347-364 | The peer that follows from the events told is one told connected last |
| `Hook.BuildEnvelope` | hook/hook.cpp:313-324 | The three copies build the envelope |
| `Hook.SteamHook.constructor` | hook/hook.cpp:192-194 | An empty slot, on a manager whose callback greets with the hook's id |
| `Hook.SteamHook.SendP2PPacket` | hook/hook.cpp:312-326 | With a connected peer and an initialized manager the envelope is sent to it, otherwise nothing; whenever anything changes, that peer was told connected last |
| `Hook.SteamHook.FillSlot` | hook/hook.cpp:217-248 | An empty slot takes the next packet; one too short to name a sender is thrown away |
| `Hook.SteamHook.IsP2PPacketAvailable` | hook/hook.cpp:215-258 | Run the manager, with the events it tells, fill the slot, tell the size |
| `Hook.SteamHook.ReadP2PPacket` | hook/hook.cpp:268-293 | The mail in the slot, once |

## Left out

- Sockets, `select`, `epoll_wait` and `connectWithTimeout` themselves, socket options, signals, logging: only their results appear, as parameters.
- RelayServer.Server.UpdateEpollEvents: `epoll_ctl` with MOD is taken to succeed, as its failure only means lost wake-ups that no code repairs.
- RelayServer.Server.ProcessPackets: when a client forwards to its own mark and that write fails, its connection is erased while the loop still uses it; the model's loop stops there. `SelfForward.ProcessCloses` says exactly when this happens, and `SelfForward.OnlyBySelf` that no other client meets it.
- RelayServer.Server.Serve: closing all connections at the end of the program, and the periodic statistics printing, are not modelled.
- RelayServer.Server.CloseConnection: `close` and `epoll_ctl` on an fd that is not in the map do nothing here.
- The 64-bit statistics counters are unbounded numbers; the counters for partial writes and full sockets, which the code never changes, are missing.
- RelayServer.Connection: the receive arrays of the entries of `g_connections` are in a map of their own beside it.
- ClientManager.Connection: the receive queue and buffer of an entry are objects in two maps beside the map of entries, because they are the members with methods of their own.
- ClientManager.ConnectionManager.SendPacket: frames are taken to fit the signed 32-bit size given to `send`; sizes of the data are below 2^32.
- ClientManager.ConnectionManager.Initialize: a failing socket library is not modelled.
- ClientManager.ConnectionManager.ConnectionCallback: the callback is the hook's, so g_connectedPeer and the packet it sends are the manager's fields; other callbacks are not modelled.
- ClientManager.ConnectionManager.RemoveDisconnected: `std::sort`, `std::unique` and `erase` are one function, `SortedDistinct`, of which `SortedDistinctOk` states the result.
- ClientManager.ConnectionManager.Listen: the port number, which nothing reads back, is missing.
- Peer ids do not run out in the run theorems; `m_nextPeerID` would wrap after 2^32 - 1 connections.
- The clock is nonzero and below 2^63 milliseconds.
- The manager has no lock, so each call is atomic here; the mutex inside PacketQueue is not modelled.
- getPeerCount, getConnectedPeers and the thin checks around the other public calls.
- Hook.SteamHook.SendP2PPacket: the original Steam call with its 8 heartbeat bytes, and a size that wraps at 2^32, are left out.
- Hook.SteamHook.ReadP2PPacket: the whole mail is returned; the caller's buffer size is not looked at, as in the code.
- EndToEnd.Delivery: is about one connection on each side, without a reconnect; `Lifetimes.OwnersTakeTurns` and `HeardInTurn` say that the relay passes on a client's connections one after the other. Each side starts from the id sent by the callback. When the hook learns its id only after the connection is made, as a race between threads decides, is left out.
- PeersTheorems.RetryTiming: the attempt itself may begin up to two seconds later for every peer tried before it in the same loop, so the bounds are about clock readings.
- Patching the game's tables, loading the configuration, the winmm proxy and the injection script hold no logic to prove.
