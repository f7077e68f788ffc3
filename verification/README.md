# Verified models of ajylib

Dafny models of the server library's hard parts, with proofs about every run or every input.

- **The session engine** (`EngineModel` and the other `Engine*` modules, `Lifecycles`, `GuessedIds`, `SessionIds`).
  Slots, the CAS reference count with its generation check, the free-index stack, the disconnect / cancel handshake,
  the single-flight sender and `stop()` are a step system: every thread is a call stack of program points, one atomic
  operation or kernel call is one step, and completions (success with any byte count, zero, failure) are steps of the
  kernel. Any number of slots, I/O workers and user threads; a run is any sequence of steps. Each frame carries a
  `Tally` of what it owns, and the invariant relates the totals over all frames to each slot.
- **The wire path** (`SerializationBuffers`, `NetPackets`, `PlainPackets`, `Obfuscator`, `RingBuffers`, `Frames`,
  `ServerFrames`, `ReceiveSessions`, `Receivers`, `PlainReceivers`, `Deliveries`, `EndToEnd`). The buffers, the in-place
  cipher, the ring buffer, the frame loops and the receive loops of both servers are classes and loops over real arrays,
  proved against sequence functions. A receive session is a run of completions into a ring of fixed capacity, and what
  its completions extract is handed on by workers that interleave; `EndToEnd` joins that to the engine's send queue.
- **The login ticket protocol** (`LoginTickets`). Login workers, the chat content thread and the key store as a step
  system; store commands may fail or lose their reply, tickets expire, the chat server may stop or crash at any time.
- **The chat world** (`SectorGrid`, `ChatWorlds`) as a class whose handlers run one after another, and the
  multi-threaded server's **send pool** (`SendPools`) as a step system that refines it per session.
- **The wake-flag pool** of the group echo servers (`WakePools`), the **monitor server**'s sessions and windowed
  aggregator (`Aggregates`, `MonitorServers`), and the **registration table** of the login server run beside the
  session engine (`ContentLinks`).

Read `EngineTheorems`, `Lifecycles`, `EngineShutdown` and `EngineDrain` for what the engine guarantees; the modules
below them hold the invariant and one lemma per class of steps.

## How the engine's steps map to the source

| function of `EngineModel` | what it steps through |
|---|---|
| `StepAcc` | `accept_thread_proc`, net_server.cpp:580-645 |
| `StepWk` | `worker_thread_proc`, net_server.cpp:647-830; parsing is abstracted to how many packets it found and whether it lost step (`Receivers` has the real loop) |
| `StepDis` | `disconnect`, net_server.cpp:395-410 |
| `StepSnd` | `send_packet` from the acquire on, net_server.cpp:514-550 |
| `StepGrp` | `set_session_group`, net_server.cpp:565-578 |
| `StepPost` | `send_post`, net_server.cpp:1034-1153 |
| `StepRecv` | `recv_post`, net_server.cpp:967-1032 |
| `StepAcq` | `acquire_session`, net_server.cpp:898-912 |
| `StepRel` | `release_session`, net_server.cpp:915-965 |
| `StepStop`, `Global` | `stop`, net_server.cpp:312-353 |

server.cpp is the same engine with another packet type. `Slot.counted`, `stuck`, `failed`, `enqueued`, `wire` and
`hist` are bookkeeping that no branch reads.

## Results that qualify what the code suggests

- `on_client_join` begins first for a session only if nobody uses its id before it is announced: ids are predictable,
  and `acquire_session` accepts them once the accept thread holds its reference. If every API call names an id whose
  `on_client_join` has begun, it does (`EngineCallers.PoliteJoinFirst`); if not, `on_send` alone can be ahead of it
  (`OnlySendsPrecede`), and it can be from every state with a guessed send outstanding and a worker idle
  (`GuessedIds.GuessedSendCanComeFirst`).
- A failed send completion leaves `send_flag` set, a failed WSASend leaves its batch to the next `send_packet`;
  `EngineTheorems.NoStrandedPacket` and `StreamConserved` say exactly what remains true then.
- `recv_post` runs before the frame loop, so a ring filled to capacity is disconnected even if it holds whole frames.
  A sent stream is received unless a completion fills the ring while bytes are still to come
  (`ReceiveSessions.ArrivesUnlessFilled`). The session survives every chunking of it if and only if the whole stream is
  shorter than the ring (`EveryChunkingDelivers`), and some chunking if and only if every frame is
  (`SomeChunkingDelivers`). Payloads of up to 65535 bytes are legal, but one of 8188 bytes or more never reaches
  `on_recv` (`EndToEnd.LongPayloadNeverArrives`; 8191 for the 2-byte frames).
- Packets are extracted in stream order but handed on after the session lock is released. Each completion's packets are
  handed on in order and none twice or lost (`Deliveries.CompletionInOrder`, `HandedOnOnce`); across completions the
  order holds with one worker thread (`OneWorkerInOrder`) and is at risk exactly while two workers have packets of the
  session in hand, or one is behind a later completion (`OrderedUnlessOverlapping`). Any two packets that fit the ring
  together can arrive in reverse (`EndToEnd.OrderCanReverse`).
- The aggregator's comment says the 64-bit sum avoids overflow. It does while a window has at most 2^32 samples of one
  metric; averages are right below 2^32 samples and, from there on, either no row is written or some window of that
  size gets an average above its maximum (`Aggregates.AverageFailsFrom`).

## Modelling assumptions

- Interleavings are sequentially consistent; weak-memory effects are not modelled.
- The lock-free queue, stack and pools are an atomic FIFO, an atomic stack and an allocator; allocation never fails.
- Generations are unbounded numbers (no wrap within 2^32 reuses of one slot).
- A store command sent by a chat server that then crashes runs before its restart, or never.
- Calls into the engine from inside callbacks are covered by calls of other user threads at the same moment.

## Model

| member | source | states |
|---|---|---|
| `SessionIds.UnpackPack` | source/network/windows/iocp/net_server.cpp:832-844 | unpacking a packed id gives back its slot index and generation |
| `SessionIds.PackUnpack` | source/network/windows/iocp/net_server.cpp:839-844 | every 64-bit number is the id of exactly the slot and generation it unpacks to |
| `SessionIds.PackInjective` | source/network/windows/iocp/net_server.cpp:832-837 | two ids are equal if and only if slot and generation are |
| `EngineInvariant.Reachable` | source/network/windows/iocp/net_server.cpp:580-1153 | in every state of every run the call stacks are well formed, every frame has what it relies on, and the totals of all frames account exactly for every slot, for the free stack and for the session count |
| `EngineRuns.ReachableAll` | source/network/windows/iocp/net_server.cpp:580-1153 | the same for the queues, the flag handshakes and the callback history |
| `EngineTheorems.RefsExact` | source/network/windows/iocp/net_server.cpp:885-965 | in every reachable interleaving a slot's reference count equals its holders - API callers, stale-id acquirers not yet backed out, the accept thread, workers, posters - plus one per outstanding operation |
| `EngineTheorems.FreeMeansUnheld` | source/network/windows/iocp/net_server.cpp:939-961 | an index is on the free stack at most once, and only while its slot has no reference, no socket and nothing queued |
| `EngineTheorems.GenerationMoves` | source/network/windows/iocp/net_server.cpp:917-942 | a step changes a slot's generation only by one, at zero references, with the index off the free stack |
| `EngineTheorems.HoldersKnowTheirSession` | source/network/windows/iocp/net_server.cpp:885-913 | `acquire_session` never returns a slot of another generation, and the slot keeps its generation until every holder has released it |
| `EngineTheorems.NestedAcquireNeverFails` | source/network/windows/iocp/net_server.cpp:1117-1121 | the acquire inside both posting functions never fails, so their failure branches are unreachable |
| `EngineTheorems.HistoryLawful` | source/network/windows/iocp/net_server.cpp:915-965 | in every run each slot's callback history is lawful, each past generation was announced and torn down exactly once, and its `on_client_leave` has run or is what its teardown still has to do |
| `EngineTheorems.SingleFlight` | source/network/windows/iocp/net_server.cpp:1042-1084 | at most one send and one receive per slot are outstanding or about to be posted, and `send_flag` is set exactly while somebody owns it or its last send failed |
| `EngineTheorems.InFlightOwned` | source/network/windows/iocp/net_server.cpp:1049-1072 | only the owner of `send_flag`, or the teardown at zero references, changes `in_flight_packets` or its offset |
| `EngineTheorems.NoStrandedPacket` | source/network/windows/iocp/net_server.cpp:1074-1084 | while packets are pending on a live session a send is outstanding, some thread is at a point from which it will still reach a WSASend or find nothing to send, the session is disconnecting, or its latest send - the latest WSASend or completion - failed |
| `EngineTheorems.NoIoSurvivesDisconnect` | source/network/windows/iocp/net_server.cpp:395-410 | an operation posted on a flagged session is cancelled, or some thread is still ahead of a cancel that covers it, whatever the order of `disconnect` and the posts |
| `EngineTheorems.StreamConserved` | source/network/windows/iocp/net_server.cpp:797-819 | bytes taken by the socket, in-flight bytes from the offset on and pending bytes are together the enqueued packets in order; whatever fails, the socket took a prefix of them |
| `EngineTheorems.QueueBounded` | source/network/windows/iocp/net_server.cpp:522-542 | `pending_send_count` is pending + in flight + reserved and never exceeds the limit, a batch never exceeds its size, and the offset stays inside the first packet |
| `Lifecycles.LeaveIsLast` | source/network/windows/iocp/net_server.cpp:915-965 | nothing of a session follows its `on_client_leave` |
| `Lifecycles.LeaveFindsQuiet` | source/network/windows/iocp/net_server.cpp:915-965 | `on_client_leave` begins only after `on_client_join` and every direct `on_recv` and `on_send` of the session have finished |
| `Lifecycles.TornStaysQuiet` | source/network/windows/iocp/net_server.cpp:917-942 | after its teardown no callback of a session is running |
| `Lifecycles.AtMostOnce` | source/network/windows/iocp/net_server.cpp:917-963 | a session joins, is torn down, leaves its group and leaves at most once |
| `Lifecycles.JoinFirst` | source/network/windows/iocp/net_server.cpp:637-643 | every event of a session that no caller acquired unannounced comes after its `on_client_join` |
| `Lifecycles.OthersFollowJoin` | source/network/windows/iocp/net_server.cpp:637-643 | whoever uses its id, no callback of a session but `on_send` precedes its `on_client_join`, nor does its teardown |
| `Lifecycles.LeaveBeforeReuse` | source/network/windows/iocp/net_server.cpp:936-958 | the group's `post_leave` for a generation precedes the `on_client_join` of any later generation on the same slot |
| `EngineCallers.PoliteJoinFirst` | source/network/windows/iocp/net_server.cpp:637-643 | in every run whose API calls each name an id whose `on_client_join` has begun, no session is acquired unannounced and every event of every session comes after its `on_client_join` |
| `EngineCallers.OnlySendsPrecede` | source/network/windows/iocp/net_server.cpp:637-643 | in every run at all, what precedes a session's `on_client_join` is an early acquire or an `on_send` after one; `on_recv` never does |
| `GuessedIds.GuessedSendCanComeFirst` | source/network/windows/iocp/net_server.cpp:637-643 | from every reachable state in which a send is outstanding on an unannounced session and a worker is idle, `on_send` can begin before `on_client_join` |
| `GuessedIds.SendBeforeJoin` | source/network/windows/iocp/net_server.cpp:637-643 | such a state is reachable: a user thread sends on the session about to be announced |
| `EngineShutdown.SweptAll` | source/network/windows/iocp/net_server.cpp:340-341 | after the disconnect sweep every live session is flagged |
| `EngineShutdown.ShutdownQuiescent` | source/network/windows/iocp/net_server.cpp:312-353 | once `stop` has joined the accept thread and seen no active session, every slot has zero references, no outstanding operation, no socket, and its index on the free stack once |
| `EngineShutdown.StopDoneStays` | source/network/windows/iocp/net_server.cpp:343-353 | that state of rest is left by no step |
| `EngineDrain.StepDrains` | source/network/windows/iocp/net_server.cpp:998-1029 | on a flagged session no step raises the measure made of threads past the flag check and outstanding operations, and every post, completion and pick-up lowers it |
| `EngineDrain.DrainBound` | source/network/windows/iocp/net_server.cpp:340-353 | so while a session stays flagged at most that many I/O steps can happen on it |
| `Obfuscator.ForwardPass` | source/network/protocol/obfuscator/obfuscator.cpp:28-46 | the in-place loop computes the chained forward function on its bytes and touches no other byte |
| `Obfuscator.ReversePass` | source/network/protocol/obfuscator/obfuscator.cpp:48-66 | the in-place loop computes the chained reverse function on its bytes and touches no other byte |
| `Obfuscator.ObfuscateInPlace` | source/network/protocol/obfuscator/obfuscator.cpp:69-76 | the two passes in place are the cipher function on the block |
| `Obfuscator.DeobfuscateInPlace` | source/network/protocol/obfuscator/obfuscator.cpp:78-85 | the two passes in place are the inverse function on the block |
| `Obfuscator.CipherRoundTrip` | source/network/protocol/obfuscator/obfuscator.cpp:69-85 | each direction undoes the other for every pair of keys and every length, positions wrapping at 256 |
| `Obfuscator.DeobfuscateIsLocal` | source/network/protocol/obfuscator/obfuscator.cpp:78-85 | output byte i of `deobfuscate` depends on input bytes i-2 to i alone |
| `Obfuscator.ObfuscateKeepsFirstDifference` | source/network/protocol/obfuscator/obfuscator.cpp:69-76 | plaintexts that first differ at byte i give ciphertexts that first differ at byte i |
| `Obfuscator.PositionIsCast` | source/network/protocol/obfuscator/obfuscator.cpp:39-39 | the position used at index i is the 8-bit cast of i + 1 |
| `SerializationBuffers.SerializationBuffer.Serialize` | source/container/serialization_buffer.cpp:78-90 | all of the source is appended or nothing is, exactly when it fits |
| `SerializationBuffers.SerializationBuffer.Deserialize` | source/container/serialization_buffer.cpp:92-104 | the oldest bytes are taken off or nothing is, exactly when there are enough |
| `SerializationBuffers.SerializationBuffer.CommitDirectSerialize` | source/container/serialization_buffer.cpp:122-125 | what the caller wrote behind the cursor becomes contents |
| `SerializationBuffers.SerializationBuffer.CommitDirectDeserialize` | source/container/serialization_buffer.cpp:127-130 | the oldest bytes leave the contents |
| `PacketFormats.DecodeEncode` | source/network/protocol/net_packet_buffer.cpp:28-85 | decoding an encoded packet succeeds and yields its payload, for every payload and every pair of keys |
| `PacketFormats.EncodedShape` | source/network/protocol/net_packet_buffer.cpp:28-45 | an encoded packet's clear header tells its code, its payload length up to 65535 and its key |
| `PacketFormats.PlainRoundTrip` | source/network/protocol/packet_buffer.cpp:26-32 | the 2-byte frame's header tells its payload length, and the payload follows |
| `NetPackets.ComputeChecksum` | source/network/protocol/net_packet_buffer.cpp:115-126 | the loop computes the payload's byte sum modulo 256 |
| `NetPackets.NetPacketBuffer.constructor` | source/network/protocol/net_packet_buffer.cpp:20-26 | a new packet is empty behind its header, its payload capped at 65535 bytes |
| `NetPackets.NetPacketBuffer.BuildHeader` | source/network/protocol/net_packet_buffer.cpp:28-45 | writes the raw frame of the payload, or nothing at all on a finalized packet |
| `NetPackets.NetPacketBuffer.BodyIsContents` | source/network/protocol/net_packet_buffer.cpp:105-113 | while nothing has been read from it, what a packet sends is what was serialized into it |
| `NetPackets.NetPacketBuffer.Encode` | source/network/protocol/net_packet_buffer.cpp:47-63 | seals the frame and finalizes it, or changes no byte of a finalized packet |
| `NetPackets.NetPacketBuffer.Finalise` | source/network/windows/iocp/net_server.cpp:518-520 | the first call makes the wire form under its keys; finalising again with other keys changes no byte |
| `NetPackets.NetPacketBuffer.Decode` | source/network/protocol/net_packet_buffer.cpp:65-85 | opens the frame in place and succeeds exactly when the checksum fits |
| `NetPackets.NetPacketBuffer.SetHeader` | source/network/protocol/net_packet_buffer.cpp:87-90 | replaces the header bytes and no other |
| `NetPackets.NetPacketBuffer.Clear` | source/network/protocol/net_packet_buffer.cpp:92-98 | the packet is empty and may be finalised anew |
| `PlainPackets.PacketBuffer.BuildHeader` | source/network/protocol/packet_buffer.cpp:26-32 | the wire form is the 2-byte frame of the payload; building again changes nothing |
| `PlainPackets.PacketBuffer.SetHeader` | source/network/protocol/packet_buffer.cpp:34-37 | replaces the two length bytes and no other |
| `PlainPackets.PacketBuffer.Clear` | source/network/protocol/packet_buffer.cpp:39-44 | the packet is empty behind its header |
| `RingArithmetic.MaskIsMod` | source/container/ring_buffer.cpp:23-30 | masking a 64-bit index is taking it modulo the power-of-two capacity |
| `RingArithmetic.WrapKeepsSlot` | source/container/ring_buffer.cpp:215-221 | the wrap of the 64-bit index does not move its place in the ring, the capacity dividing 2^64 |
| `RingBuffers.CapacityFits` | source/container/ring_buffer.cpp:23-30 | a power-of-two capacity below 2^64 leaves every distance of the two indices representable |
| `RingBuffers.RingBuffer.constructor` | source/container/ring_buffer.cpp:23-30 | the ring is empty and its capacity is the least power of two that holds what was asked for |
| `RingBuffers.RingBuffer.Peek` | source/container/ring_buffer.cpp:84-109 | copies the oldest bytes across the wrap, or nothing if there are too few |
| `RingBuffers.RingBuffer.Read` | source/container/ring_buffer.cpp:111-122 | the ring is a byte queue: the oldest bytes are copied out and leave |
| `RingBuffers.RingBuffer.Write` | source/container/ring_buffer.cpp:124-151 | the ring is a bounded byte queue: all bytes are appended in order, or none if they do not fit |
| `RingBuffers.RingBuffer.CommitDirectRead` | source/container/ring_buffer.cpp:207-213 | the oldest bytes leave, index wrap included |
| `RingBuffers.RingBuffer.CommitDirectWrite` | source/container/ring_buffer.cpp:215-221 | the bytes that lie behind the write index in logical order are appended, index wrap included |
| `RingBuffers.RingBuffer.DirectWriteSize` | source/container/ring_buffer.cpp:170-179 | the free bytes up to the end of the block |
| `RingBuffers.RingBuffer.DirectReadSize` | source/container/ring_buffer.cpp:159-168 | the used bytes up to the end of the block |
| `RingBuffers.RingBuffer.DirectReadIsContents` | source/container/ring_buffer.cpp:181-187 | what lies at the direct read pointer is the front of the contents |
| `RingBuffers.RingBuffer.Clear` | source/container/ring_buffer.cpp:153-157 | the ring is empty |
| `RingBuffers.RingBuffer.SegmentsForReceive` | source/network/windows/iocp/net_server.cpp:986-992 | the two segments of a receive cover exactly the free bytes, in logical order |
| `RingBuffers.RingBuffer.Receive` | source/network/windows/iocp/net_server.cpp:986-1004 | filling them at any time changes no byte a reader can see, and committing then appends exactly those bytes |
| `RingBuffers.RingBuffer.ReadingKeepsPost` | source/network/windows/iocp/net_server.cpp:716-753 | reading while the receive is outstanding leaves its segments free |
| `Frames.ParseExact` | source/network/windows/iocp/net_server.cpp:721-754 | extracted frames and what is left are together the bytes received, no whole frame is left, and a wrong start is noticed |
| `Frames.ParseAppend` | source/network/windows/iocp/net_server.cpp:721-754 | frames recognised stay recognised when more bytes arrive, and parsing goes on from the rest |
| `Frames.DesyncStays` | source/network/windows/iocp/net_server.cpp:731-740 | after a wrong start nothing more is ever extracted |
| `Frames.TakenWhenWhole` | source/network/windows/iocp/net_server.cpp:721-754 | a frame of a sent stream is extracted exactly when its last byte is there |
| `ReceiveSessions.ChunkingIrrelevant` | source/network/windows/iocp/net_server.cpp:716-754 | the frames of all completions in order are the frames of the bytes received, however they were cut into completions |
| `ReceiveSessions.RingBound` | source/network/windows/iocp/net_server.cpp:978-989 | the bytes in the ring and the posted receive never exceed the ring's capacity |
| `ReceiveSessions.DisconnectIffFilled` | source/network/windows/iocp/net_server.cpp:978-984 | the receive side disconnects if and only if some completion fills the ring to capacity, and that completion is the last |
| `ReceiveSessions.ExtractsWhatArrived` | source/network/windows/iocp/net_server.cpp:716-754 | of a sent stream, the session stays in step and extracts in order exactly the frames whose last byte has arrived |
| `ReceiveSessions.ArrivesUnlessFilled` | source/network/windows/iocp/net_server.cpp:716-754 | the whole stream is extracted if and only if no completion fills the ring while bytes are still to come |
| `ReceiveSessions.SomeChunkingDelivers` | source/network/windows/iocp/net_server.cpp:716-754 | some chunking carries a stream through with the session still receiving if and only if every frame is shorter than the ring |
| `ReceiveSessions.EveryChunkingDelivers` | source/network/windows/iocp/net_server.cpp:716-754 | every chunking does if and only if the whole stream is shorter than the ring |
| `ReceiveSessions.LongFrameEndsSession` | source/network/windows/iocp/net_server.cpp:978-984 | a frame longer than the ring, and all behind it, are never extracted under any chunking, and the session ends there |
| `Receivers.TakeFrame` | source/network/windows/iocp/net_server.cpp:748-753 | one whole frame moves from the ring into a packet, byte for byte |
| `Receivers.PeekHeader` | source/network/windows/iocp/net_server.cpp:727-746 | classifies the front of the ring: too short, wrong code, or a whole frame of this size |
| `Receivers.ExtractFrames` | source/network/windows/iocp/net_server.cpp:721-754 | the frame loop ends with exactly the parse of the ring's bytes: packets, rest, and whether it lost step |
| `Receivers.DeliverAll` | source/network/windows/iocp/net_server.cpp:774-792 | packets are decoded and handed on in order up to the first that fails its checksum |
| `Receivers.OnReceive` | source/network/windows/iocp/net_server.cpp:714-795 | a receive completion: what is delivered and left, and disconnect exactly if the ring was filled, the stream lost step or a packet was corrupt |
| `Receivers.HandleCompletions` | source/network/windows/iocp/net_server.cpp:714-795 | a whole session on the real ring, completion after completion until it is disconnected: each completion hands on, and the ring keeps, what the session's run says; it disconnects exactly if a completion fills the ring, the stream loses step or a packet is corrupt |
| `PlainReceivers.TakeFrame` | source/network/windows/iocp/server.cpp:724-729 | one whole 2-byte frame moves from the ring into a packet, byte for byte |
| `PlainReceivers.PeekHeader` | source/network/windows/iocp/server.cpp:713-722 | classifies the front of the ring: too short, or a whole frame of this size |
| `PlainReceivers.ExtractFrames` | source/network/windows/iocp/server.cpp:711-730 | the frame loop ends with exactly the parse of the ring's bytes |
| `PlainReceivers.DeliverAll` | source/network/windows/iocp/server.cpp:750-761 | every packet extracted is handed on in order |
| `PlainReceivers.OnReceive` | source/network/windows/iocp/server.cpp:704-762 | a receive completion: what is handed on and left, and disconnect exactly if the ring was filled |
| `PlainReceivers.HandleCompletions` | source/network/windows/iocp/server.cpp:704-762 | a whole session of the twin server: each completion hands on, and the ring keeps, what the session's run says, until a completion fills the ring |
| `Deliveries.CompletionInOrder` | source/network/windows/iocp/net_server.cpp:774-792 | in every interleaving of the workers the packets of one completion are handed on in order up to its first corrupt one, whatever other completions do |
| `Deliveries.HandedOnOnce` | source/network/windows/iocp/net_server.cpp:774-792 | once the workers have finished, what was handed on is the completions' lists together, nothing lost or doubled |
| `Deliveries.OneWorkerInOrder` | source/network/windows/iocp/net_server.cpp:774-792 | with one worker thread the payloads are handed on in the order extracted |
| `Deliveries.OrderedUnlessOverlapping` | source/network/windows/iocp/net_server.cpp:774-792 | whatever the workers do next, completion order is kept if and only if at most one of them has something to hand on and nothing of a later completion has been |
| `Deliveries.SessionYields` | source/network/windows/iocp/net_server.cpp:714-795 | of a sent stream the completions yield, in order, exactly the payloads whose frames have ended, none of them corrupt, and the stream stays in step |
| `Deliveries.DeliversWhatArrived` | source/network/windows/iocp/net_server.cpp:714-795 | for every peer, chunking and interleaving: in step, extracted are exactly the frames that have arrived whole, handed on in the end exactly their payloads, each once, in order with one worker; disconnected exactly if a completion filled the ring |
| `Deliveries.OrderFails` | source/network/windows/iocp/net_server.cpp:774-792 | two packets in two completions can be handed on in reverse |
| `EndToEnd.SentIsDelivered` | source/network/windows/iocp/net_server.cpp:714-795 | what `HandleCompletions` makes of a sent stream: its lists together are exactly the payloads whose frames have ended by the last completion, in order; nothing is out of step or corrupt, so only a full ring disconnects |
| `EndToEnd.WireRoundTrip` | source/network/windows/iocp/net_server.cpp:714-795 | that for the obfuscated protocol: for any packets within the size limit, any random keys, any ring capacity, any completions and any interleaving, what is handed on are exactly the payloads of the packets that have arrived whole |
| `EndToEnd.SentIsHandedOn` | source/network/windows/iocp/net_server.cpp:514-550 | joined to the sending engine: of the packets a slot of any run has enqueued, through its batches and partial completions, the receiver hands on those its socket has taken and the network has brought |
| `EndToEnd.LongPayloadNeverArrives` | source/network/windows/iocp/net_server.cpp:978-984 | with the 8192-byte ring a payload of 8188 bytes or more is never handed on under any chunking, and ends the session |
| `EndToEnd.OrderCanReverse` | source/network/windows/iocp/net_server.cpp:774-792 | any two packets that fit the ring together can reach `on_recv` in reverse |
| `EndToEnd.PlainWireRoundTrip` | source/network/windows/iocp/server.cpp:704-762 | the same for the 2-byte frames of the twin server |
| `EndToEnd.PlainSentIsHandedOn` | source/network/windows/iocp/server.cpp:704-762 | and joined to its sending engine |
| `EndToEnd.PlainLongPayloadNeverArrives` | source/network/windows/iocp/server.cpp:935-941 | a payload of 8191 bytes or more is never handed on |
| `LoginTickets.Reachable` | examples/login_gated_chat/chat_server/chat_server.cpp:543-789 | the protocol's invariant in every state of every run |
| `LoginTickets.LoginExclusive` | examples/login_gated_chat/chat_server/chat_server.cpp:543-578 | at most one logged-in player per account, its session key is in the store even if replies are lost, and a ticket and a session key of one account never coexist |
| `LoginTickets.TicketSingleUse` | examples/login_gated_chat/chat_server/chat_server.cpp:580-683 | admissions plus the ticket still present never exceed the issues, and a ticket is present exactly while the latest issue has neither expired nor been claimed |
| `LoginTickets.AdmissionsPresentTheTicket` | examples/login_gated_chat/chat_server/chat_server.cpp:48-55 | every admission presented exactly the key of the latest issue that had neither expired nor been consumed: it comes from a claim with its key that found that ticket good, and no other admission comes from that claim |
| `LoginTickets.TicketsOnlyClaimedOrExpired` | examples/login_gated_chat/chat_server/chat_server.cpp:685-789 | a ticket goes only by its expiry or its claim, never by a leave, a restart or a lost reply, and changes only by a newer issue |
| `LoginTickets.FindToKick` | examples/login_gated_chat/chat_server/chat_server.cpp:500-515 | the loop over all players finds one that is logged in for the account, or none if and only if nobody is |
| `LoginTickets.KickIsComplete` | examples/login_gated_chat/chat_server/chat_server.cpp:500-515 | stopping at the first match misses nobody |
| `SectorGrid.ToSectorIndex` | examples/chat_server/single_thread/chat_server.cpp:571-574 | the index is in range and tells its coordinates, so the 16-bit cast loses nothing |
| `SectorGrid.AroundSectors` | examples/chat_server/single_thread/chat_server.cpp:576-601 | the loops fill the nine entries, with the marker outside the grid |
| `SectorGrid.AroundIsNear` | examples/chat_server/single_thread/chat_server.cpp:576-601 | the area lists a sector if and only if it is at most one away on each axis, grid edges included |
| `SectorGrid.AroundDistinct` | examples/chat_server/single_thread/chat_server.cpp:576-601 | no sector is listed twice |
| `ChatWorlds.ChatWorld.PlaceAt` | examples/chat_server/single_thread/chat_server.cpp:514-515 | a player on no list enters the list of its new sector, and lists, map and count agree again |
| `ChatWorlds.ChatWorld.SectorRemovePlayer` | examples/chat_server/single_thread/chat_server.cpp:616-629 | swap-remove takes exactly this player off the list |
| `ChatWorlds.ChatWorld.HandleClientJoin` | examples/chat_server/single_thread/chat_server.cpp:335-363 | a new unplaced, not logged-in player; lists and count still agree with the map |
| `ChatWorlds.ChatWorld.HandleClientLeave` | examples/chat_server/single_thread/chat_server.cpp:365-384 | the player is gone from map, list and count, which still agree |
| `ChatWorlds.ChatWorld.HandleReqLogin` | examples/chat_server/single_thread/chat_server.cpp:454-478 | logs in and answers exactly when not logged in and the payload suffices, else disconnects; count and lists agree with the map |
| `ChatWorlds.ChatWorld.HandleReqSectorMove` | examples/chat_server/single_thread/chat_server.cpp:480-518 | moves and answers exactly on a valid request of a logged-in player, else disconnects; each placed player is in exactly its sector's list, once |
| `ChatWorlds.ChatWorld.BroadcastResMessage` | examples/chat_server/single_thread/chat_server.cpp:703-722 | sends exactly once to exactly the players a full scan of the map finds within one sector on each axis |
| `ChatWorlds.ChatWorld.HandleReqMessage` | examples/chat_server/single_thread/chat_server.cpp:520-565 | broadcasts the text exactly when every check passes, else disconnects |
| `ChatWorlds.ChatWorld.HandleRecv` | examples/chat_server/single_thread/chat_server.cpp:386-426 | each request has its handler's effect, exactly the requests that are not accepted disconnect, and no request changes another player, nor its own unless it is an accepted login or move |
| `ChatWorlds.ChatWorld.ListIsSector` | examples/chat_server/single_thread/chat_server.cpp:603-629 | a sector's list names exactly the players the map places there, each once |
| `SendPools.Reachable` | examples/chat_server/multi_thread/chat_server.cpp:755-856 | the pool's invariant in every state of every run |
| `SendPools.SentIsPrefix` | examples/chat_server/multi_thread/chat_server.cpp:755-856 | for each session the packets handed to `send_packet` are at every moment a prefix of those the content thread issued |
| `SendPools.AllSentOnceStopped` | examples/chat_server/multi_thread/chat_server.cpp:798-824 | once every worker is joined they are all of them |
| `SendPools.FeedIssues` | examples/chat_server/multi_thread/chat_server.cpp:755-772 | the content thread never waits for a worker: whatever the handlers send can be enqueued |
| `SendPools.PoolServesWorld` | examples/chat_server/multi_thread/chat_server.cpp:755-856 | the pool refines the single-threaded server: fed the sends of a chat world, each session gets at every moment a prefix of what the world sent it, and all of it once stopped |
| `SendPools.NoSleepBesideWork` | examples/chat_server/multi_thread/chat_server.cpp:764-771 | no worker sleeps while its queue holds work, unless the post that brought it is still under way |
| `SendPools.StopEnds` | examples/chat_server/multi_thread/chat_server.cpp:798-856 | when the joins begin no worker is blocked, and each of its steps leaves it less to do |
| `WakePools.Reachable` | examples/echo_with_group/send_worker_pool.cpp:64-143 | the pool's invariant in every state of every run of any number of posters |
| `WakePools.NoSleepBesideWork` | examples/echo_with_group/send_worker_pool.cpp:93-107 | a worker is never blocked beside work unless a post to it is between its enqueue and its notification, or stop is about to notify it |
| `WakePools.DispatchedInPostOrder` | examples/echo_with_group/send_worker_pool.cpp:124-143 | one worker serves a session, and what it has dispatched for it is a prefix of what was posted for it |
| `WakePools.NothingVanishes` | examples/echo_with_group/send_worker_pool.cpp:124-143 | when stop returns every job was dispatched, discarded or is still queued, in post order |
| `WakePools.StopWakesAll` | examples/echo_with_group/send_worker_pool.cpp:64-91 | once stop has notified a worker no interleaving leaves it blocked, and each of its steps leaves it less to do |
| `Aggregates.CountWraps` | examples/monitor_server/monitor_server.cpp:524-524 | the count is the number of samples modulo 2^32 |
| `Aggregates.SumExact` | examples/monitor_server/monitor_server.cpp:525-525 | as long as the count has not wrapped the 64-bit sum is exact |
| `Aggregates.ExtremesExact` | examples/monitor_server/monitor_server.cpp:526-527 | minimum and maximum are those of the samples, sentinels notwithstanding |
| `Aggregates.AverageExact` | examples/monitor_server/monitor_server.cpp:566-570 | below 2^32 samples the average is the truncated mean and lies between minimum and maximum, for every mix of signs |
| `Aggregates.AverageFailsFrom` | examples/monitor_server/monitor_server.cpp:561-568 | from 2^32 samples on, either no row is written or some window of that size gets an average above its maximum |
| `MonitorServers.MonitorServer.Ingest` | examples/monitor_server/monitor_server.cpp:510-543 | a sample joins its metric's open window and is relayed to every tool once |
| `MonitorServers.MonitorServer.FlushAggregator` | examples/monitor_server/monitor_server.cpp:545-588 | the window is closed with exactly one right row per metric that has samples whose count has not wrapped to zero; every sample ever ingested is in one closed window or the open one |
| `MonitorServers.MonitorServer.CollectRows` | examples/monitor_server/monitor_server.cpp:549-582 | the nested loops collect exactly those rows, in whatever order the tables are walked |
| `MonitorServers.KeyMatchesExactly` | examples/monitor_server/monitor_server.cpp:466-474 | the key comparison accepts exactly the fields whose text is the key |
| `MonitorServers.MonitorServer.HandleLocalSample` | examples/monitor_server/monitor_server.cpp:433-436 | a sample of the own host is ingested under the monitor's own number |
| `MonitorServers.MonitorServer.HandleClientJoin` | examples/monitor_server/monitor_server.cpp:326-351 | a new session has no role, and the targets are still exactly the tools |
| `MonitorServers.MonitorServer.HandleToolLogin` | examples/monitor_server/monitor_server.cpp:455-489 | a session becomes a tool and a relay target exactly on the right key; the targets are the tools, each once |
| `MonitorServers.MonitorServer.HandleSsLogin` | examples/monitor_server/monitor_server.cpp:438-453 | an unassigned session becomes a reporter under the number it sent, a short payload disconnects it |
| `MonitorServers.MonitorServer.HandleClientLeave` | examples/monitor_server/monitor_server.cpp:353-375 | the session is gone and the targets are still exactly the tools |
| `MonitorServers.MonitorServer.HandleRecv` | examples/monitor_server/monitor_server.cpp:377-431 | only a reporter's complete data point counts, under its registered number; a role once taken stays; exactly what a role may not send disconnects |
| `ContentLinks.ContentLink.OnRecv` | examples/login_gated_chat/login_server/content_link.cpp:147-171 | only a complete registration changes the table, everything else disconnects its sender |
| `ContentLinks.ContentLink.HandleSsRegister` | examples/login_gated_chat/login_server/content_link.cpp:187-248 | the connection's entry is replaced and no other, and a duplicate name is found exactly if there is one |
| `ContentLinks.TerminatedFits` | examples/login_gated_chat/login_server/content_link.cpp:202-203 | a stored text fits its field with the terminator and is what was sent up to there |
| `ContentLinks.ContentLink.GetServers` | examples/login_gated_chat/login_server/content_link.cpp:52-76 | every registration once |
| `ContentLinks.Find` | examples/login_gated_chat/login_server/content_link.cpp:41-50 | the first entry of that name, or none exactly if there is none |
| `ContentLinks.NoRegistrationOutlives` | examples/login_gated_chat/login_server/content_link.cpp:132-145 | in every run of the engine with registrations made inside `on_recv`, no registration is left once its connection's `on_client_leave` has returned |
| `ContentLinks.OnlyLeaveRemoves` | examples/login_gated_chat/login_server/content_link.cpp:132-145 | and none goes before |

## Left out

- Weak memory orders, wall-clock fairness and liveness beyond the decreasing measures.
- The bodies of the lock-free containers, the memory pools and `Group`: their template files are not part of this model.
- `start()` and its error unwinding, socket options, and what `stop()` does after the last session is gone (joining the workers, stopping the groups, freeing the slots).
- Session ids whose index is out of range: `acquire_session` refuses them at once, the model does not let them be called.
- The send limit is the default 1024; nothing in the sources changes it.
- The receive ring inside the engine's step system: parsing is a step with any result there, and the real loop is in `Receivers`.
- Moves of buffers and packets, null pointers and buffers whose allocation failed.
- Checksum detection of corruption: an 8-bit sum does not detect every change, so nothing is claimed.
- Redis, MySQL and the login link: the store is an atomic map with the two scripts as steps, the database an oracle, the link a step that may deliver a kick at any time.
- The session engine, the ticket protocol and both pools are step systems on values, because their operations interleave: a thread's loop is a program point per atomic operation, and in-place update within one operation is not captured there. In-place updates of buffers, the ring, packets, players and tables are modelled by classes.
- Session keys of other chat instances come and go freely; their servers are not modelled.
- `MonitorSession` objects are values of the session map; aliasing of them is not captured. Timeouts and the database writer thread are left out.
- Heartbeats, probes, reporters, TPS counters, console, logging and output devices.
- Chat packets' id and nickname fields, and the packet building of the second wake-flag pool (`dispatch`).
- The other lock-protected queues (`content_wake`, login workers) repeat the wake protocols modelled here.
