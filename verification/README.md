# Verified model of the IOCP session server

A model, in Dafny 4.11, of the stateful cores of a Windows IOCP game server, and proofs about it:

* the state-partitioned sparse set with generational handles (`SparseSet.dfy`, `Handles.dfy`);
* the reference-counted pool and its counting pointers, first as one thread uses them (`Pool.dfy`), then as a step
  machine over all interleavings of any number of threads (`Lifecycle.dfy`), with its inductive invariant
  (`LifecycleInvariant.dfy`), the effect of single steps (`LifecycleSteps.dfy`) and theorems over whole runs
  (`LifecycleRuns.dfy`);
* the code of the I/O threads and the packet worker — accept, receive, send, disconnect, completion dispatch, pointer
  release, broadcast — as programs over that machine (`Server.dfy`). Each access to shared state is one machine step
  whose guard is proved where the code takes it, and no thread takes two steps in a row: `Take` demands that all other
  threads had their chance to run since the step before, and only `Interfere` gives it to them. What a thread may rely
  on meanwhile is derived from the machine (`Interference.dfy`), what a callee leaves its caller is in `Frames.dfy`, the
  exact steps each piece of code takes are in `Traces.dfy`, and `Scenario.dfy` follows one run through accept, connect, send and a failing disconnect step by step;
* the mirrored ring buffers (`Rings.dfy`), the framing specification (`Framing.dfy`), the receive loop
  (`ReceivePath.dfy`) and the send pipeline (`SendPath.dfy`), on arrays with wrap-around, rebasing and partial
  completions; the test client's loops (`Clients.dfy`) and both round trips (`EndToEnd.dfy`);
* the packet pool's memory and the copies into it (`Blocks.dfy`), the task queue and its worker (`Tasks.dfy`), the path
  from the wire to the packet handlers in all interleavings over that memory (`TaskRuns.dfy`) and the frames that do
  not fit it (`LongFrames.dfy`), and whom a broadcast reaches (`Broadcast.dfy`).

`dafny verify dfyconfig.toml` checks the whole project.

## What the main results say

1. **Sparse set.** Every operation keeps `dense` a permutation with `sparse.where` its inverse and the cursors rising
   from 0 to N, and means exactly one update of the map from slot to state and generation (`MoveToState`, `Pop`,
   `Push`), however many boundary swaps it makes. A handle is valid after a run exactly when its slot was pushed a
   multiple of 2^32 times since (`StaleHandleBound`).
2. **Reference conservation.** In every reachable state of every interleaving each count equals the number of
   pointers counting towards the slot; every pointer names a slot in use under its current generation; a free slot's
   records are null and not in flight; a slot in use is pointed to, unless a thread owes its first reference or its
   push (`ReachableIsSafe`). Claims and pushes of a slot alternate (`ClaimsAlternate`), so nothing is released twice or
   recycled while pointed to.
3. **In-flight protection and lifecycle.** From posting to completion a record keeps naming its session and the slot
   is not pushed (`InFlightProtects`); the state of an incarnation only rises (`StateOnlyRises`); however many threads
   call `Disconnect`, at most one disconnect is attempted (`AtMostOneDisconnect`); resetting a table entry or a record
   never drops the last reference (`SharedIsNeverLast`); the send flag is set exactly while one send taken since the slot
   was claimed is not given back (`FlagCountsSends`); the accept counter is bounded and accounts for every unit in
   every step (`ReachableIsSafe`). This includes runs in which a broadcast starts a send on a session that was recycled
   into the pending state since it was listed, and runs in which a packet handler sets the send flag of its session
   without holding a pointer to it.
4. **The programs obey the protocol.** `HandleCompletion`, `Broadcast` and all they call take only steps the machine
   allows, whatever the other threads do before every single one of them and whichever calls fail; afterwards the thread
   has no pointer left, owes no first reference and no push, has no half-done reset, and holds the accept units it came
   with. Given how the system answers and what the thread sees, each contract states the exact steps taken, sights
   included: `HandleCompletion` clears the record of whatever completed, a failed disconnect's excepted, calls its handler
   exactly if the operation did not fail and, for a receive or send, moved bytes, and disconnects exactly if it failed,
   moved none, or its handler returned false (`DisconnectsIff`, `ConnectsIff`). Calls of `SendPacket`, `OnRecv` and `OnSend` are recorded with their arguments.
5. **Receiving.** For every stream and every split into completions the packets queued are the greedy
   length-prefix parse, the ring's window is the unparsed remainder, rejection happens exactly at the first illegal
   size, room is always left for the next receive, and the posted length is the exact free space although the
   expression underflows on the way (`OnRecv`, `ReceiveStream`, `ChunkingIndependence`, `PostedLengthIsFreeSpace`).
6. **Sending.** Bytes completed followed by the ring's window are always the concatenation of the accepted packets,
   and the bytes handed to the pending send never change under later packets, in every run of packets, partial
   completions and failed posts (`SendPacket`, `OnSend`, `Transmit`). Every packet is kept that fits the ring together
   with all before it.
7. **Round trips.** `ServerToClient`, by which a client of a reliable connection receives exactly the packets sent if
   they fit the ring together, and `ClientToServer`; from the wire to the handlers in order and without loss in
   every interleaving, also across shutdown (`WireToHandler`, `DrainedMeansAllExecuted`, `ShutdownStops`). Two copies
   lie between a ring and a handler, both in one pool that other threads write at the same time. While every frame fits,
   each handler is called for exactly the bytes its client sent (`HandlersSeeTheFrames`), and fitting is the exact
   condition (`FitsExactly`).
8. **Broadcast.** In every reachable state of the server exactly the connected sessions other than the sender are sent
   the packet, once each (`Broadcast` and `ReachableReceivers` of `Broadcasting`). While other threads run, exactly the
   sessions connected when they are listed are tried, once each, by a look at their table entry, and the packet is
   handed to `SendPacket` exactly once for each look that found a pointer (`IoThreads.Broadcast`).

## Where a property fails as first stated

* *The copy of an accepted packet stays inside its packet block.* The receive loop bounds a packet only by the ring,
  while blocks hold 1024 bytes. All copies stay inside exactly when no packet is longer (`CopiesStayIffTheyFit`).
  `CopyReaches` says how far a longer one gets: bytes 1025 to 1032 land in the slot's handle, which nothing reads for a
  packet, the next eight in its count, the rest in the next slot. The packet of `AcceptedPacketMayNotFit` is accepted
  and does the last two.
* *A handler sees the bytes its client sent.* It does in every run whose frames all fit: up to 1040 bytes, where the
  next slot starts, or 1032 for a chat packet, whose answer is eight bytes longer (`HandlersSeeTheFrames`). For every
  longer frame there is a run, with no other long frame, in which a handler is not called for what its client sent
  (`FitsExactly`).
* *A set `isSending_` flag means buffered bytes.* `SendPacket` keeps this exactly when the flag was already set or the
  packet has bytes; `OnSend` always restores it. `EmptyPacketIsPosted` is the failing call. No caller in the repository
  makes it: each fills in a size of at least a header. The chat reply adds eight to a received 16-bit size, which wraps
  only for a packet far longer than its block.
* *No buffered bytes wait with nobody sending them.* `SendPacket` keeps this exactly when a send was outstanding, the
  call buffered nothing, or its post succeeded; `OnSend` exactly when nothing is left or its post succeeded. Without
  empty packets it holds exactly while no post has failed (`NoLostWakeUp`). `FailedPostStrandsBytes` and
  `SetFlagStrandsBytes` are the failing calls.
* *A posted record names its session.* It does exactly when the table entry was not yet reset when the record was
  filled (`FillRecord`). The entry is null only after the session's one disconnect was attempted
  (`NullEntryIsAttempted`), so `Register` posts accepts and disconnects with a pointer always, and receives and sends
  without one only while the session is disconnecting. The system accepts those only on a connected socket, hence only
  after the disconnect failed (`NullPostAfterDisconnect`), as in the run of `NullPostIsReachable`. The failed disconnect
  leaves its own record's pointer behind, so the slot of a record posted null is never recycled (`OrphansStay`).
* *The accept counter is the number of accepts under way.* It is that, plus the units in threads' hands, plus those of
  calls that failed without the program noticing: `AcceptEx` and `DisconnectEx` return a boolean, which is compared with
  `SOCKET_ERROR` and never equals it (`Server/Session.cpp:163`, 184). Such a unit is never given back and its session
  never reclaimed (`PostLostKeeps`, `ReachableIsSafe`).
* *The pool stays consistent under `Acquire`.* It does exactly unless a slot is taken in state 0, which no caller does.
* *A handle becomes invalid when its slot is recycled.* It becomes valid again after 2^32 recyclings
  (`StaleHandleBound` is an equivalence).

## Model

| member | source | states |
|---|---|---|
| `Handles.MakeHandle` | Common/Pool/SparseSet.hpp:166-171 | the lower 32 bits of a handle are its slot and the upper 32 its generation, and it decodes into them |
| `Handles.HandleCodecInverse` | Common/Pool/SparseSet.hpp:158-171 | encoding and decoding are inverse to each other on every 64-bit value |
| `Handles.InvalidHandleDecodes` | Common/Pool/ISparsePool.hpp:29 | the invalid handle's slot half is out of range for every pool |
| `Handles.LaterNext` | Common/Pool/SparseSet.hpp:78 | wrapping after each 32-bit increment is wrapping once at the end |
| `SparseSets.SparseSet.constructor` | Common/Pool/SparseSet.hpp:48-56 | all slots start free, at generation 0, in a valid arrangement |
| `SparseSets.SparseSet.RegionsAreStates` | Common/Pool/SparseSet.hpp:42-45 | the slot at dense position i is in state s exactly when the cursors of s enclose i |
| `SparseSets.SparseSet.RegionWidth` | Common/Pool/SparseSet.hpp:150-153 | the width of a region is the number of slots in its state |
| `SparseSets.SparseSet.SwapDense` | Common/Pool/SparseSet.hpp:111-113 | exchanging two slots of one state keeps the arrays inverse to each other, every slot in its region, and the map it represents |
| `SparseSets.SparseSet.IncrementState` | Common/Pool/SparseSet.hpp:98-117 | one boundary swap is one map update, and the top state is left alone |
| `SparseSets.SparseSet.DecrementState` | Common/Pool/SparseSet.hpp:119-138 | one boundary swap down is one map update, and state 0 is left alone |
| `SparseSets.SparseSet.MoveToState` | Common/Pool/SparseSet.hpp:81-96 | terminates and changes the state of one slot only, whatever the distance; an illegal state changes nothing |
| `SparseSets.MoveShiftsOneSlot` | Common/Pool/SparseSet.hpp:81-96 | a move changes the sizes of the source and target regions by one and no other region |
| `SparseSets.SparseSet.Pop` | Common/Pool/SparseSet.hpp:58-72 | fails exactly for an illegal state or an empty free region, else hands out the current handle of a free slot and moves that slot |
| `SparseSets.SparseSet.Push` | Common/Pool/SparseSet.hpp:74-79 | frees the slot and ends its generation, from whatever state it was in |
| `SparseSets.SparseSet.GetIndicesInState` | Common/Pool/SparseSet.hpp:140-156 | lists every slot of the state, each once, under its current handle |
| `SparseSets.SparseSet.IsValid` | Common/Pool/SparseSet.hpp:158-164 | true exactly for handles of existing slots under their current generation |
| `SparseSets.SparseSet.GetHandle` | Common/Pool/SparseSet.hpp:166-171 | the handle made is valid |
| `SparseSets.SparseSet.GetState` | Common/Pool/SparseSet.hpp:173-177 | the state of the slot named by the lower half of the handle, whatever its generation half |
| `SparseSets.GenerationAfterRun` | Common/Pool/SparseSet.hpp:74-79 | after any run of moves and pushes a slot's generation counts its pushes modulo 2^32 |
| `SparseSets.GenerationFromZero` | Common/Pool/SparseSet.hpp:74-79 | a slot that starts at generation 0 has, after any run, the number of its pushes modulo 2^32 |
| `SparseSets.StaleHandleBound` | Common/Pool/SparseSet.hpp:74-79 | a handle is valid after a run exactly when its slot was pushed a multiple of 2^32 times |
| `SparseSets.InvalidNeverValid` | Common/Pool/SparseSet.hpp:158-164 | the invalid handle is never valid |
| `Pools.SparsePool.Acquire` | Common/Pool/SparsePool.hpp:51-67 | null exactly for an illegal state or no free slot, otherwise a first, valid, counted pointer to a slot that was free; the pool stays consistent exactly unless a slot was taken in state 0 |
| `Pools.SparsePool.ReleaseRef` | Common/Pool/SparsePool.hpp:96-111 | the count falls by one and the slot is pushed exactly when it reaches zero |
| `Pools.SparsePool.CopyAssign` | Common/Pool/SharedPoolPtr.hpp:48-72 | the target becomes a copy; the slot it named is pushed exactly when nobody else names it; self-assignment changes nothing |
| `Pools.SparsePool.MoveAssign` | Common/Pool/SharedPoolPtr.hpp:74-93 | the pointer changes place, the source becomes null, and the target's old slot is pushed exactly when nobody else names it |
| `Pools.SparsePool.Reset` | Common/Pool/SharedPoolPtr.hpp:95-127 | the pointer becomes null and its slot is pushed exactly when nobody else names it |
| `Pools.SweptConsistent` | Common/Pool/SparsePool.hpp:96-111 | giving up one pointer keeps counts exact, pointers current, and slots in use exactly while pointed to |
| `Framing.ParseConserves` | Server/Session.cpp:78-104 | frames followed by the remainder are the stream |
| `Framing.FramesWellFormed` | Server/Session.cpp:85-92 | every frame cut has a truthful, legal size |
| `Framing.ParseAppend` | Server/Session.cpp:75-117 | parsing resumes from the remainder whatever arrives later |
| `Framing.ParseUnique` | Server/Session.cpp:78-104 | no other way to cut the stream into legal packets and a front that is no packet exists |
| `Framing.ParseFlatten` | Server/Session.cpp:78-104 | a stream of well-formed packets parses into exactly those packets |
| `Framing.IllegalIsFinal` | Server/Session.cpp:85-90 | after an illegal size no byte received later yields another packet |
| `Framing.RestLeavesRoom` | Server/Session.cpp:39-46 | the remainder of a legal stream never fills the ring |
| `Framing.ChunkingIndependence` | Server/Session.cpp:75-117 | packets, remainder and verdict depend on the stream only, not on its split into completions |
| `Rings.MirroredRingBuffer.CopyIn` | Common/MirroredRingBuffer.cpp:35-47 | a copy through the doubled range lands on the physical bytes modulo the size and on no others |
| `Rings.MirroredRingBuffer.CopyOut` | Common/MirroredRingBuffer.cpp:35-47 | a copy out reads the bytes the doubled range shows |
| `Rings.CopyAppends` | Server/Session.cpp:224-234 | bytes appended behind a window extend it and change none of it while both fit the ring |
| `Rings.Rebase` | Server/Session.cpp:106-109 | lowering both positions by the ring size shows the same bytes |
| `ReceivePath.PostedLengthIsFreeSpace` | Server/Session.cpp:40-41 | the unsigned expression, which may wrap below zero on the way, equals the free space |
| `ReceivePath.Receiver.RegisterRecv` | Server/Session.cpp:39-73 | refuses exactly a full ring or a failed post; posts exactly the free space, within the doubled range |
| `ReceivePath.Receiver.PeekFront` | Server/Session.cpp:79-92 | the header check decides as the framing specification does |
| `ReceivePath.Receiver.TakePacket` | Server/Session.cpp:94-103 | the packet at the front is read out, queued as it is, and only it leaves the window |
| `ReceivePath.Receiver.ReturnToFirstMapping` | Server/Session.cpp:106-109 | rebasing keeps the unparsed bytes and brings the read position below the ring size |
| `ReceivePath.Receiver.OnRecv` | Server/Session.cpp:75-117 | one completion queues exactly the frames of the window, keeps exactly the remainder, fails exactly on an illegal size or a failed post, and always leaves room |
| `ReceivePath.CompleteRecv` | Server/Session.cpp:75-117 | after each completion, whether or not the next receive is posted, the packets queued are those of everything received so far |
| `ReceivePath.ReceiveStream` | Server/Session.cpp:39-117 | over a stream in completions of any allowed sizes, posts succeeding or not, the packets queued are one greedy parse of the bytes delivered; with no failed post acceptance is exactly of legal streams |
| `SendPath.Sender.RegisterSend` | Server/Session.cpp:119-148 | hands exactly the unsent bytes to the kernel |
| `SendPath.Sender.Append` | Server/Session.cpp:232-234 | buffering extends the unsent bytes and changes no byte of a pending send |
| `SendPath.Sender.SendPacket` | Server/Session.cpp:224-246 | accepts exactly what fits, posts exactly when the flag was clear, leaves a pending send alone; keeps "flag means bytes" exactly if the flag was set or the packet has bytes, and "nobody waits" exactly if a send was outstanding, nothing was added, or the post succeeded |
| `SendPath.Sender.Advance` | Server/Session.cpp:204-209 | reported bytes move from the front of the ring to the wire, across rebasing |
| `SendPath.Sender.OnSend` | Server/Session.cpp:200-222 | a partial completion keeps the pipeline equation and posts the rest; the flag then means bytes, and nobody waits exactly if none are left or the post succeeded |
| `SendPath.Sender.NoLostWakeUp` | Server/Session.cpp:211-243 | while every accepted packet has bytes the flag means bytes, and bytes wait with nobody sending them exactly when a post has failed |
| `SendPath.Drain` | Server/Session.cpp:200-222 | completions of any sizes, posts succeeding or not, keep the pipeline equation; they end with everything on the wire if no post failed and no packet was empty |
| `SendPath.Transmit` | Server/Session.cpp:200-246 | over any run of packets, partial completions and failed posts, wire and ring hold exactly the kept packets in order; a true result means kept, and without failed posts exactly that; every packet is kept that fits the ring together with all before it |
| `SendPath.EmptyPacketIsPosted` | Server/Session.cpp:226-239 | an empty packet on an idle session leaves the flag set with no byte buffered |
| `SendPath.FailedPostStrandsBytes` | Server/Session.cpp:239-242 | a failed post leaves a byte buffered, the flag set and nothing outstanding |
| `SendPath.SetFlagStrandsBytes` | Server/Session.cpp:236-243 | bytes sent behind a flag left set by a failed empty send wait with nobody sending them |
| `Clients.Client.SendByte` | Tests/Base/Client.cpp:74-89 | success means every byte was written in order; failure leaves a prefix |
| `Clients.Client.ReceiveByte` | Tests/Base/Client.cpp:91-107 | success means exactly the requested bytes were taken, however short the reads |
| `Clients.Client.ReceivePacket` | Tests/Base/Client.cpp:117-132 | takes exactly one packet off the stream, or a bare header when its size field is below a header |
| `Clients.Client.ReceivePackets` | Tests/Integration/02_StickyPackets.cpp:27-38 | the packets at the front of a stream are received as exactly those packets |
| `EndToEnd.DeliveredIsPrefix` | Server/Session.cpp:200-246 | at any moment the peer can parse a prefix of the accepted packets and nothing else |
| `EndToEnd.ServerToClient` | Server/Session.cpp:200-246 | the client receives a prefix of the packets the session kept; without failed posts exactly those whose `SendPacket` succeeded, and all of them if they fit 65536 bytes together |
| `EndToEnd.ClientToServer` | Tests/Base/Client.cpp:74-89 | the server queues a prefix of the packets sent, and without failed posts all of them |
| `EndToEnd.CopiesStayIffTheyFit` | Server/PacketHandler.cpp:84-89 | the copies of a stream's packets stay inside their blocks, whatever the memory holds, exactly when no packet is longer than a block |
| `EndToEnd.AcceptedPacketMayNotFit` | Server/Session.cpp:85-86 | a packet of 1041 bytes passes the receive check, and its copy changes the count of its slot and the packet in the next slot |
| `Blocks.SparesIff` | Common/Pool/ISparsePool.hpp:12-27 | a copy leaves a stretch behind its start alone, whatever the memory holds, exactly when it ends before the stretch |
| `Blocks.EarlierSlotsSpared` | Server/PacketHandler.cpp:84-89 | no copy, however long, changes a byte before its slot |
| `Blocks.CopyReaches` | Common/Pool/ISparsePool.hpp:12-27 | a copy stays in its block up to 1024 bytes, and reaches the handle, the count and the next slot exactly from 1025, 1033 and 1041 bytes on |
| `Blocks.FittingCopiesKeep` | Server/PacketHandler.cpp:84-89 | copies that end before the next slot leave packets in other slots alone |
| `Blocks.HeldIsRead` | Server/PacketHandler.cpp:59-76 | a slot that holds a packet with a truthful size is read back as exactly that packet |
| `Blocks.PacketPool.AcquirePacket` | Server/PacketHandler.cpp:84-89 | the packet is read back from its block byte for byte, and nothing else was written |
| `Blocks.PacketPool.CopyAgain` | Server/PacketHandler.cpp:73-76 | as many bytes as the first copy's header announces go to the second slot and nowhere else; if the first slot holds a packet the second one then does |
| `LifecycleInvariant.PointerIsLive` | Common/Pool/SharedPoolPtr.hpp:100-118 | whatever a pointer shows is a slot in use, under its current generation, with a positive count |
| `LifecycleInvariant.FreeIsUnnamed` | Server/Session.cpp:30-37 | a free slot is named by no pointer and none of its records is in flight, so re-initialising it releases nothing |
| `LifecycleInvariant.DyingIsUnnamed` | Common/Pool/SparsePool.hpp:96-111 | between its last release and its push a slot is named by no pointer |
| `LifecycleInvariant.InFlightFacts` | Server/IocpCore.cpp:81-83 | what the kernel completes names its own live, listed session |
| `LifecycleInvariant.SharedIsNeverLast` | Server/IocpCore.cpp:106-113 | resetting a table entry or a record leaves another reference, held by the resetting thread |
| `LifecycleInvariant.PopKeeps` | Common/Pool/SparsePool.hpp:53-65 | claiming and initialising a slot keeps the invariant and overwrites no pointer |
| `LifecycleInvariant.FirstRefKeeps` | Common/Pool/SharedPoolPtr.hpp:36-42 | counting the first reference of a claimed slot keeps the invariant |
| `LifecycleInvariant.CopyPtrKeeps` | Common/Pool/SharedPoolPtr.hpp:48-54 | copying a pointer keeps the invariant |
| `LifecycleInvariant.StoreTableKeeps` | Server/SessionManager.cpp:60 | moving a new session into the table keeps the invariant; the entry was null |
| `LifecycleInvariant.StoreRecordKeeps` | Server/Session.cpp:51 | moving a pointer into a record in the thread's hands keeps the invariant |
| `LifecycleInvariant.DropLocalKeeps` | Common/Pool/SharedPoolPtr.hpp:95-98 | dropping a local pointer, the last one included, keeps the invariant |
| `LifecycleInvariant.SubSharedKeeps` | Common/Pool/SharedPoolPtr.hpp:120-124 | giving up the count of a shared pointer before clearing it keeps the invariant |
| `LifecycleInvariant.NullSharedKeeps` | Common/Pool/SharedPoolPtr.hpp:125-127 | clearing it afterwards keeps the invariant |
| `LifecycleInvariant.PushBackKeeps` | Common/Pool/SparsePool.hpp:103-106 | the separate locked push keeps the invariant |
| `LifecycleInvariant.ConnectKeeps` | Server/Session.cpp:262-270 | connecting keeps the invariant |
| `LifecycleInvariant.BeginDisconnectKeeps` | Server/Session.cpp:293-313 | moving to the disconnecting state keeps the invariant |
| `LifecycleInvariant.AttemptDisconnectKeeps` | Server/Session.cpp:177-183 | attempting the disconnect keeps the invariant |
| `LifecycleInvariant.PostKeeps` | Server/Session.cpp:47-54 | handing a record to the kernel keeps the invariant |
| `LifecycleInvariant.PostNullKeeps` | Server/Session.cpp:51-54 | posting a record left null by an emptied table entry keeps the invariant; the kernel has the record from then on, and the session's disconnect record names the session |
| `LifecycleInvariant.PostLostKeeps` | Server/Session.cpp:158-174 | an accept or disconnect whose call failed unnoticed keeps the invariant; its unit stays counted and its pointer set |
| `LifecycleInvariant.EstablishKeeps` | Server/Listener.cpp:109 | the kernel accepting a connection before the completion is seen keeps the invariant |
| `LifecycleInvariant.HangupKeeps` | Server/Session.cpp:182-183 | a disconnect that succeeds before its completion is seen keeps the invariant |
| `LifecycleInvariant.CompleteKeeps` | Server/IocpCore.cpp:69-88 | a completion keeps the invariant; an accept's unit passes to the worker |
| `LifecycleInvariant.TakeSendKeeps` | Server/Session.cpp:236-237 | setting the send flag keeps the invariant, in whatever state the session is and whether or not the thread has a pointer to it |
| `LifecycleInvariant.GiveSendKeeps` | Server/Session.cpp:211-214 | the send flag is cleared, and the invariant kept |
| `LifecycleInvariant.TakeUnitKeeps` | Server/Listener.cpp:93-100 | the compare-and-swap keeps the counter exact and within its limit |
| `LifecycleInvariant.SettleUnitKeeps` | Server/Listener.cpp:122-125 | giving a unit back keeps the counter exact |
| `LifecycleInvariant.NextKeeps` | Common/Pool/SparsePool.hpp:51-111 | every step of every thread keeps the invariant |
| `LifecycleRuns.ReachableIsSafe` | Common/Pool/SparsePool.hpp:51-111 | in every reachable state: exact counts, current pointers, free slots unnamed, slots in use pointed to or owed, connected sessions listed, a bounded accept counter that accounts for every unit |
| `LifecycleRuns.ClaimsAlternate` | Common/Pool/SparsePool.hpp:51-111 | over any run claims and pushes of a slot alternate |
| `LifecycleRuns.GenerationCountsPushes` | Common/Pool/SparseSet.hpp:74-79 | over any run of all threads a slot's generation counts its pushes modulo 2^32 |
| `LifecycleRuns.GenerationFromStart` | Common/Pool/SparseSet.hpp:74-79 | over any run of all threads from the start a slot's generation is the number of its pushes modulo 2^32 |
| `LifecycleRuns.FlagCountsSends` | Server/Session.cpp:211-237 | over any run the send flag is set exactly while one send taken since the slot was claimed is not given back; claiming the slot clears it |
| `LifecycleRuns.SocketFollowsKernel` | Server/Session.cpp:182-183 | over any run a socket is connected exactly from an accept to the success of a disconnect or the next claim |
| `LifecycleRuns.CounterCountsUnits` | Server/Listener.cpp:91-125 | over any run the accept counter is the units taken minus those given back; no post, completion or unnoticed failure moves it |
| `LifecycleRuns.StateOnlyRises` | Server/Session.cpp:260-321 | without a push a session's state never falls |
| `LifecycleRuns.AtMostOneDisconnect` | Server/Session.cpp:292-321 | one incarnation attempts at most one disconnect, and only when disconnecting |
| `LifecycleRuns.RecordStays` | Server/IocpCore.cpp:81-84 | only its completion takes a record from the kernel, and its pointer does not change before |
| `LifecycleRuns.InFlightProtects` | Server/IocpCore.cpp:81-113 | from posting to completion the record names its session and the slot is not pushed |
| `LifecycleRuns.NullPostAfterDisconnect` | Server/Session.cpp:51 | a record is posted null only after the session's one disconnect was attempted and failed: the session is disconnecting, its disconnect record names it and is not under way |
| `LifecycleRuns.OrphansStay` | Server/IocpCore.cpp:106-109 | over any run the slot of a record posted null is not recycled: the record stays the kernel's, null and in no thread's hands, and the session disconnecting |
| `LifecycleRuns.NullPostIsNeverRecycled` | Server/Session.cpp:51-54 | from the moment a record is posted null its slot is not recycled, in whatever run follows |
| `LifecycleRuns.AcceptLimit` | Server/Listener.cpp:93-100 | a unit can be taken exactly below 1000, and the limit is seen exactly at 1000 |
| `Scenario.NullPostIsReachable` | Server/IocpCore.cpp:106-109 | a run in the order of the code, over three threads, in which the disconnect fails and a worker then posts the session's first receive null |
| `Scenario.AcceptInFlightIsReachable` | Server/IocpCore.cpp:69-88 | a run after which the kernel owns an accept and a worker is free to take its completion |
| `Scenario.DisconnectDoneIsReachable` | Server/IocpCore.cpp:69-88 | a run after which a disconnect has succeeded and a worker is free to take its completion |
| `Interference.StepOwnCells` | Common/Pool/SharedPoolPtr.hpp:36-127 | no step of another thread touches a thread's own pointers or half-done resets |
| `Interference.StepOwnRecords` | Server/Session.cpp:39-51 | no step of another thread touches a record in a thread's hands |
| `Interference.StepOwnPending` | Server/Listener.cpp:104-113 | no other thread changes the state or table entry of a session whose accept a thread is posting |
| `Interference.StepOwnEntries` | Server/SessionManager.cpp:69-72 | no other thread changes the table entry of a session, nor whether its socket is connected, while a thread has its disconnect record |
| `Interference.StepHeldSessions` | Server/Session.cpp:260-321 | a session held by a thread stays in use; its state and attempts only rise, and once out of the table it stays out |
| `Interference.OthersRun` | Common/Pool/SparsePool.hpp:51-111 | any finite run of other threads keeps the invariant and all a thread relies on |
| `Frames.NullEntryIsAttempted` | Server/SessionManager.cpp:69-72 | the table entry of a listed session is null only after its one disconnect was attempted |
| `Server.IoThreads.Take` | Common/Pool/SparsePool.hpp:51-111 | an allowed step keeps the invariant; no two steps of a thread are adjacent |
| `Server.IoThreads.ResetShared` | Common/Pool/SharedPoolPtr.hpp:120-127 | a reset in two steps, interleaved with anything, ends with the cell null and nothing recycled |
| `Server.IoThreads.FillRecord` | Server/Session.cpp:51 | the record is filled exactly when the table entry was not null, never overwrites a pointer, and stays null only for a session whose disconnect was attempted |
| `Server.IoThreads.Register` | Server/Session.cpp:39-73 | its exact steps, with other threads running before each: a posted record is the kernel's and names its session, or is a receive or send of a session being disconnected, or an accept or disconnect that failed unnoticed; a failed receive or send clears it |
| `Server.IoThreads.Hand` | Server/Session.cpp:53-72 | exactly one step for an accepted call; a receive or send on an unconnected socket fails, is seen to, and clears its record; the failure of an accept or disconnect may go unnoticed |
| `Server.IoThreads.ResetSession` | Server/Session.cpp:323-326 | the table entry is reset in two steps, or was seen null; it is null afterwards |
| `Server.IoThreads.Disconnect` | Server/Session.cpp:292-321 | its exact steps; the session ends disconnecting; whoever moved it there makes the one attempt, everybody else changes nothing |
| `Server.IoThreads.Attempt` | Server/Session.cpp:315-320 | the one attempt is made, in exactly these steps, and what is posted names the session |
| `Server.IoThreads.SendPacket` | Server/Session.cpp:224-246 | a packet that does not fit takes no step; one behind a set flag sees the flag; otherwise the flag is taken and the send posted, or the record stays null in the thread's hands; the result is true exactly accordingly |
| `Server.IoThreads.OnSend` | Server/Session.cpp:200-222 | everything sent clears the flag and takes no other step; otherwise exactly the steps of posting the rest |
| `Server.IoThreads.OnRecv` | Server/Session.cpp:75-117 | illegal bytes take no step; otherwise exactly the steps of posting the next receive, and true exactly if it was posted |
| `Server.IoThreads.Connect` | Server/Session.cpp:260-290 | outside the pending state nothing happens; in it the state rises first, the welcome packet is sent, and exactly if that succeeds the first receive is posted |
| `Server.IoThreads.CreateSession` | Server/SessionManager.cpp:47-62 | null exactly when no slot is seen free; otherwise exactly claim, first reference, listing and copy, and a pending session nobody else can touch |
| `Server.IoThreads.GiveUp` | Server/Listener.cpp:109-115 | a refused accept gives its unit back first and then disconnects the session |
| `Server.IoThreads.ReleaseLocal` | Common/Pool/SparsePool.hpp:96-111 | the reference is dropped; exactly if it was the last, the slot is pushed next and the accept loop runs to one of its ends, without disturbing the caller |
| `Server.IoThreads.PostOne` | Server/Listener.cpp:102-117 | the unit taken goes to the kernel or is spent on an unnoticed failure, or is given back exactly when no slot is seen free or the accept is refused |
| `Server.IoThreads.PostAccept` | Server/Listener.cpp:91-120 | ends on seeing the limit, on seeing no free slot, or after a refused accept, its last unit given back, or is cut after `fuel` rounds, and leaves the thread the units and sessions it came with |
| `Server.IoThreads.Dequeue` | Server/IocpCore.cpp:69-84 | the completed record is the worker's, and so is a pointer to its session |
| `Server.IoThreads.Decrement` | Server/IocpCore.cpp:86-88 | the unit of a completed accept is given back and the accept loop runs to one of its ends while the worker keeps the session |
| `Server.IoThreads.DispatchAccept` | Server/IocpCore.cpp:136-144 | its exact steps: the session is connected if it is pending and its options can be set, and disconnected exactly if anything failed |
| `Server.IoThreads.DispatchRecvSend` | Server/IocpCore.cpp:151-169 | its exact steps and calls: the handler is called with the bytes exactly if there are any, and the session disconnected exactly if there are none or the handler returned false |
| `Server.IoThreads.Dispatch` | Server/IocpCore.cpp:171-193 | its exact steps and calls: the record is cleared first, except by a failed disconnect; a failed operation disconnects, a disconnect unlists the session, anything else goes to its handler |
| `Server.IoThreads.HandleWith` | Server/IocpCore.cpp:90-134 | the worker takes a second pointer, dispatches in exactly those steps, and releases both |
| `Server.IoThreads.HandleCompletion` | Server/IocpCore.cpp:64-101 | a whole round of a worker: dequeued, an accept's unit given back, dispatched in exactly those steps with exactly those calls, and left without pointers, debts or extra accept units |
| `Traces.DisconnectsIff` | Server/IocpCore.cpp:103-193 | dispatching disconnects exactly if the operation, other than a disconnect, failed, or moved no bytes, or its handler returned false |
| `Traces.ConnectsIff` | Server/IocpCore.cpp:136-144 | dispatching connects exactly an accept that did not fail, whose options can be set, on a pending session |
| `Traces.DrainedClearsFlag` | Server/Session.cpp:211-214 | a completed send that drained the ring takes exactly three steps: its record is cleared in two, then the flag |
| `Traces.ReceiveGoesOn` | Server/Session.cpp:111-116 | a completed receive of legal bytes clears its record, fills it again and posts the next receive |
| `Server.IoThreads.SendToSession` | Server/PacketHandler.cpp:91-97 | among running threads: the packet is handed to `SendPacket` of the session in the entry, whatever its incarnation, exactly if the entry is not null; its exact steps up to the release of the pointer; every connected session is reached |
| `Server.IoThreads.Broadcast` | Server/PacketHandler.cpp:99-108 | among running threads: the sessions connected when listed, except the sender, are tried once each and nobody else; the calls of `SendPacket` are exactly one for each entry found non-null at its turn |
| `Tasks.TaskQueue.Push` | Server/TaskQueue.hpp:17-21 | a task goes to the end of the queue |
| `Tasks.TaskQueue.Pop` | Server/TaskQueue.hpp:23-35 | null exactly when shutting down, else the oldest task |
| `Tasks.PacketHandler.PostTask` | Server/PacketHandler.cpp:55-57 | the task is queued behind all others and nothing is executed |
| `Tasks.HeldIsHandled` | Server/PacketHandler.cpp:59-78 | a task whose slot holds its frame is handled as promised: its handler sees the frame if bytes 2 and 3 are an id from 1 to 5, else it is dropped |
| `Tasks.PacketHandler.Execute` | Server/PacketHandler.cpp:59-78 | what the task's slot holds decides and is copied for the handler; if that is its frame, exactly one with byte 3 zero and byte 2 from 1 to 5 reaches the handler of byte 2, which sees the frame |
| `Tasks.PacketHandler.WorkerThreadFunc` | Server/PacketHandler.cpp:204-210 | executes exactly the queued tasks in order, or stops at once when shutting down; if their slots held their frames, every one with an id from 1 to 5 reached its handler byte for byte and no other did |
| `TaskRuns.WireToHandler` | Server/Session.cpp:94-103 | in every interleaving a session's tasks are done in order, a prefix of those queued, which stand for a prefix of its stream's frames; while all frames fit, the bytes its handlers saw are a prefix of those packets of the stream whose id has a handler |
| `TaskRuns.DrainedMeansAllExecuted` | Server/PacketHandler.cpp:204-210 | with nothing queued and no whole frame waiting exactly the stream's frames were executed; if all frames fit, the handlers saw exactly those with an id from 1 to 5, byte for byte |
| `TaskRuns.ShutdownStops` | Server/TaskQueue.hpp:23-35 | once shutdown began no further task is popped, in whatever run follows |
| `TaskRuns.HandlersSeeTheFrames` | Server/PacketHandler.cpp:59-89 | over all runs in one pool memory, while all frames cut fit: exactly the ids from 1 to 5 reach their handlers, each sees its frame byte for byte during and after its call, and it is a frame of its session's stream |
| `TaskRuns.SpareCopyKeeps` | Server/PacketHandler.cpp:73-76 | a copy that ends before the next slot, into a slot nobody has, harms no packet queued or being handled |
| `LongFrames.FitsExactly` | Server/PacketHandler.cpp:84-89 | every task of every run with no other long frame is handled as promised if and only if the frame is at most 1040 bytes, or 1032 for a chat packet |
| `LongFrames.OverlongRuins` | Server/PacketHandler.cpp:84-89 | a frame beyond 1040 bytes ruins, in some run, the packet of the next slot by its first copy |
| `LongFrames.LongChatRuins` | Server/PacketHandler.cpp:123-132 | a chat packet of 1033 to 1040 bytes does so by its answer |
| `Broadcasting.SessionManager.SendToSession` | Server/PacketHandler.cpp:91-97 | a session is sent the packet exactly when its entry is non-null and current; the handle's generation is not looked at |
| `Broadcasting.SessionManager.Broadcast` | Server/PacketHandler.cpp:99-108 | every connected, current session except the sender is sent the packet exactly once, and nobody else |
| `Broadcasting.SessionManager.ReceiversAreConnected` | Server/PacketHandler.cpp:99-108 | while connected sessions are listed under their incarnation, the receivers are the connected sessions except the sender |
| `Broadcasting.SessionManager.ReachableReceivers` | Server/PacketHandler.cpp:99-108 | in every reachable state of the server the receivers are exactly the connected sessions that are not the sender |

## Left out

Assumptions of the model:

- Accesses to `sessionPtrs_`, `GetState` and `GetIndicesInState`, which the program makes without the pool's lock, are
  atomic; all atomics are sequentially consistent.
- The double mapping behind `MirroredRingBuffer` is trusted: virtual indices i and i + size are the same byte.
- The packet pool is never empty when a packet is acquired.
- A completed accept finds the session's listener set, although `PostAccept` sets it only after posting.
- A receive or send posted on a socket that is not connected fails. A socket becomes connected only while an accept is
  posted on its session, once in an incarnation, and stops being so only when a disconnect succeeds, which happens
  before that disconnect is reported done.
- The pool's memory goes on for 65536 bytes behind its last slot, for copies that run past it.
- A slot of the packet pool has one pointer at a time, so a count that a copy ran over can keep a slot from being
  reused but cannot free it early; like every slot nobody has, such a slot may be handed out in `TaskRuns`.
- Bitwise or of the two handle halves is their sum; positions are unbounded integers except where the posted length
  is computed in 64 and 32 bits.
- The server is running: shutdown is modelled for the task queue only, and destruction at exit is not.

Parts of the program outside the model:

- The repository's README lists local queues, work stealing and batch processing; its code has one queue and one
  worker (`Server/TaskQueue.hpp`, `Common/Config.hpp:21`), and the model follows the code.
- Task handlers send through a raw session pointer that no reference protects (`Server/PacketHandler.cpp:160`, 184,
  199). The machine lets such a thread set the send flag and go on while the session is not recycled under it. If it is,
  the flag and the record are initialised anew, and what the reply then does to the next incarnation is not modelled. No
  claim is made that the session is still the one that received the packet.
- The completion of a record posted with a null pointer: it would dereference null.
- A failed disconnect completion and a failed post of an accept or disconnect leave their record's pointer set. The
  model keeps that pointer, and such a slot is not reclaimed.
- Error-code conventions of the system calls: calls succeed or fail nondeterministically. For `AcceptEx` and
  `DisconnectEx` both are covered, a failure that takes the program's error branch and one taken for success.
- The bodies of the packet handlers, except the chat answer, the only copy whose length a client decides. What the others
  write stays within their own slots.
- Liveness and fairness, weak memory ordering, the database, accounts and login, logging,
  socket set-up, start-up and the build.

Contracts weaker or narrower than the program's text:

- Server.IoThreads.PostAccept: follows the accept loop and its re-entrant calls for `fuel` rounds, since the loop need
  not terminate while other threads take sessions; every contract holds wherever the loop is cut.
- Server.IoThreads.ReleaseLocal: with no fuel left the accept loop entered after the push is not followed.
- Server.IoThreads.SendPacket: the ring's bytes are not part of the machine; whether the packet fits is an argument
  here and is exact in `SendPath`.
- Server.IoThreads.OnSend: whether the ring is drained is an argument here and is exact in `SendPath`.
- Server.IoThreads.OnRecv: whether the bytes are legal is an argument here and is exact in `ReceivePath`.
- Server.IoThreads.Round: a weak compare-and-swap may fail although nothing changed, any number of times.
- Server.IoThreads.HandleCompletion: for records that named a session when they were posted; the completion of one
  posted null ends in a null dereference.
- Pools.SparsePool.Acquire: its result is a new pointer object, hence the null target.
- Blocks.PacketPool.CopyAgain: the copied ranges are treated as if they did not overlap, as they do not for packets
  that fit their blocks.
- Broadcasting.SessionManager.Broadcast: sequential, with the packets as a log of calls; among running threads it is
  `Server.IoThreads.Broadcast`.
