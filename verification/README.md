# Vitamine in Dafny

A model of the vitamine server (a Minecraft server for protocol version 498, written in C++) and proofs about it. `dafny verify dfyconfig.toml` checks all of it.

The model has four parts, which build on each other.

* **Wire codec and stream reassembly** (`Numbers`, `Variants`, `VarInt`, `Buffers`, `NbtTree`, `Metadata`, `Schema`, `PacketTable`, `Framing`, `Layout`). Byte-level specifications of VarInts, NBT trees, entity metadata, frames, and of the packet table as a datatype of field kinds; the serializers and deserializers as methods with the program's loops; round trips proved once for all schemas; and the reassembling reader, proved independent of how TCP cuts the stream. `Layout` spells the bytes out in numbers, so that writer and reference reader cannot agree on something else.
* **Bit packing and chunks** (`BitPack`, `Coords`, `Chunks`, `ChunkWire`). The unrolled packers against one bit-stream specification, coordinate casts, terrain generation and digging, and a reference client that reads a chunk packet back.
* **Write queue** (`WriteQueue`). The double-buffered asynchronous write queue of a connection, as steps of its strand.
* **Players** (`Tracker`, `Client`, `World`, `WorldEvents`, `Protocol`, `WorldIndex`, `WorldPhases`, `WorldViews`, `WorldTabs`, `WorldSelf`, `WorldWritten`, `WorldResized`, `WorldRuns`, `WorldBlocks`, `WorldDigRun`, `Deliveries`, `Server`, `Gateway`, `Downstream`, `EndToEnd`). The subscription index and the state machines of all connections as one transition system with an atomic step per handled packet. What each connection has been sent is kept whole; a client's picture of the world (chunks held, entities known, player list, its own player) is a fold over it. `WorldEvents` says of each kind of event, without the acts in between, what it does to the machine it comes from, to the index and to each other client. `Server` holds the handlers as methods of a class, with the program's loops and the tracker object they update, and proves that they take exactly the steps of the transition system. `Protocol` joins this part to the first: it says what the bytes of a frame mean to a machine in each phase, and that a byte stream, however it is cut, does to the world what the values in it do; `Gateway` has the methods that take bytes from the reader through the deserializers to the handlers. `Downstream` is the way back: what a client makes of the bytes its connection's write queue has written, and `EndToEnd` joins that to the players' views and to the chunk store. `WorldBlocks` puts the chunk store and each client's copies of its chunks beside the players, and says when a client's copy of a block is the store's.

## Reading the program

Some lines plainly do not do what they are for. Where that is so a definition takes a `Variant`: `Written` follows the text, `Intended` the evident purpose. The main theorems are about `Intended`; for `Written` there is an exact statement of when it does the same, or of when it still has the property.

| line | written | intended | exact difference |
|---|---|---|---|
| `source/proxyd/packetreader.hpp:29` | scans `data.size()` bytes from the start of the buffer | scans all buffered bytes | `Framing.WrittenScanExactly`; fails in `Framing.FragmentationFailsAsWritten` |
| `source/proxyd/packetreader.hpp:45-47` | keeps the buffer after an error and would deliver from it again; a connection that is to be closed reads no more (`source/common/net/tcpserver.cpp:173`), so this is about the reader on its own | an error is final | `Framing.WrittenErrorExactly`, `Framing.ErrorsRepeat`; fails in `Framing.ErrorDeliversAgain` |
| `source/proxyd/framing.hpp:48-49` | an id that overruns its own complete frame is incomplete | it is invalid | `Framing.FramingsDifferExactly`, `Framing.OverrunStalls`; fails in `Framing.OverrunningFrame` |
| `source/proxyd/playertracker.hpp:101,112`, `source/proxyd/statemachine.cpp:781,796` | keep `dx <= vd && dz <= vd` | keep `-vd <= dx <= vd`, same for dz | `Tracker.WrittenUpdateExactly`, `WorldWritten.WrittenIndexExactly`, `WorldWritten.WrittenSquaresExactly`, over runs `WorldWritten.IndexThroughout`, `WorldWritten.SquaresThroughout`, `WorldResized.ResizedIsMisled`; fails in `WorldRuns.GrownInPlayRun` |
| `source/proxyd/statemachine.cpp:767` | a second settings packet before play changes the index, and the first one in play of a player without a view distance does not | all and only players in play are in the index | the same four of `WorldWritten`; fails in `WorldRuns.GrownEarlyRun`, `WorldRuns.ShrunkEarlyRun`, `WorldRuns.SettledBlindRun` |
| `source/proxyd/statemachine.cpp:181-182` | goes on after a rejected teleport id | returns | `WorldWritten.WrittenSafeExactly`, `WorldWritten.WrittenDistancesExactly`, over runs `WorldWritten.SafeThroughout`, `WorldWritten.DistancesThroughout`, `WorldPhases.EntryExactly`; fails in `WorldRuns.BadConfirmRun`, `WorldRuns.UnconfirmedRun` |
| `source/proxyd/statemachine.cpp:1127` | forgets and announces a player only when it leaves from play | also when it leaves between login and play | `WorldWritten.WrittenRegisteredExactly`, `WorldTabs.ListsExactly`, over runs `WorldWritten.RegisteredThroughout`, `WorldTabs.ListsThroughout`; fails in `WorldRuns.EarlyLeaveRun`, `WorldRuns.EarlyLeaveListedRun`, `WorldRuns.ReusedIdentityRun` |

`WorldWritten.WrittenStepExactly` sums the last four rows up for the whole transition system: from any state with an exact index and the right players registered, a step as written is the step as meant if and only if it is none of three kinds.

Other things that hold only under a condition are stated with it, in both directions, and the failures that a run can reach are shown by one: NBT names and strings come back when they are shorter than 65536 bytes (the prefix is written as a 16-bit pattern, so the limit is not 32767); metadata when no index is 0xff; positions when in the range of the packed word; packed values when they fit; a chunk's heightmap while nobody has dug the top block of a column; the player list after a departure when the name was unshared (`WorldRuns.SharedNameRun`); a moving client's knowledge of others when nobody stands in just one of its two squares (`WorldRuns.ApproachRun`); a client's copy of a block when it has not missed the block's being broken (`WorldDigRun.FarDigRun`): a change is broadcast around the digger and not around the block.

Conversion of a position to a block drops the fraction, as in the text, also below zero; `Coords.ChunkOfIsFloorExactly` says where this differs from rounding down. The view distance of a new player is uninitialised in the text; that it is 0 is read from the comment at `source/proxyd/statemachine.cpp:766`.

## Model

| member | source | states |
|---|---|---|
| VarInt.ParseVarIntMeaning | source/proxyd/deserialize.hpp:23-47 | for any bytes the decoded value is the base-128 sum modulo 2^32 of 1 to 5 bytes; incomplete exactly when fewer than five bytes all continue, invalid exactly when five continue |
| VarInt.TakeVarIntStable | source/proxyd/deserialize.hpp:23-47 | later bytes change neither an accepted value nor a rejection |
| VarInt.VarIntRoundTrip | source/proxyd/serialize.hpp:73-140 | every Int32 decodes back from its bytes, with any suffix left untouched |
| VarInt.VarIntShortest | source/proxyd/serialize.hpp:73-140 | no accepted byte string for a value is shorter than the one written |
| VarInt.WireSizeVarInt32 | source/proxyd/serialize.hpp:21-71 | the size computed from leading zeros is the length of the LEB128 bytes |
| VarInt.ClzTable | source/proxyd/serialize.hpp:24-70 | each group of rows of the switch is exactly one length of the LEB128 form |
| VarInt.EncodeVarInt32 | source/proxyd/serialize.hpp:73-140 | the table-driven encoder fills the caller's buffer with the bytes of the seven-bits-a-byte loop and touches nothing else |
| VarInt.DeserializeVarInt | source/proxyd/deserialize.hpp:23-47 | the do-while loop over 32-bit shifts and ors computes the reference decoder |
| Buffers.ParseFixedBack | source/proxyd/deserialize.hpp:61-71 | a big-endian integer of any width reads back with any suffix |
| NbtTree.SerializeNbt | source/proxyd/nbt.cpp:85-91 | appends exactly the bytes of the tree's layout |
| NbtTree.SerializeNbtValue | source/proxyd/nbt.cpp:11-83 | appends exactly the bytes of a value, by recursion over the tree with loops over lists, arrays and compounds |
| NbtTree.TagBackExactly | source/proxyd/nbt.cpp:12-91 | a well-typed tree is recovered by the reference reader, suffix untouched, if and only if all its names and strings are below 65536 bytes |
| NbtTree.TagPrefixFree | source/proxyd/nbt.cpp:12-91 | equal byte streams start with equal trees: no tree's bytes are a prefix of another's |
| Metadata.SerializeEntityMetadata | source/proxyd/entitymetadata.hpp:54-91 | the loop appends the entries and the 0xff terminator |
| Metadata.MetadataBackExactly | source/proxyd/entitymetadata.hpp:54-91 | a list is recovered if and only if no index in it is the terminator |
| Schema.PayloadRoundTrip | source/proxyd/packets.hpp:41-116 | for every well-formed schema and all fitting values, deserializing the serialized payload succeeds with no bytes left and returns the values |
| Schema.Reparse | source/proxyd/packets.hpp:41-116 | whatever was accepted, even with overlong VarInts, serializing the result and parsing it again gives the same |
| Schema.ParsedPayloadFits | source/proxyd/packets.hpp:41-88 | accepted values lie in the ranges of their fields |
| Schema.NegativeCountFails | source/proxyd/packets.hpp:71-81 | an array with a negative count always fails, after at most one round more than there are bytes |
| Schema.DeserializePacketPayload | source/proxyd/packets.hpp:41-85 | the macros in order, ending with `size == 0`, compute the reference parser |
| Schema.DeserializeElems | source/proxyd/packets.hpp:71-81 | the `while(length--)` loop terminates and computes the reference parser |
| Schema.SerializePacketPayload | source/proxyd/packets.hpp:90-114 | appends exactly the payload bytes of the values |
| Schema.SerializeUuid | source/proxyd/serialize.hpp:192-200 | the two swapped halves are the sixteen bytes reversed |
| PacketTable.AcceptedPacketsReparse | source/proxyd/packets.def:5-107 | in each phase an id belongs to at most one packet; whatever the server accepts under it fits that packet's fields and survives being sent on and read again |
| PacketTable.SentPacketsParse | source/proxyd/packets.def:109-265 | a client that looks up the id of a packet of the clientbound tables finds that packet, and reads back the values that were sent |
| PacketTable.ServerboundIsReadable | source/proxyd/packets.def:5-107 | no packet the server receives has a field whose deserializer only throws |
| PacketTable.FindExactly | source/proxyd/statemachine.cpp:154-286 | a switch over ascending ids takes a packet's own branch and no other |
| Protocol.UnderstoodAsSaid | source/proxyd/statemachine.cpp:24-753 | in every phase, each packet it handles, whatever its values, is understood from its bytes as those values |
| Protocol.HandledIsExpected | source/proxyd/statemachine.cpp:154-749 | every packet a phase handles is in the table of that phase and direction, and has a deserializer that reads it |
| Protocol.Understand | source/proxyd/statemachine.cpp:24-753 | the switch over the id and the macro-generated deserializer compute what a frame means in a phase, which the next eight rows say for all frames |
| Protocol.UnderstoodInitial | source/proxyd/statemachine.cpp:30-35 | at first id 0 with the layout of a handshake is one, with its first and last number; all else is malformed |
| Protocol.UnderstoodLogin | source/proxyd/statemachine.cpp:54-65 | then id 0 with a string is a login under that name; all else is malformed |
| Protocol.UnderstoodConfirm | source/proxyd/statemachine.cpp:171-182 | before play id 0 confirms the id in its VarInt |
| Protocol.UnderstoodSettings | source/proxyd/statemachine.cpp:244-253 | id 5 is settings before and in play |
| Protocol.UnderstoodPosition | source/proxyd/statemachine.cpp:374-390 | id 0x11 is a position in play |
| Protocol.UnderstoodPositionRotation | source/proxyd/statemachine.cpp:392-409 | id 0x12 is one with a rotation in play, and before it only has to parse |
| Protocol.UnderstoodRotation | source/proxyd/statemachine.cpp:411-440 | id 0x13 is a turn in play if and only if two floats and a bool parse |
| Protocol.UnderstoodOther | source/proxyd/statemachine.cpp:288-753 | every other id with a handler is malformed if its layout does not parse and does nothing to the players if it does; ids without one do nothing |
| Protocol.RotationBytes | source/proxyd/statemachine.cpp:411-440 | the byte layout of a turn |
| Protocol.WireToWorld | source/proxyd/statemachine.cpp:24-753 | whatever a client says in the phases it is in, serialized, cut into any pieces and reassembled, takes the world through the same steps as the values |
| Protocol.HandshakeBytes | source/proxyd/statemachine.cpp:30-52 | the byte layout of a handshake, and what is taken from it |
| Protocol.LoginBytes | source/proxyd/statemachine.cpp:54-65 | that of a login |
| Protocol.ConfirmBytes | source/proxyd/statemachine.cpp:171-182 | that of a teleport confirmation: id 0 once logged in |
| Protocol.SettingsBytes | source/proxyd/statemachine.cpp:244-253 | that of settings, the view distance a signed byte |
| Protocol.PositionBytes | source/proxyd/statemachine.cpp:374-390 | that of a position |
| Protocol.PositionRotationBytes | source/proxyd/statemachine.cpp:392-409 | that of a position with a rotation, which before play is only checked |
| Layout.IntOnWire | source/proxyd/serialize.hpp:142-157 | four bytes, highest first, in two's complement |
| Layout.LongOnWire | source/proxyd/serialize.hpp:142-157 | eight bytes likewise |
| Layout.VarIntOnWire | source/proxyd/serialize.hpp:73-140 | one byte below 128, two below 16384 with the low seven bits first, and five for -1 |
| Layout.FieldsOnWire | source/proxyd/packets.hpp:90-114 | what each kind of field is on the wire |
| Layout.TagOnWire | source/proxyd/nbt.cpp:85-91 | a tag is its type, two bytes of length, its name and its value |
| Layout.TagCodes | source/proxyd/nbt.hpp:12-26 | the numbers of the types |
| Layout.EntryOnWire | source/proxyd/entitymetadata.hpp:54-91 | a metadata entry is its index, the number of its type and its value |
| Layout.PlayerMetadata | source/proxyd/statemachine.cpp:1003-1023 | the bytes of a player's flags and pose |
| Layout.SectionOnWire | source/proxyd/statemachine.cpp:882-893 | a section is 4096, 14, 896 and that many longs |
| Layout.HeightmapOnWire | source/proxyd/statemachine.cpp:869-878 | the heightmap is a nameless compound of one array of 36 longs under its name |
| Framing.DeserializePacketFrame | source/proxyd/framing.hpp:23-55 | computes the frame parser, for either reading of line 48 |
| Framing.FrameStable | source/proxyd/framing.hpp:23-55 | later bytes change neither an accepted frame nor a rejection |
| Framing.FramingsDifferExactly | source/proxyd/framing.hpp:45-49 | the two readings differ exactly on complete frames whose id does not end inside them |
| Framing.OverrunningFrame | source/proxyd/framing.hpp:48-49 | a concrete frame on which they differ |
| Framing.OverrunStalls | source/proxyd/framing.hpp:48-49 | as written such a frame blocks the reader for good |
| Framing.PacketReader.OnBytesReceived | source/proxyd/packetreader.hpp:24-50 | the loop with its cursor, callbacks and discard takes one step of the reader specification |
| Framing.FragmentationInvariance | source/proxyd/packetreader.hpp:24-50 | for every way to cut a stream into calls, packets, verdict and kept bytes are those of one call |
| Framing.WrittenScanExactly | source/proxyd/packetreader.hpp:28-49 | with the size of line 29 a call does what is meant if and only if it does nothing after an error, nothing was left over, or the scanned part already fails |
| Framing.WrittenErrorExactly | source/proxyd/packetreader.hpp:45-47 | a call that goes on after an error delivers what is meant if and only if there was none or no complete frame is scanned |
| Framing.ErrorsRepeat | source/proxyd/packetreader.hpp:45-47 | after an error every further call delivers the packets of the call that failed once more |
| Framing.ErrorDeliversAgain | source/proxyd/packetreader.hpp:45-47 | a concrete stream whose one packet is delivered twice |
| Framing.FragmentationFailsAsWritten | source/proxyd/packetreader.hpp:29 | a concrete packet, delivered whole but lost when it arrives as two bytes |
| Framing.ReaderBound | source/proxyd/framing.hpp:11-12 | without an error the reader keeps fewer than 1024 bytes between calls |
| Framing.SerializePacket | source/proxyd/framing.hpp:57-71 | payload first, header prepended: the buffer holds exactly one frame |
| Framing.FrameBack | source/proxyd/framing.hpp:23-71 | a sent frame is taken back exactly when its length value is at most 1019, else rejected |
| Framing.WireEndToEnd | source/proxyd/packetreader.hpp:24-50 | any sendable packets, concatenated and delivered in any pieces, come out in order with their values and leave nothing |
| BitPack.Pack32Stream | source/proxyd/bitpack.hpp:17-27 | the seven unrolled words are the stream of 32 fourteen-bit fields |
| BitPack.Bitpack16to14 | source/proxyd/bitpack.hpp:10-32 | for any multiple of 32 inputs the output read as one little-endian number is the stream of their low 14 bits; the rest of the buffer is untouched |
| BitPack.Bitpack16to9 | source/proxyd/bitpack.hpp:34-50 | for any multiple of 8 inputs the output is the stream of nine-bit fields into each of which the overflow of the one before it in its group is or-ed, but for the top eight bits of the last; the rest of the buffer is untouched |
| BitPack.Pack8Stream | source/proxyd/bitpack.hpp:42-46 | that is what the or of eight shifted inputs in 64 bits and one byte above it come to |
| BitPack.Unpack14 | source/proxyd/bitpack.hpp:10-32 | unpacking gives the low 14 bits, hence the inputs if and only if they fit |
| BitPack.Unpack9 | source/proxyd/bitpack.hpp:34-50 | unpacking gives those fields, hence the inputs if and only if they are below 512 |
| Coords.BlockSplits | source/common/coord.hpp:36-64 | block = 16 * chunk + local with local in 0..15 holds exactly for the values of the casts, also below zero |
| Coords.ChunkOfExactly | source/common/coord.hpp:97-105 | a position is in chunk c if and only if on both axes it is in 16c..16c+15 rounded down from zero on, and above 16c-1 and at most 16c+15 below zero |
| Coords.ChunkOfBlock | source/common/coord.hpp:76-105 | its chunk is the chunk of the block it truncates to |
| Coords.ChunkOfIsFloorExactly | source/common/coord.hpp:76-105 | its chunk is the one around it, rounding down, if and only if on neither axis it is below zero inside the last block of a chunk |
| Coords.PositionOfBlock | source/proxyd/types.hpp:52-75 | every 64-bit word is the position of the block it names |
| Coords.BlockOfPosition | source/proxyd/types.hpp:52-75 | a block comes back from its word if and only if it is in range |
| Chunks.GeneratedLayers | source/proxyd/statemachine.cpp:805-833 | a generated chunk has 33 at height 0, 1 at 1..13, 10 at 14, 9 at 15 and 0 above in every column, one section, biomes 0 and heights 16 |
| Chunks.GenerateChunk | source/proxyd/statemachine.cpp:805-833 | the loop nests produce that chunk |
| Chunks.UndugLayers | source/proxyd/statemachine.cpp:513-560 | after any run of creations and digs a block is 0 if dug and that of its layer otherwise |
| Chunks.HeightMatchesExactly | source/proxyd/statemachine.cpp:541-552 | after any run the height stored for a column is that of its topmost block if and only if no dig has taken the generated top block away |
| Chunks.DigChangesOneBlock | source/proxyd/statemachine.cpp:541-552 | a dig makes one block air and changes no other, also when it allocates a section |
| Chunks.DigAllocates | source/proxyd/statemachine.cpp:535-544 | the section dug in is there afterwards, also if there was nothing to dig, and no other appears |
| Chunks.ChunkStore.DigBlock | source/proxyd/statemachine.cpp:513-560 | the new chunk map, and exactly when the dig finds no chunk or breaks a block |
| Chunks.ChunkStore.GetOrCreateChunk | source/proxyd/statemachine.cpp:835-852 | an existing chunk is kept, a missing one generated |
| Chunks.ChunksAreDugTerrain | source/proxyd/statemachine.cpp:513-560 | after any run of creations and digs a block is air if dug, else generated terrain |
| ChunkWire.SectionMask | source/proxyd/statemachine.cpp:859-867 | the or-loop computes the mask whose bits say which sections are there |
| ChunkWire.SerializeSection | source/proxyd/statemachine.cpp:882-893 | appends header, length and packed longs of a section |
| ChunkWire.ClientReadsChunk | source/proxyd/statemachine.cpp:854-910 | a client that parses the payload and unpacks it has a full chunk, that is a new one, with the chunk's sections and biomes and the nine-bit fields of its heights; the reader expects biomes of a full chunk only, and nothing else behind the sections |
| ChunkWire.ClientSeesDugTerrain | source/proxyd/statemachine.cpp:854-910 | after any run of digs, what a client reads from the packet is a full chunk of the generated layers with the dug blocks air, absent sections reading as air, and the generated biomes and heights |
| ChunkWire.SendChunk | source/proxyd/statemachine.cpp:854-910 | gets or creates the chunk and builds exactly the frame of its sections, biomes and heights |
| WriteQueue.FreshRunConserves | source/common/net/tcpserver.cpp:36-85 | over all runs without write errors, written, active and appended bytes are what was enqueued, in order; at close everything enqueued has been written, and all that preceded the disconnect |
| WriteQueue.WrittenIsBeginning | source/common/net/tcpserver.cpp:36-132 | what reaches the socket is always a beginning of the concatenated buffers of the accepted calls of send |
| WriteQueue.DisconnectFlushes | source/common/net/tcpserver.cpp:36-132 | a closed connection has written, first and in order, every buffer sent before the first call of disconnect |
| WriteQueue.InFlightStays | source/common/net/tcpserver.cpp:46-60 | until a write completes the buffers it was given stay as they are |
| WriteQueue.RunConserves | source/common/net/tcpserver.cpp:36-85 | every step keeps the invariant, also that an empty active queue implies an empty append queue |
| WriteQueue.ClosedStaysDrained | source/common/net/tcpserver.cpp:74-85 | nothing is written after the close |
| WriteQueue.ClosesInTime | source/common/net/tcpserver.cpp:36-85 | a marked connection closes within the writes it has left, two if no send is on its way |
| WriteQueue.FailureExactly | source/common/net/tcpserver.cpp:53-60 | what a failed write breaks, and when it breaks nothing |
| WriteQueue.TcpServerConnection.RunNext | source/common/net/tcpserver.cpp:112-132 | the strand's next handler takes one step of the queue specification |
| WriteQueue.TcpServerConnection.WriteCompleted | source/common/net/tcpserver.cpp:52-60 | so does the completion handler, on success and on failure |
| Tracker.CellsExactly | source/proxyd/playertracker.hpp:23-51 | the nested loops visit exactly the cells of an area outside another |
| Tracker.SweepDistinct | source/proxyd/playertracker.hpp:23-51 | and none twice |
| Tracker.SweepInOrder | source/proxyd/playertracker.hpp:23-51 | and in order, by x and then by z |
| Tracker.RingExactly | source/proxyd/playertracker.hpp:89-118 | which offsets are between two view distances, in either reading |
| Tracker.UpdateIsRecomputation | source/proxyd/playertracker.hpp:89-118 | with the lower side of the guard, the incremental update is the square of the new distance and touches no other player |
| Tracker.WrittenUpdateExactly | source/proxyd/playertracker.hpp:89-118 | as written it is that square if and only if the distance does not change |
| Tracker.PlayerTracker.Enter | source/proxyd/playertracker.hpp:59-63 | membership of one chunk and subscription to the whole square are added to the index |
| Tracker.PlayerTracker.Leave | source/proxyd/playertracker.hpp:65-69 | both are taken away |
| Tracker.PlayerTracker.Move | source/proxyd/playertracker.hpp:71-75 | membership goes from one chunk to the other |
| Tracker.PlayerTracker.UpdateViewDistance | source/proxyd/playertracker.hpp:89-118 | the nested loops with `continue` compute the ring update of either reading |
| Tracker.PlayerTracker.Subscribers | source/proxyd/playertracker.hpp:120-123 | exactly the players subscribed to the chunk |
| Client.MoveTracks | source/proxyd/statemachine.cpp:933-972 | every truncated delta fits in 16 bits, and a belief off by at most n 4096ths stays within n + 1 after a relative move, exact after a teleport |
| Client.MovePacketExactly | source/proxyd/statemachine.cpp:933-972 | a move is sent as truncated 4096ths of a block, with the rotation if there is one, if and only if the difference is in -32768..32767 on each axis, else as the new position |
| World.ClampViewDistance | source/proxyd/statemachine.cpp:760 | the view distance is the requested one in 2..32, 2 below and 32 above |
| WorldEvents.ConnectedExactly | source/proxyd/statemachine.hpp:52-85 | a new connection is a machine at (0, 64, 0) that waits for its handshake |
| WorldEvents.HandshakeExactly | source/proxyd/statemachine.cpp:30-52 | in either reading the first packet leads to the login if and only if it is a handshake of version 498 for 2, to the status if and only if one of version 498 for 1; any other handshake is refused with a Disconnect and all else does nothing |
| WorldEvents.PastInitialShook | source/proxyd/statemachine.cpp:30-52 | over runs: whoever is past its first phase has sent that handshake and not disconnected since |
| WorldEvents.IgnoredExactly | source/proxyd/statemachine.cpp:54-753 | which packets do nothing in which phase |
| WorldEvents.LoginExactly | source/proxyd/statemachine.cpp:54-151 | a login under any name: the new player, the seven packets it is sent, and the one that every other player is |
| WorldEvents.SettingsInPlay | source/proxyd/statemachine.cpp:755-803 | settings in play: the new view distance and the chunks between the two |
| WorldEvents.SettingsBeforePlay | source/proxyd/statemachine.cpp:244-281 | settings before play: also the whole square, the spawn point and a teleport to the player's position under the next id |
| WorldEvents.SettingsOfOthers | source/proxyd/statemachine.cpp:755-803 | nobody else hears of settings |
| WorldEvents.SettingsIndex | source/proxyd/statemachine.cpp:766-773 | what settings do to the index, in either reading |
| WorldEvents.ConfirmRefused | source/proxyd/statemachine.cpp:181-182 | as meant an id that is not outstanding is refused and that is all |
| WorldEvents.ConfirmOwn | source/proxyd/statemachine.cpp:171-212 | else the player is in play without that id and is told of the members of its square, each once |
| WorldEvents.ConfirmOthers | source/proxyd/statemachine.cpp:184-190 | and is indexed, and the subscribers of its chunk are told of it and of where it is |
| WorldEvents.WalkExactly | source/proxyd/statemachine.cpp:912-931 | what each other client is told of a walk, by whether it is subscribed to the chunks before and after: the move and with a rotation a head look, a despawn, a spawn at the new position, or nothing |
| WorldEvents.WalkOwn | source/proxyd/statemachine.cpp:1025-1062 | what the walking client is sent and what becomes of the index |
| WorldEvents.TurnExactly | source/proxyd/statemachine.cpp:411-440 | a turn tells exactly the other subscribers of the player's chunk a rotation and a head look, and changes nothing |
| WorldEvents.LeaveExactly | source/proxyd/statemachine.cpp:1125-1156 | what becomes of the index and the registry, and what each other client is told |
| WorldEvents.IdsCount | source/proxyd/globalstate.hpp:31 | entity ids are given out one after the other, from 1 |
| WorldIndex.IndexIsExact | source/proxyd/statemachine.cpp:1025-1062 | after every run each player in play is a member of its own chunk only and subscribed to exactly the square around it, and nobody else occurs in the index |
| WorldIndex.MembersAreExact | source/proxyd/playertracker.hpp:59-75 | in either reading, after every run each player in play is a member of its own chunk only and nobody else of any |
| WorldIndex.WalkSquares | source/proxyd/statemachine.cpp:1033-1056 | unsubscribing and subscribing the differences of two squares turns one into the other |
| WorldIndex.ClientsHoldSubscriptions | source/proxyd/statemachine.cpp:261-263 | after every run a client in play has a view distance in 2..32, holds exactly the chunks within it, and these are its subscriptions |
| WorldIndex.ResizeWatched | source/proxyd/statemachine.cpp:773-801 | the unloads or chunks sent on new settings turn the held square into the new one |
| WorldPhases.EntryExactly | source/proxyd/statemachine.cpp:171-212 | a step puts a player into play if and only if it confirms an outstanding id or, as written, any other id before play |
| WorldPhases.ExitExactly | source/proxyd/statemachine.cpp:288-753 | in either reading a player leaves play if and only if it disconnects |
| WorldPhases.OutstandingWereIssued | source/proxyd/statemachine.hpp:78-83 | after every run a client was sent the ids 0, 1, 2, ... each once, and all outstanding ids are among them |
| WorldPhases.PlayWasEntered | source/proxyd/statemachine.cpp:171-212 | in either reading every player in play was put there by such a step and has not disconnected since |
| WorldPhases.PlayWasConfirmed | source/proxyd/statemachine.cpp:171-212 | as meant, it got there by confirming an outstanding id |
| WorldPhases.ConfirmedWasSent | source/proxyd/statemachine.cpp:269-278 | the id confirmed had been sent to that client in a teleport |
| WorldPhases.EnteredOnce | source/proxyd/statemachine.hpp:85-94 | in either reading a player enters once between disconnects, so no id is confirmed twice |
| WorldViews.ViewsAreExact | source/proxyd/statemachine.cpp:1059-1099 | however others log in, enter, walk, turn and leave, a client whose own acts do not change what it sees knows exactly the players in its square and never gets a spawn of a known or news of an unknown entity |
| WorldViews.KnownExactlySubscribed | source/proxyd/statemachine.cpp:192-207 | it knows another player's entity if and only if it is subscribed to that player's chunk, and after n relative moves is at most n 4096ths of a block off per axis |
| WorldViews.OthersActKnown | source/proxyd/statemachine.cpp:912-931 | no act of another player makes an exact view inexact |
| WorldViews.EnterKnown | source/proxyd/statemachine.cpp:192-207 | entering tells a client of exactly the players in sight |
| WorldViews.OwnActKnownExactly | source/proxyd/statemachine.cpp:1025-1062 | in either reading a player that walks or resizes its square goes on knowing exactly what it sees if and only if no other stands in just one of the squares before and after, both computed from its packet |
| WorldViews.StayingKeepsSight | source/proxyd/statemachine.cpp:912-931 | in particular a client that keeps to one chunk and one view distance knows exactly what it sees throughout |
| WorldViews.RunKeepsIds | source/proxyd/statemachine.cpp:68 | in either reading entity ids of logged-in players are distinct in every reachable state |
| WorldTabs.ListsAgree | source/proxyd/statemachine.cpp:104-148 | as long as whoever leaves shares its name with nobody, after every run the players set is the set of logged-in players and every logged-in client lists exactly their names |
| WorldTabs.DistinctNamesAgree | source/proxyd/statemachine.cpp:104-148 | in particular when nobody logs in with a name a logged-in player has |
| WorldTabs.RunKeepsEnlisted | source/proxyd/statemachine.cpp:104-148 | in either reading whoever is logged in is in the players set after every run |
| WorldTabs.ListsExactly | source/proxyd/statemachine.cpp:1125-1156 | in either reading and from any state in which that is so, a step leaves the right list of a logged-in client right if and only if it does not mislead: no departure is announced of a shared name or kept quiet of an unshared one, and no connection opens, or logs in, under the identity of an entry left behind in a way that changes the names |
| WorldTabs.ListsThroughout | source/proxyd/statemachine.cpp:104-148 | so over the rest of any run: the list of a client that stays is right after every event if and only if none misleads |
| WorldTabs.LogInListedExactly | source/proxyd/statemachine.cpp:104-148 | a client that logs in has the right list if and only if what it was told before and the name its entry had are names of others or its own |
| WorldTabs.IntendedMisleadsExactly | source/proxyd/statemachine.cpp:1142-1154 | as meant, an event misleads if and only if a player leaves that shares its name |
| WorldTabs.DepartureListedExactly | source/proxyd/statemachine.cpp:1142-1154 | after a departure a remaining client's list is right if and only if the departure is announced and nobody else had the name, or neither |
| WorldSelf.ClientsKnowThemselves | source/proxyd/statemachine.cpp:69-83 | after every run each logged-in client has its player's name and entity id, and the middle chunk it was last told, or that of the entrance if none, is its player's |
| WorldWritten.WrittenStepExactly | source/proxyd/statemachine.cpp:767 | from any state with an exact index and the right players registered, a step as written is the step as meant if and only if it is no bad confirmation, no change of a view distance that there was or of a player in play, and no early departure |
| WorldWritten.WrittenRunAgrees | source/proxyd/statemachine.cpp:24-753 | runs without such steps are the same for both readings |
| WorldWritten.WrittenIndexExactly | source/proxyd/statemachine.cpp:767-773 | as written a step leaves an exact index exact if and only if it does not change the view distance of a player in play, also from none, and does not enlarge one before play that there was |
| WorldWritten.IndexThroughout | source/proxyd/statemachine.cpp:767-773 | so over runs: as written the index is exact after every event if and only if none is of that kind |
| WorldWritten.WrittenSquaresExactly | source/proxyd/statemachine.cpp:775-801 | as written clients go on holding their squares after a step if and only if it does not change a view distance in play, shrink one before play that there was, or put a player without one into play |
| WorldWritten.SquaresThroughout | source/proxyd/statemachine.cpp:775-801 | so over runs |
| WorldWritten.WrittenSafeExactly | source/proxyd/statemachine.cpp:181-182 | as written, play is entered by confirming outstanding ids only, with view distances and ids as they should be, if and only if no rejected id is confirmed, whatever the view distance |
| WorldWritten.SafeThroughout | source/proxyd/statemachine.cpp:181-182 | so over runs |
| WorldWritten.WrittenDistancesExactly | source/proxyd/statemachine.cpp:181-182 | view distances and ids alone go wrong if and only if that is done by a player without a view distance |
| WorldWritten.DistancesThroughout | source/proxyd/statemachine.cpp:181-182 | so over runs |
| WorldWritten.WrittenRegisteredExactly | source/proxyd/statemachine.cpp:1125-1127 | as written the players set stays right if and only if nobody closes between login and play |
| WorldWritten.RegisteredThroughout | source/proxyd/statemachine.cpp:1125-1127 | so over runs |
| WorldRuns.BadConfirmRun | source/proxyd/statemachine.cpp:181-182 | a run of four events into play with view distance zero |
| WorldRuns.UnconfirmedRun | source/proxyd/statemachine.cpp:181-182 | a run of five into play with the teleport that was sent still to be confirmed |
| WorldRuns.GrownInPlayRun | source/proxyd/playertracker.hpp:112 | a run that leaves neither the index nor the chunks held right: settings 2, entry, settings 3 |
| WorldRuns.GrownEarlyRun | source/proxyd/statemachine.cpp:767 | a run that puts a player into the index that does not play yet |
| WorldRuns.ShrunkEarlyRun | source/proxyd/statemachine.cpp:781 | a run that leaves a client chunks outside its square before it plays |
| WorldRuns.SettledBlindRun | source/proxyd/statemachine.cpp:767 | a run of five events: a rejected id puts a player into play without the chunk it is in, and its first settings there reach neither the index nor its chunks |
| WorldRuns.EarlyLeaveRun | source/proxyd/statemachine.cpp:1125-1127 | a run of four events that leaves a departed player registered |
| WorldRuns.EarlyLeaveListedRun | source/proxyd/statemachine.cpp:1125-1127 | and one that leaves it on another client's list |
| WorldRuns.ReusedIdentityRun | source/proxyd/statemachine.cpp:104-128 | a run in which the list stays right when such a client closes, and goes wrong when a connection opens under its identity |
| WorldRuns.SharedNameRun | source/proxyd/statemachine.cpp:64 | a run in which one of two players with one name leaves and the other's list loses the name |
| WorldRuns.ApproachRun | source/proxyd/statemachine.cpp:1059-1099 | a run in which a player walks up to another and is told nothing of it |
| WorldResized.WalkKnownExactly | source/proxyd/statemachine.cpp:1059-1099 | whatever the index says, in either reading, a client keeps an exact view of a player that walks if and only if its subscriptions to both chunks, its square and its belief agree |
| WorldResized.ResizedIsMisled | source/proxyd/playertracker.hpp:101 | after any resize in play as written, whoever walks from outside into the far corner of the larger square leaves the client with a wrong picture |
| WorldBlocks.CopiesExactly | source/proxyd/statemachine.cpp:513-560 | in either reading, after any run of the players and of digs, a client's copy of a block is the store's if and only if since it was last sent the chunk or dug there itself the block was not broken without its being told; if it was, the client sees a block where there is none |
| WorldBlocks.ToldExactly | source/proxyd/statemachine.hpp:161-168 | as meant, a client in play has copies of exactly the chunks in its square, and is told of a block that another breaks if and only if that other stands in it, wherever the block is |
| WorldBlocks.OthersDigsRepairNothing | source/proxyd/statemachine.cpp:541-544 | no later dig of the block by another repairs the copy, not even beside the client: what is air already is not announced |
| WorldBlocks.CopiesAreHeld | source/proxyd/statemachine.cpp:854-910 | a client has copies of exactly the chunks it holds |
| WorldBlocks.PlayersRun | source/proxyd/statemachine.cpp:513-560 | digs leave the players as they are, so all that is proved of their runs holds with digs among them |
| WorldBlocks.StoreIsRun | source/proxyd/statemachine.cpp:835-852 | the store that the players' packets and digs leave is that of a run of creations and digs |
| WorldDigRun.FarDigRun | source/proxyd/statemachine.hpp:161-168 | a run in which one player breaks a block in a chunk that another holds, from where that other cannot see it, and the other's copy keeps the block |
| Deliveries.AfterIsApply | source/proxyd/statemachine.hpp:147-168 | handlers that send packet after packet to set after set of players come to what the transition system says of each connection on its own |
| Server.ProxyServer.Deliver | source/proxyd/statemachine.cpp:24-753 | handling a packet takes exactly the step of the transition system, for either reading; what that step does is in the rows of `WorldEvents` |
| Server.ProxyServer.Connect | source/proxyd/proxyserver.hpp:66-76 | so does opening a connection |
| Server.ProxyServer.Close | source/proxyd/statemachine.cpp:1125-1156 | so does closing one |
| Server.ProxyServer.Broadcast | source/proxyd/statemachine.hpp:147-168 | each target gets the packet once, nobody else anything |
| Server.ProxyServer.OnClientSettingsChange | source/proxyd/statemachine.cpp:755-803 | the new view distance, index update and chunk messages |
| Server.ProxyServer.MovedChunks | source/proxyd/statemachine.cpp:1030-1041 | the offset loops collect exactly the cells that leave and enter the square, in order |
| Server.ProxyServer.OnChunkTransition | source/proxyd/statemachine.cpp:1025-1100 | index, the mover's own messages, and move, despawn or spawn for each subscriber of either chunk |
| Gateway.OnBytesReceived | source/proxyd/statemachine.hpp:218-229 | for any bytes, the player's reader takes its step and the world takes exactly those of the frames that are completed, in order |
| Downstream.TakenExactly | source/proxyd/framing.hpp:57-71 | of any beginning of a stream of frames, whatever their lengths, a client takes exactly the frames that are whole in it |
| Downstream.LimitedExactly | source/proxyd/framing.hpp:11-12 | the server's reader differs from that by its limit and in nothing else |
| Downstream.HeardAsSaid | source/proxyd/packets.def:109-265 | a client that looks each id up in the table of its phase understands what was said |
| Downstream.HeardSpawn | source/proxyd/packets.def:121-130 | what a client makes of the bytes of a spawn: id 5, the entity, sixteen bytes, the position and the rest |
| Downstream.HeardMove | source/proxyd/packets.def:187-193 | what a client makes of the bytes of a move: id 0x28 |
| Downstream.HeardMoveRotation | source/proxyd/packets.def:195-203 | what a client makes of the bytes of a move with its rotation: id 0x29 |
| Downstream.HeardRotation | source/proxyd/packets.def:205-210 | what a client makes of the bytes of a rotation: id 0x2a |
| Downstream.HeardHeadLook | source/proxyd/packets.def:234-237 | what a client makes of the bytes of a head look: id 0x3b |
| Downstream.HeardTeleport | source/proxyd/packets.def:257-265 | what a client makes of the bytes of an entity's position: id 0x56 |
| Downstream.HeardDestroy | source/proxyd/packets.def:228-232 | what a client makes of the bytes of the end of an entity: id 0x37 |
| Downstream.HeardChunk | source/proxyd/packets.def:165-175 | what a client makes of the bytes of a chunk: id 0x21, x before z |
| Downstream.HeardUnload | source/proxyd/packets.def:156-159 | what a client makes of the bytes of the end of one: id 0x1d |
| Downstream.HeardViewPosition | source/proxyd/packets.def:243-246 | what a client makes of the bytes of the middle chunk: id 0x40 |
| Downstream.HeardJoinGame | source/proxyd/packets.def:177-185 | what a client makes of the bytes of the client's own entity: id 0x25 |
| Downstream.HeardPositionLook | source/proxyd/packets.def:218-226 | what a client makes of the bytes of a teleport: id 0x35, its id at the end |
| Downstream.HeardLoginSuccess | source/proxyd/packets.def:116-119 | the name a client has logged in under, and from then on the table of play |
| Downstream.MadeNothing | source/proxyd/packets.def:109-265 | all packets but twenty ids say nothing of the players |
| Downstream.ClientHears | source/common/net/tcpserver.cpp:36-132 | however writes and calls of send interleave without a write failing, what a client has heard is a beginning of what was said, and all of it when nothing is left to write |
| Downstream.ClosedHeard | source/common/net/tcpserver.cpp:36-132 | the client of a closed connection has heard all that was sent before the first call of disconnect |
| Downstream.LateRefusalUnheard | source/proxyd/statemachine.hpp:118-135 | a refusal between login and play is sent under an id that a client past its login does not have, and it makes nothing of it |
| EndToEnd.ClientSees | source/proxyd/statemachine.cpp:1059-1099 | from the bytes written for a player a client draws the picture after a beginning of its log; once nothing is left to write it knows exactly the players in sight, as long as its own acts did not change what it sees, and in play holds exactly the chunks of its square |
| EndToEnd.StoredChunkTaken | source/proxyd/statemachine.cpp:854-910 | after any run of the players and of digs, the frame of a stored chunk is taken off the stream whole, understood as that chunk, and reads as the sections in the store |
| Server.ReachableIsLive | source/proxyd/playertracker.hpp:125-128 | in every reachable state, in either reading, the tracker holds only players that have a state machine, as Deliver requires |

## Left out

- Sockets, accept and read loops, timers, signals, threads and mutexes: main runs one io thread, so a handler is one atomic step.
- IEEE arithmetic: floats are opaque bit patterns in the codec, positions are reals in the player model with the number a pattern stands for as a parameter of `Protocol`, and a conversion out of the range of Int32 is not modelled; yaw and pitch are not tracked.
- Wrap-around of teleport ids and entity ids at 2^31, of chunk coordinates, and of view distances as UInt8 (they lie in 2..32).
- State machines as separate heap objects: `Server.ProxyServer` keeps the record of each in a map that its methods reassign, so aliasing between a handler and the machines it reads is not captured. Chunks are likewise values in a map rather than arrays behind pointers.
- deserializeNbt and deserializeEntityMetadata, which only throw; the readers here stand in for the client. Metadata kinds on which the serializer throws.
- The wire form of PacketPlayerInfo, a hand-written variant outside the packet table; list entries are keyed by user name, of which the uuid is a hash.
- The values of clientbound fields that say nothing about the players, such as rotations, skins and game modes, but for the frame of a chunk: `Downstream.ClientHears` holds whatever they are, given that the others say what the log says. What the payload of PacketPlayerInfo says is a parameter of `Downstream`.
- Closing: `sent` in `World` is the calls of send. After a call of disconnect the source discards later sends (`source/common/net/tcpserver.cpp:96-99`) and writes nothing once it has closed, so of a connection that is marked for closing the theorems about views say nothing; `EndToEnd.ClientSees` asks that every send was accepted.
- Refusals between login and play in the bytes of a log: see `Downstream.LateRefusalUnheard`.
- A departed player that stays in the players set is a dangling pointer in the text; traversals here pass over it.
- Chat, keep-alive, ticks and time-outs, plugin messages, held item, animation, sprint and crouch, windows, abilities: each is settled by reading one branch.
- Digs that are refused or have another status than 0, and the order of a block change among the other packets to one client: in `WorldBlocks` a dig, its broadcast and what clients make of it are one step. The client that digs is left out of the broadcast as it removes the block itself. Packets inside the player model carry chunk coordinates, their contents are in `ChunkWire`.
- The order in which one broadcast reaches different connections, and the traversal order of an unordered set except where one client can see it.
- Digs outside heights 0..255, which index outside the sections.
- Big-endian hosts: the packers copy words in memory order.
