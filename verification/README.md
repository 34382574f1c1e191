# underworld: a verified model of the game's networking, tables and input logic

This project models the core of the `underworld` game in Dafny and proves
properties of that model. The game is written in Rust, with a client, a
server and a mod API.

- **Engine network stack.** This is the `engine/network` crate:
  - a packet registry that gives each packet type a dense 16-bit id
  - the `[id: u16 BE][size: u16 BE][body]` framing, read by `next_packet` and written by `emit`
  - the classification of poll errors and the per-tick `process_conn` loop
  - the per-id table of received packets and the outgoing packet queue
  - the client and server `Network` contexts. Each tick they accept connections, poll them, drop the failed ones, dispatch packets with `on` and send packets.
- **Older network stack.** This is `common/src/network` and `server/src/network`:
  - a `BiMap` packet table with a bincode `RawPacket` frame
  - the server's three address-keyed tables (connecting, clients, disconnected)
  - accept, packet handling, timeout and send rules over those tables
- **Protocol instances.** These are the game's five engine packets and the two login packets.
- **Index registries.** These are `Registry<T>`, the client `TileRegistry` and `SpriteSheetsRegistry`. All three are a vector that is pushed to, with the new index as the handle. `Registries.Registry` models all three: `register`, `add_tile` and `push`, together with `get`.
- **Tile maps.**
  - The centred chunk grid of `TileMap::new` uses truncating `i32` division. The client's `TileMap::new` and `TileChunk::new_filled` are the same code as the common ones, and `CommonTilemap.New`/`NewFilled` model both.
  - The two chunk-to-tile conversions.
  - The client's map storage.
- **Terrain.** This covers:
  - 32 × 32 chunks
  - the 16 chunks in sight
  - server generation, with the random draws as an oracle
  - the client's handling of chunk and tile packets
- **Client assets.** Textures are registered under the textures directory. Tiles are registered in ascending key order, so client and server number them alike.
- **The mods' `require`.** It normalises a module name to a `.lua` script path under the mods directory and runs the script.
- **Player controllers.** Movement flags, sprite row and send decision; action-bar slot selection.
- **GUI manager.** Its open/close state machine.

Sockets are abstract finite byte streams. Each stream ends in `WouldBlock`, end of stream or a fatal error. bincode is concrete for the frame (little-endian fixed-width integers). Packet bodies are opaque byte sequences. Callbacks and handlers are not run; the model returns the sequence of calls they receive. `HashMap` iteration order is a parameter wherever it matters.

## Model

| member | source | states |
|---|---|---|
| EngineProtocol.New | engine/network/src/protocol.rs:21-25 | a new protocol knows no packet type |
| EngineProtocol.WithPacket | engine/network/src/protocol.rs:27-40 | a type already present panics; once 65536 types exist the count does not fit a `u16` and it panics; otherwise the new type's id is the previous count, every other id is unchanged, the count grows by one and ids stay dense |
| EngineProtocol.IdOf | engine/network/src/protocol.rs:42-44 | `Some` exactly for registered types |
| EngineProtocol.BuildAssignsIndices | engine/network/src/protocol.rs:27-40 | registering up to 65536 distinct types succeeds, gives the i-th type id i and leaves every other type unregistered |
| EngineProtocol.BuildRejectsDuplicate | engine/network/src/protocol.rs:28-32 | a registration list with a repeated type fails |
| EngineProtocol.BuildKnowsRegistered | engine/network/src/protocol.rs:33-38 | after a successful build every listed type is registered |
| GameProtocol.ProtocolIds | src/protocol.rs:23-30 | the game protocol builds without tripping the duplicate assertion; it holds exactly the five types, with ids ClientPing 0, ServerPong 1, ClientLoadWorld 2, ServerWorldSendChunk 3, ServerWorldSetTile 4 |
| Bytes.TruncateU16 | engine/network/src/connection.rs:83 | `as u16` keeps the value below 65536 and is congruent to it modulo 65536 |
| Bytes.BeRoundTrip | engine/network/src/connection.rs:164-167 | `from_be_bytes` inverts `to_be_bytes` |
| Bytes.LeRoundTrip | common/src/network/mod.rs:71-81 | the little-endian length prefix reads back as the length |
| EngineConnection.ReadField | engine/network/src/connection.rs:161-167 | a header read never grows the stream; with end of stream as an error, a successful read consumes bytes; as written, a drained closed stream yields 0 and is left as it was |
| EngineConnection.NextPacketWith | engine/network/src/connection.rs:160-191 | reading a packet only consumes input; every packet returned has a size field equal to its body length; with the correction, every packet read consumes input (at least 2 bytes) |
| EngineConnection.ClosedStreamNeverFails | engine/network/src/connection.rs:160-175 | as written, a closed stream with nothing left yields an empty id-0 packet and is not advanced |
| EngineConnection.ClosedStreamReportsEof | engine/network/src/connection.rs:160-175 | with the correction, the same stream ends the read with `UnexpectedEof` |
| EngineConnection.ReadersAgreeBeforeEof | engine/network/src/connection.rs:160-191 | on every stream whose peer has not closed, `next_packet` as written and the corrected reader give the same packet or error and the same remaining stream |
| EngineConnection.Frame | engine/network/src/connection.rs:192-204 | `emit` writes 4 header bytes plus the body |
| EngineConnection.NewRawPacket | engine/network/src/connection.rs:68-86 | panics exactly for a type missing from the protocol; otherwise it keeps the body and takes the protocol's id; the size field matches the body exactly when the body is shorter than 65536 bytes (`as u16`) |
| EngineConnection.FrameRoundTrip | engine/network/src/connection.rs:160-207 | on a lossless stream, reading what `emit` wrote returns the same id, size and bytes and leaves what followed, for both readers |
| EngineConnection.ShortBodyIsInvalid | engine/network/src/connection.rs:177-190 | a body read that returns fewer bytes than the header's size gives `InvalidPacket`, not a packet, for both readers |
| EngineConnection.FieldRoundTrip | engine/network/src/connection.rs:164-167 | a big-endian header field reads back as the value written |
| EngineConnection.Aggregate | engine/network/src/connection.rs:105-109 | the result is `ShouldClose` iff either side is: `ShouldClose` absorbs, `Valid` with `Valid` stays `Valid` |
| EngineConnection.Classify | engine/network/src/connection.rs:112-136 | `ShouldClose` exactly for the I/O kinds aborted, refused, reset, interrupted and unsupported; `WouldBlock`, `InvalidPacket` and `UnexpectedEof` give `Valid` |
| EngineConnection.Process | engine/network/src/connection.rs:112-136 | the verdict is `Classify`, and the connection is shut down exactly on `ShouldClose` |
| EngineConnection.ProcessConnSpec | engine/network/src/connection.rs:211-228 | polling a stream keeps how it ends |
| EngineConnection.PolledWellSized | engine/network/src/connection.rs:211-228 | every packet `process_conn` returns has a size equal to its body length |
| EngineConnection.ProcessDrained | engine/network/src/connection.rs:211-228 | a drained stream yields no packet and the verdict on its end |
| EngineConnection.ProcessFramesRoundTrip | engine/network/src/connection.rs:192-228 | a stream holding exactly the frames `emit` wrote yields those packets in order; a stream that just runs dry stays `Valid` |
| EngineConnection.Emit | engine/network/src/connection.rs:192-207 | appends the frame to the output; panics exactly when the size field differs from the body length |
| EngineConnection.ProcessConn | engine/network/src/connection.rs:211-228 | the loop returns the packets, verdict and stream `ProcessConnSpec` gives; it writes nothing and shuts the connection down only on `ShouldClose` |
| EngineConnection.Pushed | engine/network/src/connection.rs:287-293 | the table grows to `id + 1` buckets if shorter, else keeps its size |
| EngineConnection.PushedBucket | engine/network/src/connection.rs:287-293 | a push appends one entry to bucket `id` and leaves every other bucket unchanged |
| EngineConnection.Cleared | engine/network/src/connection.rs:295-299 | clearing keeps the bucket count |
| EngineConnection.ClearedBucket | engine/network/src/connection.rs:295-299 | after clearing, every bucket is empty |
| EngineConnection.PushedAllBucket | engine/network/src/connection.rs:287-293 | after pushing a list of packets, bucket `id` gains exactly the packets with that id, in order |
| EngineConnection.ReceivedPackets.constructor | engine/network/src/connection.rs:283-285 | the table starts with no bucket |
| EngineConnection.ReceivedPackets.Push | engine/network/src/connection.rs:287-293 | the new table is `Pushed` of the old |
| EngineConnection.ReceivedPackets.PushAll | engine/network/src/ctx.rs:92-94 | the loop pushes every packet in order |
| EngineConnection.ReceivedPackets.Clear | engine/network/src/connection.rs:295-299 | the new table is `Cleared` of the old |
| EngineConnection.ReceivedPackets.BytesWithId | engine/network/src/connection.rs:301-309 | `None` iff the id has no bucket, otherwise that bucket |
| EngineConnection.PacketQueue.constructor | engine/network/src/connection.rs:24-30 | an empty queue over the protocol |
| EngineConnection.PacketQueue.Push | engine/network/src/connection.rs:32-40 | panics iff there is a body and its type is missing from the protocol; otherwise appends one batch holding one built packet per body, with the destinations |
| EngineConnection.PacketQueue.Take | engine/network/src/connection.rs:45 | hands over every batch in push order and leaves the queue empty |
| EngineCtx.DecodeBucket | engine/network/src/ctx.rs:56-71 | the handler gets each entry of the bucket, in order, with its origin and decoded body; the first body that does not decode panics after the earlier calls |
| EngineCtx.On | engine/network/src/ctx.rs:44-72 | a packet of the node's own side or of an unregistered type panics before any call; with no bucket, no call; otherwise the bucket is dispatched in receipt order |
| EngineCtx.EmitAll | engine/network/src/ctx.rs:109-115 | emitting succeeds iff every packet is well sized, and then writes exactly their frames |
| EngineCtx.EmitEach | engine/network/src/ctx.rs:110-114 | the loop agrees with `EmitAll` and touches only the output |
| EngineCtx.NewRawPackets | engine/network/src/ctx.rs:102-105 | panics iff there is a body and the type is unregistered; otherwise one `RawPacket::new` per body, in order |
| EngineCtx.ClientNetwork.constructor | engine/network/src/ctx.rs:31-41 | no connection, an empty table |
| EngineCtx.ClientNetwork.SetConnection | engine/network/src/ctx.rs:75-82 | the connection is replaced, so `is_connected` holds |
| EngineCtx.ClientNetwork.Poll | engine/network/src/ctx.rs:88-99 | the table is cleared, then the tick's packets are pushed under the unit handle; the connection is dropped exactly on `ShouldClose` |
| EngineCtx.ClientNetwork.SendRaw | engine/network/src/ctx.rs:109-115 | without a connection nothing happens; with one, the frames of the packets are written in order |
| EngineCtx.ClientNetwork.Send | engine/network/src/ctx.rs:101-115 | unregistered types panic; for registered types the result is that of sending the built packets: without a connection nothing happens, with one a body of 65536 bytes or more panics and otherwise the frames are written in order |
| EngineCtx.ClientPollThenOn | engine/network/src/ctx.rs:88-99 | right after a poll, `on` hands the handler exactly the tick's packets of that type, in arrival order |
| EngineCtx.SubmitClient | engine/network/src/connection.rs:44-49 | the queue is left empty; without a connection nothing is sent; with one, it panics iff some queued batch holds a packet whose size field is wrong, and otherwise every batch's frames are written in push order |
| EngineCtx.InsertedAt | engine/network/src/ctx.rs:125-134 | accepting keeps the existing connections and puts the k-th accepted one under a fresh handle |
| EngineCtx.PollsOf | engine/network/src/ctx.rs:139-146 | each connection's poll is `process_conn` on its stream |
| EngineCtx.PushedUpToBucket | engine/network/src/ctx.rs:147-149 | after the loop, every bucket holds exactly the packets of its id, connection by connection |
| EngineCtx.ClosingUpToHas | engine/network/src/ctx.rs:150-152 | a handle is marked for closing iff its poll said `ShouldClose` |
| EngineCtx.LiveUpTo | engine/network/src/ctx.rs:138 | the handle snapshot lists every live handle once, in increasing order |
| EngineCtx.AdvancedUpToAt | engine/network/src/ctx.rs:139-146 | each processed connection is advanced by its own poll, the others untouched |
| EngineCtx.SentToOutput | engine/network/src/ctx.rs:183-190 | each connection receives the bytes once per occurrence of its handle among the destinations |
| EngineCtx.SentToKeeps | engine/network/src/ctx.rs:183-190 | sending neither reads from nor shuts down a connection |
| EngineCtx.SentBatchesOutput | engine/network/src/connection.rs:53-58 | each connection receives every batch addressed to it, in push order |
| EngineCtx.ServerNetwork.constructor | engine/network/src/ctx.rs:31-41 | no connection, an empty table |
| EngineCtx.ServerNetwork.Accept | engine/network/src/ctx.rs:125-134 | every provided connection is inserted under a new handle, in order |
| EngineCtx.ServerNetwork.ProcessOne | engine/network/src/ctx.rs:140-152 | one connection is polled, its packets pushed under its handle |
| EngineCtx.ServerNetwork.ProcessAll | engine/network/src/ctx.rs:136-153 | clears the table, polls every connection in handle order and returns exactly the handles to close |
| EngineCtx.ServerNetwork.ProcessNext | engine/network/src/ctx.rs:139-153 | one loop iteration keeps the loop's invariant |
| EngineCtx.ServerNetwork.RemoveAll | engine/network/src/ctx.rs:154-156 | removes exactly the listed handles and keeps every other connection unchanged |
| EngineCtx.ServerNetwork.Poll | engine/network/src/ctx.rs:124-157 | accepts first, then clears and polls; exactly the `ShouldClose` connections are removed, the others stay with their streams advanced |
| EngineCtx.ServerNetwork.AllConnections | engine/network/src/ctx.rs:159-164 | exactly the live handles, each once, in order |
| EngineCtx.ServerNetwork.SendRaw | engine/network/src/ctx.rs:178-191 | panics iff there is something to send and a destination is missing or a packet is mis-sized; otherwise every destination gets the frames once per listing |
| EngineCtx.ServerNetwork.SendNext | engine/network/src/ctx.rs:183-190 | one destination's packets are written, or it panics if it has no connection |
| EngineCtx.ServerNetwork.Send | engine/network/src/ctx.rs:166-191 | unregistered types panic; for registered types it panics iff there is something to send and a destination is missing or a body is mis-sized, and otherwise every destination gets the frames once per listing |
| EngineCtx.ServerPollThenOn | engine/network/src/ctx.rs:136-149 | right after a poll, `on` hands the handler exactly the packets of that type, connection by connection in handle order |
| EngineCtx.SubmitServer | engine/network/src/connection.rs:53-58 | the queue is emptied; it panics iff some batch has packets and destinations and a destination is not connected or a packet is mis-sized; otherwise every batch is sent to its destinations in push order |
| CommonNetwork.Insert | common/src/network/mod.rs:54 | `BiMap::insert` keeps both directions coherent, maps the new pair and drops exactly the pairs sharing either value |
| CommonNetwork.Added | common/src/network/mod.rs:54 | the table stays coherent after inserting the count `as u16` |
| CommonNetwork.AnyPacket.TryDecode | common/src/network/mod.rs:25-28 | `None` for another type; for this type, the deserialised body, panicking if it does not deserialise |
| CommonNetwork.RawFrame | common/src/network/mod.rs:71-81 | the frame is 10 bytes of header plus the data |
| CommonNetwork.ParseRawFrame | common/src/network/mod.rs:85 | fails exactly when the input is shorter than the header or its declared length |
| CommonNetwork.RawFrameRoundTrip | common/src/network/mod.rs:69-90 | a frame parses back to its id and data, whatever follows it |
| CommonNetwork.Protocol.New | common/src/network/mod.rs:42-46 | no packet registered |
| CommonNetwork.Protocol.AddPacket | common/src/network/mod.rs:48-56 | panics iff the type is present, else inserts it with the count as id |
| CommonNetwork.Protocol.IdOf | common/src/network/mod.rs:58-60 | `Some` exactly for registered types |
| CommonNetwork.Protocol.TypeIdOf | common/src/network/mod.rs:62-67 | panics for an id no type holds; a resolved type has that id |
| CommonNetwork.Protocol.Encode | common/src/network/mod.rs:69-82 | panics iff the type is unregistered; otherwise a frame with the type's id and the data |
| CommonNetwork.Protocol.Decode | common/src/network/mod.rs:84-90 | `None` when no frame parses; otherwise the frame's id is resolved (panicking if unknown) and the data kept |
| CommonNetwork.IdTypeInverse | common/src/network/mod.rs:58-67 | `id_of` and `type_id_of` are inverse |
| CommonNetwork.InsertFresh | common/src/network/mod.rs:48-56 | below 65536 types, a new type gets the count as id, earlier ids are kept and ids stay dense |
| CommonNetwork.EncodeDecode | common/src/network/mod.rs:21-23 | decoding what `encode` wrote gives a packet of that type, with the same data, for which `is` holds |
| CommonNetwork.InsertWraps | common/src/network/mod.rs:54 | from 65536 types on, the truncated id evicts an existing type and the count stops growing |
| CommonProto.LoginProtocol | common/src/network/proto.rs:30-34 | registers the two login packets in turn, panicking if either is present |
| CommonProto.NetworkProtocol | common/src/network/proto.rs:39-45 | does not panic; `ServerboundLoginStart` is 0, `ClientboundLoginSuccess` is 1, and no other id resolves |
| NetworkServer.Disconnected | server/src/network/mod.rs:206-211 | the address leaves connecting and clients; a client's profile moves to disconnected; unknown addresses change nothing; disjointness is kept |
| NetworkServer.Promoted | server/src/network/mod.rs:153-157 | a connecting address becomes a client with its socket and profile; others change nothing |
| NetworkServer.AcceptOne | server/src/network/mod.rs:55-64 | one accept keeps disjointness and never adds a client |
| NetworkServer.Listened | server/src/network/mod.rs:52-74 | the accept loop keeps disjointness and never adds a client |
| NetworkServer.Handled | server/src/network/mod.rs:65-68 | the results handled are those before the first `WouldBlock` |
| NetworkServer.ListenedFate | server/src/network/mod.rs:55-63 | a reached new address ends up connecting; a reached existing client ends up disconnected |
| NetworkServer.ListenedKeeps | server/src/network/mod.rs:52-74 | later accept results never undo connecting or disconnected status |
| NetworkServer.Collect | server/src/network/mod.rs:85-95 | the decode results collect into a prefix of the packets in order, or into an error from the steps that is never `WouldBlock` |
| NetworkServer.HandledUpTo | server/src/network/mod.rs:101-124 | handling keeps disjointness |
| NetworkServer.Tag | server/src/network/mod.rs:119-121 | each packet is passed with its address |
| NetworkServer.HandledClients | server/src/network/mod.rs:101-124 | exactly the clients whose socket failed fatally (aborted, reset, refused, unexpected end) are dropped |
| NetworkServer.SentData | server/src/network/mod.rs:159-170 | writing keeps the client set |
| NetworkServer.SentDataAt | server/src/network/mod.rs:159-170 | over distinct addresses, each listed client gets the data once; others and all profiles are unchanged |
| NetworkServer.SentDataAll | server/src/network/mod.rs:181-196 | sending to an enumeration of a set writes once to each member |
| NetworkServer.Server.New | server/src/network/mod.rs:28-50 | the login protocol, a 5 s timeout and empty tables |
| NetworkServer.Server.Disconnect | server/src/network/mod.rs:206-211 | the tables become `Disconnected` of the old |
| NetworkServer.Server.ListenForConnections | server/src/network/mod.rs:52-74 | the tables become `Listened` of the old |
| NetworkServer.Server.HandlePackets | server/src/network/mod.rs:76-125 | the tables and handler calls are those of handling each address in iteration order |
| NetworkServer.Server.HandleDisconnections | server/src/network/mod.rs:127-147 | clients silent for longer than the timeout are dropped; the handler gets the earlier disconnected plus the expired profiles; the disconnected table is left empty |
| NetworkServer.Server.DisconnectExpired | server/src/network/mod.rs:132-142 | the timeout loop drops exactly the expired clients into the disconnected table |
| NetworkServer.Server.IsConnecting | server/src/network/mod.rs:149-151 | holds iff the address is connecting |
| NetworkServer.Server.AcceptConnection | server/src/network/mod.rs:153-157 | the tables become `Promoted` of the old |
| NetworkServer.Server.SendDataTo | server/src/network/mod.rs:159-170 | panics iff some address is not a client; otherwise writes to each in turn |
| NetworkServer.Server.SendTo | server/src/network/mod.rs:172-179 | an unregistered type panics without writing; otherwise the encoding is sent as `send_data_to` |
| NetworkServer.Server.Broadcast | server/src/network/mod.rs:181-185 | encoded once and written once to every client |
| NetworkServer.Server.BroadcastExcept | server/src/network/mod.rs:187-196 | encoded once and written once to every client but the excluded one |
| NetworkServer.Server.GetRemote | server/src/network/mod.rs:198-200 | a profile exactly for accepted clients |
| NetworkServer.ExpiredProfiles | server/src/network/mod.rs:138 | exactly the clients silent for longer than the timeout |
| NetworkServer.Unexpired | server/src/network/mod.rs:138 | exactly the other clients |
| NetworkServer.ConnectingHasNoRemote | server/src/network/mod.rs:198-200 | a connecting address has no profile |
| NetworkServer.ExpiredUpToAt | server/src/network/mod.rs:132-142 | checking distinct addresses drops exactly the expired ones, moving their profiles |
| NetworkServer.ExpiredAll | server/src/network/mod.rs:132-142 | checking every client leaves the unexpired and hands over the expired |
| Registries.Registry.New | common/src/utils/registry.rs:9-11 | nothing registered |
| Registries.Registry.Register | common/src/utils/registry.rs:13-16 | appends; the id is the previous count; `get` of it returns the entry; earlier ids are unchanged |
| Registries.Registry.Get | common/src/utils/registry.rs:18-22 | the entry at the index; an index past the end panics |
| CommonTilemap.TruncDiv | common/src/tilemap/mod.rs:17 | Rust division rounds toward zero: the quotient never has the opposite sign of `n` |
| CommonTilemap.TruncDivOdd | common/src/tilemap/mod.rs:19 | truncating division is odd, unlike Dafny's: -1 / 16 is 0 |
| CommonTilemap.NewFilled | common/src/tilemap/mod.rs:44-48 | 16 rows of 16 tiles, all the given tile |
| CommonTilemap.New | common/src/tilemap/mod.rs:16-33 | panics iff the capacity `cx * cy` is negative; otherwise the chunks are exactly the centred grid, all background-filled |
| CommonTilemap.FillColumn | common/src/tilemap/mod.rs:24-29 | adds exactly one column of chunks |
| CommonTilemap.Grid | common/src/tilemap/mod.rs:19-21 | the set of grid coordinates |
| CommonTilemap.GridSize | common/src/tilemap/mod.rs:19-31 | a w × h grid has w·h chunks |
| CommonTilemap.ColumnSize | common/src/tilemap/mod.rs:24-29 | a column has h chunks |
| CommonTilemap.NewSize | common/src/tilemap/mod.rs:17-31 | cx·cy chunks when both counts are positive, none when either is zero or negative |
| CommonTilemap.ToTileCoords | common/src/tilemap/mod.rs:55-57 | a multiple of 16 that divides back to the chunk |
| ClientTilemap.ToTileCoords | client/src/tilemap/mod.rs:119-121 | adding (7, 8) back gives a multiple of 16 that divides back to the chunk |
| ClientTilemap.ToTileCoordsOffset | client/src/tilemap/mod.rs:119-121 | the client conversion is the common one minus (7, 8) |
| ClientTilemap.TileMapStorage.New | client/src/tilemap/mod.rs:20-25 | an empty tile registry and no map |
| ClientTilemap.TileMapStorage.AddTileMap | client/src/tilemap/mod.rs:27-29 | appends; an existing selection is kept, the first map becomes it |
| ClientTilemap.TileMapStorage.SelectedTilemap | client/src/tilemap/mod.rs:31-33 | the first map, `None` iff there is none |
| Terrain.ChunkNew | src/world/terrain.rs:99-104 | 32 × 32 dirt tiles at the given coordinates |
| Terrain.Range | src/world/terrain.rs:38 | `lo..hi` in order |
| Terrain.Row | src/world/terrain.rs:40 | one x paired with each y in order |
| Terrain.PairsProduct | src/world/terrain.rs:37-43 | the flattened pairs are the product of the ranges, each once |
| Terrain.InSightCount | src/world/terrain.rs:37-43 | 16 chunks in sight, none repeated |
| Terrain.InSightMembers | src/world/terrain.rs:37-43 | in sight iff both coordinates lie in -2..2 |
| Terrain.Square | src/world/terrain.rs:37-43 | the square of a range has (hi − lo)² distinct points |
| Terrain.RangeMembers | src/world/terrain.rs:38 | a range holds each integer of `lo..hi` once |
| Terrain.InSightOrder | src/world/terrain.rs:37-43 | the order is x-major: it starts (-2,-2), (-2,-1), (-2,0), (-2,1) |
| Terrain.GeneratedTiles | src/world/terrain.rs:130-144 | the corner is the debug tile; other tiles are gold, diamond or dirt as rolled |
| Terrain.GenerateChunk | src/world/terrain.rs:129-145 | every tile is the generated tile for its roll |
| Terrain.GenerateColumn | src/world/terrain.rs:132-142 | one column generated |
| Terrain.SetTileIn | src/world/terrain.rs:70-76 | the target chunk is inserted if absent even when the write panics; panics iff x or y is outside 0..32; otherwise only `tiles[x][y]` changes |
| Terrain.ReceivedChunks | src/world/terrain.rs:66-68 | chunks stay under their own coordinates |
| Terrain.ReceivedChunksKeys | src/world/terrain.rs:66-68 | a coordinate is present iff it was before or some packet carried it |
| Terrain.ReceivedChunksLast | src/world/terrain.rs:66-68 | the last packet for a coordinate wins |
| Terrain.SetTiles | src/world/terrain.rs:70-76 | the run panics iff some packet's tile is out of range |
| Terrain.TileRegistry.New | src/world/terrain.rs:152-156 | the mods' tiles in order |
| Terrain.TileRegistry.Add | src/world/terrain.rs:158-160 | appends |
| Terrain.Terrain.New | src/world/terrain.rs:30-35 | the mods' tiles and no chunk |
| Terrain.Terrain.Generate | src/world/terrain.rs:46-54 | every chunk in sight is freshly generated; other chunks are kept |
| Terrain.Terrain.GenerateAt | src/world/terrain.rs:48-52 | the loop over any list of coordinates |
| Terrain.Terrain.InsertGenerated | src/world/terrain.rs:49-51 | one chunk generated and inserted |
| Terrain.Terrain.ReceiveChunk | src/world/terrain.rs:66-68 | the chunk goes under its coordinates |
| Terrain.Terrain.SetTile | src/world/terrain.rs:70-76 | the map and outcome are `SetTileIn` |
| Terrain.Terrain.ClientUpdate | src/world/terrain.rs:65-77 | chunk packets first, then tile packets |
| Terrain.Terrain.ReceiveChunks | src/world/terrain.rs:66-68 | all chunk packets in order |
| Terrain.Terrain.SetTilesInOrder | src/world/terrain.rs:70-76 | all tile packets in order, up to a panic |
| Paths.Join | src/mods/api.rs:54 | an absolute path replaces the base; otherwise the base, a separator if needed, then the path |
| Paths.JoinKeepsSuffix | src/mods/api.rs:54 | joining keeps the joined path's suffix |
| ModsApi.ReplaceColons | src/mods/api.rs:50-53 | no ':' remains when the replacement has none; input without ':' is unchanged |
| ModsApi.ReplaceColonsAppend | src/mods/api.rs:50-53 | replacing distributes over concatenation |
| ModsApi.WithSuffix | src/mods/api.rs:47-49 | ends in `.lua`; unchanged if it already did |
| ModsApi.ModuleFileIsLua | src/mods/api.rs:47-53 | the script path ends in `.lua` |
| ModsApi.ModuleFileHasNoColon | src/mods/api.rs:50-53 | the script path has no ':' |
| ModsApi.ModuleFileNormal | src/mods/api.rs:47-54 | a `.lua` name without ':' is used unchanged |
| ModsApi.ModuleFileNamespaced | src/mods/api.rs:47-53 | `mod:file` becomes `mod/scripts/file.lua` |
| ModsApi.LeadingColonLeavesModsDir | src/mods/api.rs:50-54 | `:file.lua` becomes the absolute `/scripts/file.lua`, which replaces the mods directory |
| ModsApi.Require | src/mods/api.rs:46-68 | always `Ok`; the path is the joined script path and ends in `.lua`; not found iff unreadable; run cleanly iff readable and running succeeds |
| ClientAssets.LoadTextures | client/src/core/assets.rs:34-52 | one registration per manifest entry, in order, with the path joined onto `assets/textures/` |
| ClientAssets.TexturePath | client/src/core/assets.rs:46-47 | a relative sheet path lands directly under the textures directory |
| ClientAssets.LessIrreflexive | client/src/core/assets.rs:81 | string order is irreflexive |
| ClientAssets.LessTransitive | client/src/core/assets.rs:81 | string order is transitive |
| ClientAssets.LessTotal | client/src/core/assets.rs:81 | string order is total on distinct strings |
| ClientAssets.InsertByKey | client/src/core/assets.rs:81 | insertion keeps key order and adds exactly the element |
| ClientAssets.SortByKey | client/src/core/assets.rs:81 | sorted by key and a permutation |
| ClientAssets.SortedUnique | client/src/core/assets.rs:80-81 | two key-sorted sequences with the same elements are equal |
| ClientAssets.Collected | client/src/core/assets.rs:61-78 | succeeds iff every entry has a parsable "@client" part; then one parsed entry per key, in order |
| ClientAssets.Registrations | client/src/core/assets.rs:83-85 | one registration per sorted entry, with its handles |
| ClientAssets.LoadTiles | client/src/core/assets.rs:56-88 | collect, sort, register, as `TilesFor` |
| ClientAssets.RegisterInOrder | client/src/core/assets.rs:83-85 | a fresh registry with the registrations in order |
| ClientAssets.LoadTilesSucceeds | client/src/core/assets.rs:68-76 | loading succeeds iff every entry is usable |
| ClientAssets.LoadTilesSorted | client/src/core/assets.rs:80-85 | strictly ascending keys, each a manifest key with its handles |
| ClientAssets.LoadTilesComplete | client/src/core/assets.rs:83-85 | exactly one tile per manifest entry |
| ClientAssets.LoadTilesOrderIndependent | client/src/core/assets.rs:80-81 | the registrations do not depend on the map's iteration order |
| ClientAssets.CollectedMembers | client/src/core/assets.rs:61-78 | collected entries are exactly the keys with their parsed parts |
| Player.PlayerEntityController.Default | client/src/player.rs:19-28 | not moving |
| Player.PlayerEntityController.HandleInput | client/src/player.rs:31-51 | W/S/A/D set one flag to "pressed"; anything else changes nothing |
| Player.PlayerEntityController.MovePlayer | client/src/player.rs:66-90 | sprite-row precedence right > left > backward > forward, unchanged with no flag; direction signs; send iff some flag |
| Player.Position | client/src/player.rs:123-124 | the first index holding the key, `None` iff absent |
| Player.PositionInSlotOrder | client/src/player.rs:111-124 | in slot order, each key's position is its index |
| Player.ActionbarKeysInSlotOrder | client/src/player.rs:111-122 | Digit1..Digit9 then Digit0 are in slot order |
| Player.ActionbarSlot | client/src/player.rs:111-126 | Digit n selects n − 1, Digit0 selects 9 |
| Player.PlayerInventoryController.Default | client/src/player.rs:100-104 | slot 0 |
| Player.PlayerInventoryController.HandleInput | client/src/player.rs:107-132 | a pressed action-bar key selects its slot; anything else keeps it; the slot stays below 10 |
| Gui.GuiManager.New | client/src/gui/mod.rs:14-16 | nothing open |
| Gui.GuiManager.IsOpen | client/src/gui/mod.rs:18-20 | iff a GUI is held |
| Gui.GuiManager.Open | client/src/gui/mod.rs:22-24 | the new GUI replaces the old one, which is not closed |
| Gui.GuiManager.Close | client/src/gui/mod.rs:26-30 | closes the open GUI once, leaving nothing open |
| Gui.GuiManager.HandleInput | client/src/gui/mod.rs:32-47 | with a GUI open, Escape closes and clears it without forwarding, and any other input is forwarded; with nothing open, input is ignored |
| Gui.GuiManager.RenderIfOpen | client/src/gui/mod.rs:49-53 | renders exactly when a GUI is open |

## Left out

- Socket I/O is abstract: TCP, `TcpListener`, the `uflow` client, write errors, partial writes, `flush` and `configure`. Connections are byte streams; the server listener is the list of its accept results.
- bincode serialisation of packet bodies is abstract (opaque bytes, and a `decode` oracle in `on`). Only the `RawPacket` frame of the older stack is concrete.
- `genmap::GenMap` is a map from handles drawn from a counter, never reused; generation checks and slot reuse are not modelled, so the order of connections across a bucket and in `all_connections` is acceptance order in the model, where the code's is slot order. `HashMap` iteration order is an explicit parameter (`order`, `snapshot`).
- `remote_addr`, logging, `add_provider`, `get_remote_mut`, `Terrain::send` and every `render` function are I/O or drawing.
- The state after a panic is left open, except in `SetTileIn`, where the `or_insert` happens before the panic.
- CommonTilemap.New: `cx * cy` is computed without the `i32` overflow that sizes beyond about 2^35 tiles would cause, and an allocation failure is modelled only for a negative capacity.
- CommonTilemap.ToTileCoords: multiplication by 16 is unbounded; `i32` overflow is not modelled (likewise ClientTilemap.ToTileCoords).
- EngineCtx.ServerNetwork.Poll: providers are flattened into one list of accepted connections.
- Terrain.Terrain.Generate: the random number generator is a per-tile oracle of rolls; the order of the draws is not modelled.
- Terrain.TileRegistry.New: the tiles collected from the mods' Lua table are a parameter.
- ModsApi.Require: reading the file and running the Lua script are oracles. The Windows separator is not modelled, only '/'.
- ClientAssets.LoadTiles: JSON reading and `load_handles` are oracles. The keyed `Registry<K, V>` of the client assets is not part of this model and is modelled as a registry of (key, value) pairs. The sort is modelled on values; stability does not matter because keys are distinct.
- ClientAssets.LoadTextures: reading the manifest JSON is left out; the manifest is a list in iteration order.
- Player.PlayerEntityController.MovePlayer: the floating-point position update (`normalize`, `dt`, speed, NaN replacement) is left out; only the sprite row, the direction's integer components and the send decision are modelled.
- Gui.GuiManager.HandleInput: the GUIs' own behaviour (`dyn Gui`) is a log of the calls made on them.
- EngineConnection.ProcessConnSpec: uses the corrected reader, so it and everything built on it (EngineConnection.ProcessConn, EngineCtx.PollsOf, EngineCtx.ClientNetwork.Poll, EngineCtx.ServerNetwork.Poll, EngineCtx.ClientPollThenOn, EngineCtx.ServerPollThenOn) are weaker than the code on a closed stream with every byte read: there `process_conn` never returns, while the model ends the poll with `UnexpectedEof` (a valid connection, kept). EngineConnection.ReadersAgreeBeforeEof shows the two readers agree on every other stream.
- NetworkServer.Server.HandlePackets, NetworkServer.Server.HandleDisconnections, EngineCtx.On: the handlers receive `&mut` access to the server or context and could change its tables; the model records the calls they receive and does not model what they do to that state.
- NetworkServer.Server.HandlePackets: `self.protocol.decode(socket)` is abstract; each address's successive decode results are given as a list of `DecodeStep`s.

## Findings

| source | as written | input that shows it | evidently intended | confidence | as-written member | corrected member |
|---|---|---|---|---|---|---|
| engine/network/src/connection.rs:164-175 | the byte count of each header read is ignored, so a read returning `Ok(0)` at end of stream leaves the zeroed buffers: `next_packet` returns an empty id-0 packet and consumes nothing, and `process_conn`, which loops until an error, never returns | a connection whose peer has closed, with every byte read | end of stream ends the poll with an error (`UnexpectedEof`) | not executed | EngineConnection.ClosedStreamNeverFails | EngineConnection.ClosedStreamReportsEof |
