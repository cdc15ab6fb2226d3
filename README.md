# World synchronisation of a multiplayer voxel server

A Dafny model of how the rustcraft server keeps its clients' view of the world
in step with its authoritative world store, and of how the client turns local
actions into outbound messages.

- **On-demand sync** (`send_world_update`). It handles each world-update request event in turn. A requested chunk coordinate outside the render radius is skipped. A stored chunk is served as stored, unless it is empty. A missing chunk is generated from the world seed; it is stored and sent only if it is non-empty. One world update goes back to the requesting client on the reliable-unordered channel. It carries the tick, the chunk delta, and full copies of the player positions, the time and the mobs.
- **Periodic delta broadcast** (`broadcast_world_state`, `to_network`). It acts only on ticks that are a multiple of two seconds of ticks. On such a tick it sets the store's time to the server time. It then builds a delta from the coordinates marked for update, clears the marks, and broadcasts one world update to all clients on the reliable-unordered channel.
- **Outbound intent translator** (`send_network_action`). Each client action becomes exactly one message of the matching kind, sent on the reliable-ordered channel.

Layout:

- `shared.dfy`, module `Shared`: fixed-width integers, `IVec3`, `ServerChunk`, channels and wire messages. Block data, player positions, mob state, client ids and the seed are opaque types.
- `world_map.dfy`, module `WorldMap`: the `ServerWorldMap` class, whose fields the systems update in place. `WorldState` is the value of those fields at one moment.
- `transport.dfy`, module `Transport`: the renet server reduced to an outbox of `(target, channel, message)` records.
- `broadcast_world.dfy`, module `BroadcastWorld`: both server systems. Each is an imperative method with loops. Each is proved equal to a specification function on `WorldState` (`HandleRequests`, `PeriodicBroadcast`), and the lemmas state the properties of those functions.
- `client_api.dfy`, module `ClientApi`: the translator, as a pure function.

The terrain generator `generate_chunk` and the visibility test `chunk_in_radius` are not part of this model. They are uninterpreted function-valued fields of `Env`. No distance metric, reflexivity or symmetry is assumed of `chunk_in_radius`.

Notes on the code's behaviour:

- A dirty coordinate with no stored chunk makes `to_network` panic at the `unwrap` (server/src/network/broadcast_world.rs:117). Here it is a precondition (`DirtyChunksStored`), required only on broadcast ticks.
- Requested chunks are a sequence, so they may hold repeats. A coordinate whose generated chunk is empty is generated again at each repeat. A repeat of a stored coordinate is served from the store.
- `ticker` and `time` in `broadcast_world_state` are the same `ServerTime` resource. The stored time therefore becomes the tick value.
- The render distance reaches `chunk_in_radius` through Rust's wrapping `as i32` cast (`U32AsI32`). Distances of 2^31 and above arrive negative.

## Model

| member | source | states |
|---|---|---|
| Shared.U32AsI32 | server/src/network/broadcast_world.rs:42 | the cast result equals the distance modulo 2^32, and is non-negative exactly when the distance is below 2^31 |
| BroadcastWorld.ServeKeepsResolution | server/src/network/broadcast_world.rs:44-66 | serving only adds to the store: every old entry keeps its value, and the chunk served for any coordinate is the same before and after |
| BroadcastWorld.ServeStoreKeys | server/src/network/broadcast_world.rs:39-66 | the store keys afterwards are the old keys plus exactly the requested, in-radius coordinates whose generated chunk is non-empty |
| BroadcastWorld.ServeDelta | server/src/network/broadcast_world.rs:38-64 | a coordinate is in the delta iff it was requested, is in radius and its served chunk is non-empty; its value is the stored chunk if present, else the generated one |
| BroadcastWorld.ServeGenerated | server/src/network/broadcast_world.rs:44-56 | the generator is called only for requested, in-radius coordinates absent from the store, and for every such coordinate; every new store entry was generated |
| BroadcastWorld.ServeInsertsGenerated | server/src/network/broadcast_world.rs:55-65 | each new store entry is the chunk generated with the seed, and the delta carries that same chunk |
| BroadcastWorld.ServeDeltaShape | server/src/network/broadcast_world.rs:38-64 | every delta key was requested and every delta chunk is non-empty |
| BroadcastWorld.ServeOutOfRadius | server/src/network/broadcast_world.rs:39-43 | an out-of-radius coordinate is never generated or delivered, and its store entry or absence stays as it was |
| BroadcastWorld.ServeKeepsNoEmptyChunks | server/src/network/broadcast_world.rs:58-65 | a store with no empty chunk keeps having none |
| BroadcastWorld.ServeIdempotent | server/src/network/broadcast_world.rs:44-66 | a second identical request on the resulting store gives the same delta and store, and regenerates only coordinates whose chunk was empty |
| BroadcastWorld.ServeScenario | server/src/network/broadcast_world.rs:38-66 | a request event with render distance 1 from the origin for the origin and (5,5,5), the origin in radius and non-empty, (5,5,5) out of radius: only the origin is delivered, stored and generated |
| BroadcastWorld.HandleRequestsState | server/src/network/broadcast_world.rs:44-66 | the on-demand system changes only the chunk store, only by insertion, and keeps a store free of empty chunks |
| BroadcastWorld.HandleRequestsReplies | server/src/network/broadcast_world.rs:31-83 | one reply per event, in order, to the event's client on ReliableUnordered, with the tick, the store's positions, time and mobs, and the delta served against the store the earlier events left |
| BroadcastWorld.HandleRequestsDeltas | server/src/network/broadcast_world.rs:36-71 | every chunk in every reply is non-empty and was asked for by that reply's event |
| BroadcastWorld.CollectRequestedChunks | server/src/network/broadcast_world.rs:36-71 | the loop builds the delta, the new store and the trace of generator calls that `ServeRequest` specifies, and changes no other field |
| BroadcastWorld.SendWorldUpdate | server/src/network/broadcast_world.rs:23-84 | the new world state and the messages appended to the outbox are those of `HandleRequests` |
| BroadcastWorld.DirtyDeltaExact | server/src/network/broadcast_world.rs:114-118 | the delta keys are exactly the set of marked coordinates, so duplicates collapse, and each value is the stored chunk |
| BroadcastWorld.PeriodicBroadcastSpec | server/src/network/broadcast_world.rs:92-124 | off a broadcast tick nothing is sent and nothing changes; on one, time becomes the server time, marks are drained, and one update goes to all clients on ReliableUnordered with that time, the full positions and mobs, and exactly the marked chunks (non-empty when the store is) |
| BroadcastWorld.DrainThenMark | server/src/network/broadcast_world.rs:116-120 | after a broadcast, the next broadcast's delta holds exactly the coordinates marked in between |
| BroadcastWorld.DuplicateMarksScenario | server/src/network/broadcast_world.rs:116-118 | marks [(1,0,0),(1,0,0),(2,0,0)] give a two-entry delta with the stored chunks |
| BroadcastWorld.ToNetwork | server/src/network/broadcast_world.rs:109-126 | returns the tick, positions, time and mobs with the delta of the marked chunks, and leaves the marks empty |
| BroadcastWorld.BroadcastWorldState | server/src/network/broadcast_world.rs:86-107 | the new world state and the outbox records are those of `PeriodicBroadcast` |
| ClientApi.SendNetworkAction | client/src/network/api.rs:21-70 | every action is sent on ReliableOrdered as the message of its own kind; reading the message back gives the action, so chunks, distance, position and block pass unchanged; a save request carries token 0 |
| ClientApi.SendNetworkActionInjective | client/src/network/api.rs:22-69 | two actions with the same message are the same action |

## Left out

- bincode serialisation and its `unwrap`/`expect`: the outbox records the message values, not bytes. Encoding comes from an external library and is treated as total.
- The renet transport: `send_message` and `broadcast_message` are appends to an outbox. Delivery, connections and client identity are not modelled.
- Bevy ECS plumbing (resources, event readers, system scheduling): the systems take the store, the outbox, the tick and the event sequence as arguments.
- The bodies of `generate_chunk` and `chunk_in_radius`: they are defined outside these files (`crate::world::generation` and the `shared` crate) and are not part of this model. So "the viewer's own chunk is always in radius" is not proved here.
- `TICKS_PER_SECOND` is defined in `crate::init`, which is not part of this model. It is a parameter, required to be positive, and small enough that twice it fits in 64 bits.
- Logging and the `chunks_to_update_count` counter, which only feed log lines.
- Chunk contents beyond "empty or not", and the contents of block data, player positions and mob state: these are opaque types.
- Other variants of `ServerToClientMessage`: only the world update is sent by this core.
