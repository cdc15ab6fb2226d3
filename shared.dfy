/**
 * Types shared by the client and the server: fixed-width integers, chunk
 * coordinates, chunks, delivery channels and the wire messages.
 *
 * Block data, player positions, mob state, client identities and the world
 * seed are opaque: the synchronisation logic only stores, copies and
 * compares them.
 */
module Shared {

  newtype u32 = x: int | 0 <= x < 0x1_0000_0000
  newtype u64 = x: int | 0 <= x < 0x1_0000_0000_0000_0000
  newtype i32 = x: int | -0x8000_0000 <= x < 0x8000_0000

  /** Rust's `u as i32` for a `u32`: the same 32 bits read as two's complement. */
  function U32AsI32(u: u32): (r: i32)
    ensures (r as int - u as int) % 0x1_0000_0000 == 0
    ensures r >= 0 <==> u < 0x8000_0000
  {
    if u < 0x8000_0000 then u as int as i32 else (u as int - 0x1_0000_0000) as i32
  }

  datatype Option<T> = None | Some(value: T)

  /** An integer 3-vector (bevy's `IVec3`): chunk coordinates and in-chunk positions. */
  datatype IVec3 = IVec3(x: i32, y: i32, z: i32)

  type BlockData
  type PlayerId(==)
  type PlayerPosition
  type MobId(==)
  type MobState
  type ClientId(==)
  type WorldSeed

  /** A chunk as the server stores it: its blocks by in-chunk position. */
  datatype ServerChunk = ServerChunk(blocks: map<IVec3, BlockData>)

  /** A chunk with no blocks is "nothing to transmit". */
  predicate IsEmpty(c: ServerChunk) {
    c.blocks == map[]
  }

  /** renet's default channels. */
  datatype Channel = ReliableOrdered | ReliableUnordered | Unreliable

  /** The payload of a world update; `newMap` is the chunk delta. */
  datatype WorldUpdate = WorldUpdate(
    tick: u64,
    playerPositions: map<PlayerId, PlayerPosition>,
    newMap: map<IVec3, ServerChunk>,
    time: u64,
    mobs: map<MobId, MobState>)

  /** Server-to-client messages; only the world-update variant is part of this model. */
  datatype ServerToClientMessage = WorldUpdateMessage(update: WorldUpdate)

  /** Client-to-server messages sent by the outbound intent translator. */
  datatype ClientToServerMessage =
    | ChatMessage(content: string)
    | WorldUpdateRequest(playerChunkPosition: IVec3, requestedChunks: seq<IVec3>, renderDistance: u32)
    | SaveWorldRequest(sessionToken: u64)
    | BlockInteraction(position: IVec3, blockType: Option<BlockData>)
}
