/**
 * The server's authoritative world store (`ServerWorldMap`), as a class whose
 * fields the synchronisation systems update in place, and `WorldState`, the
 * value of those fields at one moment, in which the systems are specified.
 */
module WorldMap {
  import opened Shared

  datatype WorldState = WorldState(
    chunks: map<IVec3, ServerChunk>,
    chunksToUpdate: seq<IVec3>,
    playerPositions: map<PlayerId, PlayerPosition>,
    time: u64,
    mobs: map<MobId, MobState>)

  /** No stored chunk is empty. */
  predicate NoEmptyChunks(chunks: map<IVec3, ServerChunk>) {
    forall c :: c in chunks ==> !IsEmpty(chunks[c])
  }

  /** `big` holds every entry of `small` with the same value. */
  predicate Extends(big: map<IVec3, ServerChunk>, small: map<IVec3, ServerChunk>) {
    forall c :: c in small ==> c in big && big[c] == small[c]
  }

  class ServerWorldMap {
    /** The chunk store (`map` in rustcraft's `ServerWorldMap`). */
    var chunks: map<IVec3, ServerChunk>
    /** Coordinates of chunks changed since the last periodic broadcast. */
    var chunksToUpdate: seq<IVec3>
    var playerPositions: map<PlayerId, PlayerPosition>
    var time: u64
    var mobs: map<MobId, MobState>

    constructor (s: WorldState)
      ensures State() == s
    {
      chunks, chunksToUpdate, playerPositions, time, mobs :=
        s.chunks, s.chunksToUpdate, s.playerPositions, s.time, s.mobs;
    }

    function State(): WorldState
      reads this
    {
      WorldState(chunks, chunksToUpdate, playerPositions, time, mobs)
    }
  }
}
