/**
 * The server's world synchronisation: the on-demand path that answers each
 * world-update request with one targeted update, materialising missing
 * chunks on the way, and the periodic path that broadcasts the chunks marked
 * for update every two seconds of ticks.
 *
 * Each system is a method over the `ServerWorldMap` and the `RenetServer`
 * outbox, proved against a specification function on `WorldState`
 * (`HandleRequests`, `PeriodicBroadcast`); the lemmas state what those
 * functions guarantee.
 */
module BroadcastWorld {
  import opened Shared
  import opened WorldMap
  import opened Transport

  datatype WorldUpdateRequestEvent = WorldUpdateRequestEvent(
    client: ClientId,
    chunks: seq<IVec3>,
    renderDistance: u32,
    playerChunkPosition: IVec3)

  /**
   * The collaborators whose code is not part of this model: the world seed,
   * the terrain generator `generate_chunk` and the visibility test
   * `chunk_in_radius`. Nothing is assumed about either function.
   */
  datatype Env = Env(
    seed: WorldSeed,
    generateChunk: (IVec3, WorldSeed) -> ServerChunk,
    chunkInRadius: (IVec3, IVec3, i32) -> bool)

  // ----------------------------------------------------------------------
  // On-demand sync: specification
  // ----------------------------------------------------------------------

  /** The chunk the on-demand path serves for `c`: the stored one, else a generated one. */
  function Resolve(store: map<IVec3, ServerChunk>, c: IVec3, env: Env): ServerChunk {
    if c in store then store[c] else env.generateChunk(c, env.seed)
  }

  /**
   * Progress of the `new_map` block of `send_world_update`: the delta built so
   * far, the chunk store, and the coordinates handed to the generator.
   */
  datatype Served = Served(
    delta: map<IVec3, ServerChunk>,
    store: map<IVec3, ServerChunk>,
    generated: seq<IVec3>)

  /** One iteration over a requested coordinate `c`. */
  function ServeOne(acc: Served, c: IVec3, center: IVec3, radius: i32, env: Env): Served {
    if !env.chunkInRadius(center, c, radius) then acc
    else if c in acc.store then
      if IsEmpty(acc.store[c]) then acc
      else acc.(delta := acc.delta[c := acc.store[c]])
    else
      var chunk := env.generateChunk(c, env.seed);
      if IsEmpty(chunk) then acc.(generated := acc.generated + [c])
      else Served(acc.delta[c := chunk], acc.store[c := chunk], acc.generated + [c])
  }

  /** The requested coordinates `chunks`, taken in order, starting from an empty delta. */
  function Serve(store: map<IVec3, ServerChunk>, chunks: seq<IVec3>, center: IVec3, radius: i32, env: Env): Served
    decreases |chunks|
  {
    if chunks == [] then Served(map[], store, [])
    else
      var n := |chunks| - 1;
      ServeOne(Serve(store, chunks[..n], center, radius, env), chunks[n], center, radius, env)
  }

  /** How one request is served against `store`; the render distance goes through `as i32`. */
  function ServeRequest(store: map<IVec3, ServerChunk>, event: WorldUpdateRequestEvent, env: Env): Served {
    Serve(store, event.chunks, event.playerChunkPosition, U32AsI32(event.renderDistance), env)
  }

  /** Abstract state and outbox records produced by a system. */
  datatype Handled = Handled(state: WorldState, sent: seq<Envelope>)

  /** One event: the new state and the single update sent back to the requester. */
  function Respond(state: WorldState, event: WorldUpdateRequestEvent, tick: u64, env: Env): Handled {
    var s := ServeRequest(state.chunks, event, env);
    var update := WorldUpdate(tick, state.playerPositions, s.delta, state.time, state.mobs);
    Handled(state.(chunks := s.store),
            [Envelope(ToClient(event.client), ReliableUnordered, WorldUpdateMessage(update))])
  }

  /** All pending events, one at a time, in order. */
  function HandleRequests(state: WorldState, events: seq<WorldUpdateRequestEvent>, tick: u64, env: Env): Handled
    decreases |events|
  {
    if events == [] then Handled(state, [])
    else
      var n := |events| - 1;
      var h := HandleRequests(state, events[..n], tick, env);
      var r := Respond(h.state, events[n], tick, env);
      Handled(r.state, h.sent + r.sent)
  }

  // ----------------------------------------------------------------------
  // On-demand sync: properties
  // ----------------------------------------------------------------------

  /**
   * Serving only inserts into the store, and whatever it inserts is what the
   * generator gives, so the chunk served for any coordinate is the same
   * before and after.
   */
  lemma {:induction false} ServeKeepsResolution(store: map<IVec3, ServerChunk>, chunks: seq<IVec3>, center: IVec3, radius: i32, env: Env)
    ensures Extends(Serve(store, chunks, center, radius, env).store, store)
    ensures forall c :: Resolve(Serve(store, chunks, center, radius, env).store, c, env) == Resolve(store, c, env)
  {
    if chunks != [] {
      var n := |chunks| - 1;
      ServeKeepsResolution(store, chunks[..n], center, radius, env);
      var p := Serve(store, chunks[..n], center, radius, env);
      var r := Serve(store, chunks, center, radius, env);
      forall c ensures Resolve(r.store, c, env) == Resolve(store, c, env) {
        assert Resolve(p.store, c, env) == Resolve(store, c, env);
      }
    }
  }

  /**
   * The keys of the store afterwards: the old ones plus exactly the
   * requested, in-radius coordinates whose generated chunk is non-empty.
   */
  lemma {:induction false} ServeStoreKeys(store: map<IVec3, ServerChunk>, chunks: seq<IVec3>, center: IVec3, radius: i32, env: Env)
    ensures forall c :: c in Serve(store, chunks, center, radius, env).store <==>
      c in store ||
      (c in chunks && env.chunkInRadius(center, c, radius) && !IsEmpty(env.generateChunk(c, env.seed)))
  {
    if chunks != [] {
      var n := |chunks| - 1;
      ServeStoreKeys(store, chunks[..n], center, radius, env);
      assert chunks == chunks[..n] + [chunks[n]];
    }
  }

  /**
   * The delta holds exactly the requested, in-radius coordinates whose served
   * chunk is non-empty, each with that chunk: the stored one if present,
   * else the generated one.
   */
  lemma {:induction false} ServeDelta(store: map<IVec3, ServerChunk>, chunks: seq<IVec3>, center: IVec3, radius: i32, env: Env)
    ensures forall c :: c in Serve(store, chunks, center, radius, env).delta <==>
      c in chunks && env.chunkInRadius(center, c, radius) && !IsEmpty(Resolve(store, c, env))
    ensures forall c :: c in Serve(store, chunks, center, radius, env).delta ==>
      Serve(store, chunks, center, radius, env).delta[c] == Resolve(store, c, env)
  {
    if chunks != [] {
      var n := |chunks| - 1;
      ServeDelta(store, chunks[..n], center, radius, env);
      ServeKeepsResolution(store, chunks[..n], center, radius, env);
      var p := Serve(store, chunks[..n], center, radius, env);
      assert Resolve(p.store, chunks[n], env) == Resolve(store, chunks[n], env);
      assert chunks == chunks[..n] + [chunks[n]];
    }
  }

  /**
   * The generator is called only for requested, in-radius coordinates that
   * were absent from the store, and it is called for each of them; every
   * chunk the store gained came from it.
   */
  lemma {:induction false} ServeGenerated(store: map<IVec3, ServerChunk>, chunks: seq<IVec3>, center: IVec3, radius: i32, env: Env)
    ensures var r := Serve(store, chunks, center, radius, env);
      forall i :: 0 <= i < |r.generated| ==>
        r.generated[i] in chunks && env.chunkInRadius(center, r.generated[i], radius) && r.generated[i] !in store
    ensures var r := Serve(store, chunks, center, radius, env);
      forall c :: c in r.store && c !in store ==> c in r.generated
    ensures var r := Serve(store, chunks, center, radius, env);
      forall c :: c in chunks && env.chunkInRadius(center, c, radius) && c !in store ==> c in r.generated
  {
    if chunks != [] {
      var n := |chunks| - 1;
      ServeGenerated(store, chunks[..n], center, radius, env);
      ServeKeepsResolution(store, chunks[..n], center, radius, env);
      assert chunks == chunks[..n] + [chunks[n]];
      var p := Serve(store, chunks[..n], center, radius, env);
      var r := Serve(store, chunks, center, radius, env);
      assert r.generated == p.generated || r.generated == p.generated + [chunks[n]];
      forall i | 0 <= i < |r.generated|
        ensures r.generated[i] in chunks && env.chunkInRadius(center, r.generated[i], radius) && r.generated[i] !in store
      {
        if i < |p.generated| {
          assert r.generated[i] == p.generated[i];
        }
      }
    }
  }

  /**
   * Insert-only growth: every old entry keeps its value, and every new entry
   * is the generated chunk, which the same delta carries.
   */
  lemma ServeInsertsGenerated(store: map<IVec3, ServerChunk>, chunks: seq<IVec3>, center: IVec3, radius: i32, env: Env)
    ensures var r := Serve(store, chunks, center, radius, env);
      Extends(r.store, store) &&
      forall c :: c in r.store && c !in store ==>
        r.store[c] == env.generateChunk(c, env.seed) && c in r.delta && r.delta[c] == r.store[c]
  {
    var r := Serve(store, chunks, center, radius, env);
    ServeKeepsResolution(store, chunks, center, radius, env);
    ServeStoreKeys(store, chunks, center, radius, env);
    ServeDelta(store, chunks, center, radius, env);
    forall c | c in r.store && c !in store
      ensures r.store[c] == env.generateChunk(c, env.seed) && c in r.delta && r.delta[c] == r.store[c]
    {
      assert Resolve(r.store, c, env) == Resolve(store, c, env);
    }
  }

  /** Every chunk of an on-demand delta is non-empty and was requested. */
  lemma ServeDeltaShape(store: map<IVec3, ServerChunk>, chunks: seq<IVec3>, center: IVec3, radius: i32, env: Env)
    ensures var r := Serve(store, chunks, center, radius, env);
      forall c :: c in r.delta ==> c in chunks && !IsEmpty(r.delta[c])
  {
    ServeDelta(store, chunks, center, radius, env);
  }

  /**
   * A coordinate outside the radius is neither generated nor delivered, and
   * its store entry (or its absence) is left as it was.
   */
  lemma ServeOutOfRadius(store: map<IVec3, ServerChunk>, chunks: seq<IVec3>, center: IVec3, radius: i32, env: Env, c: IVec3)
    requires !env.chunkInRadius(center, c, radius)
    ensures var r := Serve(store, chunks, center, radius, env);
      c !in r.delta && c !in r.generated && (c in r.store <==> c in store) &&
      (c in store ==> r.store[c] == store[c])
  {
    ServeDelta(store, chunks, center, radius, env);
    ServeGenerated(store, chunks, center, radius, env);
    ServeStoreKeys(store, chunks, center, radius, env);
    ServeKeepsResolution(store, chunks, center, radius, env);
  }

  /** A store without empty chunks stays without empty chunks. */
  lemma ServeKeepsNoEmptyChunks(store: map<IVec3, ServerChunk>, chunks: seq<IVec3>, center: IVec3, radius: i32, env: Env)
    requires NoEmptyChunks(store)
    ensures NoEmptyChunks(Serve(store, chunks, center, radius, env).store)
  {
    ServeInsertsGenerated(store, chunks, center, radius, env);
    ServeDeltaShape(store, chunks, center, radius, env);
  }

  /**
   * Asking again for the same coordinates against the store the first
   * request left yields the same delta and no new store entry, and the
   * generator is consulted again only for coordinates whose generated chunk
   * was empty.
   */
  lemma ServeIdempotent(store: map<IVec3, ServerChunk>, chunks: seq<IVec3>, center: IVec3, radius: i32, env: Env)
    ensures var r := Serve(store, chunks, center, radius, env);
      var again := Serve(r.store, chunks, center, radius, env);
      again.delta == r.delta && again.store == r.store &&
      forall i :: 0 <= i < |again.generated| ==> IsEmpty(env.generateChunk(again.generated[i], env.seed))
  {
    var r := Serve(store, chunks, center, radius, env);
    var again := Serve(r.store, chunks, center, radius, env);
    ServeKeepsResolution(store, chunks, center, radius, env);
    ServeDelta(store, chunks, center, radius, env);
    ServeDelta(r.store, chunks, center, radius, env);
    ServeStoreKeys(store, chunks, center, radius, env);
    ServeStoreKeys(r.store, chunks, center, radius, env);
    ServeKeepsResolution(r.store, chunks, center, radius, env);
    ServeGenerated(r.store, chunks, center, radius, env);
    assert again.delta.Keys == r.delta.Keys;
    assert again.store.Keys == r.store.Keys;
  }

  /**
   * A viewer at the origin asks, with render distance 1, for the origin and
   * (5,5,5) on an empty store; the origin is in radius with a non-empty
   * generated chunk and (5,5,5) is out of radius. Only the origin is
   * delivered and stored, and the generator is never asked for (5,5,5).
   */
  lemma ServeScenario(env: Env, client: ClientId)
    requires env.chunkInRadius(IVec3(0, 0, 0), IVec3(0, 0, 0), 1)
    requires !env.chunkInRadius(IVec3(0, 0, 0), IVec3(5, 5, 5), 1)
    requires !IsEmpty(env.generateChunk(IVec3(0, 0, 0), env.seed))
    ensures var origin := IVec3(0, 0, 0);
      var event := WorldUpdateRequestEvent(client, [origin, IVec3(5, 5, 5)], 1, origin);
      var r := ServeRequest(map[], event, env);
      var g := env.generateChunk(origin, env.seed);
      r.delta == map[origin := g] && r.store == map[origin := g] && r.generated == [origin]
  {
    var origin := IVec3(0, 0, 0);
    var chunks := [origin, IVec3(5, 5, 5)];
    var g := env.generateChunk(origin, env.seed);
    assert U32AsI32(1) == 1;
    assert chunks[..1] == [origin];
    assert [origin][..0] == [];
    assert Serve(map[], [], origin, 1, env) == Served(map[], map[], []);
    assert Serve(map[], [origin], origin, 1, env) == Served(map[origin := g], map[origin := g], [origin]);
  }

  /**
   * The on-demand system changes only the chunk store, and only by
   * insertion; a store without empty chunks keeps having none.
   */
  lemma {:induction false} HandleRequestsState(state: WorldState, events: seq<WorldUpdateRequestEvent>, tick: u64, env: Env)
    ensures var h := HandleRequests(state, events, tick, env);
      |h.sent| == |events| &&
      h.state == state.(chunks := h.state.chunks) &&
      Extends(h.state.chunks, state.chunks) &&
      (NoEmptyChunks(state.chunks) ==> NoEmptyChunks(h.state.chunks))
  {
    if events != [] {
      var n := |events| - 1;
      HandleRequestsState(state, events[..n], tick, env);
      var h := HandleRequests(state, events[..n], tick, env);
      var e := events[n];
      ServeKeepsResolution(h.state.chunks, e.chunks, e.playerChunkPosition, U32AsI32(e.renderDistance), env);
      if NoEmptyChunks(state.chunks) {
        ServeKeepsNoEmptyChunks(h.state.chunks, e.chunks, e.playerChunkPosition, U32AsI32(e.renderDistance), env);
      }
    }
  }

  /**
   * One reply per event, in event order, to the requesting client on
   * ReliableUnordered, each carrying the tick, the player positions, time
   * and mobs as they stood, and the delta served against the store as the
   * earlier events left it.
   */
  lemma {:induction false} HandleRequestsReplies(state: WorldState, events: seq<WorldUpdateRequestEvent>, tick: u64, env: Env)
    ensures var h := HandleRequests(state, events, tick, env);
      |h.sent| == |events| &&
      forall i :: 0 <= i < |events| ==>
        h.sent[i].target == ToClient(events[i].client) &&
        h.sent[i].channel == ReliableUnordered &&
        h.sent[i].message.update == WorldUpdate(
          tick, state.playerPositions,
          ServeRequest(HandleRequests(state, events[..i], tick, env).state.chunks, events[i], env).delta,
          state.time, state.mobs)
  {
    if events != [] {
      var n := |events| - 1;
      HandleRequestsReplies(state, events[..n], tick, env);
      HandleRequestsState(state, events[..n], tick, env);
      var p := HandleRequests(state, events[..n], tick, env);
      var h := HandleRequests(state, events, tick, env);
      assert h.sent == p.sent + Respond(p.state, events[n], tick, env).sent;
      forall i | 0 <= i < |events|
        ensures h.sent[i].target == ToClient(events[i].client)
        ensures h.sent[i].channel == ReliableUnordered
        ensures h.sent[i].message.update == WorldUpdate(
          tick, state.playerPositions,
          ServeRequest(HandleRequests(state, events[..i], tick, env).state.chunks, events[i], env).delta,
          state.time, state.mobs)
      {
        if i < n {
          assert events[..n][..i] == events[..i];
          assert h.sent[i] == p.sent[i];
        } else {
          assert events[..i] == events[..n];
        }
      }
    }
  }

  /** Every reply of the on-demand system carries only non-empty chunks its event asked for. */
  lemma HandleRequestsDeltas(state: WorldState, events: seq<WorldUpdateRequestEvent>, tick: u64, env: Env)
    ensures var h := HandleRequests(state, events, tick, env);
      |h.sent| == |events| &&
      forall i, c :: 0 <= i < |events| && c in h.sent[i].message.update.newMap ==>
        c in events[i].chunks && !IsEmpty(h.sent[i].message.update.newMap[c])
  {
    var h := HandleRequests(state, events, tick, env);
    HandleRequestsReplies(state, events, tick, env);
    forall i | 0 <= i < |events|
      ensures forall c :: c in h.sent[i].message.update.newMap ==>
        c in events[i].chunks && !IsEmpty(h.sent[i].message.update.newMap[c])
    {
      var e := events[i];
      ServeDeltaShape(HandleRequests(state, events[..i], tick, env).state.chunks,
                      e.chunks, e.playerChunkPosition, U32AsI32(e.renderDistance), env);
    }
  }

  // ----------------------------------------------------------------------
  // On-demand sync: the system
  // ----------------------------------------------------------------------

  /** The `new_map` block: walks the requested coordinates, generating and storing as needed. */
  method CollectRequestedChunks(world: ServerWorldMap, event: WorldUpdateRequestEvent, env: Env)
    returns (m: map<IVec3, ServerChunk>, ghost generated: seq<IVec3>)
    modifies world
    ensures m == ServeRequest(old(world.chunks), event, env).delta
    ensures generated == ServeRequest(old(world.chunks), event, env).generated
    ensures world.State() == old(world.State()).(chunks := ServeRequest(old(world.chunks), event, env).store)
  {
    ghost var start := world.chunks;
    generated := [];
    var radius := U32AsI32(event.renderDistance);
    m := map[];
    var i := 0;
    while i < |event.chunks|
      invariant 0 <= i <= |event.chunks|
      invariant Served(m, world.chunks, generated) == Serve(start, event.chunks[..i], event.playerChunkPosition, radius, env)
      invariant world.State() == old(world.State()).(chunks := world.chunks)
    {
      var c := event.chunks[i];
      assert event.chunks[..i + 1][..i] == event.chunks[..i];
      if env.chunkInRadius(event.playerChunkPosition, c, radius) {
        if c in world.chunks {
          // A stored chunk is transmitted as it is, unless it is empty.
          var chunk := world.chunks[c];
          if !IsEmpty(chunk) {
            m := m[c := chunk];
          }
        } else {
          // A missing chunk is generated; an empty result is neither stored nor sent.
          var chunk := env.generateChunk(c, env.seed);
          generated := generated + [c];
          if !IsEmpty(chunk) {
            m := m[c := chunk];
            world.chunks := world.chunks[c := chunk];
          }
        }
      }
      i := i + 1;
    }
    assert event.chunks[..i] == event.chunks;
  }

  /** `send_world_update`: answers every pending request with one update to its client. */
  method SendWorldUpdate(server: RenetServer, ticker: u64, env: Env, world: ServerWorldMap,
                         events: seq<WorldUpdateRequestEvent>)
    modifies server, world
    ensures world.State() == HandleRequests(old(world.State()), events, ticker, env).state
    ensures server.outbox == old(server.outbox) + HandleRequests(old(world.State()), events, ticker, env).sent
  {
    var k := 0;
    while k < |events|
      invariant 0 <= k <= |events|
      invariant world.State() == HandleRequests(old(world.State()), events[..k], ticker, env).state
      invariant server.outbox == old(server.outbox) + HandleRequests(old(world.State()), events[..k], ticker, env).sent
    {
      var event := events[k];
      assert events[..k + 1][..k] == events[..k];
      var playerPositions := world.playerPositions;
      var newMap;
      ghost var generated;
      newMap, generated := CollectRequestedChunks(world, event, env);
      var update := WorldUpdate(ticker, playerPositions, newMap, world.time, world.mobs);
      server.SendMessage(event.client, ReliableUnordered, WorldUpdateMessage(update));
      k := k + 1;
    }
    assert events[..k] == events;
  }

  // ----------------------------------------------------------------------
  // Periodic delta broadcast: specification
  // ----------------------------------------------------------------------

  /** Ticks between two broadcasts: two seconds' worth. */
  function BroadcastPeriod(ticksPerSecond: u64): u64
    requires 0 < ticksPerSecond < 0x8000_0000_0000_0000
  {
    2 * ticksPerSecond
  }

  predicate IsBroadcastTick(tick: u64, ticksPerSecond: u64)
    requires 0 < ticksPerSecond < 0x8000_0000_0000_0000
  {
    tick % BroadcastPeriod(ticksPerSecond) == 0
  }

  /** Every coordinate marked for update has a stored chunk (the Rust server's `to_network` unwraps the lookup). */
  predicate DirtyChunksStored(state: WorldState) {
    forall v :: v in state.chunksToUpdate ==> v in state.chunks
  }

  /** The delta map `to_network` builds by inserting each marked coordinate in turn. */
  function DirtyDelta(chunks: map<IVec3, ServerChunk>, dirty: seq<IVec3>): map<IVec3, ServerChunk>
    requires forall v :: v in dirty ==> v in chunks
    decreases |dirty|
  {
    if dirty == [] then map[]
    else
      var n := |dirty| - 1;
      assert forall v :: v in dirty[..n] ==> v in dirty;
      DirtyDelta(chunks, dirty[..n])[dirty[n] := chunks[dirty[n]]]
  }

  /** `broadcast_world_state` on the abstract state; `serverTime` is both the tick and the time. */
  function PeriodicBroadcast(state: WorldState, serverTime: u64, ticksPerSecond: u64): Handled
    requires 0 < ticksPerSecond < 0x8000_0000_0000_0000
    requires IsBroadcastTick(serverTime, ticksPerSecond) ==> DirtyChunksStored(state)
  {
    if !IsBroadcastTick(serverTime, ticksPerSecond) then Handled(state, [])
    else
      var timed := state.(time := serverTime);
      var update := WorldUpdate(serverTime, timed.playerPositions,
                                DirtyDelta(timed.chunks, timed.chunksToUpdate), timed.time, timed.mobs);
      Handled(timed.(chunksToUpdate := []), [Envelope(AllClients, ReliableUnordered, WorldUpdateMessage(update))])
  }

  // ----------------------------------------------------------------------
  // Periodic delta broadcast: properties
  // ----------------------------------------------------------------------

  /**
   * The delta has exactly the marked coordinates as keys, duplicates
   * collapsing, each with its currently stored chunk.
   */
  lemma {:induction false} DirtyDeltaExact(chunks: map<IVec3, ServerChunk>, dirty: seq<IVec3>)
    requires forall v :: v in dirty ==> v in chunks
    ensures DirtyDelta(chunks, dirty).Keys == set v | v in dirty
    ensures forall v :: v in DirtyDelta(chunks, dirty) ==> DirtyDelta(chunks, dirty)[v] == chunks[v]
  {
    if dirty != [] {
      var n := |dirty| - 1;
      assert dirty == dirty[..n] + [dirty[n]];
      DirtyDeltaExact(chunks, dirty[..n]);
    }
  }

  /**
   * Off a broadcast tick nothing is sent and nothing changes. On one, the
   * time becomes the server time, the marks are drained, and one update goes
   * to all clients on ReliableUnordered, carrying that time, the full player
   * and mob tables, and exactly the marked chunks as stored (none of them
   * empty when the store holds no empty chunk).
   */
  lemma PeriodicBroadcastSpec(state: WorldState, serverTime: u64, ticksPerSecond: u64)
    requires 0 < ticksPerSecond < 0x8000_0000_0000_0000
    requires IsBroadcastTick(serverTime, ticksPerSecond) ==> DirtyChunksStored(state)
    ensures var h := PeriodicBroadcast(state, serverTime, ticksPerSecond);
      !IsBroadcastTick(serverTime, ticksPerSecond) ==> h.state == state && h.sent == []
    ensures var h := PeriodicBroadcast(state, serverTime, ticksPerSecond);
      IsBroadcastTick(serverTime, ticksPerSecond) ==>
        h.state == state.(time := serverTime, chunksToUpdate := []) &&
        |h.sent| == 1 && h.sent[0].target == AllClients && h.sent[0].channel == ReliableUnordered &&
        h.sent[0].message.update.tick == serverTime &&
        h.sent[0].message.update.time == serverTime &&
        h.sent[0].message.update.playerPositions == state.playerPositions &&
        h.sent[0].message.update.mobs == state.mobs &&
        h.sent[0].message.update.newMap.Keys == (set v | v in state.chunksToUpdate) &&
        (forall v :: v in h.sent[0].message.update.newMap ==> h.sent[0].message.update.newMap[v] == state.chunks[v]) &&
        (NoEmptyChunks(state.chunks) ==>
          forall v :: v in h.sent[0].message.update.newMap ==> !IsEmpty(h.sent[0].message.update.newMap[v]))
  {
    if IsBroadcastTick(serverTime, ticksPerSecond) {
      DirtyDeltaExact(state.chunks, state.chunksToUpdate);
    }
  }

  /**
   * A mark recorded after a broadcast reaches the next broadcast and a mark
   * drained by it does not come back: the next broadcast's delta is exactly
   * the coordinates marked in between.
   */
  lemma DrainThenMark(state: WorldState, t1: u64, marks: seq<IVec3>, t2: u64, ticksPerSecond: u64)
    requires 0 < ticksPerSecond < 0x8000_0000_0000_0000
    requires IsBroadcastTick(t1, ticksPerSecond) && IsBroadcastTick(t2, ticksPerSecond)
    requires DirtyChunksStored(state)
    requires forall v :: v in marks ==> v in state.chunks
    ensures var after := PeriodicBroadcast(state, t1, ticksPerSecond).state;
      var marked := after.(chunksToUpdate := after.chunksToUpdate + marks);
      DirtyChunksStored(marked) &&
      PeriodicBroadcast(marked, t2, ticksPerSecond).sent[0].message.update.newMap.Keys == set v | v in marks
  {
    PeriodicBroadcastSpec(state, t1, ticksPerSecond);
    var after := PeriodicBroadcast(state, t1, ticksPerSecond).state;
    var marked := after.(chunksToUpdate := after.chunksToUpdate + marks);
    assert marked.chunksToUpdate == marks;
    PeriodicBroadcastSpec(marked, t2, ticksPerSecond);
  }

  /** Marks [(1,0,0), (1,0,0), (2,0,0)] give a delta of two entries. */
  lemma DuplicateMarksScenario(chunks: map<IVec3, ServerChunk>)
    requires IVec3(1, 0, 0) in chunks && IVec3(2, 0, 0) in chunks
    ensures var m := DirtyDelta(chunks, [IVec3(1, 0, 0), IVec3(1, 0, 0), IVec3(2, 0, 0)]);
      |m| == 2 && m[IVec3(1, 0, 0)] == chunks[IVec3(1, 0, 0)] && m[IVec3(2, 0, 0)] == chunks[IVec3(2, 0, 0)]
  {
    var dirty := [IVec3(1, 0, 0), IVec3(1, 0, 0), IVec3(2, 0, 0)];
    DirtyDeltaExact(chunks, dirty);
    assert (set v | v in dirty) == {IVec3(1, 0, 0), IVec3(2, 0, 0)};
  }

  // ----------------------------------------------------------------------
  // Periodic delta broadcast: the system
  // ----------------------------------------------------------------------

  /** `to_network`: the update for the marked chunks; the marks are cleared. */
  method ToNetwork(world: ServerWorldMap, tick: u64) returns (u: WorldUpdate)
    requires DirtyChunksStored(world.State())
    modifies world
    ensures u == WorldUpdate(tick, old(world.playerPositions),
                             DirtyDelta(old(world.chunks), old(world.chunksToUpdate)),
                             old(world.time), old(world.mobs))
    ensures world.State() == old(world.State()).(chunksToUpdate := [])
  {
    var playerPositions := world.playerPositions;
    var m := map[];
    var i := 0;
    while i < |world.chunksToUpdate|
      invariant 0 <= i <= |world.chunksToUpdate|
      invariant world.State() == old(world.State())
      invariant forall v :: v in world.chunksToUpdate[..i] ==> v in world.chunks
      invariant m == DirtyDelta(world.chunks, world.chunksToUpdate[..i])
    {
      var v := world.chunksToUpdate[i];
      assert world.chunksToUpdate[..i + 1][..i] == world.chunksToUpdate[..i];
      m := m[v := world.chunks[v]];
      i := i + 1;
    }
    assert world.chunksToUpdate[..i] == world.chunksToUpdate;
    world.chunksToUpdate := [];
    u := WorldUpdate(tick, playerPositions, m, world.time, world.mobs);
  }

  /** `broadcast_world_state`; `ticker` and `time` are the same `ServerTime` resource in the Rust server. */
  method BroadcastWorldState(server: RenetServer, ticker: u64, world: ServerWorldMap, ticksPerSecond: u64)
    requires 0 < ticksPerSecond < 0x8000_0000_0000_0000
    requires IsBroadcastTick(ticker, ticksPerSecond) ==> DirtyChunksStored(world.State())
    modifies server, world
    ensures world.State() == PeriodicBroadcast(old(world.State()), ticker, ticksPerSecond).state
    ensures server.outbox == old(server.outbox) + PeriodicBroadcast(old(world.State()), ticker, ticksPerSecond).sent
  {
    if ticker % BroadcastPeriod(ticksPerSecond) != 0 {
      return;
    }
    world.time := ticker;
    var update := ToNetwork(world, ticker);
    server.BroadcastMessage(ReliableUnordered, WorldUpdateMessage(update));
  }
}
