/**
 * The client's outbound intent translator: each local action becomes one
 * client-to-server message, sent on the ordered reliable channel.
 */
module ClientApi {
  import opened Shared

  datatype NetworkAction =
    | ChatMessage(msg: string)
    | WorldUpdateRequest(requestedChunks: seq<IVec3>, playerChunkPos: IVec3, renderDistance: u32)
    | SaveWorldRequest
      /** `blockType` is None for a removal and Some for a placement. */
    | BlockInteraction(position: IVec3, blockType: Option<BlockData>)

  /** The one send call an action makes. */
  datatype Outgoing = Outgoing(channel: Channel, message: ClientToServerMessage)

  /** The intent a message carries, as the server would read it back. */
  function IntentOf(m: ClientToServerMessage): NetworkAction {
    match m
    case ChatMessage(content) => NetworkAction.ChatMessage(content)
    case WorldUpdateRequest(position, chunks, distance) => NetworkAction.WorldUpdateRequest(chunks, position, distance)
    case SaveWorldRequest(_) => NetworkAction.SaveWorldRequest
    case BlockInteraction(position, blockType) => NetworkAction.BlockInteraction(position, blockType)
  }

  /**
   * `send_network_action`: every action goes out on ReliableOrdered as the
   * message of its own kind, carrying its fields unchanged (so reading the
   * message back gives the action), and a save request carries session token 0.
   */
  function SendNetworkAction(action: NetworkAction): (r: Outgoing)
    ensures r.channel == ReliableOrdered
    ensures IntentOf(r.message) == action
    ensures r.message.ChatMessage? <==> action.ChatMessage?
    ensures r.message.WorldUpdateRequest? <==> action.WorldUpdateRequest?
    ensures r.message.SaveWorldRequest? <==> action.SaveWorldRequest?
    ensures r.message.BlockInteraction? <==> action.BlockInteraction?
    ensures r.message.SaveWorldRequest? ==> r.message.sessionToken == 0
  {
    match action
    case ChatMessage(msg) =>
      Outgoing(ReliableOrdered, ClientToServerMessage.ChatMessage(msg))
    case WorldUpdateRequest(requestedChunks, playerChunkPos, renderDistance) =>
      Outgoing(ReliableOrdered, ClientToServerMessage.WorldUpdateRequest(playerChunkPos, requestedChunks, renderDistance))
    case SaveWorldRequest =>
      Outgoing(ReliableOrdered, ClientToServerMessage.SaveWorldRequest(0))
    case BlockInteraction(position, blockType) =>
      Outgoing(ReliableOrdered, ClientToServerMessage.BlockInteraction(position, blockType))
  }

  /** Distinct actions produce distinct messages. */
  lemma SendNetworkActionInjective(a: NetworkAction, b: NetworkAction)
    requires SendNetworkAction(a).message == SendNetworkAction(b).message
    ensures a == b
  {
    assert IntentOf(SendNetworkAction(a).message) == IntentOf(SendNetworkAction(b).message);
  }
}
