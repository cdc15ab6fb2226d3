/**
 * The renet server transport, reduced to an outbox: every send appends one
 * record of who it goes to, on which channel, and what it carries.
 */
module Transport {
  import opened Shared

  datatype Target = ToClient(client: ClientId) | AllClients

  datatype Envelope = Envelope(target: Target, channel: Channel, message: ServerToClientMessage)

  class RenetServer {
    var outbox: seq<Envelope>

    constructor ()
      ensures outbox == []
    {
      outbox := [];
    }

    method SendMessage(client: ClientId, channel: Channel, message: ServerToClientMessage)
      modifies this
      ensures outbox == old(outbox) + [Envelope(ToClient(client), channel, message)]
    {
      outbox := outbox + [Envelope(ToClient(client), channel, message)];
    }

    method BroadcastMessage(channel: Channel, message: ServerToClientMessage)
      modifies this
      ensures outbox == old(outbox) + [Envelope(AllClients, channel, message)]
    {
      outbox := outbox + [Envelope(AllClients, channel, message)];
    }
  }
}
