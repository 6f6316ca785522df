/** The bridge object of one node: what it does with a message from the bus. */
module Bridge {
  import opened SendQueue
  import opened HubModel
  import opened HubSafety
  import opened HubServer
  import Cluster

  class Bridge {
    const nodeId: string
    const hub: HubServer

    constructor (hub: HubServer, nodeId: string)
      ensures this.hub == hub && this.nodeId == nodeId
    {
      this.hub := hub;
      this.nodeId := nodeId;
    }

    method HandleIncoming(channel: string, origin: string, m: Msg)
      requires ClientsOk(hub.State()) && RoomsOk(hub.State())
      modifies hub
      ensures hub.State() == Cluster.HandleIncoming(old(hub.State()), nodeId, channel, origin, m)
    {
      if origin == nodeId {
        return;
      }
      if channel == Cluster.BROADCAST {
        hub.BroadcastMessage(m);
      } else if Cluster.ROOM <= channel {
        var room := channel[|Cluster.ROOM|..];
        OfferNobody(hub.State(), m);
        if room in hub.rooms {
          hub.SendEach(hub.sets[hub.rooms[room]].members, m);
        }
      } else if Cluster.DIRECT <= channel {
        var user := channel[|Cluster.DIRECT|..];
        OfferNobody(hub.State(), m);
        if user in hub.clients {
          hub.Send(hub.clients[user], m);
        }
      }
    }
  }
}
