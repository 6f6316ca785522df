/** From the call on one node to the queues on all nodes: under which name each kind of message goes
    out, where it came from, and exactly whom it reaches. */
module ClusterDelivery {
  import opened SendQueue
  import opened Access
  import H = HubModel
  import opened HubEffects
  import HubSafety
  import opened Cluster

  // ---- Envelopes ----

  /** The step says the envelope: its name on the bus, its origin and its number. */
  ghost predicate Says(k: Net, s: NetStep, e: Envelope) {
    match s
    case SayAll(n) => n < |k.nodes| && e == Envelope("synchub:broadcast", k.nodes[n].id, k.nextUid)
    case SayRoom(n, job, _) =>
      n < |k.nodes| && job in k.nodes[n].hub.captures
      && e == Envelope("synchub:room:" + k.nodes[n].hub.captures[job].room, k.nodes[n].id, k.nextUid)
    case SayUser(n, user) =>
      n < |k.nodes| && user !in k.nodes[n].hub.clients
      && e == Envelope("synchub:direct:" + user, k.nodes[n].id, k.nextUid)
    case _ => false
  }

  /** What a step adds to the outbox is exactly what it says. */
  lemma OutboxGrowsBySaying(acls: AclTable, k: Net, s: NetStep, e: Envelope)
    requires CanStep(k, s)
    ensures e in NetNext(acls, k, s).outbox && e !in k.outbox ==> Says(k, s, e)
    ensures Says(k, s, e) ==> e in NetNext(acls, k, s).outbox
    ensures NetNext(acls, k, s).nextUid == k.nextUid + if s.SayAll? || s.SayRoom? || s.SayUser? then 1 else 0
  {
  }

  /** The envelope is somewhere between the call and the last receipt. */
  ghost predicate Travels(k: Net, e: Envelope) {
    e in k.outbox || e in k.published || exists d :: d in k.bus && d.env == e
  }

  lemma TravelsFrom(acls: AclTable, k: Net, s: NetStep, e: Envelope)
    requires CanStep(k, s) && Travels(NetNext(acls, k, s), e)
    ensures Travels(k, e) || Says(k, s, e)
  {
    var k' := NetNext(acls, k, s);
    OutboxGrowsBySaying(acls, k, s, e);
    if d :| d in k'.bus && d.env == e {
      assert d in k.bus || s.Publish?;
    }
  }

  /** The step at position `i` of the run said the envelope. */
  ghost predicate SaidAt(acls: AclTable, ids: seq<string>, trace: seq<NetStep>, e: Envelope, i: nat) {
    i < |trace| && Legal(acls, ids, trace[..i]) && Says(Exec(acls, ids, trace[..i]), trace[i], e)
  }

  /** In every run, whatever is on its way was said by a step of the run, under the name of that step's
      audience. */
  lemma {:induction false} EnvelopesWereSaid(acls: AclTable, ids: seq<string>, trace: seq<NetStep>, e: Envelope)
    requires Legal(acls, ids, trace) && Travels(Exec(acls, ids, trace), e)
    ensures exists i: nat :: SaidAt(acls, ids, trace, e, i)
  {
    if trace != [] {
      var p, s := trace[..|trace| - 1], trace[|trace| - 1];
      TravelsFrom(acls, Exec(acls, ids, p), s, e);
      if Travels(Exec(acls, ids, p), e) {
        EnvelopesWereSaid(acls, ids, p, e);
        var i: nat :| SaidAt(acls, ids, p, e, i);
        assert trace[..i] == p[..i] && trace[i] == p[i];
        assert SaidAt(acls, ids, trace, e, i);
      } else {
        assert SaidAt(acls, ids, trace, e, |trace| - 1);
      }
    }
  }

  // ---- Receipt ----

  /** A foreign room message reaches exactly the room's local members. */
  lemma RoomIncoming(h: H.Hub, nodeId: string, room: string, origin: string, m: Msg, c: nat)
    requires HubSafety.RoomsOk(h) && origin != nodeId && c in h.conns
    ensures
      var member := room in h.rooms && c in h.sets[h.rooms[room]].members;
      Received(h, HandleIncoming(h, nodeId, "synchub:room:" + room, origin, m), c, m, member)
  {
    NamesRoundTrip(RoomOf(room), "");
    OfferReceived(h, H.Members(h, room), m, c);
  }

  /** A foreign broadcast reaches exactly the holders of their user ids. */
  lemma AllIncoming(h: H.Hub, nodeId: string, origin: string, m: Msg, c: nat)
    requires HubSafety.ClientsOk(h) && origin != nodeId && c in h.conns
    ensures
      var user := h.conns[c].user;
      Received(h, HandleIncoming(h, nodeId, "synchub:broadcast", origin, m), c, m,
               user in h.clients && h.clients[user] == c)
  {
    OfferReceived(h, h.clients.Values, m, c);
  }

  /** A foreign direct message reaches exactly the local holder of the user id. */
  lemma UserIncoming(h: H.Hub, nodeId: string, user: string, origin: string, m: Msg, c: nat)
    requires origin != nodeId && c in h.conns
    ensures Received(h, HandleIncoming(h, nodeId, "synchub:direct:" + user, origin, m), c, m,
                     user in h.clients && h.clients[user] == c)
  {
    NamesRoundTrip(UserOf(user), "");
    OfferReceived(h, if user in h.clients then {h.clients[user]} else {}, m, c);
  }

  /** Any other name is ignored. */
  lemma OtherIncoming(h: H.Hub, nodeId: string, channel: string, origin: string, m: Msg)
    requires channel != "synchub:broadcast" && !("synchub:room:" <= channel) && !("synchub:direct:" <= channel)
    ensures HandleIncoming(h, nodeId, channel, origin, m) == h
  {
  }

  // ---- End to end ----

  /** Two nodes with different ids, the second one up. */
  ghost predicate Foreign(k: Net, n: nat, m: nat) {
    n < |k.nodes| && m < |k.nodes| && k.nodes[m].id != k.nodes[n].id && !k.nodes[m].hub.crashed
  }

  /** Nothing changed but at two nodes. */
  ghost predicate OnlyAt(k: Net, k': Net, n: nat, m: nat) {
    && n < |k.nodes| && m < |k.nodes| && |k'.nodes| == |k.nodes|
    && forall i :: 0 <= i < |k.nodes| && i != n && i != m ==> k'.nodes[i] == k.nodes[i]
  }

  /** What the route leaves behind: node `n` after the local half, node `m` after the receipt. */
  ghost predicate Arrived(k: Net, k': Net, n: nat, m: nat, home: H.Hub, away: H.Hub) {
    OnlyAt(k, k', n, m) && k'.nodes[n].hub == home && k'.nodes[m].hub == away
  }

  /** Saying an envelope: the local half at the speaking node, nothing elsewhere. */
  ghost predicate SaidLocally(k: Net, k1: Net, n: nat, home: H.Hub, e: Envelope) {
    && n < |k.nodes| && e in k1.outbox && |k1.nodes| == |k.nodes|
    && k1.nodes[n] == Node(k.nodes[n].id, home)
    && forall i :: 0 <= i < |k.nodes| && i != n ==> k1.nodes[i] == k.nodes[i]
  }

  lemma RouteState(acls: AclTable, k: Net, k1: Net, n: nat, m: nat, home: H.Hub, e: Envelope, sub: Subscription)
    requires Foreign(k, n, m) && SaidLocally(k, k1, n, home, e) && Matches(sub, e.channel)
    requires e.origin == k.nodes[n].id
    ensures
      var k2, d := NetNext(acls, k1, Publish(e)), Delivery(m, sub, e);
      && CanStep(k2, Receive(d))
      && Arrived(k, NetNext(acls, k2, Receive(d)), n, m, home,
                 HandleIncoming(k.nodes[m].hub, k.nodes[m].id, e.channel, e.origin, Tracked(e.uid)))
  {
  }

  lemma {:induction false} RouteRuns(acls: AclTable, ids: seq<string>, trace: seq<NetStep>, say: NetStep,
                                     n: nat, m: nat, home: H.Hub, e: Envelope, sub: Subscription)
    requires Legal(acls, ids, trace) && CanStep(Exec(acls, ids, trace), say)
    requires Foreign(Exec(acls, ids, trace), n, m) && Matches(sub, e.channel)
    requires e.origin == Exec(acls, ids, trace).nodes[n].id
    requires SaidLocally(Exec(acls, ids, trace), NetNext(acls, Exec(acls, ids, trace), say), n, home, e)
    ensures
      var t := trace + [say] + [Publish(e)] + [Receive(Delivery(m, sub, e))];
      && Legal(acls, ids, t)
      && var k := Exec(acls, ids, trace);
         && m < |k.nodes|
         && Arrived(k, Exec(acls, ids, t), n, m, home,
                    HandleIncoming(k.nodes[m].hub, k.nodes[m].id, e.channel, e.origin, Tracked(e.uid)))
  {
    var k := Exec(acls, ids, trace);
    Extend(acls, ids, trace, say);
    var t1 := trace + [say];
    RouteState(acls, k, Exec(acls, ids, t1), n, m, home, e, sub);
    Extend(acls, ids, t1, Publish(e));
    Extend(acls, ids, t1 + [Publish(e)], Receive(Delivery(m, sub, e)));
  }

  lemma {:induction false} RoomRoute(acls: AclTable, ids: seq<string>, trace: seq<NetStep>,
                                     n: nat, m: nat, job: nat, exclude: string)
    requires Legal(acls, ids, trace) && CanStep(Exec(acls, ids, trace), SayRoom(n, job, exclude))
    requires Foreign(Exec(acls, ids, trace), n, m)
    ensures
      var k := Exec(acls, ids, trace);
      var h, a, u := k.nodes[n].hub, k.nodes[m].hub, Tracked(k.nextUid);
      var e := Envelope("synchub:room:" + h.captures[job].room, k.nodes[n].id, k.nextUid);
      var t := trace + [SayRoom(n, job, exclude)] + [Publish(e)] + [Receive(Delivery(m, RoomPattern, e))];
      && Legal(acls, ids, t)
      && Arrived(k, Exec(acls, ids, t), n, m, H.Next(acls, h, H.DeliverRoom(job, exclude, u)),
                 HandleIncoming(a, k.nodes[m].id, e.channel, e.origin, u))
  {
    var k := Exec(acls, ids, trace);
    var h, u := k.nodes[n].hub, Tracked(k.nextUid);
    var e := Envelope("synchub:room:" + h.captures[job].room, k.nodes[n].id, k.nextUid);
    RouteRuns(acls, ids, trace, SayRoom(n, job, exclude), n, m, H.Next(acls, h, H.DeliverRoom(job, exclude, u)), e,
              RoomPattern);
  }

  /** A room message reaches exactly the captured members except the excluded user at home, and the
      room's members elsewhere. */
  ghost predicate RoomHeard(h: H.Hub, h': H.Hub, a: H.Hub, a': H.Hub, cap: H.Capture, exclude: string, u: Msg, c: nat) {
    && (c in h.conns ==>
          var captured := cap.cell < |h.sets| && c in h.sets[cap.cell].members;
          Received(h, h', c, u, captured && h.conns[c].user != exclude))
    && (c in a.conns ==>
          var member := cap.room in a.rooms && a.rooms[cap.room] < |a.sets| && c in a.sets[a.rooms[cap.room]].members;
          Received(a, a', c, u, member))
  }

  lemma RoomIsHeard(acls: AclTable, h: H.Hub, a: H.Hub, id: string, origin: string, job: nat, exclude: string,
                    u: Msg, c: nat)
    requires H.Enabled(h, H.DeliverRoom(job, exclude, u)) && HubSafety.RoomsOk(a) && origin != id
    ensures RoomHeard(h, H.Next(acls, h, H.DeliverRoom(job, exclude, u)),
                      a, HandleIncoming(a, id, "synchub:room:" + h.captures[job].room, origin, u),
                      h.captures[job], exclude, u, c)
  {
    if c in h.conns {
      DeliverRoomReaches(acls, h, job, exclude, u, c);
    }
    if c in a.conns {
      RoomIncoming(a, id, h.captures[job].room, origin, u, c);
    }
  }

  /** A room message, from every run: said on a node that holds a capture of the room, it is published
      under the room's name; at home it reaches exactly the captured members except the excluded user,
      on another node exactly the room's members there, and nobody on third nodes. */
  lemma {:induction false} RoomMessageArrives(acls: AclTable, ids: seq<string>, trace: seq<NetStep>,
                                              n: nat, m: nat, job: nat, exclude: string, c: nat)
    requires Legal(acls, ids, trace) && CanStep(Exec(acls, ids, trace), SayRoom(n, job, exclude))
    requires Foreign(Exec(acls, ids, trace), n, m)
    ensures
      var k := Exec(acls, ids, trace);
      var h, a, u := k.nodes[n].hub, k.nodes[m].hub, Tracked(k.nextUid);
      var e := Envelope("synchub:room:" + h.captures[job].room, k.nodes[n].id, k.nextUid);
      var t := trace + [SayRoom(n, job, exclude)] + [Publish(e)] + [Receive(Delivery(m, RoomPattern, e))];
      && Legal(acls, ids, t) && OnlyAt(k, Exec(acls, ids, t), n, m)
      && RoomHeard(h, Exec(acls, ids, t).nodes[n].hub, a, Exec(acls, ids, t).nodes[m].hub,
                   h.captures[job], exclude, u, c)
  {
    NetRunsSound(acls, ids, trace);
    var k := Exec(acls, ids, trace);
    RoomRoute(acls, ids, trace, n, m, job, exclude);
    RoomIsHeard(acls, k.nodes[n].hub, k.nodes[m].hub, k.nodes[m].id, k.nodes[n].id, job, exclude,
                Tracked(k.nextUid), c);
  }

  /** A message to all, from every run: published under the broadcast name, it reaches exactly the
      holders of their user ids, at home and on another node. */
  lemma {:induction false} BroadcastArrives(acls: AclTable, ids: seq<string>, trace: seq<NetStep>,
                                            n: nat, m: nat, c: nat)
    requires Legal(acls, ids, trace) && CanStep(Exec(acls, ids, trace), SayAll(n))
    requires Foreign(Exec(acls, ids, trace), n, m)
    ensures
      var k := Exec(acls, ids, trace);
      var h, a, u := k.nodes[n].hub, k.nodes[m].hub, Tracked(k.nextUid);
      var e := Envelope("synchub:broadcast", k.nodes[n].id, k.nextUid);
      var t := trace + [SayAll(n)] + [Publish(e)] + [Receive(Delivery(m, Exact, e))];
      && Legal(acls, ids, t) && OnlyAt(k, Exec(acls, ids, t), n, m)
      && var h', a' := Exec(acls, ids, t).nodes[n].hub, Exec(acls, ids, t).nodes[m].hub;
         && (c in h.conns ==> Received(h, h', c, u, HoldsId(h, c)))
         && (c in a.conns ==> Received(a, a', c, u, HoldsId(a, c)))
  {
    NetRunsSound(acls, ids, trace);
    var k := Exec(acls, ids, trace);
    var h, a, u := k.nodes[n].hub, k.nodes[m].hub, Tracked(k.nextUid);
    var e := Envelope("synchub:broadcast", k.nodes[n].id, k.nextUid);
    RouteRuns(acls, ids, trace, SayAll(n), n, m, H.Next(acls, h, H.BroadcastAll(u)), e, Exact);
    if c in h.conns {
      BroadcastAllReaches(acls, h, u, c);
    }
    if c in a.conns {
      AllIncoming(a, k.nodes[m].id, e.origin, u, c);
    }
  }

  ghost predicate HoldsId(h: H.Hub, c: nat)
    requires c in h.conns
  {
    h.conns[c].user in h.clients && h.clients[h.conns[c].user] == c
  }

  /** A direct message, from every run, to a user not on the speaking node: published under the user's
      name, it changes nothing at home and reaches exactly the holder of that id on another node. */
  lemma {:induction false} DirectMessageArrives(acls: AclTable, ids: seq<string>, trace: seq<NetStep>,
                                                n: nat, m: nat, user: string, c: nat)
    requires Legal(acls, ids, trace) && CanStep(Exec(acls, ids, trace), SayUser(n, user))
    requires Foreign(Exec(acls, ids, trace), n, m) && user !in Exec(acls, ids, trace).nodes[n].hub.clients
    ensures
      var k := Exec(acls, ids, trace);
      var a, u := k.nodes[m].hub, Tracked(k.nextUid);
      var e := Envelope("synchub:direct:" + user, k.nodes[n].id, k.nextUid);
      var t := trace + [SayUser(n, user)] + [Publish(e)] + [Receive(Delivery(m, DirectPattern, e))];
      && Legal(acls, ids, t) && OnlyAt(k, Exec(acls, ids, t), n, m)
      && Exec(acls, ids, t).nodes[n].hub == k.nodes[n].hub
      && (c in a.conns ==>
            Received(a, Exec(acls, ids, t).nodes[m].hub, c, u, user in a.clients && a.clients[user] == c))
  {
    var k := Exec(acls, ids, trace);
    var e := Envelope("synchub:direct:" + user, k.nodes[n].id, k.nextUid);
    RouteRuns(acls, ids, trace, SayUser(n, user), n, m, k.nodes[n].hub, e, DirectPattern);
    if c in k.nodes[m].hub.conns {
      UserIncoming(k.nodes[m].hub, k.nodes[m].id, user, e.origin, Tracked(k.nextUid), c);
    }
  }

  /** A direct message to a user on the speaking node stays there. */
  lemma DirectMessageStays(acls: AclTable, k: Net, n: nat, user: string, c: nat)
    requires CanStep(k, SayUser(n, user)) && user in k.nodes[n].hub.clients && c in k.nodes[n].hub.conns
    ensures
      var h, k' := k.nodes[n].hub, NetNext(acls, k, SayUser(n, user));
      && k'.outbox == k.outbox && k'.bus == k.bus && OnlyAt(k, k', n, n)
      && Received(h, k'.nodes[n].hub, c, Tracked(k.nextUid), h.clients[user] == c)
  {
    SendToUserReaches(acls, k.nodes[n].hub, user, Tracked(k.nextUid), c);
  }
}
