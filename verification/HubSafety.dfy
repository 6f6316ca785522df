/** What every run of the hub keeps, and what a run needs for no channel to be misused. */
module HubSafety {
  import opened SendQueue
  import opened Access
  import opened HubModel

  // ---- Invariants of every run ----

  /** Rooms point to their own, non-empty set; every other set ever made is empty; a captured set
      is the one its room had. */
  ghost predicate RoomsOk(h: Hub) {
    && (forall r :: r in h.rooms ==>
          h.rooms[r] < |h.sets| && h.sets[h.rooms[r]].room == r && h.sets[h.rooms[r]].members != {})
    && (forall i :: 0 <= i < |h.sets| ==>
          && h.sets[i].members <= h.conns.Keys
          && (h.sets[i].members != {} ==> h.sets[i].room in h.rooms && h.rooms[h.sets[i].room] == i))
    && (forall t :: t in h.captures ==>
          h.captures[t].cell < |h.sets| && h.sets[h.captures[t].cell].room == h.captures[t].room)
  }

  /** A connection's own room set is the inverse of the hub's index, except for the one room it is
      in the middle of joining or leaving. */
  ghost predicate IndexOk(h: Hub) {
    forall c :: c in h.conns ==> ConnIndexOk(h, c)
  }

  ghost predicate ConnIndexOk(h: Hub, c: nat)
    requires c in h.conns
  {
    var conn := h.conns[c];
    && (conn.read.Joining? ==> conn.read.room in conn.own)
    && (conn.read.Leaving? ==> conn.read.room !in conn.own)
    && (!conn.unregistered ==>
          forall r :: conn.read != Joining(r) && conn.read != Leaving(r) ==> (c in Members(h, r) <==> r in conn.own))
  }

  /** The client map is keyed by each client's own user id. */
  ghost predicate ClientsOk(h: Hub) {
    && (forall u :: u in h.clients ==>
          h.clients[u] in h.conns && h.conns[h.clients[u]].user == u && h.conns[h.clients[u]].registered)
    && (h.loop.Greeting? ==> h.loop.conn in h.conns)
  }

  /** The hub's index structures agree with each other. */
  ghost predicate Sound(h: Hub) { RoomsOk(h) && IndexOk(h) && ClientsOk(h) }

  /** The same connection, whatever became of its queue. */
  ghost predicate SameButPipe(x: Conn, y: Conn) {
    && x.user == y.user && x.key == y.key && x.claims == y.claims && x.own == y.own && x.read == y.read
    && x.registered == y.registered && x.unregistered == y.unregistered
  }

  /** `b` is `a` except for what happened inside the send queues, the loop position and the crash flag. */
  ghost predicate SameButPipes(a: Hub, b: Hub) {
    && b.conns.Keys == a.conns.Keys
    && (forall c :: c in a.conns ==> SameButPipe(a.conns[c], b.conns[c]))
    && b.clients == a.clients && b.rooms == a.rooms && b.sets == a.sets
    && (b.loop == a.loop || b.loop.Ready?)
    && (forall t :: t in b.captures ==> t in a.captures && b.captures[t] == a.captures[t])
  }

  lemma SameMembers(a: Hub, b: Hub)
    requires b.rooms == a.rooms && b.sets == a.sets
    ensures forall r :: Members(b, r) == Members(a, r)
  {
  }

  lemma PipesAside(a: Hub, b: Hub)
    requires SameButPipes(a, b) && Sound(a)
    ensures Sound(b)
  {
    SameMembers(a, b);
    forall c | c in b.conns ensures ConnIndexOk(b, c) {
      assert ConnIndexOk(a, c);
      assert SameButPipe(a.conns[c], b.conns[c]);
    }
  }

  /** Every step of sending or closing, whatever the targets. */
  lemma OfferAllEffect(h: Hub, targets: set<nat>, m: Msg)
    ensures SameButPipes(h, OfferAll(h, targets, m))
  {
  }

  lemma CloseEffect(h: Hub, c: nat)
    ensures SameButPipes(h, CloseSend(h, c))
  {
  }

  // ---- What the room operations do to membership ----

  lemma JoinMembers(h: Hub, room: string, c: nat)
    requires RoomsOk(h) && c in h.conns
    ensures RoomsOk(JoinRoom(h, room, c))
    ensures forall r :: Members(JoinRoom(h, room, c), r) == Members(h, r) + if r == room then {c} else {}
  {
    var h' := JoinRoom(h, room, c);
    if room in h.rooms {
      var i := h.rooms[room];
      assert forall j :: 0 <= j < |h.sets| && j != i ==> h'.sets[j] == h.sets[j];
    } else {
      assert forall j :: 0 <= j < |h.sets| ==> h'.sets[j] == h.sets[j];
    }
  }

  lemma LeaveAllMembers(h: Hub, rooms: set<string>, c: nat)
    requires RoomsOk(h)
    ensures RoomsOk(LeaveAll(h, rooms, c))
    ensures forall r :: Members(LeaveAll(h, rooms, c), r) == Members(h, r) - if r in rooms then {c} else {}
  {
  }

  lemma LeaveMembers(h: Hub, room: string, c: nat)
    requires RoomsOk(h)
    ensures RoomsOk(LeaveRoom(h, room, c))
    ensures forall r :: Members(LeaveRoom(h, room, c), r) == Members(h, r) - if r == room then {c} else {}
  {
  }

  // ---- Steps of one connection ----

  /** Between `a` and `b` nothing happened to any connection but `c0`. */
  ghost predicate OnlyTouches(a: Hub, b: Hub, c0: nat) {
    && b.conns.Keys == a.conns.Keys + {c0}
    && (forall c :: c in b.conns && c != c0 ==> b.conns[c] == a.conns[c])
    && (forall r :: Members(b, r) - {c0} == Members(a, r) - {c0})
  }

  lemma OthersKeep(a: Hub, b: Hub, c0: nat)
    requires Sound(a) && OnlyTouches(a, b, c0)
    requires RoomsOk(b) && ClientsOk(b) && ConnIndexOk(b, c0)
    ensures Sound(b)
  {
    forall c | c in b.conns ensures ConnIndexOk(b, c) {
      if c != c0 {
        assert ConnIndexOk(a, c);
        assert c in a.conns && b.conns[c] == a.conns[c];
        forall r ensures c in Members(b, r) <==> c in Members(a, r) {
          assert c in Members(b, r) - {c0} <==> c in Members(a, r) - {c0};
        }
      }
    }
  }

  /** Changing one connection record and nothing else. */
  lemma WithOk(h: Hub, c: nat, conn: Conn)
    requires Sound(h)
    requires c in h.conns ==> conn.user == h.conns[c].user && (h.conns[c].registered ==> conn.registered)
    requires ConnIndexOk(With(h, c, conn), c)
    ensures Sound(With(h, c, conn))
  {
  }

  lemma NewcomerIsNowhere(h: Hub, c: nat)
    requires RoomsOk(h) && c !in h.conns
    ensures forall r :: c !in Members(h, r)
  {
  }

  lemma ConnectOk(acls: AclTable, h: Hub, s: Step)
    requires Sound(h) && Enabled(h, s) && s.Connect?
    ensures Sound(Next(acls, h, s))
  {
    var h' := Next(acls, h, s);
    if h' != h {
      var conn := h'.conns[s.conn];
      assert h' == With(h, s.conn, conn);
      SameMembers(h, h');
      NewcomerIsNowhere(h, s.conn);
      WithOk(h, s.conn, conn);
    }
  }

  /** Rooms and sets changed, connections did not. */
  lemma RoomStepOk(a: Hub, b: Hub, c: nat)
    requires Sound(a) && RoomsOk(b) && c in a.conns && !a.conns[c].read.Stopped?
    requires b.conns == a.conns && b.clients == a.clients && b.loop == a.loop
    requires a.conns[c].read.Joining? || a.conns[c].read.Leaving?
    requires forall r :: Members(b, r) - {c} == Members(a, r) - {c}
    requires forall r :: r != a.conns[c].read.room ==> Members(b, r) == Members(a, r)
    ensures Sound(b)
  {
    assert ConnIndexOk(a, c);
    OthersKeep(a, b, c);
  }

  lemma JoinHubOk(h: Hub, c: nat)
    requires Sound(h) && c in h.conns && h.conns[c].read.Joining?
    ensures var j := JoinRoom(h, h.conns[c].read.room, c);
            Sound(With(j, c, h.conns[c].(read := Idle)))
  {
    var room := h.conns[c].read.room;
    var j := JoinRoom(h, room, c);
    JoinMembers(h, room, c);
    RoomStepOk(h, j, c);
    assert ConnIndexOk(j, c);
    SameMembers(j, With(j, c, h.conns[c].(read := Idle)));
    WithOk(j, c, h.conns[c].(read := Idle));
  }

  lemma LeaveHubOk(h: Hub, c: nat)
    requires Sound(h) && c in h.conns && h.conns[c].read.Leaving?
    ensures var l := LeaveRoom(h, h.conns[c].read.room, c);
            Sound(With(l, c, h.conns[c].(read := Idle)))
  {
    var room := h.conns[c].read.room;
    var l := LeaveRoom(h, room, c);
    LeaveMembers(h, room, c);
    RoomStepOk(h, l, c);
    assert ConnIndexOk(l, c);
    SameMembers(l, With(l, c, h.conns[c].(read := Idle)));
    WithOk(l, c, h.conns[c].(read := Idle));
  }

  /** The moves that only change one connection: admission, the client-side half of a join or
      leave, stopping, writing. */
  lemma OwnMoveOk(acls: AclTable, h: Hub, s: Step)
    requires Sound(h) && Enabled(h, s)
    requires s.AskJoin? || s.JoinOwn? || s.LeaveOwn? || s.StopReading? || s.WriteMove?
    ensures Sound(Next(acls, h, s))
  {
    var h' := Next(acls, h, s);
    if s.AskJoin? && !Passes(acls, h, h.conns[s.conn], s.room) {
      OfferAllEffect(h, {s.conn}, Local("error"));
      PipesAside(h, h');
    } else {
      SameMembers(h, h');
      assert ConnIndexOk(h, s.conn);
      WithOk(h, s.conn, h'.conns[s.conn]);
    }
  }

  /** Kicking whoever holds the user id: only queues change. */
  lemma KickEffect(h: Hub, c: nat)
    requires c in h.conns
    ensures SameButPipes(h, Kicked(h, h.conns[c].user))
    ensures Kicked(h, h.conns[c].user).loop == h.loop
  {
    var u := h.conns[c].user;
    if u in h.clients {
      var m := Local("connected from another location");
      OfferAllEffect(h, {h.clients[u]}, m);
      CloseEffect(OfferAll(h, {h.clients[u]}, m), h.clients[u]);
    }
  }

  lemma RegisterOk(h: Hub, c: nat)
    requires Sound(h) && c in h.conns
    ensures Sound(RegisterClient(h, c))
  {
    var k := Kicked(h, h.conns[c].user);
    KickEffect(h, c);
    PipesAside(h, k);
    assert ConnIndexOk(k, c);
    var w := With(k, c, k.conns[c].(registered := true));
    SameMembers(k, w);
    WithOk(k, c, k.conns[c].(registered := true));
    var h' := RegisterClient(h, c);
    SameMembers(w, h');
    forall d | d in h'.conns ensures ConnIndexOk(h', d) {
      assert ConnIndexOk(w, d);
    }
  }

  /** After its unregister loop the connection is in none of the rooms it knew of. */
  lemma EvictEffect(h: Hub, c: nat)
    requires RoomsOk(h) && c in h.conns
    ensures var e := Evicted(h, c);
            && RoomsOk(e) && e.conns == h.conns && e.loop == h.loop
            && forall r :: Members(e, r) == Members(h, r) - if r in h.conns[c].own then {c} else {}
  {
  }

  lemma UnregisterMembers(h: Hub, c: nat)
    requires RoomsOk(h) && c in h.conns
    ensures RoomsOk(UnregisterClient(h, c))
    ensures var held := h.conns[c].user in h.clients;
            forall r :: Members(UnregisterClient(h, c), r)
                        == Members(h, r) - if held && r in h.conns[c].own then {c} else {}
  {
    if h.conns[c].user in h.clients {
      EvictEffect(h, c);
      SameMembers(Evicted(h, c), UnregisterClient(h, c));
    } else {
      SameMembers(h, UnregisterClient(h, c));
    }
  }

  lemma UnregisterConns(h: Hub, c: nat)
    requires c in h.conns
    ensures var h' := UnregisterClient(h, c);
            && h'.conns.Keys == h.conns.Keys
            && (forall d :: d in h.conns && d != c ==> h'.conns[d] == h.conns[d])
            && h'.conns[c].unregistered && h'.conns[c].user == h.conns[c].user
            && h'.conns[c].own == h.conns[c].own && h'.conns[c].read == h.conns[c].read
            && h'.conns[c].registered == h.conns[c].registered
            && h'.clients == h.clients - {h.conns[c].user}
            && h'.loop == h.loop
  {
    if h.conns[c].user !in h.clients {
      assert h.clients - {h.conns[c].user} == h.clients;
    }
  }

  lemma UnregisterOk(h: Hub, c: nat)
    requires Sound(h) && c in h.conns
    ensures Sound(UnregisterClient(h, c))
  {
    var h' := UnregisterClient(h, c);
    UnregisterMembers(h, c);
    UnregisterConns(h, c);
    assert ConnIndexOk(h, c);
    assert ConnIndexOk(h', c);
    OthersKeep(h, h', c);
  }

  /** Sends of any kind leave everything but the queues alone. */
  lemma SendingEffect(acls: AclTable, h: Hub, s: Step)
    requires Enabled(h, s)
    requires s.Greet? || s.Reply? || s.DeliverRoom? || s.BroadcastAll? || s.PublishRoom? || s.SendToUser?
    ensures SameButPipes(h, Next(acls, h, s))
  {
    OfferAllEffect(h, Targets(h, s), MessageOf(s));
  }

  lemma CaptureOk(h: Hub, t: nat, room: string)
    requires Sound(h) && room in h.rooms
    ensures Sound(h.(captures := h.captures[t := Capture(room, h.rooms[room])]))
  {
  }

  lemma StepKeepsSound(acls: AclTable, h: Hub, s: Step)
    requires Sound(h) && Enabled(h, s)
    ensures Sound(Next(acls, h, s))
  {
    if s.AskJoin? || s.JoinOwn? || s.LeaveOwn? || s.StopReading? || s.WriteMove? {
      OwnMoveOk(acls, h, s);
    } else if s.Greet? || s.Reply? || s.DeliverRoom? || s.BroadcastAll? || s.PublishRoom? || s.SendToUser? {
      SendingEffect(acls, h, s);
      PipesAside(h, Next(acls, h, s));
    } else if s.Connect? {
      ConnectOk(acls, h, s);
    } else {
      IndexStepKeepsSound(acls, h, s);
    }
  }

  lemma IndexStepKeepsSound(acls: AclTable, h: Hub, s: Step)
    requires Sound(h) && Enabled(h, s)
    requires s.JoinHub? || s.LeaveHub? || s.Register? || s.Unregister? || s.CaptureRoom?
    ensures Sound(Next(acls, h, s))
  {
    match s
    case JoinHub(c) => JoinHubOk(h, c);
    case LeaveHub(c) => LeaveHubOk(h, c);
    case Register(c) => RegisterOk(h, c);
    case Unregister(c) => UnregisterOk(h, c);
    case CaptureRoom(t, room) => if room in h.rooms { CaptureOk(h, t, room); }
  }

  lemma {:induction false} RunsAreSound(acls: AclTable, trace: seq<Step>)
    requires Legal(acls, trace)
    ensures Sound(Exec(acls, trace))
  {
    if trace != [] {
      var p := trace[..|trace| - 1];
      RunsAreSound(acls, p);
      StepKeepsSound(acls, Exec(acls, p), trace[|trace| - 1]);
    }
  }

  /** A run may go on with any enabled step. */
  lemma {:induction false} Extend(acls: AclTable, trace: seq<Step>, s: Step)
    requires Legal(acls, trace) && Enabled(Exec(acls, trace), s)
    ensures Legal(acls, trace + [s]) && Exec(acls, trace + [s]) == Next(acls, Exec(acls, trace), s)
  {
  }
}
