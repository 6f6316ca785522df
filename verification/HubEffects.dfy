/** Who receives what, step by step and connection by connection, and where a connection's identity
    comes from: the hub's steps restated in terms of its maps alone. */
module HubEffects {
  import opened SendQueue
  import opened Access
  import opened HubModel
  import opened HubSafety
  import opened HubTheorems

  // ---- Recipients ----

  /** One message was offered to the queue: appended if fewer than 256 wait, dropped otherwise. */
  ghost predicate Got(p: Pipe, p': Pipe, m: Msg) {
    && p'.offers == p.offers + [Offer(m, |p.queue|)]
    && p'.queue == (if |p.queue| < 256 then p.queue + [m] else p.queue)
    && p'.closes == p.closes && p'.written == p.written && p'.failed == p.failed
    && p'.zeroReads == p.zeroReads && p'.writer == p.writer
  }

  /** A connection is addressed: if its queue is open it got the message, else the sender panicked;
      otherwise nothing happened to it. */
  ghost predicate Received(h: Hub, h': Hub, c: nat, m: Msg, addressed: bool) {
    && c in h.conns && c in h'.conns && SameButPipe(h.conns[c], h'.conns[c])
    && (addressed && h.conns[c].pipe.closes == 0 ==> Got(h.conns[c].pipe, h'.conns[c].pipe, m))
    && (addressed && h.conns[c].pipe.closes > 0 ==> h'.crashed)
    && (!addressed || h.conns[c].pipe.closes > 0 ==> h'.conns[c].pipe == h.conns[c].pipe)
  }

  lemma OfferReceived(h: Hub, targets: set<nat>, m: Msg, c: nat)
    requires c in h.conns
    ensures Received(h, OfferAll(h, targets, m), c, m, c in targets)
  {
  }

  /** The second half of a room broadcast reaches exactly the captured set without the excluded user. */
  lemma DeliverRoomReaches(acls: AclTable, h: Hub, job: nat, exclude: string, m: Msg, c: nat)
    requires Enabled(h, DeliverRoom(job, exclude, m)) && c in h.conns
    ensures
      var cell := h.captures[job].cell;
      var captured := cell < |h.sets| && c in h.sets[cell].members;
      && Received(h, Next(acls, h, DeliverRoom(job, exclude, m)), c, m, captured && h.conns[c].user != exclude)
      && Next(acls, h, DeliverRoom(job, exclude, m)).captures == h.captures - {job}
  {
    OfferReceived(h, Targets(h, DeliverRoom(job, exclude, m)), m, c);
  }

  /** A broadcast reaches exactly the connections that hold their user id. */
  lemma BroadcastAllReaches(acls: AclTable, h: Hub, m: Msg, c: nat)
    requires ClientsOk(h) && Enabled(h, BroadcastAll(m)) && c in h.conns
    ensures
      var user := h.conns[c].user;
      Received(h, Next(acls, h, BroadcastAll(m)), c, m, user in h.clients && h.clients[user] == c)
  {
    OfferReceived(h, Targets(h, BroadcastAll(m)), m, c);
  }

  /** The publish endpoint reaches exactly the room's members. */
  lemma PublishRoomReaches(acls: AclTable, h: Hub, room: string, m: Msg, c: nat)
    requires RoomsOk(h) && Enabled(h, PublishRoom(room, m)) && c in h.conns
    ensures
      var member := room in h.rooms && c in h.sets[h.rooms[room]].members;
      Received(h, Next(acls, h, PublishRoom(room, m)), c, m, member)
  {
    OfferReceived(h, Targets(h, PublishRoom(room, m)), m, c);
  }

  /** A direct message reaches exactly the holder of the user id. */
  lemma SendToUserReaches(acls: AclTable, h: Hub, user: string, m: Msg, c: nat)
    requires Enabled(h, SendToUser(user, m)) && c in h.conns
    ensures Received(h, Next(acls, h, SendToUser(user, m)), c, m, user in h.clients && h.clients[user] == c)
  {
    OfferReceived(h, Targets(h, SendToUser(user, m)), m, c);
  }

  /** A reply and the greeting reach exactly their connection. */
  lemma ReplyReaches(acls: AclTable, h: Hub, d: nat, m: Msg, c: nat)
    requires c in h.conns
    requires Enabled(h, Reply(d, m))
    ensures Received(h, Next(acls, h, Reply(d, m)), c, m, c == d)
  {
    OfferReceived(h, {d}, m, c);
  }

  lemma GreetReaches(acls: AclTable, h: Hub, c: nat)
    requires c in h.conns && Enabled(h, Greet)
    ensures Received(h, Next(acls, h, Greet), c, Local("connected"), c == h.loop.conn)
  {
    OfferReceived(h, {h.loop.conn}, Local("connected"), c);
  }

  /** A join request is refused to the asker alone, with an error; an accepted one sends nothing. */
  lemma AskJoinReaches(acls: AclTable, h: Hub, d: nat, room: string, c: nat)
    requires Enabled(h, AskJoin(d, room)) && c in h.conns
    ensures
      var h' := Next(acls, h, AskJoin(d, room));
      if Passes(acls, h, h.conns[d], room)
      then h' == With(h, d, h.conns[d].(read := Admitted(room)))
      else Received(h, h', c, Local("error"), c == d)
  {
    OfferReceived(h, {d}, Local("error"), c);
  }

  /** The connection that a Register throws out was told so and then closed. */
  ghost predicate ToldAndClosed(p: Pipe, p': Pipe) {
    p'.closes == p.closes + 1 && Got(p, p'.(closes := p.closes), Local("connected from another location"))
  }

  lemma KickReaches(h: Hub, c: nat, d: nat)
    requires c in h.conns && d in h.conns
    ensures
      var k, user := Kicked(h, h.conns[c].user), h.conns[c].user;
      var holder := user in h.clients && h.clients[user] == d;
      && d in k.conns
      && (holder && h.conns[d].pipe.closes == 0 ==> ToldAndClosed(h.conns[d].pipe, k.conns[d].pipe))
      && (holder && h.conns[d].pipe.closes > 0 ==> k.crashed)
      && (!holder ==> k.conns[d].pipe == h.conns[d].pipe)
  {
    var user := h.conns[c].user;
    if user in h.clients {
      OfferReceived(h, {h.clients[user]}, Local("connected from another location"), d);
    }
  }

  /** Registering tells and closes the holder of the user id, if there is one with an open queue, and
      touches no other queue and no room; the connection then holds the id. */
  lemma RegisterReaches(acls: AclTable, h: Hub, c: nat, d: nat)
    requires Enabled(h, Register(c)) && d in h.conns
    ensures
      var h', user := Next(acls, h, Register(c)), h.conns[c].user;
      var holder := user in h.clients && h.clients[user] == d;
      && d in h'.conns && h'.conns[d].own == h.conns[d].own && h'.conns[d].read == h.conns[d].read
      && h'.conns[d].registered == (h.conns[d].registered || d == c)
      && h'.conns[d].unregistered == h.conns[d].unregistered
      && (holder && h.conns[d].pipe.closes == 0 ==> ToldAndClosed(h.conns[d].pipe, h'.conns[d].pipe))
      && (holder && h.conns[d].pipe.closes > 0 ==> h'.crashed)
      && (!holder ==> h'.conns[d].pipe == h.conns[d].pipe)
      && h'.clients == h.clients[user := c] && h'.rooms == h.rooms && h'.sets == h.sets && h'.loop == Greeting(c)
  {
    KickReaches(h, c, d);
    KickEffect(h, c);
    var k := Kicked(h, h.conns[c].user);
    assert SameButPipe(h.conns[d], k.conns[d]);
  }

  /** Unregistering closes the connection's queue if its user id is listed, whoever holds it, and
      changes no other connection. */
  lemma UnregisterReaches(acls: AclTable, h: Hub, c: nat, d: nat)
    requires Enabled(h, Unregister(c)) && d in h.conns
    ensures
      var h', p := Next(acls, h, Unregister(c)), h.conns[d].pipe;
      var listed := h.conns[c].user in h.clients;
      && d in h'.conns && (d != c ==> h'.conns[d] == h.conns[d])
      && (d == c ==> h'.conns[d].unregistered
                     && h'.conns[d].pipe == if listed && p.closes == 0 then p.(closes := 1) else p)
      && (h'.crashed <==> listed && h.conns[c].pipe.closes > 0)
  {
    UnregisterConns(h, c);
  }

  /** In every run, a whole room broadcast whose second half comes right after the first reaches
      exactly the room's members except the excluded user. */
  lemma {:induction false} RoomBroadcastReaches(acls: AclTable, trace: seq<Step>, job: nat, room: string,
                                                exclude: string, m: Msg, c: nat)
    requires Legal(acls, trace) && Enabled(Exec(acls, trace), CaptureRoom(job, room))
    requires c in Exec(acls, trace).conns && room in Exec(acls, trace).rooms
    ensures
      var h := Exec(acls, trace);
      var t := trace + [CaptureRoom(job, room)] + [DeliverRoom(job, exclude, m)];
      && h.rooms[room] < |h.sets| && Legal(acls, t)
      && Received(h, Exec(acls, t), c, m, c in h.sets[h.rooms[room]].members && h.conns[c].user != exclude)
  {
    RunsAreSound(acls, trace);
    Extend(acls, trace, CaptureRoom(job, room));
    var t1 := trace + [CaptureRoom(job, room)];
    Extend(acls, t1, DeliverRoom(job, exclude, m));
    DeliverRoomReaches(acls, Exec(acls, t1), job, exclude, m, c);
  }

  /** In every run, whatever happened between the halves: the second reaches the room's present
      members except the excluded user if the room still has the set it had, and nobody otherwise. */
  lemma {:induction false} LateBroadcastReaches(acls: AclTable, trace: seq<Step>, job: nat, exclude: string,
                                                m: Msg, c: nat)
    requires Legal(acls, trace) && Enabled(Exec(acls, trace), DeliverRoom(job, exclude, m))
    requires c in Exec(acls, trace).conns
    ensures
      var h := Exec(acls, trace);
      var cap := h.captures[job];
      var current := cap.room in h.rooms && h.rooms[cap.room] == cap.cell;
      && cap.cell < |h.sets|
      && Received(h, Next(acls, h, DeliverRoom(job, exclude, m)), c, m,
                  current && c in h.sets[cap.cell].members && h.conns[c].user != exclude)
  {
    RunsAreSound(acls, trace);
    DeliverRoomReaches(acls, Exec(acls, trace), job, exclude, m, c);
  }

  /** In every run, a connection between messages can leave any named room: afterwards it is in that
      room neither by the hub's index nor by its own, and every other membership is as it was. */
  lemma {:induction false} LeaveLeaves(acls: AclTable, trace: seq<Step>, c: nat, room: string)
    requires Legal(acls, trace) && !Exec(acls, trace).crashed && c in Exec(acls, trace).conns
    requires Exec(acls, trace).conns[c].read.Idle? && room != ""
    ensures
      var h, t := Exec(acls, trace), trace + [LeaveOwn(c, room)] + [LeaveHub(c)];
      && Legal(acls, t)
      && var h' := Exec(acls, t);
         && c in h'.conns && h'.conns[c].own == h.conns[c].own - {room} && h'.conns[c].read.Idle?
         && (forall r :: Members(h', r) == if r == room then Members(h, r) - {c} else Members(h, r))
         && (room in h'.rooms <==> Members(h', room) != {})
  {
    var h := Exec(acls, trace);
    RunsAreSound(acls, trace);
    Extend(acls, trace, LeaveOwn(c, room));
    var t1 := trace + [LeaveOwn(c, room)];
    var h1 := Exec(acls, t1);
    SameMembers(h, h1);
    RunsAreSound(acls, t1);
    LeaveMembers(h1, room, c);
    Extend(acls, t1, LeaveHub(c));
    var t := t1 + [LeaveHub(c)];
    SameMembers(LeaveRoom(h1, room, c), Exec(acls, t));
    RunsAreSound(acls, t);
  }

  // ---- Identity ----

  /** A Connect step that admits, in its own terms: to no channel, or to one that the ACL opens to the
      key and user and that the token, if there is one, grants. */
  ghost predicate Admits(acls: AclTable, s: Step, user: string)
    requires s.Connect?
  {
    s.channel != "" ==>
      && MayJoin(acls, s.channel, s.key, user)
      && (s.claims.Some? ==> HasChannelAccess(s.claims, s.channel, "read"))
  }

  /** The token's user if there is a token, else the requested id; an anonymous one if that is empty. */
  ghost predicate ActsFor(s: Step, user: string)
    requires s.Connect?
  {
    && (s.claims.Some? && s.claims.value.user != "" ==> user == s.claims.value.user)
    && (s.claims.Some? && s.claims.value.user == "" ==> user == s.anon)
    && (s.claims.None? && s.clientId != "" ==> user == s.clientId)
    && (s.claims.None? && s.clientId == "" ==> user == s.anon)
  }

  /** The connection was made by this step and carries its token, key and user. */
  ghost predicate MadeBy(acls: AclTable, s: Step, c: nat, conn: Conn) {
    && s.Connect? && s.conn == c && conn.claims == s.claims && conn.key == s.key
    && ActsFor(s, conn.user) && Admits(acls, s, conn.user)
  }

  lemma ConnectMakes(acls: AclTable, h: Hub, s: Step)
    requires s.Connect? && Enabled(h, s) && s.conn in Next(acls, h, s).conns
    ensures MadeBy(acls, s, s.conn, Next(acls, h, s).conns[s.conn])
  {
  }

  lemma QuietIdentity(acls: AclTable, h: Hub, s: Step)
    requires Enabled(h, s)
    requires s.JoinHub? || s.JoinOwn? || s.LeaveOwn? || s.LeaveHub? || s.CaptureRoom? || s.StopReading? || s.WriteMove?
    ensures Next(acls, h, s).conns.Keys == h.conns.Keys
    ensures forall c :: c in h.conns ==> SameIdentity(h.conns[c], Next(acls, h, s).conns[c])
  {
    if s.JoinHub? {
      assert JoinRoom(h, h.conns[s.conn].read.room, s.conn).conns == h.conns;
    }
  }

  lemma AskIdentity(acls: AclTable, h: Hub, d: nat, room: string)
    requires Enabled(h, AskJoin(d, room))
    ensures Next(acls, h, AskJoin(d, room)).conns.Keys == h.conns.Keys
    ensures forall c :: c in h.conns ==> SameIdentity(h.conns[c], Next(acls, h, AskJoin(d, room)).conns[c])
  {
    OfferAllEffect(h, {d}, Local("error"));
  }

  lemma RegisterIdentity(h: Hub, d: nat)
    requires d in h.conns
    ensures RegisterClient(h, d).conns.Keys == h.conns.Keys
    ensures forall c :: c in h.conns ==> SameIdentity(h.conns[c], RegisterClient(h, d).conns[c])
  {
    KickEffect(h, d);
  }

  lemma UnregisterIdentity(h: Hub, d: nat)
    requires d in h.conns
    ensures UnregisterClient(h, d).conns.Keys == h.conns.Keys
    ensures forall c :: c in h.conns ==> SameIdentity(h.conns[c], UnregisterClient(h, d).conns[c])
  {
    UnregisterConns(h, d);
  }

  /** No step makes a connection but Connect, and none changes an identity. */
  lemma StepKeepsIdentity(acls: AclTable, h: Hub, s: Step, c: nat)
    requires Enabled(h, s) && c in Next(acls, h, s).conns
    ensures c in h.conns ==> SameIdentity(h.conns[c], Next(acls, h, s).conns[c])
    ensures c !in h.conns ==> s.Connect? && s.conn == c
  {
    if s.Register? {
      RegisterIdentity(h, s.conn);
    } else if s.Unregister? {
      UnregisterIdentity(h, s.conn);
    } else if s.AskJoin? {
      AskIdentity(acls, h, s.conn, s.room);
    } else if s.Greet? || s.Reply? || s.DeliverRoom? || s.BroadcastAll? || s.PublishRoom? || s.SendToUser? {
      SendingEffect(acls, h, s);
    } else if !s.Connect? {
      QuietIdentity(acls, h, s);
    }
  }

  /** In every run, every connection was made by an admitting Connect step of the run and still has
      its token, key and user. */
  lemma {:induction false} ConnectionsHaveAnOrigin(acls: AclTable, trace: seq<Step>, c: nat)
    requires Legal(acls, trace) && c in Exec(acls, trace).conns
    ensures exists i :: 0 <= i < |trace| && MadeBy(acls, trace[i], c, Exec(acls, trace).conns[c])
  {
    var p, s := trace[..|trace| - 1], trace[|trace| - 1];
    var h := Exec(acls, p);
    StepKeepsIdentity(acls, h, s, c);
    if c in h.conns {
      ConnectionsHaveAnOrigin(acls, p, c);
      var i :| 0 <= i < |p| && MadeBy(acls, p[i], c, h.conns[c]);
      assert trace[i] == p[i] && MadeBy(acls, trace[i], c, Exec(acls, trace).conns[c]);
    } else {
      ConnectMakes(acls, h, s);
      assert MadeBy(acls, trace[|trace| - 1], c, Exec(acls, trace).conns[c]);
    }
  }

  /** In every run with a fixed ACL table, whoever is in a room came with a Connect step whose key and
      user the ACL admits to that room and whose token, if it brought one, grants it read access. */
  lemma {:induction false} MembersCameEntitled(acls: AclTable, trace: seq<Step>, c: nat, room: string)
    requires Legal(acls, trace) && c in Members(Exec(acls, trace), room)
    ensures
      exists i, user :: 0 <= i < |trace| && trace[i].Connect? && trace[i].conn == c && ActsFor(trace[i], user)
        && MayJoin(acls, room, trace[i].key, user)
        && (trace[i].claims.Some? ==> HasChannelAccess(trace[i].claims, room, "read"))
  {
    MembersAreEntitled(acls, trace, c, room);
    ConnectionsHaveAnOrigin(acls, trace, c);
    var conn := Exec(acls, trace).conns[c];
    var i :| 0 <= i < |trace| && MadeBy(acls, trace[i], c, conn);
    assert ActsFor(trace[i], conn.user);
  }
}
