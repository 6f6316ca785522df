/** The hub object: the maps and the loops of the code, each locked section proved to be the step
    of the model it stands for. */
module HubServer {
  import opened SendQueue
  import opened HubModel
  import opened HubSafety
  import opened Access

  lemma OfferNobody(h: Hub, m: Msg)
    ensures OfferAll(h, {}, m) == h
  {
  }

  /** Sending to one more target is sending to the larger set. */
  lemma OfferOneMore(h: Hub, done: set<nat>, c: nat, m: Msg)
    requires c !in done
    ensures OfferAll(OfferAll(h, done, m), {c}, m) == OfferAll(h, done + {c}, m)
  {
  }

  lemma OfferKeepsUser(h: Hub, done: set<nat>, c: nat, m: Msg)
    requires c in h.conns
    ensures c in OfferAll(h, done, m).conns && OfferAll(h, done, m).conns[c].user == h.conns[c].user
  {
  }

  /** One more round of the unregister loop. */
  lemma LeaveOneMore(h: Hub, done: set<string>, room: string, c: nat)
    requires RoomsOk(h) && room !in done
    ensures LeaveRoom(LeaveAll(h, done, c), room, c) == LeaveAll(h, done + {room}, c)
  {
  }

  /** A whole join: the client's own set, then the hub's. */
  function Entered(h: Hub, c: nat, room: string): Hub
    requires c in h.conns
  {
    var conn := h.conns[c].(own := h.conns[c].own + {room}, read := Joining(room));
    With(JoinRoom(With(h, c, conn), room, c), c, conn.(read := Idle))
  }

  /** It is the three steps of an admitted request. */
  lemma EnteredInThreeSteps(acls: AclTable, h: Hub, c: nat, room: string)
    requires Enabled(h, AskJoin(c, room)) && Passes(acls, h, h.conns[c], room)
    ensures
      var a := Next(acls, h, AskJoin(c, room));
      && Enabled(a, JoinOwn(c)) && Enabled(Next(acls, a, JoinOwn(c)), JoinHub(c))
      && Next(acls, Next(acls, a, JoinOwn(c)), JoinHub(c)) == Entered(h, c, room)
  {
    var a := Next(acls, h, AskJoin(c, room));
    var o := Next(acls, a, JoinOwn(c));
    assert o.conns == h.conns[c := h.conns[c].(own := h.conns[c].own + {room}, read := Joining(room))];
  }

  class HubServer {
    var conns: map<nat, Conn>
    var clients: map<string, nat>
    var rooms: map<string, nat>
    var sets: seq<RoomSet>
    var captures: map<nat, Capture>
    var loop: LoopPc
    var crashed: bool

    function State(): Hub
      reads this
    {
      Hub(conns, clients, rooms, sets, captures, loop, crashed)
    }

    constructor ()
      ensures State() == NewHub
    {
      conns, clients, rooms, sets, captures, loop, crashed := map[], map[], map[], [], map[], Ready, false;
    }

    /** The non-blocking send on one client's channel; it panics on a closed one. */
    method Send(c: nat, m: Msg)
      modifies this
      ensures State() == OfferAll(old(State()), {c}, m)
    {
      if c in conns {
        if Closed(conns[c].pipe) {
          crashed := true;
        } else {
          conns := conns[c := conns[c].(pipe := Offered(conns[c].pipe, m))];
        }
      }
      assert conns == OfferAll(old(State()), {c}, m).conns;
    }

    /** The sending loop of the publish handler and of the bridge. */
    method SendEach(members: set<nat>, m: Msg)
      modifies this
      ensures State() == OfferAll(old(State()), members, m)
    {
      var todo := members;
      OfferNobody(State(), m);
      while todo != {}
        invariant todo <= members
        invariant State() == OfferAll(old(State()), members - todo, m)
        decreases todo
      {
        var c :| c in todo;
        OfferOneMore(old(State()), members - todo, c, m);
        assert members - todo + {c} == members - (todo - {c});
        todo := todo - {c};
        Send(c, m);
      }
      assert members - todo == members;
    }

    /** The second locked half of a room broadcast: the captured set, without the excluded user. */
    method DeliverRoom(cell: nat, exclude: string, m: Msg)
      requires cell < |sets| && sets[cell].members <= conns.Keys
      modifies this
      ensures State() == OfferAll(old(State()), NotNamed(old(State()), old(sets)[cell].members, exclude), m)
      ensures forall c :: c in NotNamed(old(State()), old(sets)[cell].members, exclude)
                          <==> c in old(sets)[cell].members && old(conns)[c].user != exclude
    {
      ghost var done: set<nat> := {};
      var todo := sets[cell].members;
      OfferNobody(State(), m);
      while todo != {}
        invariant todo <= old(sets)[cell].members
        invariant done == NotNamed(old(State()), old(sets)[cell].members - todo, exclude)
        invariant State() == OfferAll(old(State()), done, m)
        decreases todo
      {
        var c :| c in todo;
        todo := todo - {c};
        OfferKeepsUser(old(State()), done, c, m);
        if conns[c].user != exclude {
          OfferOneMore(old(State()), done, c, m);
          Send(c, m);
          done := done + {c};
        }
      }
      assert old(sets)[cell].members - todo == old(sets)[cell].members;
    }

    /** The loop over all registered clients. */
    method BroadcastMessage(m: Msg)
      requires ClientsOk(State())
      modifies this
      ensures State() == OfferAll(old(State()), old(clients).Values, m)
    {
      ghost var done: set<nat> := {};
      var todo := clients.Keys;
      OfferNobody(State(), m);
      while todo != {}
        invariant todo <= old(clients).Keys
        invariant done == set u | u in old(clients) && u !in todo :: old(clients)[u]
        invariant State() == OfferAll(old(State()), done, m)
        decreases todo
      {
        var user :| user in todo;
        var c := clients[user];
        assert c !in done by {
          forall u | u in old(clients) && u !in todo ensures old(clients)[u] != c {
            assert old(conns)[old(clients)[u]].user == u;
          }
        }
        OfferOneMore(old(State()), done, c, m);
        todo := todo - {user};
        Send(c, m);
        done := done + {c};
      }
      assert done == old(clients).Values;
    }

    method JoinRoom(room: string, c: nat)
      requires RoomsOk(State())
      modifies this
      ensures State() == HubModel.JoinRoom(old(State()), room, c)
    {
      if room !in rooms {
        rooms := rooms[room := |sets|];
        sets := sets + [RoomSet(room, {})];
      }
      var i := rooms[room];
      sets := sets[i := sets[i].(members := sets[i].members + {c})];
      if room !in old(rooms) {
        assert {} + {c} == {c};
        assert sets == old(sets) + [RoomSet(room, {c})];
      }
    }

    method LeaveRoom(room: string, c: nat)
      requires RoomsOk(State())
      modifies this
      ensures State() == HubModel.LeaveRoom(old(State()), room, c)
    {
      if room in rooms {
        var i := rooms[room];
        sets := sets[i := sets[i].(members := sets[i].members - {c})];
        if |sets[i].members| == 0 {
          rooms := rooms - {room};
        }
      }
      ghost var l := HubModel.LeaveRoom(old(State()), room, c);
      assert rooms == l.rooms;
      assert sets == l.sets;
    }

    /** The Register case of the hub loop, up to its unlock. */
    method Register(c: nat)
      requires c in conns
      modifies this
      ensures State() == RegisterClient(old(State()), c)
    {
      var user := conns[c].user;
      if user in clients {
        var existing := clients[user];
        Send(existing, Local("connected from another location"));
        Close(existing);
        clients := clients - {user};
      }
      clients := clients[user := c];
      assert clients == old(clients)[user := c];
      conns := conns[c := conns[c].(registered := true)];
      loop := Greeting(c);
    }

    method Close(c: nat)
      modifies this
      ensures State() == CloseSend(old(State()), c)
    {
      if c in conns {
        if Closed(conns[c].pipe) {
          crashed := true;
        } else {
          conns := conns[c := conns[c].(pipe := Shut(conns[c].pipe))];
        }
      }
    }

    /** The Unregister case of the hub loop, up to its unlock. */
    method Unregister(c: nat)
      requires c in conns && RoomsOk(State())
      modifies this
      ensures State() == UnregisterClient(old(State()), c)
    {
      var user := conns[c].user;
      if user in clients {
        clients := clients - {user};
        ghost var start := State();
        ghost var done: set<string> := {};
        var todo := conns[c].own;
        assert LeaveAll(start, {}, c) == start by {
          assert LeaveAll(start, {}, c).rooms == start.rooms;
          assert LeaveAll(start, {}, c).sets == start.sets;
        }
        while todo != {}
          invariant todo <= start.conns[c].own && done == start.conns[c].own - todo
          invariant RoomsOk(start) && State() == LeaveAll(start, done, c)
          decreases todo
        {
          var room :| room in todo;
          todo := todo - {room};
          LeaveOneMore(start, done, room, c);
          LeaveAllMembers(start, done, c);
          LeaveRoom(room, c);
          done := done + {room};
        }
        assert done == start.conns[c].own;
        Close(c);
      }
      conns := conns[c := conns[c].(unregistered := true)];
    }

    method RoomMemberCount(room: string) returns (n: nat)
      requires RoomsOk(State())
      ensures n == |Members(State(), room)|
    {
      if room in rooms {
        return |sets[rooms[room]].members|;
      }
      return 0;
    }

    /** The checks of a join request. */
    method Admit(acls: AclTable, c: nat, room: string) returns (ok: bool)
      requires c in conns && RoomsOk(State())
      ensures ok == Passes(acls, State(), conns[c], room)
      ensures ok <==> && room != "" && MayJoin(acls, room, conns[c].key, conns[c].user)
                      && (room in acls && acls[room].maxMembers != 0 && room in rooms ==>
                            |sets[rooms[room]].members| < acls[room].maxMembers)
                      && (room in acls && acls[room].maxMembers != 0 && room !in rooms ==> 0 < acls[room].maxMembers)
                      && (conns[c].claims.Some? ==> HasChannelAccess(conns[c].claims, room, "read"))
    {
      if room == "" {
        return false;
      }
      var mayJoin := CanJoin(acls, room, conns[c].key, conns[c].user);
      if !mayJoin {
        return false;
      }
      var count := RoomMemberCount(room);
      if !CheckMaxMembers(acls, room, count) {
        return false;
      }
      if conns[c].claims.Some? {
        var granted := CheckToken(conns[c].claims, room, "read");
        return granted;
      }
      return true;
    }

    /** A join request from admission to acknowledgement, when nothing else runs in between. */
    method HandleJoinRoom(acls: AclTable, c: nat, room: string, ack: Msg)
      requires Enabled(State(), AskJoin(c, room)) && RoomsOk(State())
      modifies this
      ensures State() == if Passes(acls, old(State()), old(conns)[c], room)
                         then OfferAll(Entered(old(State()), c, room), {c}, ack)
                         else Next(acls, old(State()), AskJoin(c, room))
    {
      var ok := Admit(acls, c, room);
      if !ok {
        Send(c, Local("error"));
        return;
      }
      conns := conns[c := conns[c].(own := conns[c].own + {room}, read := Joining(room))];
      JoinRoom(room, c);
      conns := conns[c := conns[c].(read := Idle)];
      Send(c, ack);
    }

    /** A leave request, when nothing else runs in between. */
    method HandleLeaveRoom(acls: AclTable, c: nat, room: string, ack: Msg)
      requires !crashed && c in conns && conns[c].read.Idle? && RoomsOk(State())
      modifies this
      ensures State() == if room == "" then OfferAll(old(State()), {c}, Local("error"))
                         else OfferAll(Next(acls, Next(acls, old(State()), LeaveOwn(c, room)), LeaveHub(c)), {c}, ack)
    {
      if room == "" {
        Send(c, Local("error"));
        return;
      }
      conns := conns[c := conns[c].(own := conns[c].own - {room}, read := Leaving(room))];
      LeaveRoom(room, c);
      conns := conns[c := conns[c].(read := Idle)];
      Send(c, ack);
    }

    /** A new connection: admission by token and ACL, then the auto-join. */
    method Connect(acls: AclTable, c: nat, clientId: string, anon: string, key: string,
                   claims: Option<Claims>, channel: string) returns (admitted: bool)
      requires Enabled(State(), Step.Connect(c, clientId, anon, key, claims, channel)) && RoomsOk(State())
      modifies this
      ensures admitted == (channel != "" ==> Entitled(acls, key, UserOf(clientId, anon, claims), claims, channel))
      ensures !admitted ==> State() == old(State())
      ensures admitted ==>
                var h := Next(acls, old(State()), Step.Connect(c, clientId, anon, key, claims, channel));
                State() == if channel == "" then h else Next(acls, h, JoinHub(c))
      ensures admitted ==>
                && c in conns && conns[c].claims == claims && conns[c].key == key
                && conns[c].user == (if claims.Some? && claims.value.user != "" then claims.value.user
                                     else if claims.None? && clientId != "" then clientId else anon)
                && conns[c].own == (if channel == "" then {} else {channel}) && conns[c].pipe == NewPipe
    {
      var user := clientId;
      if claims.Some? {
        user := claims.value.user;
        if channel != "" {
          var granted := CheckToken(claims, channel, "read");
          if !granted {
            return false;
          }
        }
      }
      if user == "" {
        user := anon;
      }
      if channel != "" {
        var mayJoin := CanJoin(acls, channel, key, user);
        if !mayJoin {
          return false;
        }
        conns := conns[c := Conn(user, key, claims, {channel}, Joining(channel), false, false, NewPipe)];
        ghost var h := Next(acls, old(State()), Step.Connect(c, clientId, anon, key, claims, channel));
        assert State() == h;
        JoinRoom(channel, c);
        conns := conns[c := conns[c].(read := Idle)];
        assert State() == Next(acls, h, JoinHub(c));
      } else {
        conns := conns[c := Conn(user, key, claims, {}, Idle, false, false, NewPipe)];
      }
      return true;
    }
  }

  /** One round of the write loop with the inner drain, when nobody else touches the queue: the
      waiting messages go out in order up to the first write that fails, number `failAt`. */
  method WriteRound(p: Pipe, failAt: nat) returns (r: Pipe)
    requires CanMove(p, Take(true))
    ensures r.offers == p.offers && r.closes == p.closes && r.zeroReads == p.zeroReads
    ensures failAt >= |p.queue| ==> r.writer == Selecting && r.queue == [] && r.written == p.written + p.queue
    ensures failAt < |p.queue| ==>
              && r.writer == Returned(false) && r.written == p.written + p.queue[..failAt]
              && r.failed == [p.queue[failAt]] && r.queue == p.queue[failAt + 1..]
  {
    r := Moved(p, Take(failAt != 0));
    if failAt == 0 {
      return;
    }
    r := Moved(r, Measure);
    var n := |r.queue|;
    for i := 0 to n
      invariant i < failAt && r.writer == Draining(n - i)
      invariant r.queue == p.queue[i + 1..] && r.written == p.written + p.queue[..i + 1]
      invariant r.offers == p.offers && r.closes == p.closes && r.zeroReads == p.zeroReads
    {
      r := Moved(r, Drain(i + 1 != failAt));
      if i + 1 == failAt {
        return;
      }
    }
    r := Moved(r, Rearm);
    assert p.queue[..n + 1] == p.queue;
  }
}
