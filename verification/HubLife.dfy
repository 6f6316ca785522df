/** Channel safety of the hub: under the run hypothesis no queue is closed twice or sent to after
    its close, and exactly what breaks without it. */
module HubLife {
  import opened SendQueue
  import opened Access
  import opened HubModel
  import opened HubSafety

  /** A connection's channel is closed once it is unregistered, not before and not twice; while it
      is registered and not unregistered it holds its user id. */
  ghost predicate ConnLife(h: Hub, c: nat)
    requires c in h.conns
  {
    var conn := h.conns[c];
    && (conn.unregistered ==> conn.registered && conn.read.Stopped?)
    && conn.pipe.closes == (if conn.unregistered then 1 else 0)
    && (conn.registered && !conn.unregistered ==> conn.user in h.clients && h.clients[conn.user] == c)
  }

  ghost predicate Present(h: Hub, c: nat) { c in h.conns && !h.conns[c].unregistered }

  /** Everything the hub can address is present. */
  ghost predicate AddressesOk(h: Hub) {
    && (forall u :: u in h.clients ==> Present(h, h.clients[u]))
    && (forall i, c :: 0 <= i < |h.sets| && c in h.sets[i].members ==> Present(h, c))
    && (h.loop.Greeting? ==> Present(h, h.loop.conn))
  }

  ghost predicate LifeOk(h: Hub) {
    !h.crashed && AddressesOk(h) && forall c :: c in h.conns ==> ConnLife(h, c)
  }

  lemma PresentIsOpen(h: Hub, targets: set<nat>)
    requires LifeOk(h) && forall c :: c in targets ==> Present(h, c)
    ensures !SendsOnClosed(h, targets)
  {
  }

  lemma TargetsPresent(h: Hub, s: Step)
    requires LifeOk(h) && Enabled(h, s)
    ensures forall c :: c in Targets(h, s) ==> Present(h, c)
  {
  }

  lemma OfferAllLives(h: Hub, targets: set<nat>, m: Msg)
    requires LifeOk(h) && forall c :: c in targets ==> Present(h, c)
    ensures LifeOk(OfferAll(h, targets, m))
  {
    PresentIsOpen(h, targets);
    var h' := OfferAll(h, targets, m);
    forall c | c in h'.conns ensures ConnLife(h', c) {
      assert ConnLife(h, c);
    }
    assert forall c :: Present(h, c) ==> Present(h', c);
  }

  lemma SendingLives(acls: AclTable, h: Hub, s: Step)
    requires LifeOk(h) && Enabled(h, s)
    requires s.Greet? || s.Reply? || s.DeliverRoom? || s.BroadcastAll? || s.PublishRoom? || s.SendToUser?
    ensures LifeOk(Next(acls, h, s))
  {
    TargetsPresent(h, s);
    OfferAllLives(h, Targets(h, s), MessageOf(s));
    var o := OfferAll(h, Targets(h, s), MessageOf(s));
    var h' := Next(acls, h, s);
    forall c | c in h'.conns ensures ConnLife(h', c) {
      assert ConnLife(o, c);
    }
    assert forall c :: Present(o, c) ==> Present(h', c);
  }

  /** Changing one connection record without touching its life. */
  lemma WithLives(h: Hub, c: nat, conn: Conn)
    requires LifeOk(h)
    requires !conn.unregistered && conn.pipe.closes == 0
    requires if c in h.conns then conn.user == h.conns[c].user && conn.registered == h.conns[c].registered
                                  && !h.conns[c].unregistered
             else !conn.registered
    ensures LifeOk(With(h, c, conn))
  {
    var h' := With(h, c, conn);
    forall d | d in h'.conns ensures ConnLife(h', d) {
      if d in h.conns { assert ConnLife(h, d); }
    }
    assert forall d :: Present(h, d) ==> Present(h', d);
  }

  lemma OwnMoveLives(acls: AclTable, h: Hub, s: Step)
    requires LifeOk(h) && Enabled(h, s)
    requires s.AskJoin? || s.JoinOwn? || s.LeaveOwn? || s.StopReading?
    ensures LifeOk(Next(acls, h, s))
  {
    assert ConnLife(h, s.conn);
    if s.AskJoin? && !Passes(acls, h, h.conns[s.conn], s.room) {
      OfferAllLives(h, {s.conn}, Local("error"));
    } else {
      WithLives(h, s.conn, Next(acls, h, s).conns[s.conn]);
    }
  }

  lemma WriteLives(h: Hub, c: nat, m: Move)
    requires LifeOk(h) && c in h.conns && CanMove(h.conns[c].pipe, m)
    ensures LifeOk(With(h, c, h.conns[c].(pipe := Moved(h.conns[c].pipe, m))))
  {
    var h' := With(h, c, h.conns[c].(pipe := Moved(h.conns[c].pipe, m)));
    forall d | d in h'.conns ensures ConnLife(h', d) {
      assert ConnLife(h, d);
    }
    assert forall d :: Present(h, d) ==> Present(h', d);
  }

  /** Joining and leaving move only present connections about. */
  lemma RoomLives(a: Hub, b: Hub, c: nat)
    requires LifeOk(a) && Present(a, c)
    requires b.conns == a.conns && b.clients == a.clients && b.loop == a.loop && b.crashed == a.crashed
    requires forall i, d :: 0 <= i < |b.sets| && d in b.sets[i].members ==>
                d == c || (i < |a.sets| && d in a.sets[i].members)
    ensures LifeOk(b)
  {
    forall d | d in b.conns ensures ConnLife(b, d) {
      assert ConnLife(a, d);
    }
    assert forall d :: Present(a, d) ==> Present(b, d);
  }

  lemma JoinLives(h: Hub, c: nat)
    requires LifeOk(h) && RoomsOk(h) && c in h.conns && h.conns[c].read.Joining?
    ensures LifeOk(With(JoinRoom(h, h.conns[c].read.room, c), c, h.conns[c].(read := Idle)))
  {
    assert ConnLife(h, c);
    var j := JoinRoom(h, h.conns[c].read.room, c);
    RoomLives(h, j, c);
    WithLives(j, c, h.conns[c].(read := Idle));
  }

  lemma LeaveLives(h: Hub, c: nat)
    requires LifeOk(h) && RoomsOk(h) && c in h.conns && h.conns[c].read.Leaving?
    ensures LifeOk(With(LeaveRoom(h, h.conns[c].read.room, c), c, h.conns[c].(read := Idle)))
  {
    assert ConnLife(h, c);
    var l := LeaveRoom(h, h.conns[c].read.room, c);
    RoomLives(h, l, c);
    WithLives(l, c, h.conns[c].(read := Idle));
  }

  lemma RegisterLives(h: Hub, c: nat)
    requires LifeOk(h) && Sound(h) && Enabled(h, Register(c)) && h.conns[c].user !in h.clients
    ensures LifeOk(RegisterClient(h, c))
  {
    assert ConnLife(h, c);
    var h' := RegisterClient(h, c);
    forall d | d in h'.conns ensures ConnLife(h', d) {
      assert ConnLife(h, d);
    }
    assert forall d :: Present(h, d) ==> Present(h', d);
  }

  /** A connection that ends in order is in no room set afterwards, whatever captured sets exist. */
  lemma UnregisterEmptiesRooms(h: Hub, c: nat)
    requires LifeOk(h) && Sound(h) && c in h.conns && h.conns[c].read.Stopped?
    requires h.conns[c].registered && !h.conns[c].unregistered
    ensures forall r :: c !in Members(UnregisterClient(h, c), r)
    ensures forall i :: 0 <= i < |UnregisterClient(h, c).sets| ==> c !in UnregisterClient(h, c).sets[i].members
  {
    var h' := UnregisterClient(h, c);
    assert ConnLife(h, c) && ConnIndexOk(h, c);
    UnregisterMembers(h, c);
    forall r ensures c !in Members(h', r) {
      assert c in Members(h, r) <==> r in h.conns[c].own;
    }
    forall i | 0 <= i < |h'.sets| ensures c !in h'.sets[i].members {
      assert h'.sets[i].members == {} || h'.sets[i].members == Members(h', h'.sets[i].room);
    }
  }

  lemma UnregisterSets(h: Hub, c: nat)
    requires c in h.conns
    ensures var h' := UnregisterClient(h, c);
            |h'.sets| == |h.sets| && forall i :: 0 <= i < |h.sets| ==> h'.sets[i].members <= h.sets[i].members
  {
  }

  lemma UnregisterAddresses(h: Hub, c: nat)
    requires LifeOk(h) && Sound(h) && Enabled(h, Unregister(c)) && h.conns[c].registered
    ensures AddressesOk(UnregisterClient(h, c))
  {
    var h' := UnregisterClient(h, c);
    assert ConnLife(h, c);
    UnregisterConns(h, c);
    UnregisterSets(h, c);
    UnregisterEmptiesRooms(h, c);
    assert forall d :: Present(h, d) && d != c ==> Present(h', d);
    forall u | u in h'.clients ensures Present(h', h'.clients[u]) {
      assert Present(h, h.clients[u]);
    }
    forall i, d | 0 <= i < |h'.sets| && d in h'.sets[i].members ensures Present(h', d) {
      assert d in h.sets[i].members;
    }
  }

  lemma UnregisterLives(h: Hub, c: nat)
    requires LifeOk(h) && Sound(h) && Enabled(h, Unregister(c)) && h.conns[c].registered
    ensures LifeOk(UnregisterClient(h, c))
  {
    var h' := UnregisterClient(h, c);
    assert ConnLife(h, c);
    UnregisterConns(h, c);
    UnregisterAddresses(h, c);
    ClosedOnce(h, c);
    forall d | d in h'.conns ensures ConnLife(h', d) {
      assert ConnLife(h, d);
    }
  }

  lemma ClosedOnce(h: Hub, c: nat)
    requires c in h.conns && h.conns[c].user in h.clients && !Closed(h.conns[c].pipe)
    ensures UnregisterClient(h, c).conns[c].pipe.closes == 1 && UnregisterClient(h, c).crashed == h.crashed
  {
  }

  lemma StepKeepsLife(acls: AclTable, h: Hub, s: Step)
    requires LifeOk(h) && Sound(h) && Enabled(h, s) && Orderly(h, s)
    ensures LifeOk(Next(acls, h, s))
  {
    if s.Greet? || s.Reply? || s.DeliverRoom? || s.BroadcastAll? || s.PublishRoom? || s.SendToUser? {
      SendingLives(acls, h, s);
    } else if s.AskJoin? || s.JoinOwn? || s.LeaveOwn? || s.StopReading? {
      OwnMoveLives(acls, h, s);
    } else if s.Connect? {
      if Next(acls, h, s) != h { WithLives(h, s.conn, Next(acls, h, s).conns[s.conn]); }
    } else {
      IndexStepKeepsLife(acls, h, s);
    }
  }

  lemma CaptureLives(h: Hub, h': Hub)
    requires LifeOk(h) && h' == h.(captures := h'.captures)
    ensures LifeOk(h')
  {
    forall c | c in h'.conns ensures ConnLife(h', c) { assert ConnLife(h, c); }
    assert forall c :: Present(h, c) ==> Present(h', c);
  }

  lemma IndexStepKeepsLife(acls: AclTable, h: Hub, s: Step)
    requires LifeOk(h) && Sound(h) && Enabled(h, s) && Orderly(h, s)
    requires s.JoinHub? || s.LeaveHub? || s.Register? || s.Unregister? || s.CaptureRoom? || s.WriteMove?
    ensures LifeOk(Next(acls, h, s))
  {
    match s
    case JoinHub(c) => JoinLives(h, c);
    case LeaveHub(c) => LeaveLives(h, c);
    case Register(c) => RegisterLives(h, c);
    case Unregister(c) => UnregisterLives(h, c);
    case WriteMove(c, m) => WriteLives(h, c, m);
    case CaptureRoom(t, room) => CaptureLives(h, Next(acls, h, s));
  }

  lemma {:induction false} OrderlyRunsLive(acls: AclTable, trace: seq<Step>)
    requires Legal(acls, trace) && OrderlyRun(acls, trace)
    ensures LifeOk(Exec(acls, trace))
  {
    if trace != [] {
      var p := trace[..|trace| - 1];
      OrderlyRunsLive(acls, p);
      RunsAreSound(acls, p);
      StepKeepsLife(acls, Exec(acls, p), trace[|trace| - 1]);
    }
  }
}
