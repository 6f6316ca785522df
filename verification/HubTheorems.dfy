/** What the hub promises, as statements about whole runs. */
module HubTheorems {
  import opened SendQueue
  import opened Access
  import opened HubModel
  import opened HubSafety
  import opened HubLife

  // ---- Access ----

  ghost predicate HasClaim(h: Hub, c: nat, r: string)
    requires c in h.conns
  {
    r in h.conns[c].own || h.conns[c].read == Admitted(r) || c in Members(h, r)
  }

  /** Whoever is in a room, or about to be, was entitled to it. */
  ghost predicate AccessOk(acls: AclTable, h: Hub) {
    forall c, r :: c in h.conns && HasClaim(h, c, r) ==> EntitledConn(acls, h.conns[c], r)
  }

  predicate EntitledConn(acls: AclTable, conn: Conn, r: string) {
    Entitled(acls, conn.key, conn.user, conn.claims, r)
  }

  ghost predicate SameIdentity(x: Conn, y: Conn) {
    x.key == y.key && x.user == y.user && x.claims == y.claims
  }

  /** A claim after a step was there before, or the step checked it. */
  ghost predicate Inherits(acls: AclTable, h: Hub, h': Hub) {
    && (forall c :: c in h'.conns && c in h.conns ==> SameIdentity(h.conns[c], h'.conns[c]))
    && (forall c, r :: c in h'.conns && HasClaim(h', c, r) ==>
          (c in h.conns && HasClaim(h, c, r)) || EntitledConn(acls, h'.conns[c], r))
  }

  lemma InheritsKeepsAccess(acls: AclTable, h: Hub, h': Hub)
    requires AccessOk(acls, h) && Inherits(acls, h, h')
    ensures AccessOk(acls, h')
  {
  }

  lemma SendingInherits(acls: AclTable, h: Hub, h': Hub)
    requires SameButPipes(h, h')
    ensures Inherits(acls, h, h')
  {
  }

  /** One connection record changed: its claims were its own before, or checked. */
  lemma WithInherits(acls: AclTable, h: Hub, c: nat, conn: Conn)
    requires c in h.conns ==> SameIdentity(h.conns[c], conn)
    requires c !in h.conns ==> forall r :: c !in Members(h, r)
    requires forall r :: r in conn.own || conn.read == Admitted(r) ==>
               (c in h.conns && HasClaim(h, c, r)) || EntitledConn(acls, conn, r)
    ensures Inherits(acls, h, With(h, c, conn))
  {
    var h' := With(h, c, conn);
    SameMembers(h, h');
    forall d, r | d in h'.conns && HasClaim(h', d, r)
      ensures (d in h.conns && HasClaim(h, d, r)) || EntitledConn(acls, h'.conns[d], r)
    {
      if d != c { assert HasClaim(h, d, r); }
    }
  }

  lemma OwnMoveInherits(acls: AclTable, h: Hub, s: Step)
    requires Sound(h) && Enabled(h, s)
    requires s.AskJoin? || s.JoinOwn? || s.LeaveOwn? || s.StopReading? || s.WriteMove?
    ensures Inherits(acls, h, Next(acls, h, s))
  {
    var h' := Next(acls, h, s);
    if s.AskJoin? && !Passes(acls, h, h.conns[s.conn], s.room) {
      OfferAllEffect(h, {s.conn}, Local("error"));
      SendingInherits(acls, h, h');
    } else {
      WithInherits(acls, h, s.conn, h'.conns[s.conn]);
    }
  }

  lemma ConnectInherits(acls: AclTable, h: Hub, s: Step)
    requires Sound(h) && Enabled(h, s) && s.Connect?
    ensures Inherits(acls, h, Next(acls, h, s))
  {
    var h' := Next(acls, h, s);
    if h' != h {
      NewcomerIsNowhere(h, s.conn);
      WithInherits(acls, h, s.conn, h'.conns[s.conn]);
    }
  }

  /** Room sets changed; whoever is in one afterwards had a claim to that room. */
  lemma RoomStepAccess(acls: AclTable, h: Hub, j: Hub, c: nat, conn: Conn)
    requires AccessOk(acls, h) && c in h.conns && j.conns == h.conns
    requires forall d, r :: d in h.conns && d in Members(j, r) ==> HasClaim(h, d, r)
    requires SameIdentity(h.conns[c], conn) && conn.own == h.conns[c].own && !conn.read.Admitted?
    ensures AccessOk(acls, With(j, c, conn))
  {
    forall d, r | d in j.conns && HasClaim(j, d, r) ensures HasClaim(h, d, r) {
    }
    InheritsKeepsAccess(acls, h, j);
    WithInherits(acls, j, c, conn);
    InheritsKeepsAccess(acls, j, With(j, c, conn));
  }

  lemma JoinHubAccess(acls: AclTable, h: Hub, c: nat)
    requires Sound(h) && AccessOk(acls, h) && Enabled(h, JoinHub(c))
    ensures AccessOk(acls, Next(acls, h, JoinHub(c)))
  {
    var room := h.conns[c].read.room;
    JoinMembers(h, room, c);
    assert ConnIndexOk(h, c);
    RoomStepAccess(acls, h, JoinRoom(h, room, c), c, h.conns[c].(read := Idle));
  }

  lemma LeaveHubAccess(acls: AclTable, h: Hub, c: nat)
    requires Sound(h) && AccessOk(acls, h) && Enabled(h, LeaveHub(c))
    ensures AccessOk(acls, Next(acls, h, LeaveHub(c)))
  {
    var room := h.conns[c].read.room;
    LeaveMembers(h, room, c);
    RoomStepAccess(acls, h, LeaveRoom(h, room, c), c, h.conns[c].(read := Idle));
  }

  lemma UnregisterInherits(acls: AclTable, h: Hub, c: nat)
    requires RoomsOk(h) && c in h.conns
    ensures Inherits(acls, h, UnregisterClient(h, c))
  {
    var h' := UnregisterClient(h, c);
    UnregisterMembers(h, c);
    UnregisterConns(h, c);
    forall d, r | d in h'.conns && HasClaim(h', d, r) ensures HasClaim(h, d, r) {
      assert Members(h', r) <= Members(h, r);
    }
  }

  lemma RegisterInherits(acls: AclTable, h: Hub, c: nat)
    requires c in h.conns
    ensures Inherits(acls, h, RegisterClient(h, c))
  {
    var h' := RegisterClient(h, c);
    var k := Kicked(h, h.conns[c].user);
    KickEffect(h, c);
    SendingInherits(acls, h, k);
    SameMembers(k, h');
    forall d, r | d in h'.conns && HasClaim(h', d, r) ensures HasClaim(h, d, r) {
      assert SameButPipe(h.conns[d], k.conns[d]);
      assert HasClaim(k, d, r);
    }
  }

  lemma StepKeepsAccess(acls: AclTable, h: Hub, s: Step)
    requires Sound(h) && AccessOk(acls, h) && Enabled(h, s)
    ensures AccessOk(acls, Next(acls, h, s))
  {
    var h' := Next(acls, h, s);
    if s.JoinHub? {
      JoinHubAccess(acls, h, s.conn);
    } else if s.LeaveHub? {
      LeaveHubAccess(acls, h, s.conn);
    } else {
      if s.Connect? {
        ConnectInherits(acls, h, s);
      } else if s.AskJoin? || s.JoinOwn? || s.LeaveOwn? || s.StopReading? || s.WriteMove? {
        OwnMoveInherits(acls, h, s);
      } else if s.Unregister? {
        UnregisterInherits(acls, h, s.conn);
      } else if s.Register? {
        RegisterInherits(acls, h, s.conn);
      } else if s.CaptureRoom? {
        SameMembers(h, h');
      } else {
        SendingEffect(acls, h, s);
        SendingInherits(acls, h, h');
      }
      InheritsKeepsAccess(acls, h, h');
    }
  }

  lemma {:induction false} RunsKeepAccess(acls: AclTable, trace: seq<Step>)
    requires Legal(acls, trace)
    ensures AccessOk(acls, Exec(acls, trace))
  {
    if trace != [] {
      var p := trace[..|trace| - 1];
      RunsKeepAccess(acls, p);
      RunsAreSound(acls, p);
      StepKeepsAccess(acls, Exec(acls, p), trace[|trace| - 1]);
    }
  }

  // ---- Queues ----

  ghost predicate PipeOk(p: Pipe) { Fifo(p) && Flushed(p) }

  ghost predicate PipesOk(h: Hub) {
    forall c :: c in h.conns ==> PipeOk(h.conns[c].pipe)
  }

  lemma OfferPipes(h: Hub, targets: set<nat>, m: Msg)
    requires PipesOk(h)
    ensures PipesOk(OfferAll(h, targets, m))
  {
    var h' := OfferAll(h, targets, m);
    forall c | c in h'.conns ensures PipeOk(h'.conns[c].pipe) {
      if c in targets && !Closed(h.conns[c].pipe) {
        ActKeepsQueue(h.conns[c].pipe, Send(m));
      }
    }
  }

  lemma ClosePipes(h: Hub, c: nat)
    requires PipesOk(h)
    ensures PipesOk(CloseSend(h, c))
  {
  }

  lemma RegisterPipes(h: Hub, c: nat)
    requires PipesOk(h) && c in h.conns
    ensures PipesOk(RegisterClient(h, c))
  {
    var u := h.conns[c].user;
    if u in h.clients {
      var m := Local("connected from another location");
      OfferPipes(h, {h.clients[u]}, m);
      ClosePipes(OfferAll(h, {h.clients[u]}, m), h.clients[u]);
    }
  }

  lemma UnregisterPipes(h: Hub, c: nat)
    requires PipesOk(h) && c in h.conns
    ensures PipesOk(UnregisterClient(h, c))
  {
  }

  /** Life and queue of a connection, apart from what its read loop does. */
  ghost predicate SameLife(x: Conn, y: Conn) {
    y.user == x.user && y.pipe == x.pipe && y.registered == x.registered && y.unregistered == x.unregistered
  }

  lemma RoomStepLife(acls: AclTable, h: Hub, s: Step)
    requires Enabled(h, s) && (s.JoinHub? || s.LeaveHub? || s.CaptureRoom?)
    ensures var h' := Next(acls, h, s);
            h'.conns.Keys == h.conns.Keys && forall c :: c in h.conns ==> SameLife(h.conns[c], h'.conns[c])
  {
    if s.JoinHub? {
      assert JoinRoom(h, h.conns[s.conn].read.room, s.conn).conns == h.conns;
    }
  }

  lemma OwnStepLife(acls: AclTable, h: Hub, s: Step)
    requires Enabled(h, s) && (s.Connect? || s.JoinOwn? || s.LeaveOwn? || s.StopReading?)
    ensures var h' := Next(acls, h, s);
            forall c :: c in h'.conns ==>
                  if c in h.conns then SameLife(h.conns[c], h'.conns[c]) else h'.conns[c].pipe == NewPipe
  {
  }

  lemma QuietStepPipes(acls: AclTable, h: Hub, s: Step)
    requires Enabled(h, s)
    requires s.Connect? || s.JoinHub? || s.JoinOwn? || s.LeaveOwn? || s.LeaveHub? || s.CaptureRoom? || s.StopReading?
    ensures var h' := Next(acls, h, s);
            forall c :: c in h'.conns ==>
                  if c in h.conns then SameLife(h.conns[c], h'.conns[c]) else h'.conns[c].pipe == NewPipe
  {
    if s.JoinHub? || s.LeaveHub? || s.CaptureRoom? {
      RoomStepLife(acls, h, s);
    } else {
      OwnStepLife(acls, h, s);
    }
  }

  lemma WritePipes(h: Hub, c: nat, m: Move)
    requires PipesOk(h) && c in h.conns && CanMove(h.conns[c].pipe, m)
    ensures PipesOk(With(h, c, h.conns[c].(pipe := Moved(h.conns[c].pipe, m))))
  {
    ActKeepsQueue(h.conns[c].pipe, Write(m));
  }

  lemma AskPipes(acls: AclTable, h: Hub, c: nat, room: string)
    requires PipesOk(h) && Enabled(h, AskJoin(c, room))
    ensures PipesOk(Next(acls, h, AskJoin(c, room)))
  {
    OfferPipes(h, {c}, Local("error"));
  }

  lemma SendPipes(acls: AclTable, h: Hub, s: Step)
    requires PipesOk(h) && Enabled(h, s)
    requires s.Greet? || s.Reply? || s.DeliverRoom? || s.BroadcastAll? || s.PublishRoom? || s.SendToUser?
    ensures PipesOk(Next(acls, h, s))
  {
    OfferPipes(h, Targets(h, s), MessageOf(s));
    assert Next(acls, h, s).conns == OfferAll(h, Targets(h, s), MessageOf(s)).conns;
  }

  lemma QuietPipes(acls: AclTable, h: Hub, s: Step)
    requires PipesOk(h) && Enabled(h, s)
    requires s.Connect? || s.JoinHub? || s.JoinOwn? || s.LeaveOwn? || s.LeaveHub? || s.CaptureRoom? || s.StopReading?
    ensures PipesOk(Next(acls, h, s))
  {
    QuietStepPipes(acls, h, s);
    assert PipeOk(NewPipe);
  }

  lemma StepKeepsPipes(acls: AclTable, h: Hub, s: Step)
    requires PipesOk(h) && Enabled(h, s)
    ensures PipesOk(Next(acls, h, s))
  {
    match s
    case Register(c) => RegisterPipes(h, c);
    case Unregister(c) => UnregisterPipes(h, c);
    case WriteMove(c, m) => WritePipes(h, c, m);
    case AskJoin(c, room) => AskPipes(acls, h, c, room);
    case _ =>
      if s.Greet? || s.Reply? || s.DeliverRoom? || s.BroadcastAll? || s.PublishRoom? || s.SendToUser? {
        SendPipes(acls, h, s);
      } else {
        QuietPipes(acls, h, s);
      }
  }

  lemma {:induction false} RunsKeepPipes(acls: AclTable, trace: seq<Step>)
    requires Legal(acls, trace)
    ensures PipesOk(Exec(acls, trace))
  {
    if trace != [] {
      var p := trace[..|trace| - 1];
      RunsKeepPipes(acls, p);
      StepKeepsPipes(acls, Exec(acls, p), trace[|trace| - 1]);
    }
  }

  // ---- The promises ----

  /** Under the run hypothesis: no send on a closed channel, no second close, and each channel is
      closed exactly once, by its own connection's unregister. */
  lemma {:induction false} NoChannelMisuse(acls: AclTable, trace: seq<Step>)
    requires Legal(acls, trace) && OrderlyRun(acls, trace)
    ensures
      var h := Exec(acls, trace);
      && !h.crashed
      && forall c :: c in h.conns ==> h.conns[c].pipe.closes == if h.conns[c].unregistered then 1 else 0
  {
    OrderlyRunsLive(acls, trace);
    var h := Exec(acls, trace);
    forall c | c in h.conns ensures h.conns[c].pipe.closes == if h.conns[c].unregistered then 1 else 0 {
      assert ConnLife(h, c);
    }
  }

  /** In every run, orderly or not: between messages, the hub's index and the client's own room
      set say the same. */
  lemma {:induction false} IndexAgrees(acls: AclTable, trace: seq<Step>, c: nat, room: string)
    requires Legal(acls, trace) && c in Exec(acls, trace).conns
    requires !Exec(acls, trace).conns[c].unregistered && Exec(acls, trace).conns[c].read.Idle?
    ensures c in Members(Exec(acls, trace), room) <==> room in Exec(acls, trace).conns[c].own
  {
    RunsAreSound(acls, trace);
    assert ConnIndexOk(Exec(acls, trace), c);
  }

  /** So the cleanup, which walks only the client's own set, leaves it in no room and in no set
      that any broadcast may still hold. */
  lemma {:induction false} CleanupIsComplete(acls: AclTable, trace: seq<Step>, c: nat)
    requires Legal(acls, trace) && OrderlyRun(acls, trace)
    requires c in Exec(acls, trace).conns && Exec(acls, trace).conns[c].unregistered
    ensures forall room :: c !in Members(Exec(acls, trace), room)
    ensures forall cell: nat :: c !in Cell(Exec(acls, trace), cell)
  {
    OrderlyRunsLive(acls, trace);
    var h := Exec(acls, trace);
    assert !Present(h, c);
  }

  /** In every run: the set a room broadcast captured under its first lock is still the room's set
      under its second, or it is empty; and no listed room is ever empty. */
  lemma {:induction false} CapturedSetIsCurrentOrEmpty(acls: AclTable, trace: seq<Step>, job: nat)
    requires Legal(acls, trace) && job in Exec(acls, trace).captures
    ensures
      var h := Exec(acls, trace);
      var cap := h.captures[job];
      && ((cap.room in h.rooms && h.rooms[cap.room] == cap.cell) || Cell(h, cap.cell) == {})
      && Cell(h, cap.cell) <= Members(h, cap.room)
      && forall r :: r in h.rooms ==> Members(h, r) != {}
  {
    RunsAreSound(acls, trace);
  }

  /** In every run with a fixed ACL table: each room member satisfies the ACL for its key and user
      and, if it came with a token, the token grants it read access, whichever way it joined. */
  lemma {:induction false} MembersAreEntitled(acls: AclTable, trace: seq<Step>, c: nat, room: string)
    requires Legal(acls, trace)
    ensures
      var h := Exec(acls, trace);
      c in Members(h, room) ==>
        && c in h.conns
        && MayJoin(acls, room, h.conns[c].key, h.conns[c].user)
        && (h.conns[c].claims.Some? ==> HasChannelAccess(h.conns[c].claims, room, "read"))
  {
    RunsAreSound(acls, trace);
    RunsKeepAccess(acls, trace);
    var h := Exec(acls, trace);
    if c in Members(h, room) {
      assert c in h.conns && HasClaim(h, c, room);
    }
  }

  /** In every run, for every client: the frames on its wire are the accepted offers in order. */
  lemma {:induction false} ClientsReadInOrder(acls: AclTable, trace: seq<Step>, c: nat)
    requires Legal(acls, trace) && c in Exec(acls, trace).conns
    ensures
      var p := Exec(acls, trace).conns[c].pipe;
      && p.written + p.failed + p.queue == Accepted(p.offers)
      && (p.writer == Returned(true) ==> p.written == Accepted(p.offers))
  {
    RunsKeepPipes(acls, trace);
  }
}
