/** What goes wrong in the hub without the run hypothesis, and exactly when. */
module HubFailures {
  import opened SendQueue
  import opened Access
  import opened HubModel
  import opened HubSafety
  import opened HubLife
  import opened HubTheorems

  // ---- A user id that is held ----

  lemma TakeoverState(acls: AclTable, h: Hub, c: nat)
    requires LifeOk(h) && Sound(h) && Enabled(h, Register(c)) && h.conns[c].user in h.clients
    ensures
      var h' := Next(acls, h, Register(c));
      var e := h.clients[h.conns[c].user];
      && !h'.crashed && h'.clients == h.clients[h.conns[c].user := c] && h'.loop == Greeting(c)
      && e != c && e in h.conns && h.conns[e].user == h.conns[c].user
      && e in h'.conns && Closed(h'.conns[e].pipe) && SameButPipe(h.conns[e], h'.conns[e])
      && c in h'.conns && h'.conns[c].pipe == h.conns[c].pipe
  {
    var e := h.clients[h.conns[c].user];
    assert Present(h, e) && ConnLife(h, e) && ConnLife(h, c);
    PresentIsOpen(h, {e});
  }

  lemma GreetState(acls: AclTable, h: Hub, c: nat)
    requires !h.crashed && h.loop == Greeting(c) && c in h.conns
    ensures
      var h' := Next(acls, h, Greet);
      && (h'.crashed <==> Closed(h.conns[c].pipe)) && h'.loop.Ready?
      && h'.clients == h.clients && h'.rooms == h.rooms && h'.sets == h.sets && h'.conns.Keys == h.conns.Keys
      && (forall d :: d in h.conns && d != c ==> h'.conns[d] == h.conns[d])
      && SameButPipe(h.conns[c], h'.conns[c])
      && (Closed(h'.conns[c].pipe) <==> Closed(h.conns[c].pipe))
  {
    assert c in Targets(h, Greet);
  }

  /** `t` goes on from `start` in an orderly way: no further takeover, no early unregister. */
  ghost predicate Continues(acls: AclTable, start: seq<Step>, t: seq<Step>)
    decreases |t|
  {
    && start <= t && Legal(acls, t)
    && (|t| > |start| ==>
          Continues(acls, start, t[..|t| - 1]) && Orderly(Exec(acls, t[..|t| - 1]), t[|t| - 1]))
  }

  lemma {:induction false} ContinuesOrderly(acls: AclTable, start: seq<Step>, t: seq<Step>)
    requires Legal(acls, start) && OrderlyRun(acls, start) && Continues(acls, start, t)
    ensures OrderlyRun(acls, t)
    decreases |t|
  {
    if |t| > |start| {
      ContinuesOrderly(acls, start, t[..|t| - 1]);
    } else {
      assert t == start;
    }
  }

  lemma {:induction false} ContinuesTransitive(acls: AclTable, a: seq<Step>, b: seq<Step>, t: seq<Step>)
    requires Continues(acls, a, b) && Continues(acls, b, t)
    ensures Continues(acls, a, t)
    decreases |t|
  {
    if |t| > |b| {
      ContinuesTransitive(acls, a, b, t[..|t| - 1]);
    } else {
      assert t == b;
    }
  }

  lemma {:induction false} ContinueBy(acls: AclTable, trace: seq<Step>, s: Step)
    requires Legal(acls, trace) && Enabled(Exec(acls, trace), s) && Orderly(Exec(acls, trace), s)
    ensures Continues(acls, trace, trace + [s]) && Exec(acls, trace + [s]) == Next(acls, Exec(acls, trace), s)
  {
    Extend(acls, trace, s);
    assert (trace + [s])[..|trace|] == trace;
    assert Continues(acls, trace, trace);
  }

  /** A connection whose queue was closed under it, with its user id listed for somebody else. */
  ghost predicate Doomed(h: Hub, e: nat) {
    && !h.crashed && h.loop.Ready? && e in h.conns && h.conns[e].registered && !h.conns[e].unregistered
    && Closed(h.conns[e].pipe) && h.conns[e].user in h.clients
  }

  /** What the read loop of a connection does next on its way out. */
  function WayOut(read: ReadPc, e: nat): Step {
    match read
    case Admitted(_) => JoinOwn(e)
    case Joining(_) => JoinHub(e)
    case Leaving(_) => LeaveHub(e)
    case Idle => StopReading(e)
    case Stopped => Unregister(e)
  }

  function StepsOut(read: ReadPc): nat {
    match read
    case Admitted(_) => 4
    case Joining(_) => 3
    case Leaving(_) => 3
    case Idle => 2
    case Stopped => 1
  }

  lemma DoomedStep(acls: AclTable, h: Hub, e: nat)
    requires Doomed(h, e)
    ensures
      var s := WayOut(h.conns[e].read, e);
      && Enabled(h, s) && Orderly(h, s)
      && var h' := Next(acls, h, s);
         if h.conns[e].read.Stopped? then h'.crashed
         else Doomed(h', e) && StepsOut(h'.conns[e].read) < StepsOut(h.conns[e].read)
  {
  }

  /** Whatever it was doing, it finishes that, leaves its loop, and its unregister closes the
      queue a second time. */
  lemma {:induction false} DoomedCrashes(acls: AclTable, trace: seq<Step>, e: nat)
    requires Legal(acls, trace) && Doomed(Exec(acls, trace), e)
    ensures exists t :: Continues(acls, trace, t) && Exec(acls, t).crashed
    decreases StepsOut(Exec(acls, trace).conns[e].read)
  {
    var h := Exec(acls, trace);
    var s := WayOut(h.conns[e].read, e);
    DoomedStep(acls, h, e);
    ContinueBy(acls, trace, s);
    if !h.conns[e].read.Stopped? {
      DoomedCrashes(acls, trace + [s], e);
      var t :| Continues(acls, trace + [s], t) && Exec(acls, t).crashed;
      ContinuesTransitive(acls, trace, trace + [s], t);
    }
  }

  lemma {:induction false} HeldIdCrashes(acls: AclTable, trace: seq<Step>, c: nat)
    requires Legal(acls, trace) && OrderlyRun(acls, trace) && Enabled(Exec(acls, trace), Register(c))
    requires Exec(acls, trace).conns[c].user in Exec(acls, trace).clients
    ensures Legal(acls, trace + [Register(c)])
    ensures exists t :: Continues(acls, trace + [Register(c)], t) && Exec(acls, t).crashed
  {
    OrderlyRunsLive(acls, trace);
    RunsAreSound(acls, trace);
    var h := Exec(acls, trace);
    var e := h.clients[h.conns[c].user];
    assert ConnLife(h, c) && Present(h, e) && ConnLife(h, e);
    TakeoverState(acls, h, c);
    Extend(acls, trace, Register(c));
    var t1 := trace + [Register(c)];
    GreetState(acls, Exec(acls, t1), c);
    ContinueBy(acls, t1, Greet);
    DoomedCrashes(acls, t1 + [Greet], e);
    var t :| Continues(acls, t1 + [Greet], t) && Exec(acls, t).crashed;
    ContinuesTransitive(acls, t1, t1 + [Greet], t);
  }

  /** Registering a connection is safe exactly when its user id is free.  From every orderly run:
      if the id is held, whatever the holder is doing, the run can go on without any further
      takeover to a crash; if it is free, no orderly continuation ever crashes. */
  lemma {:induction false} TakeoverCrashes(acls: AclTable, trace: seq<Step>, c: nat)
    requires Legal(acls, trace) && OrderlyRun(acls, trace) && Enabled(Exec(acls, trace), Register(c))
    ensures
      var h := Exec(acls, trace);
      (exists t :: Continues(acls, trace + [Register(c)], t) && Exec(acls, t).crashed)
      <==> h.conns[c].user in h.clients
  {
    var h := Exec(acls, trace);
    if h.conns[c].user in h.clients {
      HeldIdCrashes(acls, trace, c);
    } else {
      var t1 := trace + [Register(c)];
      Extend(acls, trace, Register(c));
      assert t1[..|trace|] == trace;
      forall t | Continues(acls, t1, t) ensures !Exec(acls, t).crashed {
        ContinuesOrderly(acls, t1, t);
        NoChannelMisuse(acls, t);
      }
    }
  }

  /** A direct message sent after the lookup lock was released hits a closed channel exactly when
      its target has been unregistered in between. */
  lemma {:induction false} LateDirectSend(acls: AclTable, trace: seq<Step>, c: nat, m: Msg)
    requires Legal(acls, trace) && OrderlyRun(acls, trace) && c in Exec(acls, trace).conns
    ensures OfferAll(Exec(acls, trace), {c}, m).crashed <==> Exec(acls, trace).conns[c].unregistered
  {
    OrderlyRunsLive(acls, trace);
    var h := Exec(acls, trace);
    assert ConnLife(h, c);
    if h.conns[c].unregistered {
      assert c in {c} && Closed(h.conns[c].pipe);
    }
  }

  // ---- Unregistered before registered ----

  /** Only a connection the hub has heard of has had its queue closed. */
  ghost predicate ClosedWereKnown(h: Hub) {
    forall c :: c in h.conns && Closed(h.conns[c].pipe) ==> h.conns[c].registered || h.conns[c].unregistered
  }

  lemma RegisterKeepsKnown(h: Hub, c: nat)
    requires ClosedWereKnown(h) && ClientsOk(h) && c in h.conns
    ensures ClosedWereKnown(RegisterClient(h, c))
  {
  }

  lemma OfferKeepsKnown(h: Hub, targets: set<nat>, m: Msg)
    requires ClosedWereKnown(h)
    ensures ClosedWereKnown(OfferAll(h, targets, m))
  {
  }

  lemma SendKeepsKnown(acls: AclTable, h: Hub, s: Step)
    requires ClosedWereKnown(h) && Enabled(h, s)
    requires s.Greet? || s.Reply? || s.DeliverRoom? || s.BroadcastAll? || s.PublishRoom? || s.SendToUser?
    ensures ClosedWereKnown(Next(acls, h, s))
  {
    OfferKeepsKnown(h, Targets(h, s), MessageOf(s));
    assert Next(acls, h, s).conns == OfferAll(h, Targets(h, s), MessageOf(s)).conns;
  }

  lemma OwnKeepsKnown(acls: AclTable, h: Hub, s: Step)
    requires ClosedWereKnown(h) && Enabled(h, s) && (s.AskJoin? || s.Unregister? || s.WriteMove?)
    ensures ClosedWereKnown(Next(acls, h, s))
  {
    if s.Unregister? {
      UnregisterConns(h, s.conn);
    } else if s.AskJoin? {
      OfferKeepsKnown(h, {s.conn}, Local("error"));
    }
  }

  lemma StepKeepsKnown(acls: AclTable, h: Hub, s: Step)
    requires ClosedWereKnown(h) && Sound(h) && Enabled(h, s)
    ensures ClosedWereKnown(Next(acls, h, s))
  {
    if s.Register? {
      RegisterKeepsKnown(h, s.conn);
    } else if s.Greet? || s.Reply? || s.DeliverRoom? || s.BroadcastAll? || s.PublishRoom? || s.SendToUser? {
      SendKeepsKnown(acls, h, s);
    } else if s.AskJoin? || s.Unregister? || s.WriteMove? {
      OwnKeepsKnown(acls, h, s);
    } else {
      QuietStepPipes(acls, h, s);
    }
  }

  lemma {:induction false} RunsKeepKnown(acls: AclTable, trace: seq<Step>)
    requires Legal(acls, trace)
    ensures ClosedWereKnown(Exec(acls, trace))
  {
    if trace != [] {
      var p := trace[..|trace| - 1];
      RunsKeepKnown(acls, p);
      RunsAreSound(acls, p);
      StepKeepsKnown(acls, Exec(acls, p), trace[|trace| - 1]);
    }
  }

  ghost predicate SameMemberships(h: Hub, h': Hub) {
    forall r :: Members(h', r) == Members(h, r)
  }

  /** After the early unregister. */
  ghost predicate ThrownOut(h: Hub, u: Hub, c: nat)
    requires c in h.conns
  {
    var held := h.conns[c].user in h.clients;
    && !u.crashed && u.loop.Ready? && c in u.conns && u.conns[c].user == h.conns[c].user
    && !u.conns[c].registered && u.conns[c].unregistered
    && (Closed(u.conns[c].pipe) <==> held)
    && u.clients == h.clients - {h.conns[c].user}
    && (!held ==> SameMemberships(h, u))
  }

  lemma EarlyUnregisterState(h: Hub, c: nat)
    requires ClosedWereKnown(h) && Enabled(h, Unregister(c)) && !h.conns[c].registered
    ensures ThrownOut(h, UnregisterClient(h, c), c)
  {
    UnregisterConns(h, c);
    if h.conns[c].user !in h.clients {
      SameMembers(h, UnregisterClient(h, c));
    }
  }

  lemma LateRegisterState(acls: AclTable, h: Hub, c: nat)
    requires Enabled(h, Register(c)) && h.conns[c].user !in h.clients
    ensures
      var h' := Next(acls, h, Register(c));
      && !h'.crashed && h'.loop == Greeting(c) && c in h'.conns && SameMemberships(h, h')
      && h'.conns[c].pipe == h.conns[c].pipe && h'.conns[c].unregistered == h.conns[c].unregistered
      && h'.conns[c].registered && h'.conns[c].user == h.conns[c].user
      && h'.clients == h.clients[h.conns[c].user := c]
  {
  }

  /** How it ends for a connection unregistered before it was registered. */
  ghost predicate EarlyOutcome(h: Hub, h': Hub, c: nat)
    requires c in h.conns
  {
    var held := h.conns[c].user in h.clients;
    && (h'.crashed <==> held)
    && c in h'.conns && h'.conns[c].unregistered && (Closed(h'.conns[c].pipe) <==> held)
    && h'.clients == h.clients[h.conns[c].user := c]
    && (!held ==> SameMemberships(h, h') && Leaked(h', c, h.conns[c].user))
  }

  /** Register and greeting after that. */
  lemma LateGreetingState(acls: AclTable, h: Hub, u: Hub, c: nat)
    requires c in h.conns && ThrownOut(h, u, c)
    ensures
      && Enabled(u, Register(c))
      && var r := Next(acls, u, Register(c));
         Enabled(r, Greet) && EarlyOutcome(h, Next(acls, r, Greet), c)
  {
    LateRegisterState(acls, u, c);
    var r := Next(acls, u, Register(c));
    GreetState(acls, r, c);
    SameMembers(r, Next(acls, r, Greet));
    assert u.clients[h.conns[c].user := c] == h.clients[h.conns[c].user := c];
  }

  /** The other half of the hypothesis, in every run: a connection whose read loop ends before the
      hub has registered it is unregistered first and registered afterwards.  If its user id was
      held, the first closes its own queue and throws the holder out of the client map, and the
      greeting after the second is a send on a closed channel.  If the id was free, the first does
      nothing and the second registers it: it holds the id, its queue is open and it has its rooms
      (`LeakLasts` says for how long). */
  lemma {:induction false} EarlyUnregister(acls: AclTable, trace: seq<Step>, c: nat)
    requires Legal(acls, trace) && Enabled(Exec(acls, trace), Unregister(c)) && !Exec(acls, trace).conns[c].registered
    ensures
      var t := trace + [Unregister(c)] + [Register(c)] + [Greet];
      Legal(acls, t) && EarlyOutcome(Exec(acls, trace), Exec(acls, t), c)
  {
    RunsKeepKnown(acls, trace);
    EarlyUnregisterState(Exec(acls, trace), c);
    Extend(acls, trace, Unregister(c));
    var t1 := trace + [Unregister(c)];
    LateGreetingState(acls, Exec(acls, trace), Exec(acls, t1), c);
    Extend(acls, t1, Register(c));
    Extend(acls, t1 + [Register(c)], Greet);
  }

  /** Registered and already unregistered: nothing will ever clean up after this connection. */
  ghost predicate Leaked(h: Hub, c: nat, user: string) {
    && c in h.conns && h.conns[c].registered && h.conns[c].unregistered && !Closed(h.conns[c].pipe)
    && h.conns[c].user == user && user in h.clients && h.clients[user] == c
  }

  /** The step registers or unregisters a connection of this user. */
  predicate ConcernsUser(h: Hub, s: Step, user: string) {
    (s.Register? || s.Unregister?) && s.conn in h.conns && h.conns[s.conn].user == user
  }

  lemma OfferKeepsLeak(h: Hub, targets: set<nat>, m: Msg, c: nat, user: string)
    requires Leaked(h, c, user)
    ensures Leaked(OfferAll(h, targets, m), c, user)
  {
  }

  lemma RegisterKeepsLeak(h: Hub, d: nat, c: nat, user: string)
    requires ClientsOk(h) && Leaked(h, c, user) && d in h.conns && h.conns[d].user != user
    ensures Leaked(RegisterClient(h, d), c, user)
  {
  }

  lemma SendKeepsLeak(acls: AclTable, h: Hub, s: Step, c: nat, user: string)
    requires Leaked(h, c, user) && Enabled(h, s)
    requires s.Greet? || s.Reply? || s.DeliverRoom? || s.BroadcastAll? || s.PublishRoom? || s.SendToUser?
    ensures Leaked(Next(acls, h, s), c, user)
  {
    OfferKeepsLeak(h, Targets(h, s), MessageOf(s), c, user);
    assert Next(acls, h, s).conns == OfferAll(h, Targets(h, s), MessageOf(s)).conns;
  }

  lemma OwnKeepsLeak(acls: AclTable, h: Hub, s: Step, c: nat, user: string)
    requires Leaked(h, c, user) && Enabled(h, s) && (s.AskJoin? || s.WriteMove?)
    ensures Leaked(Next(acls, h, s), c, user)
  {
    if s.AskJoin? {
      OfferKeepsLeak(h, {s.conn}, Local("error"), c, user);
    }
  }

  lemma QuietKeepsLeak(acls: AclTable, h: Hub, s: Step, c: nat, user: string)
    requires Leaked(h, c, user) && Enabled(h, s)
    requires s.Connect? || s.JoinHub? || s.JoinOwn? || s.LeaveOwn? || s.LeaveHub? || s.CaptureRoom? || s.StopReading?
    ensures Leaked(Next(acls, h, s), c, user)
  {
    QuietStepPipes(acls, h, s);
    QuietKeepsClients(acls, h, s);
  }

  lemma QuietKeepsClients(acls: AclTable, h: Hub, s: Step)
    requires Enabled(h, s)
    requires s.Connect? || s.JoinHub? || s.JoinOwn? || s.LeaveOwn? || s.LeaveHub? || s.CaptureRoom? || s.StopReading?
    ensures Next(acls, h, s).clients == h.clients && h.conns.Keys <= Next(acls, h, s).conns.Keys
  {
    if s.JoinHub? {
      assert JoinRoom(h, h.conns[s.conn].read.room, s.conn).conns == h.conns;
    }
  }

  lemma StepKeepsLeak(acls: AclTable, h: Hub, s: Step, c: nat, user: string)
    requires Sound(h) && Leaked(h, c, user) && Enabled(h, s) && !ConcernsUser(h, s, user)
    ensures Leaked(Next(acls, h, s), c, user)
  {
    if s.Register? {
      RegisterKeepsLeak(h, s.conn, c, user);
    } else if s.Unregister? {
      UnregisterConns(h, s.conn);
    } else if s.Greet? || s.Reply? || s.DeliverRoom? || s.BroadcastAll? || s.PublishRoom? || s.SendToUser? {
      SendKeepsLeak(acls, h, s, c, user);
    } else if s.AskJoin? || s.WriteMove? {
      OwnKeepsLeak(acls, h, s, c, user);
    } else {
      QuietKeepsLeak(acls, h, s, c, user);
    }
  }

  /** `t` goes on from `start` without registering or unregistering any connection of the user. */
  ghost predicate LeavesAlone(acls: AclTable, start: seq<Step>, t: seq<Step>, user: string)
    decreases |t|
  {
    && start <= t && Legal(acls, t)
    && (|t| > |start| ==>
          LeavesAlone(acls, start, t[..|t| - 1], user)
          && !ConcernsUser(Exec(acls, t[..|t| - 1]), t[|t| - 1], user))
  }

  /** Such a connection keeps its user id and its open queue in every continuation, until another
      connection of the same user is registered or unregistered. */
  lemma {:induction false} LeakLasts(acls: AclTable, start: seq<Step>, t: seq<Step>, c: nat, user: string)
    requires Legal(acls, start) && Leaked(Exec(acls, start), c, user)
    requires LeavesAlone(acls, start, t, user)
    ensures Leaked(Exec(acls, t), c, user)
    decreases |t|
  {
    if |t| > |start| {
      var p := t[..|t| - 1];
      LeakLasts(acls, start, p, c, user);
      RunsAreSound(acls, p);
      StepKeepsLeak(acls, Exec(acls, p), t[|t| - 1], c, user);
    } else {
      assert t == start;
    }
  }
}
