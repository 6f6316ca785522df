/** Room capacity: how far the member limit of a room can be overrun. */
module HubCapacity {
  import opened Sets
  import opened SendQueue
  import opened Access
  import opened HubModel
  import opened HubSafety

  /** Connections past the count check of `room` and not yet in it. */
  function InFlight(h: Hub, room: string): set<nat> {
    set c | c in h.conns && (h.conns[c].read == Admitted(room) || h.conns[c].read == Joining(room))
  }

  /** Steps that neither admit to `room` nor enter it can only shrink both counts. */
  lemma OtherStepsShrink(acls: AclTable, h: Hub, s: Step, room: string)
    requires Sound(h) && Enabled(h, s)
    requires s.Connect? ==> s.channel != room
    requires s.AskJoin? ==> s.room != room
    requires s.JoinHub? ==> h.conns[s.conn].read.room != room
    ensures Members(Next(acls, h, s), room) <= Members(h, room)
    ensures InFlight(Next(acls, h, s), room) <= InFlight(h, room)
  {
    if s.Greet? || s.Reply? || s.DeliverRoom? || s.BroadcastAll? || s.PublishRoom? || s.SendToUser? {
      SendingEffect(acls, h, s);
      SameButPipesFlight(h, Next(acls, h, s), room);
    } else if s.Register? {
      RegisterShrinks(h, s.conn, room);
    } else if s.Unregister? || s.JoinHub? || s.LeaveHub? {
      IndexStepShrinks(acls, h, s, room);
    } else {
      SimpleStepShrinks(acls, h, s, room);
    }
  }

  lemma IndexStepShrinks(acls: AclTable, h: Hub, s: Step, room: string)
    requires Sound(h) && Enabled(h, s) && (s.Unregister? || s.JoinHub? || s.LeaveHub?)
    requires s.JoinHub? ==> h.conns[s.conn].read.room != room
    ensures Members(Next(acls, h, s), room) <= Members(h, room)
    ensures InFlight(Next(acls, h, s), room) <= InFlight(h, room)
  {
    match s
    case Unregister(c) =>
      UnregisterMembers(h, c);
      UnregisterFlight(h, c, room);
    case JoinHub(c) =>
      JoinMembers(h, h.conns[c].read.room, c);
      IdleFlight(h, JoinRoom(h, h.conns[c].read.room, c), c, room);
    case LeaveHub(c) =>
      LeaveMembers(h, h.conns[c].read.room, c);
      IdleFlight(h, LeaveRoom(h, h.conns[c].read.room, c), c, room);
  }

  lemma UnregisterFlight(h: Hub, c: nat, room: string)
    requires c in h.conns
    ensures InFlight(UnregisterClient(h, c), room) <= InFlight(h, room)
  {
  }

  lemma IdleFlight(h: Hub, j: Hub, c: nat, room: string)
    requires j.conns == h.conns && c in h.conns
    ensures InFlight(With(j, c, h.conns[c].(read := Idle)), room) <= InFlight(h, room)
    ensures Members(With(j, c, h.conns[c].(read := Idle)), room) == Members(j, room)
  {
  }

  lemma SameButPipesFlight(h: Hub, h': Hub, room: string)
    requires SameButPipes(h, h')
    ensures InFlight(h', room) <= InFlight(h, room) && Members(h', room) == Members(h, room)
  {
  }

  lemma RegisterShrinks(h: Hub, c: nat, room: string)
    requires c in h.conns
    ensures Members(RegisterClient(h, c), room) == Members(h, room)
    ensures InFlight(RegisterClient(h, c), room) <= InFlight(h, room)
  {
    KickEffect(h, c);
    SameButPipesFlight(h, Kicked(h, h.conns[c].user), room);
  }

  lemma SimpleStepShrinks(acls: AclTable, h: Hub, s: Step, room: string)
    requires Enabled(h, s)
    requires s.Connect? || s.AskJoin? || s.JoinOwn? || s.LeaveOwn? || s.CaptureRoom? || s.StopReading? || s.WriteMove?
    requires s.Connect? ==> s.channel != room
    requires s.AskJoin? ==> s.room != room
    ensures Members(Next(acls, h, s), room) == Members(h, room)
    ensures InFlight(Next(acls, h, s), room) <= InFlight(h, room)
  {
    SameMembers(h, Next(acls, h, s));
  }

  /** The counted room: its members plus those on their way in. */
  ghost function Load(h: Hub, room: string): int { |Members(h, room)| + |InFlight(h, room)| }

  lemma LeavingFlight(h: Hub, j: Hub, c: nat, room: string)
    requires j.conns == h.conns && c in h.conns && h.conns[c].read == Joining(room)
    ensures InFlight(With(j, c, h.conns[c].(read := Idle)), room) == InFlight(h, room) - {c}
    ensures c in InFlight(h, room)
  {
  }

  lemma EnteringKeepsLoad(h: Hub, c: nat)
    requires Sound(h) && c in h.conns && h.conns[c].read.Joining?
    ensures
      var room := h.conns[c].read.room;
      Load(With(JoinRoom(h, room, c), c, h.conns[c].(read := Idle)), room) <= Load(h, room)
  {
    var room := h.conns[c].read.room;
    var j := JoinRoom(h, room, c);
    JoinMembers(h, room, c);
    SameMembers(j, With(j, c, h.conns[c].(read := Idle)));
    LeavingFlight(h, j, c, room);
  }

  lemma AdmittingKeepsMembers(acls: AclTable, h: Hub, c: nat, room: string)
    requires Sound(h) && Enabled(h, AskJoin(c, room))
    ensures
      var h' := Next(acls, h, AskJoin(c, room));
      && Members(h', room) == Members(h, room)
      && (!Passes(acls, h, h.conns[c], room) ==> InFlight(h', room) <= InFlight(h, room))
  {
    var h' := Next(acls, h, AskJoin(c, room));
    SameMembers(h, h');
    if !Passes(acls, h, h.conns[c], room) {
      OfferAllEffect(h, {c}, Local("error"));
      SameButPipesFlight(h, h', room);
    }
  }

  lemma StepKeepsLoad(acls: AclTable, h: Hub, s: Step, room: string, n: nat)
    requires Sound(h) && Enabled(h, s)
    requires s.Connect? ==> s.channel != room
    requires room in acls && acls[room].maxMembers > 0
    requires Load(h, room) <= acls[room].maxMembers - 1 + n
    requires |InFlight(Next(acls, h, s), room)| <= n
    ensures Load(Next(acls, h, s), room) <= acls[room].maxMembers - 1 + n
  {
    var h' := Next(acls, h, s);
    if s.AskJoin? && s.room == room {
      AdmittingKeepsMembers(acls, h, s.conn, room);
      if !Passes(acls, h, h.conns[s.conn], room) {
        SubsetIsNoLarger(InFlight(h', room), InFlight(h, room));
      }
    } else if s.JoinHub? && h.conns[s.conn].read.room == room {
      EnteringKeepsLoad(h, s.conn);
    } else {
      OtherStepsShrink(acls, h, s, room);
      SubsetIsNoLarger(Members(h', room), Members(h, room));
      SubsetIsNoLarger(InFlight(h', room), InFlight(h, room));
    }
  }

  /** In a run where `room` is entered only through join requests and at most `n` connections are
      ever between the count check and the join. */
  ghost predicate Metered(acls: AclTable, trace: seq<Step>, room: string, n: nat)
    requires Legal(acls, trace)
  {
    && |InFlight(Exec(acls, trace), room)| <= n
    && (trace == [] || (Metered(acls, trace[..|trace| - 1], room, n)
                        && (trace[|trace| - 1].Connect? ==> trace[|trace| - 1].channel != room)))
  }

  lemma {:induction false} LoadOverRuns(acls: AclTable, trace: seq<Step>, room: string, n: nat)
    requires Legal(acls, trace) && Metered(acls, trace, room, n)
    requires room in acls && acls[room].maxMembers > 0
    ensures Load(Exec(acls, trace), room) <= acls[room].maxMembers - 1 + n
  {
    if trace != [] {
      var p := trace[..|trace| - 1];
      LoadOverRuns(acls, p, room, n);
      RunsAreSound(acls, p);
      StepKeepsLoad(acls, Exec(acls, p), trace[|trace| - 1], room, n);
    }
  }

  /** A room with limit M holds at most M - 1 + n members; so at most M when joins run one at a time. */
  lemma {:induction false} CapacityBound(acls: AclTable, trace: seq<Step>, room: string, n: nat)
    requires Legal(acls, trace) && Metered(acls, trace, room, n)
    requires room in acls && acls[room].maxMembers > 0
    ensures |Members(Exec(acls, trace), room)| <= acls[room].maxMembers - 1 + n
    ensures n <= 1 ==> |Members(Exec(acls, trace), room)| <= acls[room].maxMembers
  {
    LoadOverRuns(acls, trace, room, n);
  }

  // ---- The bound is reached ----

  /** Several connections ask to join, and only then enter one by one. */
  function AskAll(cs: seq<nat>, room: string): seq<Step> {
    if cs == [] then [] else AskAll(cs[..|cs| - 1], room) + [AskJoin(cs[|cs| - 1], room)]
  }

  function EnterAll(cs: seq<nat>): seq<Step> {
    if cs == [] then [] else EnterAll(cs[..|cs| - 1]) + [JoinOwn(cs[|cs| - 1])] + [JoinHub(cs[|cs| - 1])]
  }

  /** A connection between messages, outside the room and entitled to it. */
  ghost predicate Outside(acls: AclTable, h: Hub, c: nat, room: string) {
    && c in h.conns && h.conns[c].read.Idle? && c !in Members(h, room)
    && Entitled(acls, h.conns[c].key, h.conns[c].user, h.conns[c].claims, room)
  }

  /** The room is below its limit and all of `cs` are outside it. */
  ghost predicate Rush(acls: AclTable, h: Hub, room: string, cs: seq<nat>) {
    && !h.crashed && room != "" && Distinct(cs)
    && CheckMaxMembers(acls, room, |Members(h, room)|)
    && forall c :: c in cs ==> Outside(acls, h, c, room)
  }

  /** All of `cs` passed the checks; nothing else happened. */
  ghost predicate AllAdmitted(h: Hub, h': Hub, room: string, cs: seq<nat>) {
    && !h'.crashed && h'.conns.Keys == h.conns.Keys
    && Members(h', room) == Members(h, room)
    && (forall c :: c in cs ==> c in h'.conns && h'.conns[c].read == Admitted(room))
    && (forall d :: d in h.conns && d !in cs ==> h'.conns[d] == h.conns[d])
  }

  lemma AskOne(acls: AclTable, h: Hub, h1: Hub, room: string, cs: seq<nat>)
    requires cs != [] && Rush(acls, h, room, cs) && AllAdmitted(h, h1, room, cs[..|cs| - 1])
    ensures
      var s := AskJoin(cs[|cs| - 1], room);
      Enabled(h1, s) && AllAdmitted(h, Next(acls, h1, s), room, cs)
  {
    var p, c := cs[..|cs| - 1], cs[|cs| - 1];
    assert Outside(acls, h, c, room);
    assert h1.conns[c] == h.conns[c];
    SameMembers(h1, Next(acls, h1, AskJoin(c, room)));
  }

  lemma {:induction false} OneMoreAsks(acls: AclTable, h: Hub, t: seq<Step>, room: string, cs: seq<nat>)
    requires Legal(acls, t) && cs != [] && Rush(acls, h, room, cs)
    requires AllAdmitted(h, Exec(acls, t), room, cs[..|cs| - 1])
    ensures
      var t' := t + [AskJoin(cs[|cs| - 1], room)];
      Legal(acls, t') && AllAdmitted(h, Exec(acls, t'), room, cs)
  {
    AskOne(acls, h, Exec(acls, t), room, cs);
    Extend(acls, t, AskJoin(cs[|cs| - 1], room));
  }

  lemma {:induction false} AskAllMore(trace: seq<Step>, cs: seq<nat>, room: string)
    requires cs != []
    ensures trace + AskAll(cs, room) == trace + AskAll(cs[..|cs| - 1], room) + [AskJoin(cs[|cs| - 1], room)]
  {
  }

  lemma {:induction false} AllAsk(acls: AclTable, trace: seq<Step>, room: string, cs: seq<nat>)
    requires Legal(acls, trace) && Rush(acls, Exec(acls, trace), room, cs)
    ensures Legal(acls, trace + AskAll(cs, room))
    ensures AllAdmitted(Exec(acls, trace), Exec(acls, trace + AskAll(cs, room)), room, cs)
    decreases |cs|
  {
    if cs == [] {
      assert trace + AskAll(cs, room) == trace;
    } else {
      var p, s := cs[..|cs| - 1], AskJoin(cs[|cs| - 1], room);
      AllAsk(acls, trace, room, p);
      var t := trace + AskAll(p, room);
      OneMoreAsks(acls, Exec(acls, trace), t, room, cs);
      AskAllMore(trace, cs, room);
    }
  }

  /** All of `cs` went from admission into the room; nothing else happened. */
  ghost predicate AllIn(h: Hub, h': Hub, room: string, cs: seq<nat>) {
    && !h'.crashed && h'.conns.Keys == h.conns.Keys
    && Members(h', room) == Members(h, room) + Of(cs)
    && (forall c :: c in cs ==> c in h'.conns && h'.conns[c].read.Idle?)
    && (forall d :: d in h.conns && d !in cs ==> h'.conns[d] == h.conns[d])
  }

  ghost predicate Waiting(h: Hub, room: string, cs: seq<nat>) {
    Distinct(cs) && forall c :: c in cs ==> c in h.conns && h.conns[c].read == Admitted(room)
  }

  lemma EnterOne(acls: AclTable, h: Hub, room: string, c: nat)
    requires RoomsOk(h) && !h.crashed && c in h.conns && h.conns[c].read == Admitted(room)
    ensures Enabled(h, JoinOwn(c))
    ensures
      var m := Next(acls, h, JoinOwn(c));
      && Enabled(m, JoinHub(c)) && InFlight(m, room) == InFlight(h, room)
      && AllIn(h, Next(acls, m, JoinHub(c)), room, [c])
  {
    var m := Next(acls, h, JoinOwn(c));
    assert RoomsOk(m);
    SameMembers(h, m);
    var j := JoinRoom(m, room, c);
    JoinMembers(m, room, c);
    SameMembers(j, Next(acls, m, JoinHub(c)));
  }

  lemma AllInStep(h: Hub, h1: Hub, h2: Hub, room: string, cs: seq<nat>)
    requires cs != [] && Distinct(cs)
    requires AllIn(h, h1, room, cs[..|cs| - 1]) && AllIn(h1, h2, room, [cs[|cs| - 1]])
    ensures AllIn(h, h2, room, cs)
  {
    var p, c := cs[..|cs| - 1], cs[|cs| - 1];
    assert Of(cs) == Of(p) + Of([c]);
  }

  lemma {:induction false} OneMoreEnters(acls: AclTable, h: Hub, t: seq<Step>, room: string, cs: seq<nat>)
    requires Legal(acls, t) && cs != [] && Waiting(h, room, cs)
    requires AllIn(h, Exec(acls, t), room, cs[..|cs| - 1])
    ensures
      var t' := t + [JoinOwn(cs[|cs| - 1])] + [JoinHub(cs[|cs| - 1])];
      Legal(acls, t') && AllIn(h, Exec(acls, t'), room, cs)
  {
    var c := cs[|cs| - 1];
    RunsAreSound(acls, t);
    assert c !in cs[..|cs| - 1];
    EnterOne(acls, Exec(acls, t), room, c);
    EnterTrace(acls, t, c);
    AllInStep(h, Exec(acls, t), Exec(acls, t + [JoinOwn(c)] + [JoinHub(c)]), room, cs);
  }

  lemma {:induction false} EnterTrace(acls: AclTable, t: seq<Step>, c: nat)
    requires Legal(acls, t) && Enabled(Exec(acls, t), JoinOwn(c))
    requires Enabled(Next(acls, Exec(acls, t), JoinOwn(c)), JoinHub(c))
    ensures
      var t' := t + [JoinOwn(c)] + [JoinHub(c)];
      Legal(acls, t') && Exec(acls, t') == Next(acls, Next(acls, Exec(acls, t), JoinOwn(c)), JoinHub(c))
  {
    Extend(acls, t, JoinOwn(c));
    Extend(acls, t + [JoinOwn(c)], JoinHub(c));
  }

  lemma NobodyEnters(h: Hub, room: string)
    requires !h.crashed
    ensures AllIn(h, h, room, [])
  {
    assert Members(h, room) + Of([]) == Members(h, room);
  }

  lemma {:induction false} AllEnter(acls: AclTable, trace: seq<Step>, room: string, cs: seq<nat>)
    requires Legal(acls, trace) && !Exec(acls, trace).crashed && Waiting(Exec(acls, trace), room, cs)
    ensures Legal(acls, trace + EnterAll(cs))
    ensures AllIn(Exec(acls, trace), Exec(acls, trace + EnterAll(cs)), room, cs)
    decreases |cs|
  {
    if cs == [] {
      assert trace + EnterAll(cs) == trace;
      NobodyEnters(Exec(acls, trace), room);
    } else {
      var p, c := cs[..|cs| - 1], cs[|cs| - 1];
      AllEnter(acls, trace, room, p);
      var t := trace + EnterAll(p);
      OneMoreEnters(acls, Exec(acls, trace), t, room, cs);
      EnterAllMore(trace, cs);
    }
  }

  /** From every run: if the room is below its limit, all connections outside it that are entitled
      to it can pass the check before any of them enters, and then all enter. */
  lemma {:induction false} EveryoneGetsIn(acls: AclTable, trace: seq<Step>, room: string, cs: seq<nat>)
    requires Legal(acls, trace) && Rush(acls, Exec(acls, trace), room, cs)
    ensures
      var t := trace + AskAll(cs, room) + EnterAll(cs);
      && Legal(acls, t)
      && Members(Exec(acls, t), room) == Members(Exec(acls, trace), room) + Of(cs)
      && |Members(Exec(acls, t), room)| == |Members(Exec(acls, trace), room)| + |cs|
  {
    AllAsk(acls, trace, room, cs);
    AllEnter(acls, trace + AskAll(cs, room), room, cs);
    CountDistinct(cs);
    var h := Exec(acls, trace);
    forall c | c in Of(cs) ensures c !in Members(h, room) { assert Outside(acls, h, c, room); }
  }

  lemma {:induction false} MeterOne(acls: AclTable, t: seq<Step>, s: Step, room: string, n: nat)
    requires Legal(acls, t + [s]) && Legal(acls, t) && Metered(acls, t, room, n) && !s.Connect?
    requires |InFlight(Exec(acls, t + [s]), room)| <= n
    ensures Metered(acls, t + [s], room, n)
  {
    assert (t + [s])[..|t|] == t;
  }

  lemma AdmittedFlight(h: Hub, h': Hub, room: string, cs: seq<nat>)
    requires AllAdmitted(h, h', room, cs) && InFlight(h, room) == {} && Distinct(cs)
    ensures |InFlight(h', room)| <= |cs|
  {
    forall c | c in InFlight(h', room) ensures c in Of(cs) {
      assert c in h.conns && c !in InFlight(h, room);
    }
    CountDistinct(cs);
    SubsetIsNoLarger(InFlight(h', room), Of(cs));
  }

  lemma {:induction false} AsksMetered(acls: AclTable, trace: seq<Step>, room: string, cs: seq<nat>, n: nat)
    requires Legal(acls, trace) && Rush(acls, Exec(acls, trace), room, cs) && |cs| <= n
    requires Metered(acls, trace, room, n) && InFlight(Exec(acls, trace), room) == {}
    ensures Legal(acls, trace + AskAll(cs, room)) && Metered(acls, trace + AskAll(cs, room), room, n)
    decreases |cs|
  {
    AllAsk(acls, trace, room, cs);
    if cs == [] {
      assert trace + AskAll(cs, room) == trace;
    } else {
      var p, s := cs[..|cs| - 1], AskJoin(cs[|cs| - 1], room);
      AsksMetered(acls, trace, room, p, n);
      AskAllMore(trace, cs, room);
      AdmittedFlight(Exec(acls, trace), Exec(acls, trace + AskAll(cs, room)), room, cs);
      MeterOne(acls, trace + AskAll(p, room), s, room, n);
    }
  }

  lemma InFlightShrinks(h: Hub, h': Hub, room: string, cs: seq<nat>)
    requires AllIn(h, h', room, cs)
    ensures |InFlight(h', room)| <= |InFlight(h, room)|
  {
    forall c | c in InFlight(h', room) ensures c in InFlight(h, room) { }
    SubsetIsNoLarger(InFlight(h', room), InFlight(h, room));
  }

  lemma {:induction false} EnterMetered(acls: AclTable, t: seq<Step>, room: string, c: nat, n: nat)
    requires Legal(acls, t) && Metered(acls, t, room, n) && !Exec(acls, t).crashed
    requires c in Exec(acls, t).conns && Exec(acls, t).conns[c].read == Admitted(room)
    ensures
      var t' := t + [JoinOwn(c)] + [JoinHub(c)];
      Legal(acls, t') && Metered(acls, t', room, n)
  {
    RunsAreSound(acls, t);
    EnterOne(acls, Exec(acls, t), room, c);
    Extend(acls, t, JoinOwn(c));
    MeterOne(acls, t, JoinOwn(c), room, n);
    var t1 := t + [JoinOwn(c)];
    Extend(acls, t1, JoinHub(c));
    InFlightShrinks(Exec(acls, t), Exec(acls, t1 + [JoinHub(c)]), room, [c]);
    MeterOne(acls, t1, JoinHub(c), room, n);
  }

  lemma {:induction false} OneMoreMetered(acls: AclTable, trace: seq<Step>, room: string, cs: seq<nat>, n: nat)
    requires Legal(acls, trace) && !Exec(acls, trace).crashed && cs != [] && Waiting(Exec(acls, trace), room, cs)
    requires Legal(acls, trace + EnterAll(cs[..|cs| - 1])) && Metered(acls, trace + EnterAll(cs[..|cs| - 1]), room, n)
    ensures
      var t, c := trace + EnterAll(cs[..|cs| - 1]), cs[|cs| - 1];
      Legal(acls, t + [JoinOwn(c)] + [JoinHub(c)]) && Metered(acls, t + [JoinOwn(c)] + [JoinHub(c)], room, n)
  {
    var p, c := cs[..|cs| - 1], cs[|cs| - 1];
    AllEnter(acls, trace, room, p);
    assert c !in p;
    EnterMetered(acls, trace + EnterAll(p), room, c, n);
  }

  lemma Regroup(a: seq<Step>, b: seq<Step>, x: Step, y: Step)
    ensures a + (b + [x] + [y]) == a + b + [x] + [y]
  {
  }

  lemma {:induction false} EnterAllMore(trace: seq<Step>, cs: seq<nat>)
    requires cs != []
    ensures trace + EnterAll(cs)
            == trace + EnterAll(cs[..|cs| - 1]) + [JoinOwn(cs[|cs| - 1])] + [JoinHub(cs[|cs| - 1])]
  {
    Regroup(trace, EnterAll(cs[..|cs| - 1]), JoinOwn(cs[|cs| - 1]), JoinHub(cs[|cs| - 1]));
  }

  lemma {:induction false} EntersMetered(acls: AclTable, trace: seq<Step>, room: string, cs: seq<nat>, n: nat)
    requires Legal(acls, trace) && !Exec(acls, trace).crashed && Waiting(Exec(acls, trace), room, cs)
    requires Metered(acls, trace, room, n)
    ensures Legal(acls, trace + EnterAll(cs)) && Metered(acls, trace + EnterAll(cs), room, n)
    decreases |cs|
  {
    if cs == [] {
      assert trace + EnterAll(cs) == trace;
    } else {
      EntersMetered(acls, trace, room, cs[..|cs| - 1], n);
      OneMoreMetered(acls, trace, room, cs, n);
      EnterAllMore(trace, cs);
    }
  }

  /** So the bound is exact: a metered run with one place left and nobody on the way in goes on,
      still metered by `n`, to M - 1 + n members, whoever the n connections are. */
  lemma {:induction false} BoundIsReached(acls: AclTable, trace: seq<Step>, room: string, cs: seq<nat>)
    requires Legal(acls, trace) && Rush(acls, Exec(acls, trace), room, cs)
    requires Metered(acls, trace, room, |cs|) && InFlight(Exec(acls, trace), room) == {}
    requires room in acls && |Members(Exec(acls, trace), room)| == acls[room].maxMembers - 1
    ensures
      var t := trace + AskAll(cs, room) + EnterAll(cs);
      && Legal(acls, t) && Metered(acls, t, room, |cs|)
      && |Members(Exec(acls, t), room)| == acls[room].maxMembers - 1 + |cs|
  {
    AllAsk(acls, trace, room, cs);
    AsksMetered(acls, trace, room, cs, |cs|);
    EntersMetered(acls, trace + AskAll(cs, room), room, cs, |cs|);
    EveryoneGetsIn(acls, trace, room, cs);
  }

  /** The other way in is not metered: whoever the ACL and the token admit joins on connecting,
      however full the room already is. */
  lemma {:induction false} AutoJoinIgnoresTheLimit(acls: AclTable, trace: seq<Step>, s: Step)
    requires Legal(acls, trace) && s.Connect? && s.channel != "" && Enabled(Exec(acls, trace), s)
    requires Entitled(acls, s.key, UserOf(s.clientId, s.anon, s.claims), s.claims, s.channel)
    ensures
      var t := trace + [s] + [JoinHub(s.conn)];
      && Legal(acls, t)
      && |Members(Exec(acls, t), s.channel)| == |Members(Exec(acls, trace), s.channel)| + 1
  {
    var h := Exec(acls, trace);
    RunsAreSound(acls, trace);
    NewcomerIsNowhere(h, s.conn);
    Extend(acls, trace, s);
    var t1 := trace + [s];
    var h1 := Exec(acls, t1);
    SameMembers(h, h1);
    RunsAreSound(acls, t1);
    Extend(acls, t1, JoinHub(s.conn));
    JoinMembers(h1, s.channel, s.conn);
    SameMembers(JoinRoom(h1, s.channel, s.conn), Exec(acls, t1 + [JoinHub(s.conn)]));
  }
}
