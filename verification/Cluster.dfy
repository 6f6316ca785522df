/** Many broker nodes over one pub/sub bus: how rooms and users are named on the bus, how echoes
    are suppressed, and that no client is ever offered the same message twice. */
module Cluster {
  import opened SendQueue
  import opened Access
  import opened HubModel
  import HubSafety
  import HubTheorems

  // ---- Channel names ----

  const BROADCAST := "synchub:broadcast"
  const ROOM := "synchub:room:"
  const DIRECT := "synchub:direct:"

  datatype Audience = Everyone | RoomOf(room: string) | UserOf(user: string)

  function ChannelName(a: Audience): string {
    match a
    case Everyone => BROADCAST
    case RoomOf(room) => ROOM + room
    case UserOf(user) => DIRECT + user
  }

  /** How an incoming bus channel is read; anything else is ignored. */
  function Dispatch(channel: string): Option<Audience> {
    if channel == BROADCAST then Some(Everyone)
    else if ROOM <= channel then Some(RoomOf(channel[|ROOM|..]))
    else if DIRECT <= channel then Some(UserOf(channel[|DIRECT|..]))
    else None
  }

  /** Each node's subscriptions: one exact channel and two prefix patterns. */
  datatype Subscription = Exact | RoomPattern | DirectPattern

  predicate Matches(s: Subscription, channel: string) {
    match s
    case Exact => channel == BROADCAST
    case RoomPattern => ROOM <= channel
    case DirectPattern => DIRECT <= channel
  }

  lemma PrefixesDiffer(channel: string)
    ensures !(channel == BROADCAST && ROOM <= channel)
    ensures !(channel == BROADCAST && DIRECT <= channel)
    ensures !(ROOM <= channel && DIRECT <= channel)
  {
    assert BROADCAST[8] == 'b' && ROOM[8] == 'r' && DIRECT[8] == 'd';
    if ROOM <= channel { assert channel[8] == ROOM[8]; }
    if DIRECT <= channel { assert channel[8] == DIRECT[8]; }
  }

  /** Encoding and decoding are inverse on every room and user name, and every name on the bus
      belongs to one family. */
  lemma NamesRoundTrip(a: Audience, channel: string)
    ensures Dispatch(ChannelName(a)) == Some(a)
    ensures Dispatch(channel).Some? ==> ChannelName(Dispatch(channel).value) == channel
    ensures forall s, s' :: Matches(s, channel) && Matches(s', channel) ==> s == s'
    ensures Dispatch(channel).Some? <==> exists s :: Matches(s, channel)
  {
    PrefixesDiffer(ChannelName(a));
    PrefixesDiffer(channel);
    if a.RoomOf? { assert ChannelName(a)[|ROOM|..] == a.room; }
    if a.UserOf? { assert ChannelName(a)[|DIRECT|..] == a.user; }
    if Dispatch(channel).Some? {
      assert Matches(Exact, channel) || Matches(RoomPattern, channel) || Matches(DirectPattern, channel);
    }
  }

  // ---- Nodes and the bus ----

  /** A published message: its channel, the publishing node's id and the message number. */
  datatype Envelope = Envelope(channel: string, origin: string, uid: nat)

  /** An envelope on its way to one subscription of one node. */
  datatype Delivery = Delivery(to: nat, sub: Subscription, env: Envelope)

  datatype Node = Node(id: string, hub: Hub)

  datatype Net = Net(
    nodes: seq<Node>,
    outbox: set<Envelope>,      // local delivery done, publish call not yet
    bus: set<Delivery>,         // published, not yet received; each is handed over at most once
    published: seq<Envelope>,
    nextUid: nat)

  function Addressed(h: Hub, a: Audience): set<nat> {
    match a
    case Everyone => h.clients.Values
    case RoomOf(room) => Members(h, room)
    case UserOf(user) => if user in h.clients then {h.clients[user]} else {}
  }

  /** handleIncomingMessage: nothing for an own echo, else a local delivery. */
  function HandleIncoming(h: Hub, nodeId: string, channel: string, origin: string, m: Msg): Hub {
    if origin == nodeId then h
    else
      match Dispatch(channel)
      case None => h
      case Some(a) => OfferAll(h, Addressed(h, a), m)
  }

  datatype NetStep =
    | Inside(node: nat, step: Step)
    | SayAll(node: nat)
    | SayRoom(node: nat, job: nat, exclude: string)
    | SayUser(node: nat, user: string)
    | Publish(env: Envelope)
    | PublishFails(env: Envelope)
    | Receive(delivery: Delivery)
    | Lose(delivery: Delivery)

  /** Steps of one process that send nothing across nodes. */
  predicate StaysInside(s: Step) {
    !s.DeliverRoom? && MessageOf(s).Local?
  }

  predicate CanStep(k: Net, s: NetStep) {
    match s
    case Inside(n, step) => n < |k.nodes| && Enabled(k.nodes[n].hub, step) && StaysInside(step)
    case SayAll(n) => n < |k.nodes| && !k.nodes[n].hub.crashed
    case SayRoom(n, t, _) => n < |k.nodes| && !k.nodes[n].hub.crashed && t in k.nodes[n].hub.captures
    case SayUser(n, _) => n < |k.nodes| && !k.nodes[n].hub.crashed
    case Publish(e) => e in k.outbox
    case PublishFails(e) => e in k.outbox
    case Receive(d) => d in k.bus && d.to < |k.nodes| && !k.nodes[d.to].hub.crashed
    case Lose(d) => d in k.bus
  }

  function At(k: Net, n: nat, h: Hub): Net
    requires n < |k.nodes|
  {
    k.(nodes := k.nodes[n := k.nodes[n].(hub := h)])
  }

  /** Local delivery of a fresh message, then the envelope for the other nodes. */
  function Originate(k: Net, n: nat, h: Hub, a: Audience): Net
    requires n < |k.nodes|
  {
    At(k, n, h).(outbox := k.outbox + {Envelope(ChannelName(a), k.nodes[n].id, k.nextUid)}, nextUid := k.nextUid + 1)
  }

  function NetNext(acls: AclTable, k: Net, s: NetStep): Net
    requires CanStep(k, s)
  {
    match s
    case Inside(n, step) => At(k, n, Next(acls, k.nodes[n].hub, step))
    case SayAll(n) =>
      Originate(k, n, Next(acls, k.nodes[n].hub, BroadcastAll(Tracked(k.nextUid))), Everyone)
    case SayRoom(n, t, exclude) =>
      var h := k.nodes[n].hub;
      Originate(k, n, Next(acls, h, DeliverRoom(t, exclude, Tracked(k.nextUid))), RoomOf(h.captures[t].room))
    case SayUser(n, user) =>
      var h := k.nodes[n].hub;
      if user in h.clients
      then At(k, n, Next(acls, h, SendToUser(user, Tracked(k.nextUid)))).(nextUid := k.nextUid + 1)
      else Originate(k, n, h, UserOf(user))
    case Publish(e) =>
      k.(outbox := k.outbox - {e}, published := k.published + [e],
         bus := k.bus + set n, s | 0 <= n < |k.nodes| && s in {Exact, RoomPattern, DirectPattern}
               && Matches(s, e.channel)
                          :: Delivery(n, s, e))
    case PublishFails(e) => k.(outbox := k.outbox - {e})
    case Receive(d) =>
      At(k, d.to, HandleIncoming(k.nodes[d.to].hub, k.nodes[d.to].id, d.env.channel, d.env.origin, Tracked(d.env.uid)))
        .(bus := k.bus - {d})
    case Lose(d) => k.(bus := k.bus - {d})
  }

  function NewNet(ids: seq<string>): Net {
    Net(seq(|ids|, i requires 0 <= i < |ids| => Node(ids[i], NewHub)), {}, {}, [], 0)
  }

  ghost predicate Legal(acls: AclTable, ids: seq<string>, trace: seq<NetStep>)
    decreases |trace|, 0
  {
    trace == [] || (Legal(acls, ids, trace[..|trace| - 1])
                    && CanStep(Exec(acls, ids, trace[..|trace| - 1]), trace[|trace| - 1]))
  }

  ghost function Exec(acls: AclTable, ids: seq<string>, trace: seq<NetStep>): Net
    requires Legal(acls, ids, trace)
    decreases |trace|, 1
  {
    if trace == [] then NewNet(ids) else NetNext(acls, Exec(acls, ids, trace[..|trace| - 1]), trace[|trace| - 1])
  }

  // ---- Counting offers ----

  /** How often connection `c` was offered message `u`. */
  ghost function Seen(h: Hub, c: nat, u: nat): nat {
    if c in h.conns then Times(h.conns[c].pipe.offers, Tracked(u)) else 0
  }

  lemma OfferAllSeen(h: Hub, targets: set<nat>, m: Msg, c: nat, u: nat)
    ensures Seen(OfferAll(h, targets, m), c, u)
            == Seen(h, c, u) + if m == Tracked(u) && c in targets && c in h.conns
                  && !Closed(h.conns[c].pipe) then 1 else 0
  {
  }

  lemma KickSeen(h: Hub, user: string, c: nat, u: nat)
    ensures Seen(Kicked(h, user), c, u) == Seen(h, c, u)
  {
    if user in h.clients {
      OfferAllSeen(h, {h.clients[user]}, Local("connected from another location"), c, u);
    }
  }

  lemma RegisterSeen(h: Hub, r: nat, c: nat, u: nat)
    requires r in h.conns
    ensures Seen(RegisterClient(h, r), c, u) == Seen(h, c, u)
  {
    KickSeen(h, h.conns[r].user, c, u);
  }

  lemma UnregisterSeen(h: Hub, r: nat, c: nat, u: nat)
    requires r in h.conns
    ensures Seen(UnregisterClient(h, r), c, u) == Seen(h, c, u)
  {
  }

  /** Nothing that stays inside a process offers a numbered message. */
  lemma InsideSeen(acls: AclTable, h: Hub, s: Step, c: nat, u: nat)
    requires Enabled(h, s) && StaysInside(s)
    ensures Seen(Next(acls, h, s), c, u) == Seen(h, c, u)
  {
    if s.Register? {
      RegisterSeen(h, s.conn, c, u);
    } else if s.Unregister? {
      UnregisterSeen(h, s.conn, c, u);
    } else if s.WriteMove? {
    } else if s.AskJoin? {
      OfferAllSeen(h, {s.conn}, Local("error"), c, u);
    } else if s.Greet? || s.Reply? || s.BroadcastAll? || s.PublishRoom? || s.SendToUser? {
      OfferAllSeen(h, Targets(h, s), MessageOf(s), c, u);
    } else {
      HubTheorems.QuietStepPipes(acls, h, s);
    }
  }

  // ---- The invariant ----

  ghost predicate Unseen(h: Hub, u: nat) {
    forall c :: Seen(h, c, u) == 0
  }

  ghost predicate AtMostOnce(h: Hub) {
    forall c, u :: Seen(h, c, u) <= 1
  }

  /** Nobody who would act on the envelope has been offered its message yet. */
  ghost predicate NewsTo(node: Node, e: Envelope) {
    node.id == e.origin || Unseen(node.hub, e.uid)
  }

  ghost predicate HubsOk(k: Net) {
    && (forall n :: 0 <= n < |k.nodes| ==> AtMostOnce(k.nodes[n].hub))
    && (forall n, u :: 0 <= n < |k.nodes| && u >= k.nextUid ==> Unseen(k.nodes[n].hub, u))
  }

  ghost predicate MailOk(k: Net) {
    && (forall e, n :: e in k.outbox && 0 <= n < |k.nodes| ==> NewsTo(k.nodes[n], e))
    && (forall d :: d in k.bus ==> d.to < |k.nodes| && NewsTo(k.nodes[d.to], d.env))
  }

  /** Every number is used for one envelope, published once. */
  ghost predicate NumbersOk(k: Net) {
    && (forall e :: e in k.outbox ==> e.uid < k.nextUid)
    && (forall e, e' :: e in k.outbox && e' in k.outbox && e.uid == e'.uid ==> e == e')
    && (forall i :: 0 <= i < |k.published| ==> k.published[i].uid < k.nextUid)
    && (forall i, j :: 0 <= i < j < |k.published| ==> k.published[i].uid != k.published[j].uid)
    && (forall e, i :: e in k.outbox && 0 <= i < |k.published| ==> e.uid != k.published[i].uid)
    && (forall d :: d in k.bus ==> d.env in k.published && Matches(d.sub, d.env.channel))
  }

  ghost predicate NetOk(k: Net) { HubsOk(k) && MailOk(k) && NumbersOk(k) }

  /** A node's hub changes only in how often message `u` has been offered, at most once each. */
  ghost predicate OffersOnly(h: Hub, h': Hub, u: nat) {
    && (forall c, v :: v != u ==> Seen(h', c, v) == Seen(h, c, v))
    && (forall c :: Seen(h', c, u) <= 1)
  }

  lemma FreshOffer(h: Hub, targets: set<nat>, u: nat)
    requires Unseen(h, u)
    ensures OffersOnly(h, OfferAll(h, targets, Tracked(u)), u)
  {
    forall c, v ensures v != u ==> Seen(OfferAll(h, targets, Tracked(u)), c, v) == Seen(h, c, v) {
      OfferAllSeen(h, targets, Tracked(u), c, v);
    }
    forall c ensures Seen(OfferAll(h, targets, Tracked(u)), c, u) <= 1 {
      OfferAllSeen(h, targets, Tracked(u), c, u);
      assert Seen(h, c, u) == 0;
    }
  }

  /** Everything but the mention of `u` survives such a change at one node. */
  lemma OffersOnlyKeeps(k: Net, n: nat, h': Hub, u: nat)
    requires NetOk(k) && n < |k.nodes| && OffersOnly(k.nodes[n].hub, h', u)
    ensures var k' := At(k, n, h');
            && (forall m :: 0 <= m < |k'.nodes| ==> AtMostOnce(k'.nodes[m].hub))
            && (forall m, v :: 0 <= m < |k'.nodes| && v >= k.nextUid && v != u ==> Unseen(k'.nodes[m].hub, v))
            && (forall m, e :: 0 <= m < |k'.nodes| && NewsTo(k.nodes[m], e) && e.uid != u ==> NewsTo(k'.nodes[m], e))
  {
    var h := k.nodes[n].hub;
    forall c, v ensures Seen(h', c, v) <= 1 {
      assert AtMostOnce(h);
    }
    forall v | v != u && Unseen(h, v) ensures Unseen(h', v) {
    }
  }

  lemma NumberedOk(k: Net, n: nat, h': Hub)
    requires NetOk(k) && n < |k.nodes| && OffersOnly(k.nodes[n].hub, h', k.nextUid)
    ensures NetOk(At(k, n, h').(nextUid := k.nextUid + 1))
  {
    OffersOnlyKeeps(k, n, h', k.nextUid);
  }

  lemma OriginateOk(k: Net, n: nat, h': Hub, a: Audience)
    requires NetOk(k) && n < |k.nodes| && OffersOnly(k.nodes[n].hub, h', k.nextUid)
    ensures NetOk(Originate(k, n, h', a))
  {
    NumberedOk(k, n, h');
    var e := Envelope(ChannelName(a), k.nodes[n].id, k.nextUid);
    forall m | 0 <= m < |k.nodes| ensures NewsTo(At(k, n, h').nodes[m], e) {
      if m != n { assert Unseen(k.nodes[m].hub, k.nextUid); }
    }
  }

  lemma InsideOk(acls: AclTable, k: Net, n: nat, s: Step)
    requires NetOk(k) && CanStep(k, Inside(n, s))
    ensures NetOk(NetNext(acls, k, Inside(n, s)))
  {
    var h, h' := k.nodes[n].hub, Next(acls, k.nodes[n].hub, s);
    forall c, u ensures Seen(h', c, u) == Seen(h, c, u) {
      InsideSeen(acls, h, s, c, u);
    }
    assert forall u :: Unseen(h, u) ==> Unseen(h', u);
    assert AtMostOnce(h') by { assert AtMostOnce(h); }
  }

  lemma SayOk(acls: AclTable, k: Net, s: NetStep)
    requires NetOk(k) && CanStep(k, s) && (s.SayAll? || s.SayRoom? || s.SayUser?)
    ensures NetOk(NetNext(acls, k, s))
  {
    var h := k.nodes[s.node].hub;
    var u := k.nextUid;
    assert Unseen(h, u);
    match s
    case SayAll(n) =>
      FreshOffer(h, Targets(h, BroadcastAll(Tracked(u))), u);
      OriginateOk(k, n, Next(acls, h, BroadcastAll(Tracked(u))), Everyone);
    case SayRoom(n, t, x) =>
      var step := DeliverRoom(t, x, Tracked(u));
      FreshOffer(h, Targets(h, step), u);
      var o := OfferAll(h, Targets(h, step), Tracked(u));
      assert forall c, v :: Seen(Next(acls, h, step), c, v) == Seen(o, c, v);
      OriginateOk(k, n, Next(acls, h, step), RoomOf(h.captures[t].room));
    case SayUser(n, user) =>
      if user in h.clients {
        var step := SendToUser(user, Tracked(u));
        FreshOffer(h, Targets(h, step), u);
        NumberedOk(k, n, Next(acls, h, step));
      } else {
        assert OffersOnly(h, h, u) by { assert AtMostOnce(h); }
        OriginateOk(k, n, h, UserOf(user));
      }
  }

  lemma PublishOk(acls: AclTable, k: Net, e: Envelope)
    requires NetOk(k) && e in k.outbox
    ensures NetOk(NetNext(acls, k, Publish(e)))
    ensures NetOk(NetNext(acls, k, PublishFails(e)))
  {
    var k' := NetNext(acls, k, Publish(e));
    assert k'.published[|k.published|] == e;
    forall d | d in k'.bus ensures d.to < |k.nodes| && NewsTo(k.nodes[d.to], d.env)
                                   && d.env in k'.published && Matches(d.sub, d.env.channel)
    {
      if d in k.bus { assert d.env in k.published; }
    }
  }

  /** A node has at most one delivery of a message number coming. */
  lemma OneDelivery(k: Net, d: Delivery, d': Delivery)
    requires NumbersOk(k) && d in k.bus && d' in k.bus && d.to == d'.to && d.env.uid == d'.env.uid
    ensures d == d'
  {
    var i :| 0 <= i < |k.published| && k.published[i] == d.env;
    var j :| 0 <= j < |k.published| && k.published[j] == d'.env;
    NamesRoundTrip(Everyone, d.env.channel);
  }

  /** A foreign envelope is delivered: the other mail is still news. */
  lemma ForeignOk(acls: AclTable, k: Net, d: Delivery, h': Hub)
    requires NetOk(k) && d in k.bus && OffersOnly(k.nodes[d.to].hub, h', d.env.uid)
    ensures NetOk(At(k, d.to, h').(bus := k.bus - {d}))
  {
    var u := d.env.uid;
    var i :| 0 <= i < |k.published| && k.published[i] == d.env;
    OffersOnlyKeeps(k, d.to, h', u);
    var k' := At(k, d.to, h').(bus := k.bus - {d});
    forall x | x in k'.bus ensures NewsTo(k'.nodes[x.to], x.env) {
      if x.env.uid == u {
        if x.to == d.to { OneDelivery(k, x, d); }
        assert k'.nodes[x.to] == k.nodes[x.to];
      }
    }
  }

  lemma ReceiveOk(acls: AclTable, k: Net, d: Delivery)
    requires NetOk(k) && CanStep(k, Receive(d))
    ensures NetOk(NetNext(acls, k, Receive(d)))
  {
    var node := k.nodes[d.to];
    var u := d.env.uid;
    var h' := HandleIncoming(node.hub, node.id, d.env.channel, d.env.origin, Tracked(u));
    if node.id == d.env.origin || Dispatch(d.env.channel).None? {
      assert At(k, d.to, h').nodes == k.nodes;
    } else {
      assert NewsTo(node, d.env) && Unseen(node.hub, u);
      FreshOffer(node.hub, Addressed(node.hub, Dispatch(d.env.channel).value), u);
      ForeignOk(acls, k, d, h');
    }
  }

  lemma StepKeepsNet(acls: AclTable, k: Net, s: NetStep)
    requires NetOk(k) && CanStep(k, s)
    ensures NetOk(NetNext(acls, k, s))
  {
    match s
    case Inside(n, step) => InsideOk(acls, k, n, step);
    case Publish(e) => PublishOk(acls, k, e);
    case PublishFails(e) => PublishOk(acls, k, e);
    case Receive(d) => ReceiveOk(acls, k, d);
    case Lose(d) =>
    case _ => SayOk(acls, k, s);
  }

  lemma {:induction false} NetRunsOk(acls: AclTable, ids: seq<string>, trace: seq<NetStep>)
    requires Legal(acls, ids, trace)
    ensures NetOk(Exec(acls, ids, trace))
  {
    if trace != [] {
      var p := trace[..|trace| - 1];
      NetRunsOk(acls, ids, p);
      StepKeepsNet(acls, Exec(acls, ids, p), trace[|trace| - 1]);
    }
  }

  /** In every run of any number of nodes: no message is offered twice to any client's queue, on
      any node, and no message is published twice, so receiving never publishes again. */
  lemma {:induction false} OfferedAtMostOnce(acls: AclTable, ids: seq<string>, trace: seq<NetStep>)
    requires Legal(acls, ids, trace)
    ensures
      var k := Exec(acls, ids, trace);
      && (forall n, c, u :: 0 <= n < |k.nodes| ==> Seen(k.nodes[n].hub, c, u) <= 1)
      && (forall i, j :: 0 <= i < j < |k.published| ==> k.published[i].uid != k.published[j].uid)
  {
    NetRunsOk(acls, ids, trace);
    var k := Exec(acls, ids, trace);
    forall n, c, u | 0 <= n < |k.nodes| ensures Seen(k.nodes[n].hub, c, u) <= 1 {
      assert AtMostOnce(k.nodes[n].hub);
    }
  }

  /** What a received envelope does: at a node with another id, every addressed client with an open
      channel has then been offered the message exactly once; at a node with the publisher's id,
      nothing happens. */
  lemma {:induction false} ReceiveReaches(acls: AclTable, ids: seq<string>, trace: seq<NetStep>, d: Delivery,
                                          a: Audience, c: nat)
    requires Legal(acls, ids, trace) && CanStep(Exec(acls, ids, trace), Receive(d))
    requires d.env.channel == ChannelName(a)
    ensures
      var k := Exec(acls, ids, trace);
      var node := k.nodes[d.to];
      var k' := NetNext(acls, k, Receive(d));
      && (node.id == d.env.origin ==> k'.nodes == k.nodes)
      && (node.id != d.env.origin ==>
            Seen(k'.nodes[d.to].hub, c, d.env.uid)
            == if c in Addressed(node.hub, a) && c in node.hub.conns && !Closed(node.hub.conns[c].pipe) then 1 else 0)
  {
    NetRunsOk(acls, ids, trace);
    var k := Exec(acls, ids, trace);
    var node := k.nodes[d.to];
    assert NewsTo(node, d.env);
    NamesRoundTrip(a, d.env.channel);
    if node.id != d.env.origin {
      OfferAllSeen(node.hub, Addressed(node.hub, a), Tracked(d.env.uid), c, d.env.uid);
      assert Seen(node.hub, c, d.env.uid) == 0;
    }
  }

  // ---- Rooms without a local member ----

  ghost predicate HubsSound(k: Net) {
    forall n :: 0 <= n < |k.nodes| ==> HubSafety.Sound(k.nodes[n].hub)
  }

  lemma ReceiveSound(h: Hub, nodeId: string, channel: string, origin: string, m: Msg)
    requires HubSafety.Sound(h)
    ensures HubSafety.Sound(HandleIncoming(h, nodeId, channel, origin, m))
  {
    if origin != nodeId && Dispatch(channel).Some? {
      var targets := Addressed(h, Dispatch(channel).value);
      HubSafety.OfferAllEffect(h, targets, m);
      HubSafety.PipesAside(h, OfferAll(h, targets, m));
    }
  }

  lemma StepKeepsHubsSound(acls: AclTable, k: Net, s: NetStep)
    requires HubsSound(k) && CanStep(k, s)
    ensures HubsSound(NetNext(acls, k, s))
  {
    var u := k.nextUid;
    match s
    case Inside(n, step) => HubSafety.StepKeepsSound(acls, k.nodes[n].hub, step);
    case SayAll(n) => HubSafety.StepKeepsSound(acls, k.nodes[n].hub, BroadcastAll(Tracked(u)));
    case SayRoom(n, t, x) => HubSafety.StepKeepsSound(acls, k.nodes[n].hub, DeliverRoom(t, x, Tracked(u)));
    case SayUser(n, user) => HubSafety.StepKeepsSound(acls, k.nodes[n].hub, SendToUser(user, Tracked(u)));
    case Receive(d) =>
      ReceiveSound(k.nodes[d.to].hub, k.nodes[d.to].id, d.env.channel, d.env.origin, Tracked(d.env.uid));
    case _ =>
  }

  lemma {:induction false} NetRunsSound(acls: AclTable, ids: seq<string>, trace: seq<NetStep>)
    requires Legal(acls, ids, trace)
    ensures HubsSound(Exec(acls, ids, trace))
  {
    if trace != [] {
      var p := trace[..|trace| - 1];
      NetRunsSound(acls, ids, p);
      StepKeepsHubsSound(acls, Exec(acls, ids, p), trace[|trace| - 1]);
    }
  }

  /** A run may go on with any possible step. */
  lemma {:induction false} Extend(acls: AclTable, ids: seq<string>, trace: seq<NetStep>, s: NetStep)
    requires Legal(acls, ids, trace) && CanStep(Exec(acls, ids, trace), s)
    ensures Legal(acls, ids, trace + [s])
    ensures Exec(acls, ids, trace + [s]) == NetNext(acls, Exec(acls, ids, trace), s)
  {
    assert (trace + [s])[..|trace|] == trace;
  }

  /** In every run: a room broadcast gets past its first lock, and so to the bus, if and only if the
      room has a member on the broadcasting node; otherwise the first half changes nothing at all. */
  lemma {:induction false} RoomBroadcastNeedsLocalMember(acls: AclTable, ids: seq<string>, trace: seq<NetStep>,
                                                         n: nat, job: nat, room: string, exclude: string)
    requires Legal(acls, ids, trace) && CanStep(Exec(acls, ids, trace), Inside(n, CaptureRoom(job, room)))
    ensures
      var k := Exec(acls, ids, trace);
      var k' := NetNext(acls, k, Inside(n, CaptureRoom(job, room)));
      && (CanStep(k', SayRoom(n, job, exclude)) <==> Members(k.nodes[n].hub, room) != {})
      && (Members(k.nodes[n].hub, room) == {} ==> k' == k)
  {
    NetRunsSound(acls, ids, trace);
    var k := Exec(acls, ids, trace);
    assert HubSafety.Sound(k.nodes[n].hub);
    var h := k.nodes[n].hub;
    if Members(h, room) == {} {
      assert room !in h.rooms;
      assert At(k, n, h).nodes == k.nodes;
    }
  }

  lemma LastLeaves(acls: AclTable, h: Hub, c: nat, room: string, job: nat)
    requires HubSafety.Sound(h) && Enabled(h, LeaveHub(c)) && h.conns[c].read == Leaving(room)
    requires Members(h, room) == {c} && job !in h.captures
    ensures
      var h' := Next(acls, h, LeaveHub(c));
      Enabled(h', CaptureRoom(job, room)) && Members(h', room) == {}
  {
    HubSafety.LeaveMembers(h, room, c);
    HubSafety.SameMembers(LeaveRoom(h, room, c), Next(acls, h, LeaveHub(c)));
  }

  lemma {:induction false} LastLeavesSoundly(acls: AclTable, ids: seq<string>, trace: seq<NetStep>,
                                             n: nat, c: nat, room: string, job: nat)
    requires Legal(acls, ids, trace) && CanStep(Exec(acls, ids, trace), Inside(n, LeaveHub(c)))
    requires
      var h := Exec(acls, ids, trace).nodes[n].hub;
      h.conns[c].read == Leaving(room) && Members(h, room) == {c} && job !in h.captures
    ensures
      var t := trace + [Inside(n, LeaveHub(c))];
      && Legal(acls, ids, t) && Exec(acls, ids, t) == NetNext(acls, Exec(acls, ids, trace), Inside(n, LeaveHub(c)))
      && CanStep(Exec(acls, ids, t), Inside(n, CaptureRoom(job, room)))
      && Members(Exec(acls, ids, t).nodes[n].hub, room) == {}
  {
    NetRunsSound(acls, ids, trace);
    LastLeaves(acls, Exec(acls, ids, trace).nodes[n].hub, c, room, job);
    AfterInside(acls, ids, trace, n, LeaveHub(c));
  }

  /** So in every run, when the last local member of a room leaves it, the news of that can be
      broadcast by nobody on this node, whoever is in the room elsewhere. */
  lemma {:induction false} LastToLeaveIsNotAnnounced(acls: AclTable, ids: seq<string>, trace: seq<NetStep>,
                                                     n: nat, c: nat, room: string, job: nat, exclude: string)
    requires Legal(acls, ids, trace) && CanStep(Exec(acls, ids, trace), Inside(n, LeaveHub(c)))
    requires
      var h := Exec(acls, ids, trace).nodes[n].hub;
      h.conns[c].read == Leaving(room) && Members(h, room) == {c} && job !in h.captures
    ensures
      var k := Exec(acls, ids, trace);
      var t := trace + [Inside(n, LeaveHub(c))] + [Inside(n, CaptureRoom(job, room))];
      && Legal(acls, ids, t)
      && var k' := Exec(acls, ids, t);
         && k' == NetNext(acls, k, Inside(n, LeaveHub(c))) && k'.outbox == k.outbox && k'.bus == k.bus
         && !CanStep(k', SayRoom(n, job, exclude))
  {
    LastLeavesSoundly(acls, ids, trace, n, c, room, job);
    NothingCaptured(acls, ids, trace + [Inside(n, LeaveHub(c))], n, job, room, exclude);
  }

  lemma {:induction false} AfterInside(acls: AclTable, ids: seq<string>, trace: seq<NetStep>, n: nat, step: Step)
    requires Legal(acls, ids, trace) && CanStep(Exec(acls, ids, trace), Inside(n, step))
    ensures
      var k, t := Exec(acls, ids, trace), trace + [Inside(n, step)];
      && Legal(acls, ids, t)
      && var k' := Exec(acls, ids, t);
         && k' == NetNext(acls, k, Inside(n, step)) && k'.outbox == k.outbox && k'.bus == k.bus
         && n < |k'.nodes| && k'.nodes[n].hub == Next(acls, k.nodes[n].hub, step)
  {
    Extend(acls, ids, trace, Inside(n, step));
  }

  lemma {:induction false} NothingCaptured(acls: AclTable, ids: seq<string>, trace: seq<NetStep>,
                                           n: nat, job: nat, room: string, exclude: string)
    requires Legal(acls, ids, trace) && CanStep(Exec(acls, ids, trace), Inside(n, CaptureRoom(job, room)))
    requires Members(Exec(acls, ids, trace).nodes[n].hub, room) == {}
    ensures
      var t := trace + [Inside(n, CaptureRoom(job, room))];
      && Legal(acls, ids, t) && Exec(acls, ids, t) == Exec(acls, ids, trace)
      && !CanStep(Exec(acls, ids, t), SayRoom(n, job, exclude))
  {
    RoomBroadcastNeedsLocalMember(acls, ids, trace, n, job, room, exclude);
    Extend(acls, ids, trace, Inside(n, CaptureRoom(job, room)));
  }

  /** Such a run: the only member of a room is on the second node, and a broadcast to that room on
      the first node ends with no envelope for the bus. */
  lemma UnheardElsewhere()
    ensures
      var t := [Inside(1, Connect(0, "u", "", "k", None, "r"))] + [Inside(1, JoinHub(0))]
            + [Inside(0, CaptureRoom(0, "r"))];
      && Legal(map[], ["a", "b"], t)
      && var k := Exec(map[], ["a", "b"], t);
         && |k.nodes| == 2 && Members(k.nodes[1].hub, "r") == {0}
         && (forall x :: !CanStep(k, SayRoom(0, 0, x))) && k.outbox == {} && k.bus == {}
  {
    var acls: AclTable, ids := map[], ["a", "b"];
    var connect := Inside(1, Connect(0, "u", "", "k", None, "r"));
    var k0 := NewNet(ids);
    assert Legal(acls, ids, []) && Exec(acls, ids, []) == k0;
    Extend(acls, ids, [], connect);
    assert [] + [connect] == [connect];
    Extend(acls, ids, [connect], Inside(1, JoinHub(0)));
    var t2 := [connect] + [Inside(1, JoinHub(0))];
    var k2 := Exec(acls, ids, t2);
    assert Members(k2.nodes[0].hub, "r") == {};
    RoomBroadcastNeedsLocalMember(acls, ids, t2, 0, 0, "r", "");
    Extend(acls, ids, t2, Inside(0, CaptureRoom(0, "r")));
  }
}
