/** The WebSocket hub as a step machine.  Client pointers are connection numbers, and the member
    sets that rooms point to are numbered cells, so that a set captured by a broadcast can be told
    apart from the room's set at a later moment.  A step is one critical section of the hub lock
    or one action of a goroutine between two of them. */
module HubModel {
  import opened SendQueue
  import opened Access

  /** Where a connection's read loop stands.  `Idle` is between two messages; `Admitted` is past
      the checks of a join; `Joining` and `Leaving` have changed the client's own room set and not
      yet the hub's; `Stopped` has left the loop and waits to be unregistered. */
  datatype ReadPc = Idle | Admitted(room: string) | Joining(room: string) | Leaving(room: string) | Stopped

  datatype Conn = Conn(
    user: string,
    key: string,
    claims: Option<Claims>,
    own: set<string>,     // the client's own copy of its rooms
    read: ReadPc,
    registered: bool,     // the hub has taken it from the Register channel
    unregistered: bool,   // the hub has taken it from the Unregister channel
    pipe: Pipe)

  /** A member set, with the room it was made for. */
  datatype RoomSet = RoomSet(room: string, members: set<nat>)

  /** A room broadcast between its two locked halves. */
  datatype Capture = Capture(room: string, cell: nat)

  /** The hub goroutine: at its select, or about to greet the client it just registered. */
  datatype LoopPc = Ready | Greeting(conn: nat)

  datatype Hub = Hub(
    conns: map<nat, Conn>,
    clients: map<string, nat>,
    rooms: map<string, nat>,
    sets: seq<RoomSet>,
    captures: map<nat, Capture>,
    loop: LoopPc,
    crashed: bool)        // a send on a closed channel or a second close: the process is gone

  const NewHub := Hub(map[], map[], map[], [], map[], Ready, false)

  // ---- Operations under the lock ----

  function Cell(h: Hub, i: nat): set<nat> {
    if i < |h.sets| then h.sets[i].members else {}
  }

  function WithCell(h: Hub, i: nat, members: set<nat>): Hub {
    if i < |h.sets| then h.(sets := h.sets[i := h.sets[i].(members := members)]) else h
  }

  function Members(h: Hub, room: string): set<nat> {
    if room in h.rooms then Cell(h, h.rooms[room]) else {}
  }

  predicate SendsOnClosed(h: Hub, targets: set<nat>) {
    exists c :: c in targets && c in h.conns && Closed(h.conns[c].pipe)
  }

  /** A non-blocking send to each target.  (After a panic the remaining sends are immaterial.) */
  function OfferAll(h: Hub, targets: set<nat>, m: Msg): Hub {
    h.(conns := map c | c in h.conns ::
                  if c in targets && !Closed(h.conns[c].pipe)
                  then h.conns[c].(pipe := Offered(h.conns[c].pipe, m)) else h.conns[c],
       crashed := h.crashed || SendsOnClosed(h, targets))
  }

  function With(h: Hub, c: nat, conn: Conn): Hub { h.(conns := h.conns[c := conn]) }

  function CloseSend(h: Hub, c: nat): Hub {
    if c !in h.conns then h
    else if Closed(h.conns[c].pipe) then h.(crashed := true)
    else With(h, c, h.conns[c].(pipe := Shut(h.conns[c].pipe)))
  }

  function JoinRoom(h: Hub, room: string, c: nat): Hub {
    if room in h.rooms then WithCell(h, h.rooms[room], Members(h, room) + {c})
    else h.(rooms := h.rooms[room := |h.sets|], sets := h.sets + [RoomSet(room, {c})])
  }

  /** `c` leaves each of `rooms`, and rooms it leaves empty are deleted. */
  function LeaveAll(h: Hub, rooms: set<string>, c: nat): Hub {
    h.(rooms := map r | r in h.rooms && !(r in rooms && Members(h, r) - {c} == {}) :: h.rooms[r],
       sets := seq(|h.sets|, i requires 0 <= i < |h.sets| =>
                 var s := h.sets[i];
                 if s.room in rooms && s.room in h.rooms && h.rooms[s.room] == i
                 then s.(members := s.members - {c}) else s))
  }

  function LeaveRoom(h: Hub, room: string, c: nat): Hub { LeaveAll(h, {room}, c) }

  /** The holder of a user id is told and its channel closed. */
  function Kicked(h: Hub, user: string): Hub {
    if user !in h.clients then h
    else CloseSend(OfferAll(h, {h.clients[user]}, Local("connected from another location")), h.clients[user])
  }

  function RegisterClient(h: Hub, c: nat): Hub
    requires c in h.conns
  {
    var u := h.conns[c].user;
    var k := Kicked(h, u);
    With(k, c, k.conns[c].(registered := true)).(clients := h.clients[u := c], loop := Greeting(c))
  }

  /** The client map entry and the room memberships of a connection are removed. */
  function Evicted(h: Hub, c: nat): Hub
    requires c in h.conns
  {
    LeaveAll(h.(clients := h.clients - {h.conns[c].user}), h.conns[c].own, c)
  }

  function UnregisterClient(h: Hub, c: nat): Hub
    requires c in h.conns
  {
    var e := if h.conns[c].user in h.clients then CloseSend(Evicted(h, c), c) else h;
    With(e, c, e.conns[c].(unregistered := true))
  }

  function NotNamed(h: Hub, cs: set<nat>, user: string): set<nat> {
    set c | c in cs && c in h.conns && h.conns[c].user != user
  }

  // ---- Steps ----

  datatype Step =
    | Connect(conn: nat, clientId: string, anon: string, key: string, claims: Option<Claims>, channel: string)
    | JoinHub(conn: nat)
    | Register(conn: nat)
    | Greet
    | AskJoin(conn: nat, room: string)
    | JoinOwn(conn: nat)
    | LeaveOwn(conn: nat, room: string)
    | LeaveHub(conn: nat)
    | Reply(conn: nat, msg: Msg)
    | CaptureRoom(job: nat, room: string)
    | DeliverRoom(job: nat, exclude: string, msg: Msg)
    | BroadcastAll(msg: Msg)
    | PublishRoom(room: string, msg: Msg)
    | SendToUser(user: string, msg: Msg)
    | StopReading(conn: nat)
    | Unregister(conn: nat)
    | WriteMove(conn: nat, move: Move)

  /** What the control flow of the goroutines allows: a connection sends itself to Register once
      and to Unregister once, the latter after its read loop ended; the hub goroutine finishes one
      case before the next. */
  predicate Enabled(h: Hub, s: Step) {
    !h.crashed &&
    match s
    case Connect(c, _, _, _, _, _) => c !in h.conns
    case JoinHub(c) => c in h.conns && h.conns[c].read.Joining?
    case Register(c) => c in h.conns && !h.conns[c].registered && h.loop.Ready?
    case Greet => h.loop.Greeting? && h.loop.conn in h.conns
    case AskJoin(c, _) => c in h.conns && h.conns[c].read.Idle?
    case JoinOwn(c) => c in h.conns && h.conns[c].read.Admitted?
    case LeaveOwn(c, room) => c in h.conns && h.conns[c].read.Idle? && room != ""
    case LeaveHub(c) => c in h.conns && h.conns[c].read.Leaving?
    case Reply(c, _) => c in h.conns && !h.conns[c].read.Stopped?
    case CaptureRoom(t, _) => t !in h.captures
    case DeliverRoom(t, _, _) => t in h.captures
    case BroadcastAll(_) => true
    case PublishRoom(_, _) => true
    case SendToUser(_, _) => true
    case StopReading(c) => c in h.conns && h.conns[c].read.Idle?
    case Unregister(c) => c in h.conns && h.conns[c].read.Stopped? && !h.conns[c].unregistered && h.loop.Ready?
    case WriteMove(c, m) => c in h.conns && CanMove(h.conns[c].pipe, m)
  }

  /** The user a connection acts for: the token's, else the requested id, else an anonymous one. */
  function UserOf(clientId: string, anon: string, claims: Option<Claims>): string {
    var u := match claims case Some(c) => c.user case None => clientId;
    if u == "" then anon else u
  }

  predicate Passes(acls: AclTable, h: Hub, conn: Conn, room: string) {
    && room != ""
    && MayJoin(acls, room, conn.key, conn.user)
    && CheckMaxMembers(acls, room, |Members(h, room)|)
    && (conn.claims.Some? ==> HasChannelAccess(conn.claims, room, "read"))
  }

  /** Whom a sending step addresses, and with what. */
  function Targets(h: Hub, s: Step): set<nat>
    requires Enabled(h, s)
  {
    match s
    case Greet => {h.loop.conn}
    case Reply(c, _) => {c}
    case DeliverRoom(t, exclude, _) => NotNamed(h, Cell(h, h.captures[t].cell), exclude)
    case BroadcastAll(_) => h.clients.Values
    case PublishRoom(room, _) => Members(h, room)
    case SendToUser(user, _) => if user in h.clients then {h.clients[user]} else {}
    case _ => {}
  }

  function MessageOf(s: Step): Msg {
    match s
    case Reply(_, m) => m
    case DeliverRoom(_, _, m) => m
    case BroadcastAll(m) => m
    case PublishRoom(_, m) => m
    case SendToUser(_, m) => m
    case _ => Local("connected")
  }

  function Next(acls: AclTable, h: Hub, s: Step): Hub
    requires Enabled(h, s)
  {
    match s
    case Connect(c, clientId, anon, key, claims, channel) =>
      var user := UserOf(clientId, anon, claims);
      if channel == "" then With(h, c, Conn(user, key, claims, {}, Idle, false, false, NewPipe))
      else if (claims.Some? ==> HasChannelAccess(claims, channel, "read")) && MayJoin(acls, channel, key, user)
      then With(h, c, Conn(user, key, claims, {channel}, Joining(channel), false, false, NewPipe))
      else h
    case JoinHub(c) => With(JoinRoom(h, h.conns[c].read.room, c), c, h.conns[c].(read := Idle))
    case Register(c) => RegisterClient(h, c)
    case Greet => OfferAll(h, Targets(h, s), MessageOf(s)).(loop := Ready)
    case AskJoin(c, room) =>
      if Passes(acls, h, h.conns[c], room) then With(h, c, h.conns[c].(read := Admitted(room)))
      else OfferAll(h, {c}, Local("error"))
    case JoinOwn(c) =>
      var conn := h.conns[c];
      With(h, c, conn.(own := conn.own + {conn.read.room}, read := Joining(conn.read.room)))
    case LeaveOwn(c, room) =>
      var conn := h.conns[c];
      With(h, c, conn.(own := conn.own - {room}, read := Leaving(room)))
    case LeaveHub(c) => With(LeaveRoom(h, h.conns[c].read.room, c), c, h.conns[c].(read := Idle))
    case Reply(_, m) => OfferAll(h, Targets(h, s), m)
    case CaptureRoom(t, room) =>
      if room in h.rooms then h.(captures := h.captures[t := Capture(room, h.rooms[room])]) else h
    case DeliverRoom(t, _, m) => OfferAll(h, Targets(h, s), m).(captures := h.captures - {t})
    case BroadcastAll(m) => OfferAll(h, Targets(h, s), m)
    case PublishRoom(_, m) => OfferAll(h, Targets(h, s), m)
    case SendToUser(_, m) => OfferAll(h, Targets(h, s), m)
    case StopReading(c) => With(h, c, h.conns[c].(read := Stopped))
    case Unregister(c) => UnregisterClient(h, c)
    case WriteMove(c, m) => With(h, c, h.conns[c].(pipe := Moved(h.conns[c].pipe, m)))
  }

  /** The run hypothesis: a user id is not registered while it is held, and a connection is
      registered before it is unregistered. */
  predicate Orderly(h: Hub, s: Step) {
    match s
    case Register(c) => c in h.conns ==> h.conns[c].user !in h.clients
    case Unregister(c) => c in h.conns ==> h.conns[c].registered
    case _ => true
  }

  ghost predicate Legal(acls: AclTable, trace: seq<Step>)
    decreases |trace|, 0
  {
    trace == [] || (Legal(acls, trace[..|trace| - 1])
                    && Enabled(Exec(acls, trace[..|trace| - 1]), trace[|trace| - 1]))
  }

  ghost function Exec(acls: AclTable, trace: seq<Step>): Hub
    requires Legal(acls, trace)
    decreases |trace|, 1
  {
    if trace == [] then NewHub else Next(acls, Exec(acls, trace[..|trace| - 1]), trace[|trace| - 1])
  }

  ghost predicate OrderlyRun(acls: AclTable, trace: seq<Step>)
    requires Legal(acls, trace)
  {
    trace == [] || (OrderlyRun(acls, trace[..|trace| - 1])
                    && Orderly(Exec(acls, trace[..|trace| - 1]), trace[|trace| - 1]))
  }
}
