/** The SSE broker as a step machine, with Publish as one step: subscriptions, replay buffers,
    bounded subscriber queues and what each stream has written.  Subscriber pointers are numbers. */
module SseModel {
  import opened Replay

  /** A queued event; `id` 0 marks a broadcast to all channels, which takes no event id. */
  datatype Item = Item(id: nat, data: string)

  datatype Stage = Opening | Replayed | Live

  datatype Sub = Sub(
    channel: string,
    key: string,
    events: seq<Item>,      // the bounded queue
    dropped: seq<Item>,     // offers that found it full
    closes: nat,            // close attempts on Done
    hits: nat,              // closes by DisconnectKey
    unsubscribed: bool,     // the handler's deferred Unsubscribe has run
    stage: Stage,
    written: seq<Line>)

  datatype Broker = Broker(
    subs: map<nat, Sub>,
    clients: map<string, set<nat>>,
    replay: map<string, seq<Entry>>,
    eventId: nat)

  const NewBroker := Broker(map[], map[], map[], 0)

  /** A second close of Done panics.  Both closes are made by HTTP handlers, outside the lock for the
      stream's own, and the HTTP server recovers a handler's panic, so only that handler ends. */
  predicate Panicked(s: Sub) { s.closes > 1 }

  // ---- Operations under the locks ----

  /** The subscribers listed under some channels. */
  function Under(b: Broker, channels: set<string>): set<nat> {
    set ch, c | ch in channels && ch in b.clients && c in b.clients[ch] :: c
  }

  function Everyone(b: Broker): set<nat> { Under(b, b.clients.Keys) }

  function Listeners(b: Broker, channel: string): set<nat> {
    if channel in b.clients then b.clients[channel] else {}
  }

  function Buffer(b: Broker, channel: string): seq<Entry> {
    if channel in b.replay then b.replay[channel] else []
  }

  predicate HasRoom(b: Broker, c: nat) { c in b.subs && |b.subs[c].events| < EVENTS }

  function Fed(s: Sub, item: Item): Sub {
    if |s.events| < EVENTS then s.(events := s.events + [item]) else s.(dropped := s.dropped + [item])
  }

  /** A non-blocking send to each target. */
  function OfferEach(b: Broker, targets: set<nat>, item: Item): Broker {
    b.(subs := map c | c in b.subs :: if c in targets then Fed(b.subs[c], item) else b.subs[c])
  }

  function Delivered(b: Broker, targets: set<nat>): set<nat> {
    set c | c in targets && HasRoom(b, c)
  }

  function Recorded(b: Broker, limit: nat, channel: string, data: string): Broker
    requires limit >= 1
  {
    var e := Entry(b.eventId + 1, data);
    b.(eventId := b.eventId + 1, replay := b.replay[channel := Push(Buffer(b, channel), limit, e)])
  }

  function Published(b: Broker, limit: nat, channel: string, data: string): Broker
    requires limit >= 1
  {
    OfferEach(Recorded(b, limit, channel, data), Listeners(b, channel), Item(b.eventId + 1, data))
  }

  /** close(Done). */
  function CloseDone(b: Broker, c: nat): Broker {
    if c !in b.subs then b else b.(subs := b.subs[c := b.subs[c].(closes := b.subs[c].closes + 1)])
  }

  function Subscribed(b: Broker, c: nat, channel: string, key: string): Broker {
    b.(subs := b.subs[c := Sub(channel, key, [], [], 0, 0, false, Opening, [])],
       clients := b.clients[channel := Listeners(b, channel) + {c}])
  }

  function Removed(b: Broker, channel: string, c: nat): Broker {
    if channel !in b.clients then b
    else if b.clients[channel] - {c} == {} then b.(clients := b.clients - {channel})
    else b.(clients := b.clients[channel := b.clients[channel] - {c}])
  }

  function Unsubscribed(b: Broker, c: nat): Broker
    requires c in b.subs
  {
    var r := CloseDone(Removed(b, b.subs[c].channel, c), c);
    r.(subs := r.subs[c := r.subs[c].(unsubscribed := true)])
  }

  function KeyedIn(b: Broker, cs: set<nat>, key: string): set<nat> {
    set c | c in cs && c in b.subs && b.subs[c].key == key
  }

  function Hit(b: Broker, key: string): set<nat> { KeyedIn(b, Everyone(b), key) }

  /** Subscribers `gone` leave every channel and have their Done closed; emptied channels stay
      listed. */
  function Dropped(b: Broker, gone: set<nat>): Broker {
    b.(subs := map c | c in b.subs ::
                 if c in gone then b.subs[c].(closes := b.subs[c].closes + 1, hits := b.subs[c].hits + 1)
                 else b.subs[c],
       clients := map ch | ch in b.clients :: b.clients[ch] - gone)
  }

  /** One subscriber leaves its channel and has its Done closed. */
  function DropSub(b: Broker, channel: string, c: nat): Broker
    requires c in b.subs && channel in b.clients
  {
    b.(subs := b.subs[c := b.subs[c].(closes := b.subs[c].closes + 1, hits := b.subs[c].hits + 1)],
       clients := b.clients[channel := b.clients[channel] - {c}])
  }

  function Disconnected(b: Broker, key: string): Broker { Dropped(b, Hit(b, key)) }

  // ---- Steps ----

  datatype Step =
    | Subscribe(client: nat, channel: string, key: string)
    | ReadReplay(client: nat, last: nat)
    | Hello(client: nat)
    | LiveWrite(client: nat)
    | Unsubscribe(client: nat)
    | DisconnectKey(key: string)
    | Publish(channel: string, data: string)
    | PublishAll(data: string)

  /** The order of the stream handler: subscribe, maybe replay, the connected event, then live
      events until the deferred unsubscribe. */
  predicate Enabled(b: Broker, s: Step) {
    match s
    case Subscribe(c, _, _) => c !in b.subs
    case ReadReplay(c, last) => c in b.subs && !b.subs[c].unsubscribed && b.subs[c].stage.Opening? && last > 0
    case Hello(c) => c in b.subs && !b.subs[c].unsubscribed && !b.subs[c].stage.Live?
    case LiveWrite(c) => c in b.subs && !b.subs[c].unsubscribed && b.subs[c].stage.Live? && b.subs[c].events != []
    case Unsubscribe(c) => c in b.subs && !b.subs[c].unsubscribed
    case DisconnectKey(_) => true
    case Publish(_, _) => true
    case PublishAll(_) => true
  }

  function Lines(entries: seq<Entry>): (r: seq<Line>)
    ensures |r| == |entries|
    ensures forall i :: 0 <= i < |entries| ==> r[i] == Line(entries[i].id, entries[i].id, entries[i].data)
  {
    seq(|entries|, i requires 0 <= i < |entries| => Line(entries[i].id, entries[i].id, entries[i].data))
  }

  function With(b: Broker, c: nat, s: Sub): Broker { b.(subs := b.subs[c := s]) }

  function Next(limit: nat, b: Broker, s: Step): Broker
    requires limit >= 1 && Enabled(b, s)
  {
    match s
    case Subscribe(c, channel, key) => Subscribed(b, c, channel, key)
    case ReadReplay(c, last) =>
      var sub := b.subs[c];
      With(b, c, sub.(stage := Replayed, written := sub.written + Lines(Since(Buffer(b, sub.channel), last))))
    case Hello(c) =>
      var sub := b.subs[c];
      With(b, c, sub.(stage := Live, written := sub.written + [Line(b.eventId, 0, CONNECTED)]))
    case LiveWrite(c) =>
      var sub := b.subs[c];
      var line := Line(b.eventId, sub.events[0].id, sub.events[0].data);
      With(b, c, sub.(events := sub.events[1..], written := sub.written + [line]))
    case Unsubscribe(c) => Unsubscribed(b, c)
    case DisconnectKey(key) => Disconnected(b, key)
    case Publish(channel, data) => Published(b, limit, channel, data)
    case PublishAll(data) => OfferEach(b, Everyone(b), Item(0, data))
  }

  ghost predicate Legal(limit: nat, trace: seq<Step>)
    requires limit >= 1
    decreases |trace|, 0
  {
    trace == [] || (Legal(limit, trace[..|trace| - 1])
          && Enabled(Exec(limit, trace[..|trace| - 1]), trace[|trace| - 1]))
  }

  ghost function Exec(limit: nat, trace: seq<Step>): Broker
    requires limit >= 1 && Legal(limit, trace)
    decreases |trace|, 1
  {
    if trace == [] then NewBroker else Next(limit, Exec(limit, trace[..|trace| - 1]), trace[|trace| - 1])
  }
}
