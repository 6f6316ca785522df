/** What an SSE stream carries, in order and with its data: the replay, the connected line, then the
    events offered while it was listed that found room, over every run of the broker. */
module SseOrder {
  import opened Replay
  import opened SseModel
  import opened SseTheorems

  /** A stream's history in the order it happened: what its replay read, the connected line, the
      events written live, the offers that found room, and those that did not. */
  datatype Flow = Flow(
    replayed: seq<Item>, hello: seq<Item>, live: seq<Item>, accepted: seq<Item>, refused: seq<Item>)

  const NoFlow := Flow([], [], [], [], [])

  /** The subscriber is listed: its handler has not returned and its key was not dropped. */
  predicate Listed(b: Broker, c: nat) {
    c in b.subs && !b.subs[c].unsubscribed && b.subs[c].hits == 0
  }

  /** An offer is accepted if fewer than 64 events wait. */
  function Offered(b: Broker, c: nat, f: Flow, item: Item): Flow
    requires c in b.subs
  {
    if |b.subs[c].events| < 64 then f.(accepted := f.accepted + [item]) else f.(refused := f.refused + [item])
  }

  function AsItems(entries: seq<Entry>): (r: seq<Item>)
    ensures |r| == |entries| && forall i :: 0 <= i < |entries| ==> r[i] == Item(entries[i].id, entries[i].data)
  {
    seq(|entries|, i requires 0 <= i < |entries| => Item(entries[i].id, entries[i].data))
  }

  /** The events on some lines. */
  function OnLines(lines: seq<Line>): (r: seq<Item>)
    ensures |r| == |lines| && forall i :: 0 <= i < |lines| ==> r[i] == Item(lines[i].id, lines[i].data)
  {
    seq(|lines|, i requires 0 <= i < |lines| => Item(lines[i].id, lines[i].data))
  }

  function Flowed(b: Broker, s: Step, c: nat, f: Flow): Flow
    requires Enabled(b, s)
  {
    match s
    case Publish(channel, data) =>
      if Listed(b, c) && b.subs[c].channel == channel then Offered(b, c, f, Item(b.eventId + 1, data)) else f
    case PublishAll(data) => if Listed(b, c) then Offered(b, c, f, Item(0, data)) else f
    case ReadReplay(d, last) =>
      if d == c then f.(replayed := AsItems(Since(Buffer(b, b.subs[c].channel), last))) else f
    case Hello(d) => if d == c then f.(hello := [Item(0, "connected")]) else f
    case LiveWrite(d) => if d == c then f.(live := f.live + [b.subs[c].events[0]]) else f
    case _ => f
  }

  ghost function FlowOf(limit: nat, trace: seq<Step>, c: nat): Flow
    requires limit >= 1 && Legal(limit, trace)
  {
    if trace == [] then NoFlow
    else
      var p := trace[..|trace| - 1];
      Flowed(Exec(limit, p), trace[|trace| - 1], c, FlowOf(limit, p, c))
  }

  /** Live events followed by the queue are the accepted offers; the stream is replay, connected line
      and live events. */
  ghost predicate InOrder(s: Sub, f: Flow) {
    && f.live + s.events == f.accepted
    && s.dropped == f.refused
    && OnLines(s.written) == f.replayed + f.hello + f.live
    && (s.stage.Opening? ==> f.replayed == [] && f.hello == [] && f.live == [])
    && (s.stage.Replayed? ==> f.hello == [] && f.live == [])
    && (s.stage.Live? ==> f.hello == [Item(0, "connected")])
  }

  ghost predicate Flows(b: Broker, c: nat, f: Flow) {
    if c in b.subs then InOrder(b.subs[c], f) else f == NoFlow
  }

  lemma FedInOrder(b: Broker, c: nat, f: Flow, item: Item)
    requires c in b.subs && InOrder(b.subs[c], f)
    ensures InOrder(Fed(b.subs[c], item), Offered(b, c, f, item))
  {
    var s := b.subs[c];
    assert f.live + (s.events + [item]) == f.live + s.events + [item];
  }

  lemma ReplayInOrder(s: Sub, f: Flow, entries: seq<Entry>)
    requires InOrder(s, f) && s.stage.Opening?
    ensures InOrder(s.(stage := Replayed, written := s.written + Lines(entries)), f.(replayed := AsItems(entries)))
  {
    assert OnLines(s.written) == [];
    assert s.written == [] && s.written + Lines(entries) == Lines(entries);
    assert OnLines(Lines(entries)) == AsItems(entries);
    assert AsItems(entries) + [] + [] == AsItems(entries);
  }

  lemma HelloInOrder(s: Sub, f: Flow, tag: nat)
    requires InOrder(s, f) && !s.stage.Live?
    ensures InOrder(s.(stage := Live, written := s.written + [Line(tag, 0, "connected")]),
                    f.(hello := [Item(0, "connected")]))
  {
    var line := Line(tag, 0, "connected");
    assert OnLines(s.written + [line]) == OnLines(s.written) + [Item(0, "connected")];
    assert f.replayed + [] + [] == f.replayed;
    assert f.replayed + [Item(0, "connected")] + [] == f.replayed + [Item(0, "connected")];
  }

  lemma WriteInOrder(s: Sub, f: Flow, tag: nat)
    requires InOrder(s, f) && s.stage.Live? && s.events != []
    ensures
      var item := s.events[0];
      InOrder(s.(events := s.events[1..], written := s.written + [Line(tag, item.id, item.data)]),
              f.(live := f.live + [item]))
  {
    var item := s.events[0];
    assert s.events == [item] + s.events[1..];
    assert f.live + ([item] + s.events[1..]) == f.live + [item] + s.events[1..];
    assert OnLines(s.written + [Line(tag, item.id, item.data)]) == OnLines(s.written) + [item];
    assert f.replayed + f.hello + f.live + [item] == f.replayed + f.hello + (f.live + [item]);
  }

  lemma StreamFlows(limit: nat, b: Broker, s: Step, c: nat, f: Flow)
    requires limit >= 1 && Enabled(b, s) && Flows(b, c, f) && (s.ReadReplay? || s.Hello? || s.LiveWrite?)
    ensures Flows(Next(limit, b, s), c, Flowed(b, s, c, f))
  {
    if s.client == c {
      match s
      case ReadReplay(_, last) => ReplayInOrder(b.subs[c], f, Since(Buffer(b, b.subs[c].channel), last));
      case Hello(_) => HelloInOrder(b.subs[c], f, b.eventId);
      case LiveWrite(_) => WriteInOrder(b.subs[c], f, b.eventId);
    }
  }

  /** Who is offered a publish: exactly the listed subscribers of the channel, or all listed ones. */
  lemma PublishOffers(limit: nat, b: Broker, s: Step, c: nat)
    requires limit >= 1 && Enabled(b, s) && PlacesOk(b) && (s.Publish? || s.PublishAll?) && c in b.subs
    ensures
      var b' := Next(limit, b, s);
      var item := if s.Publish? then Item(b.eventId + 1, s.data) else Item(0, s.data);
      && c in b'.subs
      && b'.subs[c] == if Listed(b, c) && (s.PublishAll? || b.subs[c].channel == s.channel)
                       then Fed(b.subs[c], item) else b.subs[c]
  {
    EveryoneIsPlaced(b);
  }

  lemma PublishFlows(limit: nat, b: Broker, s: Step, c: nat, f: Flow)
    requires limit >= 1 && Enabled(b, s) && PlacesOk(b) && Flows(b, c, f) && (s.Publish? || s.PublishAll?)
    ensures Flows(Next(limit, b, s), c, Flowed(b, s, c, f))
  {
    if c in b.subs {
      PublishOffers(limit, b, s, c);
      FedInOrder(b, c, f, if s.Publish? then Item(b.eventId + 1, s.data) else Item(0, s.data));
    }
  }

  lemma SameInOrder(x: Sub, y: Sub, f: Flow)
    requires InOrder(x, f) && SameStream(x, y)
    ensures InOrder(y, f)
  {
  }

  lemma QuietFlows(limit: nat, b: Broker, s: Step, c: nat, f: Flow)
    requires limit >= 1 && Enabled(b, s) && Flows(b, c, f) && (s.Subscribe? || s.Unsubscribe? || s.DisconnectKey?)
    ensures Flows(Next(limit, b, s), c, Flowed(b, s, c, f))
  {
    var b' := Next(limit, b, s);
    QuietSubs(limit, b, s, c);
    if c in b.subs {
      SameInOrder(b.subs[c], b'.subs[c], f);
    } else if c in b'.subs {
      assert b'.subs[c].stage.Opening?;
      assert OnLines([]) == [];
    }
  }

  /** Over every run, for every subscriber: its stream is what its replay read, the connected line and
      then events with their data; those and the queue, in this order, are exactly the publishes to its
      channel and the broadcasts made while it was listed that found fewer than 64 events waiting; and
      the others were dropped, in their order. */
  lemma {:induction false} StreamsAreInOrder(limit: nat, trace: seq<Step>, c: nat)
    requires limit >= 1 && Legal(limit, trace)
    ensures Flows(Exec(limit, trace), c, FlowOf(limit, trace, c))
  {
    if trace != [] {
      var p, s := trace[..|trace| - 1], trace[|trace| - 1];
      var b, f := Exec(limit, p), FlowOf(limit, p, c);
      StreamsAreInOrder(limit, p, c);
      if s.Publish? || s.PublishAll? {
        AccountsOverRuns(limit, p);
        PublishFlows(limit, b, s, c, f);
      } else if s.ReadReplay? || s.Hello? || s.LiveWrite? {
        StreamFlows(limit, b, s, c, f);
      } else {
        QuietFlows(limit, b, s, c, f);
      }
    }
  }

  // ---- Where a subscriber comes from ----

  lemma StepKeepsOrigin(limit: nat, b: Broker, s: Step, c: nat)
    requires limit >= 1 && Enabled(b, s) && c in Next(limit, b, s).subs
    ensures
      var sub := Next(limit, b, s).subs[c];
      if c in b.subs then sub.channel == b.subs[c].channel && sub.key == b.subs[c].key
      else s == Subscribe(c, sub.channel, sub.key)
  {
    if s.Unsubscribe? {
      assert Removed(b, b.subs[s.client].channel, s.client).subs == b.subs;
    }
  }

  /** Over every run, a subscriber has the channel and the key it subscribed with; so a key drop closes
      exactly the streams that came with that key. */
  lemma {:induction false} SubscribersHaveAnOrigin(limit: nat, trace: seq<Step>, c: nat)
    requires limit >= 1 && Legal(limit, trace) && c in Exec(limit, trace).subs
    ensures
      var sub := Exec(limit, trace).subs[c];
      exists i :: 0 <= i < |trace| && trace[i] == Subscribe(c, sub.channel, sub.key)
  {
    var p, s := trace[..|trace| - 1], trace[|trace| - 1];
    var b := Exec(limit, p);
    StepKeepsOrigin(limit, b, s, c);
    if c in b.subs {
      SubscribersHaveAnOrigin(limit, p, c);
      var i :| 0 <= i < |p| && p[i] == Subscribe(c, b.subs[c].channel, b.subs[c].key);
      assert trace[i] == p[i];
    } else {
      assert trace[|trace| - 1] == s;
    }
  }
}
