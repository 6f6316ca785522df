/** What the SSE broker keeps over every run. */
module SseTheorems {
  import opened Replay
  import opened SseModel

  /** A run may go on with any enabled step. */
  lemma {:induction false} Extend(limit: nat, trace: seq<Step>, s: Step)
    requires limit >= 1 && Legal(limit, trace) && Enabled(Exec(limit, trace), s)
    ensures Legal(limit, trace + [s]) && Exec(limit, trace + [s]) == Next(limit, Exec(limit, trace), s)
  {
    assert (trace + [s])[..|trace|] == trace;
  }

  // ---- The replay buffer refines the log ----

  /** Everything a run published on a channel, with the ids it was given. */
  ghost function LogOf(limit: nat, trace: seq<Step>, channel: string): seq<Entry>
    requires limit >= 1 && Legal(limit, trace)
  {
    if trace == [] then []
    else
      var p := trace[..|trace| - 1];
      var s := trace[|trace| - 1];
      var log := LogOf(limit, p, channel);
      if s.Publish? && s.channel == channel then log + [Entry(Exec(limit, p).eventId + 1, s.data)] else log
  }

  lemma BufferStep(limit: nat, b: Broker, s: Step, channel: string)
    requires limit >= 1 && Enabled(b, s)
    ensures
      var b' := Next(limit, b, s);
      && b'.eventId == b.eventId + (if s.Publish? then 1 else 0)
      && Buffer(b', channel) == if s.Publish? && s.channel == channel
                                then Push(Buffer(b, channel), limit, Entry(b.eventId + 1, s.data))
                                else Buffer(b, channel)
  {
  }

  /** The buffer is the end of the log; the log's ids strictly increase up to the counter. */
  ghost predicate Refines(limit: nat, buf: seq<Entry>, log: seq<Entry>, eventId: nat) {
    && buf == Tail(log, limit)
    && Increasing(log)
    && forall i :: 0 <= i < |log| ==> 1 <= log[i].id <= eventId
  }

  lemma RefinesPush(limit: nat, buf: seq<Entry>, log: seq<Entry>, eventId: nat, data: string)
    requires limit >= 1 && Refines(limit, buf, log, eventId)
    ensures Refines(limit, Push(buf, limit, Entry(eventId + 1, data)), log + [Entry(eventId + 1, data)], eventId + 1)
  {
  }

  lemma PublishRefines(limit: nat, b: Broker, s: Step, log: seq<Entry>)
    requires limit >= 1 && s.Publish? && Enabled(b, s) && Refines(limit, Buffer(b, s.channel), log, b.eventId)
    ensures var b' := Next(limit, b, s);
            Refines(limit, Buffer(b', s.channel), log + [Entry(b.eventId + 1, s.data)], b'.eventId)
  {
    BufferStep(limit, b, s, s.channel);
    RefinesPush(limit, Buffer(b, s.channel), log, b.eventId, s.data);
  }

  lemma OtherRefines(limit: nat, b: Broker, s: Step, channel: string, log: seq<Entry>)
    requires limit >= 1 && Enabled(b, s) && Refines(limit, Buffer(b, channel), log, b.eventId)
    requires !(s.Publish? && s.channel == channel)
    ensures var b' := Next(limit, b, s); Refines(limit, Buffer(b', channel), log, b'.eventId)
  {
    BufferStep(limit, b, s, channel);
  }

  lemma {:induction false} BufferRefinesLog(limit: nat, trace: seq<Step>, channel: string)
    requires limit >= 1 && Legal(limit, trace)
    ensures
      var b := Exec(limit, trace);
      Refines(limit, Buffer(b, channel), LogOf(limit, trace, channel), b.eventId)
  {
    if trace != [] {
      var p, s := trace[..|trace| - 1], trace[|trace| - 1];
      var b, log := Exec(limit, p), LogOf(limit, p, channel);
      BufferRefinesLog(limit, p, channel);
      assert Exec(limit, trace) == Next(limit, b, s);
      if s.Publish? && s.channel == channel {
        PublishRefines(limit, b, s, log);
        assert LogOf(limit, trace, channel) == log + [Entry(b.eventId + 1, s.data)];
      } else {
        OtherRefines(limit, b, s, channel, log);
        assert LogOf(limit, trace, channel) == log;
      }
    }
  }

  /** So a replay is what filtering the whole log would give, exactly when at most `limit` newer
      events exist. */
  lemma {:induction false} ReplayMatchesLog(limit: nat, trace: seq<Step>, channel: string, last: nat)
    requires limit >= 1 && Legal(limit, trace)
    ensures
      var log := LogOf(limit, trace, channel);
      Since(Buffer(Exec(limit, trace), channel), last) == Since(log, last) <==> |Since(log, last)| <= limit
  {
    BufferRefinesLog(limit, trace, channel);
    ReplayIsExactIff(LogOf(limit, trace, channel), limit, last);
  }

  // ---- Streams ----

  /** Tags never decrease, stay at or above the id of the event they carry, and never pass the
      counter; what waits in the queue has been numbered already. */
  ghost predicate StreamOk(s: Sub, eventId: nat) {
    && (forall i, j :: 0 <= i < j < |s.written| ==> s.written[i].tag <= s.written[j].tag)
    && (forall i :: 0 <= i < |s.written| ==> s.written[i].id <= s.written[i].tag <= eventId)
    && (forall i :: 0 <= i < |s.events| ==> s.events[i].id <= eventId)
    && (s.stage.Opening? ==> s.written == [])
  }

  ghost predicate StreamsOk(b: Broker) {
    forall c :: c in b.subs ==> StreamOk(b.subs[c], b.eventId)
  }

  lemma {:induction false} SinceIncreasing(buf: seq<Entry>, last: nat, bound: nat)
    requires Increasing(buf) && forall i :: 0 <= i < |buf| ==> buf[i].id <= bound
    ensures Increasing(Since(buf, last)) && forall i :: 0 <= i < |Since(buf, last)| ==> Since(buf, last)[i].id <= bound
  {
    var less := (x: Entry, y: Entry) => x.id < y.id;
    SincePairwise(buf, last, less);
    assert Pairwise(Since(buf, last), less);
    SinceMembers(buf, last);
    forall i | 0 <= i < |Since(buf, last)| ensures Since(buf, last)[i].id <= bound {
      assert Since(buf, last)[i] in buf;
    }
  }

  lemma OfferEachStreams(b: Broker, targets: set<nat>, item: Item)
    requires StreamsOk(b) && item.id <= b.eventId
    ensures StreamsOk(OfferEach(b, targets, item))
  {
    var b' := OfferEach(b, targets, item);
    forall c | c in b'.subs ensures StreamOk(b'.subs[c], b'.eventId) {
      assert StreamOk(b.subs[c], b.eventId);
    }
  }

  lemma LaterStreams(b: Broker, r: Broker)
    requires StreamsOk(b) && r.subs == b.subs && r.eventId >= b.eventId
    ensures StreamsOk(r)
  {
    forall c | c in r.subs ensures StreamOk(r.subs[c], r.eventId) { assert StreamOk(b.subs[c], b.eventId); }
  }

  lemma PublishStreams(limit: nat, b: Broker, channel: string, data: string)
    requires limit >= 1 && StreamsOk(b)
    ensures StreamsOk(Published(b, limit, channel, data))
  {
    var r := Recorded(b, limit, channel, data);
    LaterStreams(b, r);
    assert Published(b, limit, channel, data) == OfferEach(r, Listeners(b, channel), Item(r.eventId, data));
    OfferEachStreams(r, Listeners(b, channel), Item(r.eventId, data));
  }

  /** Appending lines at or above everything written, and up to the counter. */
  lemma AppendLines(s: Sub, eventId: nat, lines: seq<Line>, events: seq<Item>, stage: Stage)
    requires StreamOk(s, eventId) && !stage.Opening?
    requires forall i :: 0 <= i < |lines| ==> lines[i].id <= lines[i].tag <= eventId
    requires forall i, j :: 0 <= i < j < |lines| ==> lines[i].tag <= lines[j].tag
    requires s.written == [] || forall i :: 0 <= i < |lines| ==> lines[i].tag == eventId
    requires forall i :: 0 <= i < |events| ==> events[i].id <= eventId
    ensures StreamOk(s.(stage := stage, events := events, written := s.written + lines), eventId)
  {
  }

  lemma StreamMoves(limit: nat, b: Broker, s: Step)
    requires limit >= 1 && Enabled(b, s) && StreamsOk(b) && (s.ReadReplay? || s.Hello? || s.LiveWrite?)
    requires forall ch :: Increasing(Buffer(b, ch)) && forall i :: 0 <= i < |Buffer(b, ch)| ==>
          Buffer(b, ch)[i].id <= b.eventId
    ensures StreamsOk(Next(limit, b, s))
  {
    var sub := b.subs[s.client];
    assert StreamOk(sub, b.eventId);
    match s
    case ReadReplay(c, last) =>
      SinceIncreasing(Buffer(b, sub.channel), last, b.eventId);
      AppendLines(sub, b.eventId, Lines(Since(Buffer(b, sub.channel), last)), sub.events, Replayed);
    case Hello(c) => AppendLines(sub, b.eventId, [Line(b.eventId, 0, CONNECTED)], sub.events, Live);
    case LiveWrite(c) => AppendLines(sub, b.eventId, [Line(b.eventId, sub.events[0].id, sub.events[0].data)],
                                     sub.events[1..], Live);
  }

  ghost predicate SameStream(x: Sub, y: Sub) {
    y.written == x.written && y.events == x.events && y.dropped == x.dropped && y.stage == x.stage
  }

  lemma SameStreamOk(x: Sub, y: Sub, eventId: nat)
    requires StreamOk(x, eventId) && SameStream(x, y)
    ensures StreamOk(y, eventId)
  {
  }

  lemma QuietSubs(limit: nat, b: Broker, s: Step, c: nat)
    requires limit >= 1 && Enabled(b, s) && (s.Subscribe? || s.Unsubscribe? || s.DisconnectKey?)
    ensures
      var b' := Next(limit, b, s);
      && b'.eventId == b.eventId
      && (c in b'.subs ==> if c in b.subs then SameStream(b.subs[c], b'.subs[c])
                           else b'.subs[c].written == [] && b'.subs[c].events == [] && b'.subs[c].dropped == [])
      && (c in b.subs ==> c in b'.subs)
  {
  }

  lemma QuietStreams(limit: nat, b: Broker, s: Step)
    requires limit >= 1 && Enabled(b, s) && StreamsOk(b) && (s.Subscribe? || s.Unsubscribe? || s.DisconnectKey?)
    ensures StreamsOk(Next(limit, b, s))
  {
    var b' := Next(limit, b, s);
    forall c | c in b'.subs ensures StreamOk(b'.subs[c], b'.eventId) {
      QuietSubs(limit, b, s, c);
      if c in b.subs {
        SameStreamOk(b.subs[c], b'.subs[c], b.eventId);
      }
    }
  }

  lemma StepKeepsStreams(limit: nat, b: Broker, s: Step)
    requires limit >= 1 && Enabled(b, s) && StreamsOk(b)
    requires forall ch :: Increasing(Buffer(b, ch)) && forall i :: 0 <= i < |Buffer(b, ch)| ==>
          Buffer(b, ch)[i].id <= b.eventId
    ensures StreamsOk(Next(limit, b, s))
  {
    if s.ReadReplay? || s.Hello? || s.LiveWrite? {
      StreamMoves(limit, b, s);
    } else if s.Publish? {
      PublishStreams(limit, b, s.channel, s.data);
    } else if s.PublishAll? {
      OfferEachStreams(b, Everyone(b), Item(0, s.data));
    } else {
      QuietStreams(limit, b, s);
    }
  }

  lemma {:induction false} StreamsOverRuns(limit: nat, trace: seq<Step>)
    requires limit >= 1 && Legal(limit, trace)
    ensures StreamsOk(Exec(limit, trace))
  {
    if trace != [] {
      var p := trace[..|trace| - 1];
      StreamsOverRuns(limit, p);
      var b := Exec(limit, p);
      forall ch
        ensures Increasing(Buffer(b, ch))
        ensures forall i :: 0 <= i < |Buffer(b, ch)| ==> Buffer(b, ch)[i].id <= b.eventId
      {
        BufferRefinesLog(limit, p, ch);
      }
      StepKeepsStreams(limit, b, trace[|trace| - 1]);
    }
  }

  /** The id lines of one stream never go back, each is at least its event's id, and therefore a
      client that reconnects with the last id it saw is never replayed an event already written on
      that stream, whatever the buffer holds by then. */
  lemma {:induction false} ReconnectNeverRepeats(limit: nat, trace: seq<Step>, c: nat, later: seq<Entry>)
    requires limit >= 1 && Legal(limit, trace)
    requires c in Exec(limit, trace).subs && Exec(limit, trace).subs[c].written != []
    ensures
      var w := Exec(limit, trace).subs[c].written;
      && (forall i, j :: 0 <= i < j < |w| ==> w[i].tag <= w[j].tag)
      && (forall i :: 0 <= i < |w| ==> w[i].id <= w[i].tag)
      && forall i, e :: 0 <= i < |w| && e in Since(later, w[|w| - 1].tag) ==> e.id != w[i].id
  {
    StreamsOverRuns(limit, trace);
    var b := Exec(limit, trace);
    assert StreamOk(b.subs[c], b.eventId);
    SinceMembers(later, b.subs[c].written[|b.subs[c].written| - 1].tag);
  }

  // ---- Accounting ----

  /** A subscriber sits under its own channel and no other, exactly until its handler returns or
      its key is dropped. */
  ghost predicate PlacesOk(b: Broker) {
    && (forall ch, c :: ch in b.clients && c in b.clients[ch] ==>
          c in b.subs && b.subs[c].channel == ch && !b.subs[c].unsubscribed && b.subs[c].hits == 0)
    && (forall c :: c in b.subs && !b.subs[c].unsubscribed && b.subs[c].hits == 0 ==>
          c in Listeners(b, b.subs[c].channel))
  }

  /** Done is attempted to be closed once per unsubscribe and once per key drop, at most one each. */
  ghost predicate ClosesOk(b: Broker) {
    forall c :: c in b.subs ==>
      b.subs[c].closes == b.subs[c].hits + (if b.subs[c].unsubscribed then 1 else 0) && b.subs[c].hits <= 1
  }

  lemma EveryoneIsPlaced(b: Broker)
    requires PlacesOk(b)
    ensures forall c :: c in Everyone(b) <==> c in b.subs && !b.subs[c].unsubscribed && b.subs[c].hits == 0
  {
  }

  lemma DisconnectKeeps(b: Broker, key: string)
    requires PlacesOk(b) && ClosesOk(b)
    ensures PlacesOk(Disconnected(b, key)) && ClosesOk(Disconnected(b, key))
  {
    EveryoneIsPlaced(b);
    var b' := Disconnected(b, key);
    forall c | c in b'.subs && !b'.subs[c].unsubscribed && b'.subs[c].hits == 0
      ensures c in Listeners(b', b'.subs[c].channel)
    {
      assert c in Listeners(b, b.subs[c].channel);
    }
  }

  lemma UnsubscribeEffect(b: Broker, c: nat)
    requires c in b.subs
    ensures
      var b' := Unsubscribed(b, c);
      && b'.subs.Keys == b.subs.Keys && (forall d :: d in b.subs && d != c ==> b'.subs[d] == b.subs[d])
      && b'.subs[c].closes == b.subs[c].closes + 1 && b'.subs[c].hits == b.subs[c].hits && b'.subs[c].unsubscribed
      && b'.subs[c].channel == b.subs[c].channel
      && (forall ch :: Listeners(b', ch) == Listeners(b, ch) - if ch == b.subs[c].channel then {c} else {})
  {
  }

  lemma UnsubscribePlaces(b: Broker, c: nat)
    requires PlacesOk(b) && c in b.subs
    ensures PlacesOk(Unsubscribed(b, c))
  {
    var b' := Unsubscribed(b, c);
    UnsubscribeEffect(b, c);
    forall d | d in b'.subs && !b'.subs[d].unsubscribed && b'.subs[d].hits == 0
      ensures d in Listeners(b', b'.subs[d].channel)
    {
      assert d in Listeners(b, b.subs[d].channel);
    }
    forall ch, d | ch in b'.clients && d in b'.clients[ch]
      ensures d in b'.subs && b'.subs[d].channel == ch && !b'.subs[d].unsubscribed && b'.subs[d].hits == 0
    {
      assert d in Listeners(b', ch);
      assert d in Listeners(b, ch);
    }
  }

  lemma UnsubscribeKeeps(b: Broker, c: nat)
    requires PlacesOk(b) && ClosesOk(b) && c in b.subs && !b.subs[c].unsubscribed
    ensures PlacesOk(Unsubscribed(b, c)) && ClosesOk(Unsubscribed(b, c))
  {
    UnsubscribePlaces(b, c);
    UnsubscribeEffect(b, c);
  }

  /** Queues and streams aside, nothing changed. */
  ghost predicate SamePlaces(b: Broker, b': Broker) {
    && b'.subs.Keys == b.subs.Keys && b'.clients == b.clients
    && forall c :: c in b.subs ==>
         && b'.subs[c].channel == b.subs[c].channel && b'.subs[c].closes == b.subs[c].closes
         && b'.subs[c].hits == b.subs[c].hits && b'.subs[c].unsubscribed == b.subs[c].unsubscribed
  }

  lemma SamePlacesKeeps(b: Broker, b': Broker)
    requires SamePlaces(b, b') && PlacesOk(b) && ClosesOk(b)
    ensures PlacesOk(b') && ClosesOk(b')
  {
    forall c | c in b'.subs && !b'.subs[c].unsubscribed && b'.subs[c].hits == 0
      ensures c in Listeners(b', b'.subs[c].channel)
    {
      assert c in Listeners(b, b.subs[c].channel);
    }
  }

  lemma SubscribeKeeps(b: Broker, c: nat, channel: string, key: string)
    requires PlacesOk(b) && ClosesOk(b) && c !in b.subs
    ensures PlacesOk(Subscribed(b, c, channel, key)) && ClosesOk(Subscribed(b, c, channel, key))
  {
    var b' := Subscribed(b, c, channel, key);
    forall d | d in b'.subs && !b'.subs[d].unsubscribed && b'.subs[d].hits == 0
      ensures d in Listeners(b', b'.subs[d].channel)
    {
      if d != c { assert d in Listeners(b, b.subs[d].channel); }
    }
  }

  lemma StepKeepsAccounts(limit: nat, b: Broker, s: Step)
    requires limit >= 1 && Enabled(b, s) && PlacesOk(b) && ClosesOk(b)
    ensures PlacesOk(Next(limit, b, s)) && ClosesOk(Next(limit, b, s))
  {
    if s.Unsubscribe? {
      UnsubscribeKeeps(b, s.client);
    } else if s.DisconnectKey? {
      DisconnectKeeps(b, s.key);
    } else if s.Subscribe? {
      SubscribeKeeps(b, s.client, s.channel, s.key);
    } else {
      assert SamePlaces(b, Next(limit, b, s));
      SamePlacesKeeps(b, Next(limit, b, s));
    }
  }

  lemma {:induction false} AccountsOverRuns(limit: nat, trace: seq<Step>)
    requires limit >= 1 && Legal(limit, trace)
    ensures PlacesOk(Exec(limit, trace)) && ClosesOk(Exec(limit, trace))
  {
    if trace != [] {
      var p := trace[..|trace| - 1];
      AccountsOverRuns(limit, p);
      StepKeepsAccounts(limit, Exec(limit, p), trace[|trace| - 1]);
    }
  }

  lemma DropNobody(b: Broker)
    ensures Dropped(b, {}) == b
  {
    assert Dropped(b, {}).subs == b.subs;
    forall ch | ch in b.clients ensures Dropped(b, {}).clients[ch] == b.clients[ch] {
      assert b.clients[ch] - {} == b.clients[ch];
    }
    assert Dropped(b, {}).clients == b.clients;
  }

  /** What a key drop does to the streams it finds.  After every run: if no subscriber of the key is
      listed, the drop changes nothing.  Each listed one has its Done closed for the first time by
      the drop; without the drop its handler could have ended in peace, and after it the handler's
      deferred unsubscribe closes Done again and panics.  No other stream notices. */
  lemma {:induction false} KeyDropPanics(limit: nat, trace: seq<Step>, key: string)
    requires limit >= 1 && Legal(limit, trace)
    ensures
      var b := Exec(limit, trace);
      && (Hit(b, key) == {} ==> Disconnected(b, key) == b)
      && forall c :: c in Hit(b, key) ==> EndsInPanic(limit, trace, key, c)
  {
    var b := Exec(limit, trace);
    DropNobody(b);
    forall c | c in Hit(b, key) ensures EndsInPanic(limit, trace, key, c) {
      HitPanics(limit, trace, key, c);
    }
  }

  ghost predicate EndsInPanic(limit: nat, trace: seq<Step>, key: string, c: nat)
    requires limit >= 1 && Legal(limit, trace)
  {
    var calm, drop := trace + [Unsubscribe(c)], trace + [DisconnectKey(key)];
    var late := drop + [Unsubscribe(c)];
    && Legal(limit, calm) && Legal(limit, drop) && Legal(limit, late)
    && PanicStory(Exec(limit, trace), Exec(limit, calm), Exec(limit, drop), Exec(limit, late), c)
  }

  /** The stream before, after an unsubscribe, after the drop, and after an unsubscribe following it. */
  ghost predicate PanicStory(b: Broker, calm: Broker, drop: Broker, late: Broker, c: nat) {
    && c in b.subs && c in calm.subs && c in drop.subs && c in late.subs
    && b.subs[c].closes == 0 && !Panicked(calm.subs[c])
    && drop.subs[c].closes == 1 && Panicked(late.subs[c])
    && late.subs == drop.subs[c := late.subs[c]]
  }

  lemma HitStory(b: Broker, key: string, c: nat)
    requires PlacesOk(b) && ClosesOk(b) && c in Hit(b, key)
    ensures
      && c in b.subs && !b.subs[c].unsubscribed
      && var drop := Disconnected(b, key);
         c in drop.subs && !drop.subs[c].unsubscribed
         && PanicStory(b, Unsubscribed(b, c), drop, Unsubscribed(drop, c), c)
  {
    EveryoneIsPlaced(b);
    UnsubscribeEffect(b, c);
    UnsubscribeEffect(Disconnected(b, key), c);
  }

  lemma {:induction false} HitPanics(limit: nat, trace: seq<Step>, key: string, c: nat)
    requires limit >= 1 && Legal(limit, trace) && c in Hit(Exec(limit, trace), key)
    ensures EndsInPanic(limit, trace, key, c)
  {
    AccountsOverRuns(limit, trace);
    HitStory(Exec(limit, trace), key, c);
    Extend(limit, trace, Unsubscribe(c));
    Extend(limit, trace, DisconnectKey(key));
    Extend(limit, trace + [DisconnectKey(key)], Unsubscribe(c));
  }

  /** Every key drop of the run found no subscriber of its key. */
  ghost predicate QuietDrops(limit: nat, trace: seq<Step>)
    requires limit >= 1 && Legal(limit, trace)
  {
    trace == [] ||
    (var p, s := trace[..|trace| - 1], trace[|trace| - 1];
     QuietDrops(limit, p) && (s.DisconnectKey? ==> Hit(Exec(limit, p), s.key) == {}))
  }

  ghost predicate NeverHit(b: Broker) {
    forall c :: c in b.subs ==> b.subs[c].hits == 0
  }

  lemma StepNeverHits(limit: nat, b: Broker, s: Step)
    requires limit >= 1 && Enabled(b, s) && NeverHit(b) && (s.DisconnectKey? ==> Hit(b, s.key) == {})
    ensures NeverHit(Next(limit, b, s))
  {
    if s.DisconnectKey? {
      DropNobody(b);
    } else if s.Unsubscribe? {
      UnsubscribeEffect(b, s.client);
    } else if !s.Subscribe? {
      assert SamePlaces(b, Next(limit, b, s));
    }
  }

  /** Over every run: nothing else closes Done twice.  If every key drop found nobody, no handler has
      panicked and each Done was closed exactly by its own handler's unsubscribe. */
  lemma {:induction false} QuietDropsNeverPanic(limit: nat, trace: seq<Step>)
    requires limit >= 1 && Legal(limit, trace) && QuietDrops(limit, trace)
    ensures
      var b := Exec(limit, trace);
      && NeverHit(b)
      && forall c :: c in b.subs ==>
           !Panicked(b.subs[c]) && b.subs[c].closes == if b.subs[c].unsubscribed then 1 else 0
  {
    AccountsOverRuns(limit, trace);
    if trace != [] {
      var p := trace[..|trace| - 1];
      QuietDropsNeverPanic(limit, p);
      StepNeverHits(limit, Exec(limit, p), trace[|trace| - 1]);
    }
  }

  lemma DisconnectRemoves(b: Broker, key: string)
    ensures Everyone(Disconnected(b, key)) == Everyone(b) - Hit(b, key)
    ensures Hit(b, key) <= Everyone(b)
  {
    var b' := Disconnected(b, key);
    forall c | c in Everyone(b) && c !in Hit(b, key) ensures c in Everyone(b') {
      var ch :| ch in b.clients && c in b.clients[ch];
      assert ch in b'.clients && c in b'.clients[ch];
    }
  }

  /** Dropping a key removes exactly its subscribers, and the total falls by their number. */
  lemma {:induction false} DisconnectCounts(limit: nat, trace: seq<Step>, key: string)
    requires limit >= 1 && Legal(limit, trace)
    ensures
      var b := Exec(limit, trace);
      var b' := Disconnected(b, key);
      && |Everyone(b')| == |Everyone(b)| - |Hit(b, key)|
      && (forall c :: c in Everyone(b') <==> c in Everyone(b) && c in b.subs && b.subs[c].key != key)
  {
    AccountsOverRuns(limit, trace);
    var b := Exec(limit, trace);
    EveryoneIsPlaced(b);
    DisconnectRemoves(b, key);
  }

  // ---- Deliveries ----

  ghost function Pick(cs: set<nat>): nat
    requires cs != {}
  {
    var c :| c in cs; c
  }

  /** Events waiting in the queues of some subscribers, together. */
  ghost function Backlog(b: Broker, cs: set<nat>): nat
    requires cs <= b.subs.Keys
  {
    if cs == {} then 0 else |b.subs[Pick(cs)].events| + Backlog(b, cs - {Pick(cs)})
  }

  /** The number a publish returns is what the queues grew by, one event each, wherever one looks. */
  lemma {:induction false} DeliveredIsGrowth(b: Broker, targets: set<nat>, item: Item, cs: set<nat>)
    requires cs <= b.subs.Keys
    ensures cs <= OfferEach(b, targets, item).subs.Keys
    ensures Backlog(OfferEach(b, targets, item), cs) == Backlog(b, cs) + |Delivered(b, targets) * cs|
    decreases cs
  {
    var got := Delivered(b, targets);
    if cs == {} {
      assert got * cs == {};
    } else {
      var c := Pick(cs);
      DeliveredIsGrowth(b, targets, item, cs - {c});
      if c in got {
        assert got * cs == got * (cs - {c}) + {c};
      } else {
        assert got * cs == got * (cs - {c});
      }
    }
  }

  lemma {:induction false} SameBacklog(b: Broker, b': Broker, cs: set<nat>)
    requires cs <= b.subs.Keys && b'.subs == b.subs
    ensures Backlog(b', cs) == Backlog(b, cs)
    decreases cs
  {
    if cs != {} {
      SameBacklog(b, b', cs - {Pick(cs)});
    }
  }

  /** Events waiting in all queues together. */
  ghost function Waiting(b: Broker): nat { Backlog(b, b.subs.Keys) }

  lemma {:induction false} GrowthOverAll(b: Broker, r: Broker, targets: set<nat>, item: Item)
    requires r.subs == b.subs
    ensures Waiting(OfferEach(r, targets, item)) == Waiting(b) + |Delivered(b, targets)|
  {
    SameBacklog(b, r, b.subs.Keys);
    DeliveredIsGrowth(r, targets, item, b.subs.Keys);
    assert OfferEach(r, targets, item).subs.Keys == b.subs.Keys;
    assert Delivered(r, targets) * b.subs.Keys == Delivered(b, targets);
  }

  /** In every state, the number a publish to one channel returns is what all the queues together
      grow by. */
  lemma {:induction false} PublishReturnsGrowth(limit: nat, b: Broker, channel: string, data: string)
    requires limit >= 1
    ensures Waiting(Published(b, limit, channel, data)) == Waiting(b) + |Delivered(b, Listeners(b, channel))|
  {
    var r := Recorded(b, limit, channel, data);
    assert r.subs == b.subs;
    var o := OfferEach(r, Listeners(b, channel), Item(b.eventId + 1, data));
    assert Published(b, limit, channel, data) == o;
    GrowthOverAll(b, r, Listeners(b, channel), Item(b.eventId + 1, data));
    assert Waiting(o) == Waiting(b) + |Delivered(b, Listeners(b, channel))|;
  }

  /** And so is the number a publish to all returns. */
  lemma {:induction false} PublishAllReturnsGrowth(b: Broker, data: string)
    ensures Waiting(OfferEach(b, Everyone(b), Item(0, data))) == Waiting(b) + |Delivered(b, Everyone(b))|
  {
    GrowthOverAll(b, b, Everyone(b), Item(0, data));
  }
}
