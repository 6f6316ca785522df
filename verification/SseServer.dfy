/** The SSE broker object: the maps and the loops of the code, each operation proved to be the
    step of the model it stands for. */
module SseServer {
  import opened Replay
  import opened SseModel
  import opened SseTheorems

  lemma OfferNobody(b: Broker, item: Item)
    ensures OfferEach(b, {}, item) == b
  {
  }

  lemma OfferOneMore(b: Broker, done: set<nat>, c: nat, item: Item)
    requires c !in done
    ensures OfferEach(OfferEach(b, done, item), {c}, item) == OfferEach(b, done + {c}, item)
    ensures |Delivered(b, done + {c})| == |Delivered(b, done)| + if HasRoom(b, c) then 1 else 0
    ensures HasRoom(OfferEach(b, done, item), c) == HasRoom(b, c)
  {
    assert OfferEach(OfferEach(b, done, item), {c}, item).subs == OfferEach(b, done + {c}, item).subs;
    assert Delivered(b, done + {c}) == Delivered(b, done) + if HasRoom(b, c) then {c} else {};
  }

  lemma OfferMany(b: Broker, x: set<nat>, y: set<nat>, item: Item)
    requires x !! y
    ensures OfferEach(b, x, item).subs.Keys == b.subs.Keys
    ensures OfferEach(OfferEach(b, x, item), y, item) == OfferEach(b, x + y, item)
    ensures |Delivered(b, x + y)| == |Delivered(b, x)| + |Delivered(OfferEach(b, x, item), y)|
  {
    assert OfferEach(OfferEach(b, x, item), y, item).subs == OfferEach(b, x + y, item).subs;
    assert Delivered(OfferEach(b, x, item), y) == Delivered(b, y);
    assert Delivered(b, x + y) == Delivered(b, x) + Delivered(b, y);
  }

  lemma DropOneMoreSub(b: Broker, gone: set<nat>, c: nat)
    requires c in b.subs && c !in gone
    ensures
      var d := Dropped(b, gone);
      && d.subs.Keys == b.subs.Keys && d.subs[c] == b.subs[c]
      && Dropped(b, gone + {c}).subs
         == d.subs[c := d.subs[c].(closes := d.subs[c].closes + 1, hits := d.subs[c].hits + 1)]
  {
  }

  lemma DropOneMoreListing(b: Broker, gone: set<nat>, c: nat, channel: string)
    requires PlacesOk(b) && channel in b.clients && c in b.clients[channel]
    ensures
      var d := Dropped(b, gone);
      && d.clients.Keys == b.clients.Keys
      && Dropped(b, gone + {c}).clients == d.clients[channel := d.clients[channel] - {c}]
  {
    var d, e := Dropped(b, gone), Dropped(b, gone + {c});
    forall ch | ch in b.clients
      ensures e.clients[ch] == if ch == channel then d.clients[ch] - {c} else d.clients[ch]
    {
      if ch != channel { assert c !in b.clients[ch]; }
      assert b.clients[ch] - (gone + {c}) == b.clients[ch] - gone - {c};
    }
  }

  /** One subscriber more is dropped, from the only channel it is under. */
  lemma DropOneMore(b: Broker, gone: set<nat>, c: nat, channel: string)
    requires PlacesOk(b) && channel in b.clients && c in b.clients[channel] && c !in gone
    ensures
      var d := Dropped(b, gone);
      && c in d.subs && channel in d.clients
      && Dropped(b, gone + {c}) == DropSub(d, channel, c)
  {
    DropOneMoreSub(b, gone, c);
    DropOneMoreListing(b, gone, c, channel);
  }

  lemma UnderOneMore(b: Broker, seen: set<string>, ch: string)
    requires PlacesOk(b) && ch in b.clients && ch !in seen
    ensures Under(b, seen + {ch}) == Under(b, seen) + b.clients[ch]
    ensures Under(b, seen) !! b.clients[ch] && b.clients[ch] <= b.subs.Keys
  {
    forall c | c in b.clients[ch] ensures c !in Under(b, seen) {
      assert b.subs[c].channel == ch;
    }
  }

  /** One more channel of the outer loop. */
  lemma DropChannelStep(b: Broker, seen: set<string>, ch: string, key: string)
    requires PlacesOk(b) && ch in b.clients && ch !in seen
    ensures
      var gone := KeyedIn(b, Under(b, seen), key);
      var here := KeyedIn(b, b.clients[ch], key);
      && gone !! b.clients[ch]
      && KeyedIn(b, Under(b, seen + {ch}), key) == gone + here
      && |gone + here| == |gone| + |here|
  {
  }

  /** One more subscriber of the inner loop. */
  lemma DropMemberStep(b: Broker, gone: set<nat>, channel: string, todo: set<nat>, c: nat, key: string)
    requires PlacesOk(b) && channel in b.clients && gone !! b.clients[channel]
    requires todo <= b.clients[channel] && c in todo
    ensures
      var here := KeyedIn(b, b.clients[channel] - todo, key);
      var next := KeyedIn(b, b.clients[channel] - (todo - {c}), key);
      var d := Dropped(b, gone + here);
      && c in d.subs && channel in d.clients
      && |next| == |here| + (if d.subs[c].key == key then 1 else 0)
      && Dropped(b, gone + next) == if d.subs[c].key == key then DropSub(d, channel, c) else d
  {
    var here := KeyedIn(b, b.clients[channel] - todo, key);
    DropOneMore(b, gone + here, c, channel);
    assert gone + here + {c} == gone + (here + {c});
    var next := KeyedIn(b, b.clients[channel] - (todo - {c}), key);
    assert next == if b.subs[c].key == key then here + {c} else here;
    assert c !in here;
  }

  class SseServer {
    var subs: map<nat, Sub>
    var clients: map<string, set<nat>>
    var replay: map<string, seq<Entry>>
    var eventId: nat
    const limit: nat

    function State(): Broker
      reads this
    {
      Broker(subs, clients, replay, eventId)
    }

    constructor ()
      ensures State() == NewBroker && limit == 100
    {
      subs, clients, replay, eventId := map[], map[], map[], 0;
      limit := REPLAY_LIMIT;
    }

    method Subscribe(c: nat, channel: string, key: string)
      requires c !in subs
      modifies this
      ensures State() == Subscribed(old(State()), c, channel, key)
      ensures channel in clients && c in clients[channel]
      ensures c in subs && subs[c].channel == channel && subs[c].key == key
    {
      subs := subs[c := Sub(channel, key, [], [], 0, 0, false, Opening, [])];
      if channel !in clients {
        clients := clients[channel := {}];
      }
      clients := clients[channel := clients[channel] + {c}];
      assert clients == old(clients)[channel := Listeners(old(State()), channel) + {c}];
    }

    method Unsubscribe(c: nat)
      requires c in subs
      modifies this
      ensures State() == Unsubscribed(old(State()), c)
      ensures forall ch, d :: ch in clients && d in clients[ch] <==>
                ch in old(clients) && d in old(clients)[ch] && !(ch == old(subs)[c].channel && d == c)
      ensures old(subs)[c].channel in clients ==> clients[old(subs)[c].channel] != {}
    {
      var channel := subs[c].channel;
      if channel in clients {
        clients := clients[channel := clients[channel] - {c}];
        if |clients[channel]| == 0 {
          clients := clients - {channel};
          assert clients == old(clients) - {channel};
        }
      }
      subs := subs[c := subs[c].(closes := subs[c].closes + 1)];
      subs := subs[c := subs[c].(unsubscribed := true)];
    }

    /** The non-blocking send on one subscriber's channel. */
    method Offer(c: nat, item: Item) returns (sent: bool)
      requires c in subs
      modifies this
      ensures State() == OfferEach(old(State()), {c}, item)
      ensures sent == HasRoom(old(State()), c) == (|old(subs)[c].events| < 64)
    {
      sent := |subs[c].events| < EVENTS;
      subs := subs[c := Fed(subs[c], item)];
      assert subs == OfferEach(old(State()), {c}, item).subs;
    }

    method Publish(channel: string, data: string) returns (delivered: nat)
      requires limit >= 1 && PlacesOk(State())
      modifies this
      ensures State() == Published(old(State()), limit, channel, data)
      ensures delivered == |Delivered(old(State()), Listeners(old(State()), channel))|
    {
      eventId := eventId + 1;
      var buf := if channel in replay then replay[channel] else [];
      if |buf| >= limit {
        buf := buf[1..];
      }
      replay := replay[channel := buf + [Entry(eventId, data)]];
      if channel !in clients {
        OfferNobody(State(), Item(eventId, data));
        assert Delivered(old(State()), {}) == {};
        return 0;
      }
      delivered := OfferMembers(clients[channel], Item(eventId, data));
      assert Delivered(old(State()), old(clients)[channel])
          == Delivered(Recorded(old(State()), limit, channel, data), old(clients)[channel]);
    }

    /** The sending loop over one channel's subscribers. */
    method OfferMembers(cs: set<nat>, item: Item) returns (delivered: nat)
      requires cs <= subs.Keys
      modifies this
      ensures State() == OfferEach(old(State()), cs, item)
      ensures delivered == |Delivered(old(State()), cs)|
    {
      OfferNobody(State(), item);
      delivered := 0;
      var todo := cs;
      ghost var done: set<nat> := {};
      while todo != {}
        invariant todo <= cs && done == cs - todo
        invariant State() == OfferEach(old(State()), done, item) && delivered == |Delivered(old(State()), done)|
        decreases todo
      {
        var c :| c in todo;
        OfferOneMore(old(State()), done, c, item);
        todo := todo - {c};
        var sent := Offer(c, item);
        if sent {
          delivered := delivered + 1;
        }
        done := done + {c};
      }
      assert done == cs;
    }

    /** Every subscriber, channel by channel. */
    method PublishAll(data: string) returns (delivered: nat)
      requires PlacesOk(State())
      modifies this
      ensures State() == OfferEach(old(State()), Everyone(old(State())), Item(0, data))
      ensures delivered == |Delivered(old(State()), Everyone(old(State())))|
    {
      ghost var b := State();
      ghost var seen: set<string> := {};
      var item := Item(0, data);
      assert Under(b, seen) == {};
      OfferNobody(b, item);
      delivered := 0;
      var channels := clients.Keys;
      while channels != {}
        invariant channels <= b.clients.Keys && seen == b.clients.Keys - channels
        invariant State() == OfferEach(b, Under(b, seen), item) && delivered == |Delivered(b, Under(b, seen))|
        decreases channels
      {
        var ch :| ch in channels;
        channels := channels - {ch};
        UnderOneMore(b, seen, ch);
        OfferMany(b, Under(b, seen), b.clients[ch], item);
        var more := OfferMembers(clients[ch], item);
        delivered := delivered + more;
        seen := seen + {ch};
      }
      assert seen == b.clients.Keys;
    }

    method DisconnectKey(key: string) returns (count: nat)
      requires PlacesOk(State())
      modifies this
      ensures State() == Disconnected(old(State()), key)
      ensures count == |Hit(old(State()), key)|
      ensures clients.Keys == old(clients).Keys
      ensures forall ch, c :: ch in clients && c in old(clients)[ch] ==>
                (c in clients[ch] <==> old(subs)[c].key != key)
    {
      ghost var b := State();
      ghost var seen: set<string> := {};
      ghost var gone: set<nat> := {};
      assert KeyedIn(b, Under(b, seen), key) == gone;
      DropNobody(b);
      count := 0;
      var channels := clients.Keys;
      while channels != {}
        invariant channels <= b.clients.Keys && seen == b.clients.Keys - channels
        invariant gone == KeyedIn(b, Under(b, seen), key)
        invariant State() == Dropped(b, gone) && count == |gone|
        decreases channels
      {
        var ch :| ch in channels;
        channels := channels - {ch};
        DropChannelStep(b, seen, ch, key);
        var more := DropFrom(ch, key, b, gone);
        count := count + more;
        gone := gone + KeyedIn(b, b.clients[ch], key);
        seen := seen + {ch};
      }
      assert seen == b.clients.Keys;
    }

    /** The body of the inner loop: close and delete if the key matches. */
    method Visit(channel: string, c: nat, key: string) returns (hit: bool)
      requires c in subs && channel in clients
      modifies this
      ensures hit == (old(subs)[c].key == key)
      ensures State() == if hit then DropSub(old(State()), channel, c) else old(State())
    {
      hit := subs[c].key == key;
      if hit {
        subs := subs[c := subs[c].(closes := subs[c].closes + 1, hits := subs[c].hits + 1)];
        clients := clients[channel := clients[channel] - {c}];
      }
    }

    /** The inner loop: one channel's subscribers with the key. */
    method DropFrom(channel: string, key: string, ghost b: Broker, ghost gone: set<nat>) returns (count: nat)
      requires PlacesOk(b) && channel in b.clients && gone !! b.clients[channel]
      requires State() == Dropped(b, gone)
      modifies this
      ensures State() == Dropped(b, gone + KeyedIn(b, b.clients[channel], key))
      ensures count == |KeyedIn(b, b.clients[channel], key)|
    {
      count := 0;
      var todo := clients[channel];
      assert todo == b.clients[channel];
      assert KeyedIn(b, b.clients[channel] - todo, key) == {} && gone + {} == gone;
      while todo != {}
        invariant todo <= b.clients[channel]
        invariant State() == Dropped(b, gone + KeyedIn(b, b.clients[channel] - todo, key))
        invariant count == |KeyedIn(b, b.clients[channel] - todo, key)|
        decreases todo
      {
        var c :| c in todo;
        DropMemberStep(b, gone, channel, todo, c, key);
        todo := todo - {c};
        var hit := Visit(channel, c, key);
        if hit {
          count := count + 1;
        }
      }
      assert b.clients[channel] - todo == b.clients[channel];
    }

    method GetReplaySince(channel: string, last: nat) returns (result: seq<Entry>)
      ensures result == Since(Buffer(State(), channel), last)
    {
      if channel !in replay {
        return [];
      }
      var buf := replay[channel];
      result := [];
      for n := 0 to |buf|
        invariant result == Since(buf[..n], last)
      {
        assert buf[..n + 1][..n] == buf[..n];
        if buf[n].id > last {
          result := result + [buf[n]];
        }
      }
      assert buf[..|buf|] == buf;
    }

    /** The replay part of the stream handler: read, then write entry by entry. */
    method WriteReplay(c: nat, last: nat)
      requires limit >= 1 && Enabled(State(), ReadReplay(c, last))
      modifies this
      ensures State() == Next(limit, old(State()), ReadReplay(c, last))
    {
      var entries := GetReplaySince(subs[c].channel, last);
      var written := subs[c].written;
      for n := 0 to |entries|
        invariant written == old(subs)[c].written + Lines(entries[..n])
      {
        written := written + [Line(entries[n].id, entries[n].id, entries[n].data)];
        assert Lines(entries[..n + 1]) == Lines(entries[..n]) + [Line(entries[n].id, entries[n].id, entries[n].data)];
      }
      assert entries[..|entries|] == entries;
      subs := subs[c := subs[c].(stage := Replayed, written := written)];
    }

    method TotalSubscribers() returns (total: nat)
      requires PlacesOk(State())
      ensures total == |Everyone(State())|
    {
      total := 0;
      ghost var seen: set<string> := {};
      assert Under(State(), seen) == {};
      var channels := clients.Keys;
      while channels != {}
        invariant channels <= clients.Keys && seen == clients.Keys - channels
        invariant total == |Under(State(), seen)|
        decreases channels
      {
        var ch :| ch in channels;
        channels := channels - {ch};
        UnderOneMore(State(), seen, ch);
        seen := seen + {ch};
        total := total + |clients[ch]|;
      }
      assert seen == clients.Keys;
    }
  }
}
