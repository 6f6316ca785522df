/** What a client that reconnects with the last id it saw gets, and what it has lost: every offer
    made to a subscriber is accounted for, over every run of the SSE broker. */
module SseResume {
  import opened Replay
  import opened SseModel
  import opened SseTheorems

  /** One subscriber's history: the events offered to it while it was listed, those its stream took
      from its queue and wrote live, and those its replay wrote, all by id (0 for a broadcast). */
  datatype Account = Account(heard: seq<nat>, sent: seq<nat>, replayed: seq<nat>)

  const NewAccount := Account([], [], [])

  function Ids(items: seq<Item>): (r: seq<nat>)
    ensures |r| == |items| && forall i :: 0 <= i < |items| ==> r[i] == items[i].id
  {
    seq(|items|, i requires 0 <= i < |items| => items[i].id)
  }

  function Booked(b: Broker, s: Step, c: nat, a: Account): Account
    requires Enabled(b, s)
  {
    match s
    case Publish(channel, _) => if c in Listeners(b, channel) then a.(heard := a.heard + [b.eventId + 1]) else a
    case PublishAll(_) => if c in Everyone(b) then a.(heard := a.heard + [0]) else a
    case LiveWrite(d) => if d == c then a.(sent := a.sent + [b.subs[c].events[0].id]) else a
    case ReadReplay(d, last) =>
      if d == c then a.(replayed := a.replayed + EntryIds(Since(Buffer(b, b.subs[c].channel), last))) else a
    case _ => a
  }

  ghost function AccountOf(limit: nat, trace: seq<Step>, c: nat): Account
    requires limit >= 1 && Legal(limit, trace)
  {
    if trace == [] then NewAccount
    else
      var p := trace[..|trace| - 1];
      Booked(Exec(limit, p), trace[|trace| - 1], c, AccountOf(limit, p, c))
  }

  // ---- Conservation ----

  /** Every offer was written live, still waits, or was dropped: none twice, none lost, none made up. */
  ghost predicate Conserved(s: Sub, a: Account) {
    multiset(a.heard) == multiset(a.sent) + multiset(Ids(s.events)) + multiset(Ids(s.dropped))
  }

  ghost predicate Wrote(lines: seq<Line>, x: nat) {
    exists i :: 0 <= i < |lines| && lines[i].id == x
  }

  ghost predicate Streamed(s: Sub, a: Account) {
    forall x: nat :: x > 0 ==> (Wrote(s.written, x) <==> x in a.sent || x in a.replayed)
  }

  /** Numbered events are offered once. */
  ghost predicate OnceEach(a: Account, eventId: nat) {
    && (forall x :: x in a.heard ==> x <= eventId)
    && (forall x: nat :: x > 0 ==> multiset(a.heard)[x] <= 1)
  }

  ghost predicate Balanced(b: Broker, c: nat, a: Account) {
    && OnceEach(a, b.eventId)
    && if c in b.subs then Conserved(b.subs[c], a) && Streamed(b.subs[c], a) else a == NewAccount
  }

  lemma FedBalance(s: Sub, item: Item, a: Account)
    requires Conserved(s, a)
    ensures Conserved(Fed(s, item), a.(heard := a.heard + [item.id]))
  {
    assert Ids(s.events + [item]) == Ids(s.events) + [item.id];
    assert Ids(s.dropped + [item]) == Ids(s.dropped) + [item.id];
  }

  lemma OfferBalance(b: Broker, r: Broker, targets: set<nat>, item: Item, c: nat, a: Account)
    requires Balanced(b, c, a) && r.subs == b.subs && (c in targets ==> c in b.subs)
    requires if item.id == 0 then r.eventId == b.eventId else item.id == r.eventId == b.eventId + 1
    ensures Balanced(OfferEach(r, targets, item), c, if c in targets then a.(heard := a.heard + [item.id]) else a)
  {
    if c in targets {
      FedBalance(b.subs[c], item, a);
      assert multiset(a.heard + [item.id]) == multiset(a.heard) + multiset{item.id};
      if item.id > 0 { assert item.id !in a.heard; }
    }
  }

  lemma AppendWrote(lines: seq<Line>, more: seq<Line>, x: nat)
    ensures Wrote(lines + more, x) <==> Wrote(lines, x) || Wrote(more, x)
  {
    if i :| 0 <= i < |lines| && lines[i].id == x {
      assert (lines + more)[i] == lines[i];
    }
    if i :| 0 <= i < |more| && more[i].id == x {
      assert (lines + more)[|lines| + i] == more[i];
    }
  }

  lemma TakeBalance(s: Sub, a: Account, tag: nat)
    requires Conserved(s, a) && Streamed(s, a) && s.events != []
    ensures
      var s' := s.(events := s.events[1..], written := s.written + [Line(tag, s.events[0].id, s.events[0].data)]);
      var a' := a.(sent := a.sent + [s.events[0].id]);
      Conserved(s', a') && Streamed(s', a')
  {
    var x := s.events[0].id;
    assert Ids(s.events) == [x] + Ids(s.events[1..]);
    forall y: nat ensures Wrote(s.written + [Line(tag, x, s.events[0].data)], y) <==> Wrote(s.written, y) || y == x {
      AppendWrote(s.written, [Line(tag, x, s.events[0].data)], y);
      assert [Line(tag, x, s.events[0].data)][0].id == x;
    }
  }

  lemma ReplayBalance(s: Sub, a: Account, entries: seq<Entry>)
    requires Streamed(s, a)
    ensures Streamed(s.(stage := Replayed, written := s.written + Lines(entries)), a.(replayed := a.replayed
          + EntryIds(entries)))
  {
    forall y: nat ensures Wrote(s.written + Lines(entries), y) <==> Wrote(s.written, y) || y in EntryIds(entries) {
      AppendWrote(s.written, Lines(entries), y);
      if y in EntryIds(entries) {
        var i :| 0 <= i < |entries| && EntryIds(entries)[i] == y;
        assert Lines(entries)[i].id == y;
      }
      if i :| 0 <= i < |entries| && Lines(entries)[i].id == y {
        assert EntryIds(entries)[i] == y;
      }
    }
  }

  lemma HelloBalance(s: Sub, a: Account, tag: nat)
    requires Streamed(s, a)
    ensures Streamed(s.(stage := Live, written := s.written + [Line(tag, 0, CONNECTED)]), a)
  {
    forall y: nat | y > 0 ensures Wrote(s.written + [Line(tag, 0, CONNECTED)], y) <==> Wrote(s.written, y) {
      AppendWrote(s.written, [Line(tag, 0, CONNECTED)], y);
    }
  }

  lemma StreamBalance(limit: nat, b: Broker, s: Step, c: nat, a: Account)
    requires limit >= 1 && Enabled(b, s) && Balanced(b, c, a) && (s.ReadReplay? || s.Hello? || s.LiveWrite?)
    ensures Balanced(Next(limit, b, s), c, Booked(b, s, c, a))
  {
    if s.client == c {
      match s
      case ReadReplay(_, last) => ReplayBalance(b.subs[c], a, Since(Buffer(b, b.subs[c].channel), last));
      case Hello(_) => HelloBalance(b.subs[c], a, b.eventId);
      case LiveWrite(_) => TakeBalance(b.subs[c], a, b.eventId);
    }
  }

  lemma SameBalance(x: Sub, y: Sub, a: Account)
    requires Conserved(x, a) && Streamed(x, a) && SameStream(x, y)
    ensures Conserved(y, a) && Streamed(y, a)
  {
  }

  lemma NewBalance(s: Sub)
    requires s.written == [] && s.events == [] && s.dropped == []
    ensures Conserved(s, NewAccount) && Streamed(s, NewAccount)
  {
    assert Ids([]) == [];
  }

  lemma QuietBalance(limit: nat, b: Broker, s: Step, c: nat, a: Account)
    requires limit >= 1 && Enabled(b, s) && Balanced(b, c, a) && (s.Subscribe? || s.Unsubscribe? || s.DisconnectKey?)
    ensures Balanced(Next(limit, b, s), c, Booked(b, s, c, a))
  {
    var b' := Next(limit, b, s);
    QuietSubs(limit, b, s, c);
    if c in b.subs {
      SameBalance(b.subs[c], b'.subs[c], a);
    } else if c in b'.subs {
      NewBalance(b'.subs[c]);
    }
  }

  lemma StepBalance(limit: nat, b: Broker, s: Step, c: nat, a: Account)
    requires limit >= 1 && Enabled(b, s) && PlacesOk(b) && Balanced(b, c, a)
    ensures Balanced(Next(limit, b, s), c, Booked(b, s, c, a))
  {
    if s.Publish? {
      OfferBalance(b, Recorded(b, limit, s.channel, s.data), Listeners(b, s.channel), Item(b.eventId + 1, s.data), c,
                   a);
    } else if s.PublishAll? {
      OfferBalance(b, b, Everyone(b), Item(0, s.data), c, a);
    } else if s.ReadReplay? || s.Hello? || s.LiveWrite? {
      StreamBalance(limit, b, s, c, a);
    } else {
      QuietBalance(limit, b, s, c, a);
    }
  }

  /** Over every run, for every subscriber: everything offered to it while it was listed was written
      live, still waits in its queue, or was dropped on the full queue, each once; and the events on
      its stream are those written live and those replayed. */
  lemma {:induction false} OffersAreAccounted(limit: nat, trace: seq<Step>, c: nat)
    requires limit >= 1 && Legal(limit, trace)
    ensures Balanced(Exec(limit, trace), c, AccountOf(limit, trace, c))
  {
    if trace != [] {
      var p := trace[..|trace| - 1];
      OffersAreAccounted(limit, p, c);
      AccountsOverRuns(limit, p);
      StepBalance(limit, Exec(limit, p), trace[|trace| - 1], c, AccountOf(limit, p, c));
    }
  }

  lemma HoldsMore(log: seq<Entry>, e: Entry, x: nat)
    ensures Holds(log + [e], x) <==> Holds(log, x) || e.id == x
  {
    if Holds(log, x) {
      var d :| d in log && d.id == x;
      assert d in log + [e];
    }
    assert e in log + [e];
  }

  /** What was heard with a number is in the log of the subscriber's own channel. */
  lemma {:induction false} HeardIsLogged(limit: nat, trace: seq<Step>, c: nat)
    requires limit >= 1 && Legal(limit, trace) && c in Exec(limit, trace).subs
    ensures
      var log := LogOf(limit, trace, Exec(limit, trace).subs[c].channel);
      forall x :: x > 0 && x in AccountOf(limit, trace, c).heard ==> Holds(log, x)
  {
    if trace != [] {
      var p, s := trace[..|trace| - 1], trace[|trace| - 1];
      var b, b' := Exec(limit, p), Exec(limit, trace);
      AccountsOverRuns(limit, p);
      OffersAreAccounted(limit, p, c);
      if c in b.subs {
        HeardIsLogged(limit, p, c);
        SameChannel(limit, b, s, c);
        if s.Publish? {
          forall x ensures Holds(LogOf(limit, p, s.channel) + [Entry(b.eventId + 1, s.data)], x)
                           <==> Holds(LogOf(limit, p, s.channel), x) || x == b.eventId + 1
          {
            HoldsMore(LogOf(limit, p, s.channel), Entry(b.eventId + 1, s.data), x);
          }
        }
      } else {
        assert AccountOf(limit, trace, c).heard == [];
      }
    }
  }

  lemma SameChannel(limit: nat, b: Broker, s: Step, c: nat)
    requires limit >= 1 && Enabled(b, s) && c in b.subs
    ensures c in Next(limit, b, s).subs && Next(limit, b, s).subs[c].channel == b.subs[c].channel
  {
    if s.Unsubscribe? {
      UnsubscribeEffect(b, s.client);
    }
  }

  // ---- What a reconnect loses ----

  /** A numbered event was offered to the subscriber, is not on its stream, and a reconnect that is
      answered with `replay` does not bring it either. */
  ghost predicate Lost(a: Account, s: Sub, replay: seq<Entry>, x: nat) {
    x > 0 && x in a.heard && !Wrote(s.written, x) && !Holds(replay, x)
  }

  /** A numbered event waits in the queue or was dropped on it. */
  ghost predicate Unsent(s: Sub, x: nat) {
    x > 0 && (x in Ids(s.events) || x in Ids(s.dropped))
  }

  function LastTag(s: Sub): nat
    requires s.written != []
  {
    s.written[|s.written| - 1].tag
  }

  /** Offered and not on the stream means unsent, apart from what the replay had already written. */
  lemma NotWrittenIsUnsent(s: Sub, a: Account, eventId: nat, x: nat)
    requires Conserved(s, a) && Streamed(s, a) && OnceEach(a, eventId) && x > 0
    ensures x in a.heard && !Wrote(s.written, x) <==> Unsent(s, x) && x !in a.replayed
  {
    var heard, sent := multiset(a.heard), multiset(a.sent);
    var queued, dropped := multiset(Ids(s.events)), multiset(Ids(s.dropped));
    assert heard[x] == sent[x] + queued[x] + dropped[x] <= 1;
    assert x in a.heard <==> heard[x] > 0;
    assert x in a.sent <==> sent[x] > 0;
    assert x in Ids(s.events) <==> queued[x] > 0;
    assert x in Ids(s.dropped) <==> dropped[x] > 0;
  }

  /** After every run, for every stream that has written something, and a reconnect with the last id
      on it: an event that was offered and is not on the stream is one that was queued or dropped
      and not replayed.  If it is not newer than that id, no later buffer will ever bring it; if it
      is newer, the reconnect brings it as long as at most `limit` newer events exist.  So nothing
      is lost if and only if every unsent event is newer than the last id or was replayed. */
  lemma {:induction false} ReconnectLosesIff(limit: nat, trace: seq<Step>, c: nat)
    requires limit >= 1 && Legal(limit, trace)
    requires c in Exec(limit, trace).subs && Exec(limit, trace).subs[c].written != []
    ensures
      var b := Exec(limit, trace);
      var s, a := b.subs[c], AccountOf(limit, trace, c);
      var replay := Since(Buffer(b, s.channel), LastTag(s));
      && (forall x: nat, later :: Unsent(s, x) && x !in a.replayed && x <= LastTag(s) ==>
            Lost(a, s, Since(later, LastTag(s)), x))
      && (|Since(LogOf(limit, trace, s.channel), LastTag(s))| <= limit ==>
            ((forall x: nat :: !Lost(a, s, replay, x))
             <==> forall x: nat :: Unsent(s, x) ==> x > LastTag(s) || x in a.replayed))
  {
    var b := Exec(limit, trace);
    var s, a := b.subs[c], AccountOf(limit, trace, c);
    OffersAreAccounted(limit, trace, c);
    forall x: nat | x > 0 ensures x in a.heard && !Wrote(s.written, x) <==> Unsent(s, x) && x !in a.replayed {
      NotWrittenIsUnsent(s, a, b.eventId, x);
    }
    forall x: nat, later ensures Holds(Since(later, LastTag(s)), x) <==> Holds(later, x) && x > LastTag(s) {
      SinceHolds(later, LastTag(s), x);
    }
    ReplayMatchesLog(limit, trace, s.channel, LastTag(s));
    HeardIsLogged(limit, trace, c);
  }

  lemma {:induction false} NothingNewer(limit: nat, trace: seq<Step>, channel: string)
    requires limit >= 1 && Legal(limit, trace)
    ensures Since(LogOf(limit, trace, channel), Exec(limit, trace).eventId) == []
  {
    BufferRefinesLog(limit, trace, channel);
    NoneNewer(LogOf(limit, trace, channel), Exec(limit, trace).eventId);
  }

  /** The price of tagging live events with the counter: right after a live write, a reconnect loses
      every numbered event still queued or ever dropped, unless the replay had written it; on a
      stream without a replay it loses nothing if and only if no numbered event is queued and none
      was dropped. */
  lemma {:induction false} ReconnectLosesBacklog(limit: nat, trace: seq<Step>, c: nat)
    requires limit >= 1 && Legal(limit, trace) && Enabled(Exec(limit, trace), LiveWrite(c))
    ensures
      var t := trace + [LiveWrite(c)];
      && Legal(limit, t)
      && c in Exec(limit, t).subs && Exec(limit, t).subs[c].written != []
      && var b := Exec(limit, t);
         var s, a := b.subs[c], AccountOf(limit, t, c);
         var replay := Since(Buffer(b, s.channel), LastTag(s));
         && ((forall x: nat :: !Lost(a, s, replay, x)) <==> forall x: nat :: Unsent(s, x) ==> x in a.replayed)
         && (a.replayed == [] ==>
               ((forall x: nat :: !Lost(a, s, replay, x)) <==> forall x: nat :: !Unsent(s, x)))
  {
    var t := trace + [LiveWrite(c)];
    Extend(limit, trace, LiveWrite(c));
    var b := Exec(limit, t);
    var s, a := b.subs[c], AccountOf(limit, t, c);
    assert LastTag(s) == b.eventId;
    NothingNewer(limit, t, s.channel);
    ReconnectLosesIff(limit, t, c);
    OffersAreAccounted(limit, t, c);
    forall x: nat | Unsent(s, x) && x !in a.replayed ensures x <= b.eventId {
      NotWrittenIsUnsent(s, a, b.eventId, x);
    }
  }

  lemma {:induction false} ExtendBook(limit: nat, trace: seq<Step>, s: Step, c: nat)
    requires limit >= 1 && Legal(limit, trace) && Enabled(Exec(limit, trace), s)
    ensures Legal(limit, trace + [s]) && Exec(limit, trace + [s]) == Next(limit, Exec(limit, trace), s)
    ensures AccountOf(limit, trace + [s], c) == Booked(Exec(limit, trace), s, c, AccountOf(limit, trace, c))
  {
    assert (trace + [s])[..|trace|] == trace;
  }

  lemma ReplayedIsOld(limit: nat, trace: seq<Step>, c: nat)
    requires limit >= 1 && Legal(limit, trace) && c in Exec(limit, trace).subs
    ensures forall x :: x in AccountOf(limit, trace, c).replayed ==> x <= Exec(limit, trace).eventId
  {
    OffersAreAccounted(limit, trace, c);
    StreamsOverRuns(limit, trace);
    var b, a := Exec(limit, trace), AccountOf(limit, trace, c);
    assert StreamOk(b.subs[c], b.eventId);
    forall x | x in a.replayed && x > 0 ensures x <= b.eventId {
      assert Wrote(b.subs[c].written, x);
    }
  }

  /** A live, listed stream with something in its queue and room for more. */
  ghost predicate Behind(b: Broker, c: nat) {
    && c in b.subs && b.subs[c].stage.Live? && !b.subs[c].unsubscribed
    && c in Listeners(b, b.subs[c].channel) && 0 < |b.subs[c].events| < EVENTS
  }

  /** Losing is easy: from every run in which a stream is behind, one more event and one more write
      lose that event, whatever any later buffer holds. */
  lemma {:induction false} LosesTheNext(limit: nat, trace: seq<Step>, c: nat, data: string)
    requires limit >= 1 && Legal(limit, trace) && Behind(Exec(limit, trace), c)
    ensures
      var b := Exec(limit, trace);
      var t := trace + [Publish(b.subs[c].channel, data)] + [LiveWrite(c)];
      && Legal(limit, t) && c in Exec(limit, t).subs && Exec(limit, t).subs[c].written != []
      && var s := Exec(limit, t).subs[c];
         forall later :: Lost(AccountOf(limit, t, c), s, Since(later, LastTag(s)), b.eventId + 1)
  {
    var b := Exec(limit, trace);
    var p := Publish(b.subs[c].channel, data);
    ReplayedIsOld(limit, trace, c);
    BehindState(limit, b, c, data);
    PublishThenWrite(limit, trace, p, c);
    UnsentIsLost(limit, trace + [p] + [LiveWrite(c)], c, b.eventId + 1);
  }

  lemma {:induction false} PublishThenWrite(limit: nat, trace: seq<Step>, p: Step, c: nat)
    requires limit >= 1 && Legal(limit, trace) && p.Publish?
    requires Enabled(Next(limit, Exec(limit, trace), p), LiveWrite(c))
    ensures
      var t := trace + [p] + [LiveWrite(c)];
      && Legal(limit, t) && Exec(limit, t) == Next(limit, Next(limit, Exec(limit, trace), p), LiveWrite(c))
      && AccountOf(limit, t, c).replayed == AccountOf(limit, trace, c).replayed
  {
    ExtendBook(limit, trace, p, c);
    ExtendBook(limit, trace + [p], LiveWrite(c), c);
  }

  lemma {:induction false} UnsentIsLost(limit: nat, trace: seq<Step>, c: nat, x: nat)
    requires limit >= 1 && Legal(limit, trace)
    requires c in Exec(limit, trace).subs && Exec(limit, trace).subs[c].written != []
    requires Unsent(Exec(limit, trace).subs[c], x) && x !in AccountOf(limit, trace, c).replayed
    requires x <= LastTag(Exec(limit, trace).subs[c])
    ensures var s := Exec(limit, trace).subs[c];
            forall later :: Lost(AccountOf(limit, trace, c), s, Since(later, LastTag(s)), x)
  {
    ReconnectLosesIff(limit, trace, c);
  }

  lemma BehindState(limit: nat, b: Broker, c: nat, data: string)
    requires limit >= 1 && Behind(b, c)
    ensures
      var b1 := Next(limit, b, Publish(b.subs[c].channel, data));
      && Enabled(b1, LiveWrite(c))
      && var b2 := Next(limit, b1, LiveWrite(c));
         && c in b2.subs && b2.subs[c].written != [] && LastTag(b2.subs[c]) == b.eventId + 1
         && Unsent(b2.subs[c], b.eventId + 1)
  {
    var item := Item(b.eventId + 1, data);
    var b1 := Published(b, limit, b.subs[c].channel, data);
    assert b1.subs[c] == Fed(b.subs[c], item);
    var s := Next(limit, b1, LiveWrite(c)).subs[c];
    assert s.events == b.subs[c].events[1..] + [item];
    assert Ids(s.events)[|s.events| - 1] == item.id;
  }

  /** Such a run, from the start: the second event is lost. */
  lemma LosesAnEvent(limit: nat)
    requires limit >= 1
    ensures
      var t := [Subscribe(0, "c", "k")] + [Hello(0)] + [Publish("c", "x")] + [Publish("c", "y")] + [LiveWrite(0)];
      && Legal(limit, t) && 0 in Exec(limit, t).subs && Exec(limit, t).subs[0].written != []
      && var s := Exec(limit, t).subs[0];
         forall later :: Lost(AccountOf(limit, t, 0), s, Since(later, LastTag(s)), 2)
  {
    var t0: seq<Step> := [];
    Extend(limit, t0, Subscribe(0, "c", "k"));
    var t1 := [Subscribe(0, "c", "k")];
    assert t0 + t1 == t1;
    Extend(limit, t1, Hello(0));
    var t2 := t1 + [Hello(0)];
    Extend(limit, t2, Publish("c", "x"));
    LosesTheNext(limit, t2 + [Publish("c", "x")], 0, "y");
  }

  /** A new subscriber's first event: it is in the queue and in the buffer. */
  lemma FirstEvent(limit: nat, b: Broker, c: nat, channel: string, key: string, data: string)
    requires limit >= 1 && c !in b.subs
    ensures
      var b' := Published(Subscribed(b, c, channel, key), limit, channel, data);
      && b'.eventId == b.eventId + 1 && c in b'.subs && Holds(Buffer(b', channel), b.eventId + 1)
      && b'.subs[c] == Sub(channel, key, [Item(b.eventId + 1, data)], [], 0, 0, false, Opening, [])
  {
    var b' := Published(Subscribed(b, c, channel, key), limit, channel, data);
    var buf := Buffer(b', channel);
    assert buf[|buf| - 1] == Entry(b.eventId + 1, data);
  }

  /** An unsent event need not be lost: from every run, an event published between a subscribe and
      its replay read is both queued and replayed, so a reconnect from the `connected` line on
      loses nothing although it is still queued. */
  lemma {:induction false} QueuedAndReplayed(limit: nat, trace: seq<Step>, c: nat, channel: string, key: string,
                                             data: string)
    requires limit >= 1 && Legal(limit, trace) && Enabled(Exec(limit, trace), Subscribe(c, channel, key))
    requires Exec(limit, trace).eventId > 0
    ensures
      var n := Exec(limit, trace).eventId;
      var t := trace + [Subscribe(c, channel, key)] + [Publish(channel, data)] + [ReadReplay(c, n)] + [Hello(c)];
      && Legal(limit, t) && c in Exec(limit, t).subs && Exec(limit, t).subs[c].written != []
      && var b := Exec(limit, t);
         var s, a := b.subs[c], AccountOf(limit, t, c);
         Unsent(s, n + 1) && forall x: nat :: !Lost(a, s, Since(Buffer(b, s.channel), LastTag(s)), x)
  {
    var n := Exec(limit, trace).eventId;
    Extend(limit, trace, Subscribe(c, channel, key));
    var t1 := trace + [Subscribe(c, channel, key)];
    Extend(limit, t1, Publish(channel, data));
    FirstEvent(limit, Exec(limit, trace), c, channel, key, data);
    ResumedStream(limit, t1 + [Publish(channel, data)], c, n);
  }

  lemma {:induction false} ResumedStream(limit: nat, trace: seq<Step>, c: nat, n: nat)
    requires limit >= 1 && Legal(limit, trace) && n > 0
    requires
      var b := Exec(limit, trace);
      && b.eventId == n + 1 && c in b.subs && b.subs[c].stage.Opening? && !b.subs[c].unsubscribed
      && Ids(b.subs[c].events) == [n + 1] && b.subs[c].dropped == [] && Holds(Buffer(b, b.subs[c].channel), n + 1)
    ensures
      var t := trace + [ReadReplay(c, n)] + [Hello(c)];
      && Legal(limit, t) && c in Exec(limit, t).subs && Exec(limit, t).subs[c].written != []
      && var b := Exec(limit, t);
         var s, a := b.subs[c], AccountOf(limit, t, c);
         Unsent(s, n + 1) && forall x: nat :: !Lost(a, s, Since(Buffer(b, s.channel), LastTag(s)), x)
  {
    var b := Exec(limit, trace);
    var entries := Since(Buffer(b, b.subs[c].channel), n);
    SinceHolds(Buffer(b, b.subs[c].channel), n, n + 1);
    ExtendBook(limit, trace, ReadReplay(c, n), c);
    var t1 := trace + [ReadReplay(c, n)];
    var i :| 0 <= i < |entries| && entries[i].id == n + 1;
    assert EntryIds(entries)[i] == n + 1;
    assert n + 1 in AccountOf(limit, t1, c).replayed;
    ExtendBook(limit, t1, Hello(c), c);
    var t := t1 + [Hello(c)];
    var s := Exec(limit, t).subs[c];
    assert Ids(s.events)[0] == n + 1;
    NothingNewer(limit, t, s.channel);
    ReconnectLosesIff(limit, t, c);
  }
}
