/** Order, repetition and loss on one SSE stream in every interleaving of its publishers, whose id,
    buffer entry and fan-out are three separate moments. */
module SseInterleaved {
  import opened Replay
  import opened SseHandoff

  // ---- Ids ----

  /** Ids are handed out once: no two publishers hold the same, none is logged twice, and none that
      is held has been logged. */
  ghost predicate Numbered(counter: nat, taken: map<nat, Entry>, log: seq<Entry>) {
    && (forall p :: p in taken ==> 1 <= taken[p].id <= counter)
    && (forall p, q :: p in taken && q in taken && p != q ==> taken[p].id != taken[q].id)
    && (forall i :: 0 <= i < |log| ==> 1 <= log[i].id <= counter)
    && (forall i, j :: 0 <= i < j < |log| ==> log[i].id != log[j].id)
    && (forall p, i :: p in taken && 0 <= i < |log| ==> taken[p].id != log[i].id)
  }

  lemma TakeNumbered(counter: nat, taken: map<nat, Entry>, log: seq<Entry>, p: nat, data: string)
    requires Numbered(counter, taken, log) && p !in taken
    ensures Numbered(counter + 1, taken[p := Entry(counter + 1, data)], log)
  {
  }

  lemma AppendNumbered(counter: nat, taken: map<nat, Entry>, log: seq<Entry>, p: nat)
    requires Numbered(counter, taken, log) && p in taken
    ensures Numbered(counter, taken - {p}, log + [taken[p]])
  {
  }

  lemma MoveKeepsNumbered(limit: nat, s: State, m: Move)
    requires limit >= 1 && CanMove(s, m) && Numbered(s.counter, s.taken, s.log)
    ensures var s' := Moved(limit, s, m); Numbered(s'.counter, s'.taken, s'.log)
  {
    if m.TakeId? {
      TakeNumbered(s.counter, s.taken, s.log, m.publisher, m.data);
    } else if m.Append? {
      AppendNumbered(s.counter, s.taken, s.log, m.publisher);
    }
  }

  lemma {:induction false} NumberedOverRuns(limit: nat, trace: seq<Move>)
    requires limit >= 1 && Legal(limit, trace)
    ensures var s := Exec(limit, trace); Numbered(s.counter, s.taken, s.log)
  {
    if trace != [] {
      var p := trace[..|trace| - 1];
      NumberedOverRuns(limit, p);
      MoveKeepsNumbered(limit, Exec(limit, p), trace[|trace| - 1]);
    }
  }

  // ---- The order of a replay ----

  /** From position `from` on, entries newer than `last` are in the order of their ids. */
  ghost predicate InOrder(log: seq<Entry>, from: int, last: nat) {
    forall i, j :: 0 <= i < j < |log| && from <= i && log[i].id > last && log[j].id > last ==> log[i].id < log[j].id
  }

  lemma OrderOfTail(log: seq<Entry>, limit: nat, last: nat, less: (Entry, Entry) -> bool)
    requires less == ((x: Entry, y: Entry) => x.id < y.id)
    ensures NewerPairwise(Tail(log, limit), last, less) <==> InOrder(log, |log| - limit, last)
  {
    var cut := if |log| <= limit then 0 else |log| - limit;
    var buf := Tail(log, limit);
    assert |buf| == |log| - cut;
    if NewerPairwise(buf, last, less) {
      forall i, j | 0 <= i < j < |log| && |log| - limit <= i && log[i].id > last && log[j].id > last
        ensures log[i].id < log[j].id
      {
        assert buf[i - cut] == log[i] && buf[j - cut] == log[j];
      }
    }
    if InOrder(log, |log| - limit, last) {
      forall i, j | 0 <= i < j < |buf| && buf[i].id > last && buf[j].id > last ensures less(buf[i], buf[j]) {
        assert buf[i] == log[cut + i] && buf[j] == log[cut + j];
      }
    }
  }

  lemma IncreasingIsPairwise(r: seq<Entry>, less: (Entry, Entry) -> bool)
    requires less == ((x: Entry, y: Entry) => x.id < y.id)
    ensures Increasing(r) <==> Pairwise(r, less)
  {
  }

  lemma {:induction false} TailReplayOrder(log: seq<Entry>, limit: nat, last: nat)
    ensures Increasing(Since(Tail(log, limit), last)) <==> InOrder(log, |log| - limit, last)
  {
    var less := (x: Entry, y: Entry) => x.id < y.id;
    SincePairwise(Tail(log, limit), last, less);
    IncreasingIsPairwise(Since(Tail(log, limit), last), less);
    OrderOfTail(log, limit, last, less);
  }

  /** In every interleaving, a replay's ids increase if and only if the newer entries then in the
      buffer had been appended in the order of their ids. */
  lemma {:induction false} ReplayInOrderIff(limit: nat, trace: seq<Move>)
    requires limit >= 1 && Legal(limit, trace) && Exec(limit, trace).client.CaughtUp?
    ensures
      var s := Exec(limit, trace);
      && s.client.logged <= |s.log|
      && (Increasing(s.client.replayed)
          <==> InOrder(s.log[..s.client.logged], s.client.logged - limit, s.client.last))
  {
    InvOverRuns(limit, trace);
    ReplayOrderOf(limit, Exec(limit, trace));
  }

  lemma ReplayOrderOf(limit: nat, s: State)
    requires Inv(limit, s) && s.client.CaughtUp?
    ensures s.client.logged <= |s.log|
    ensures Increasing(s.client.replayed)
            <==> InOrder(s.log[..s.client.logged], s.client.logged - limit, s.client.last)
  {
    TailReplayOrder(s.log[..s.client.logged], limit, s.client.last);
  }

  /** Publishers append in turn: whoever appends holds the smallest id held for the channel. */
  ghost predicate InTurn(limit: nat, trace: seq<Move>)
    requires limit >= 1 && Legal(limit, trace)
  {
    trace == [] ||
    (var p, m := trace[..|trace| - 1], trace[|trace| - 1];
     InTurn(limit, p) && (m.Append? ==> HoldsSmallest(Exec(limit, p).taken, m.publisher)))
  }

  ghost predicate HoldsSmallest(taken: map<nat, Entry>, p: nat) {
    p in taken && forall q :: q in taken ==> taken[p].id <= taken[q].id
  }

  /** The log is in order and stays so if nobody overtakes. */
  ghost predicate Ordered(taken: map<nat, Entry>, log: seq<Entry>) {
    Increasing(log) && forall p, i :: p in taken && 0 <= i < |log| ==> log[i].id < taken[p].id
  }

  lemma AppendOrdered(counter: nat, taken: map<nat, Entry>, log: seq<Entry>, p: nat)
    requires Numbered(counter, taken, log) && p in taken
    ensures Ordered(taken - {p}, log + [taken[p]]) <==> Ordered(taken, log) && HoldsSmallest(taken, p)
  {
    var taken', log' := taken - {p}, log + [taken[p]];
    if Ordered(taken', log') {
      assert log'[|log|] == taken[p];
      assert forall i :: 0 <= i < |log| ==> log'[i] == log[i];
      forall q | q in taken ensures taken[p].id <= taken[q].id {
        if q != p { assert q in taken'; }
      }
    }
  }

  lemma TakeOrdered(counter: nat, taken: map<nat, Entry>, log: seq<Entry>, p: nat, data: string)
    requires Numbered(counter, taken, log) && p !in taken
    ensures Ordered(taken[p := Entry(counter + 1, data)], log) <==> Ordered(taken, log)
  {
    var taken' := taken[p := Entry(counter + 1, data)];
    assert forall q :: q in taken ==> q in taken' && taken'[q] == taken[q];
  }

  lemma MoveOrdered(limit: nat, s: State, m: Move)
    requires limit >= 1 && CanMove(s, m) && Numbered(s.counter, s.taken, s.log)
    ensures var s' := Moved(limit, s, m);
            Ordered(s'.taken, s'.log) <==> Ordered(s.taken, s.log) && (m.Append? ==> HoldsSmallest(s.taken,
                    m.publisher))
  {
    if m.TakeId? {
      TakeOrdered(s.counter, s.taken, s.log, m.publisher, m.data);
    } else if m.Append? {
      AppendOrdered(s.counter, s.taken, s.log, m.publisher);
    }
  }

  /** Over every run: the channel's log is in order, and nobody holds an id below a logged one, if
      and only if the publishers appended in turn. */
  lemma {:induction false} LogOrderedIff(limit: nat, trace: seq<Move>)
    requires limit >= 1 && Legal(limit, trace)
    ensures InTurn(limit, trace) <==> Ordered(Exec(limit, trace).taken, Exec(limit, trace).log)
  {
    if trace != [] {
      var p, m := trace[..|trace| - 1], trace[|trace| - 1];
      LogOrderedIff(limit, p);
      NumberedOverRuns(limit, p);
      MoveOrdered(limit, Exec(limit, p), m);
    }
  }

  /** So publishers in turn make every replay increase. */
  lemma {:induction false} InTurnReplaysInOrder(limit: nat, trace: seq<Move>)
    requires limit >= 1 && Legal(limit, trace) && InTurn(limit, trace) && Exec(limit, trace).client.CaughtUp?
    ensures Increasing(Exec(limit, trace).client.replayed)
  {
    LogOrderedIff(limit, trace);
    ReplayInOrderIff(limit, trace);
  }

  /** In every interleaving the buffer is the end of the log in the order of the appends, and
      reading it gives what filtering the log would if and only if nothing newer was pushed out;
      with publishers in turn, if and only if at most `limit` newer events exist. */
  lemma {:induction false} BufferIsEndOfLog(limit: nat, trace: seq<Move>, last: nat)
    requires limit >= 1 && Legal(limit, trace)
    ensures
      var s := Exec(limit, trace);
      && s.buf == Tail(s.log, limit)
      && (Since(s.buf, last) == Since(s.log, last) <==> forall i :: 0 <= i < |s.log| - limit ==> s.log[i].id <= last)
      && (InTurn(limit, trace) ==> (Since(s.buf, last) == Since(s.log, last) <==> |Since(s.log, last)| <= limit))
  {
    InvOverRuns(limit, trace);
    var s := Exec(limit, trace);
    ReplayIsExactIffNothingEvicted(s.log, limit, last);
    if InTurn(limit, trace) {
      LogOrderedIff(limit, trace);
      ReplayIsExactIff(s.log, limit, last);
    }
  }

  // ---- A stream cut off during its replay ----

  /** The client saw the first `k` replayed lines and asks again, against the buffer it was replayed
      from: an event it has seen comes again. */
  ghost predicate RepeatsAfter(buf: seq<Entry>, replayed: seq<Entry>, k: int) {
    0 < k <= |replayed| && exists e :: e in replayed[..k] && e in Since(buf, replayed[k - 1].id)
  }

  lemma {:induction false} ReplayedOnce(limit: nat, trace: seq<Move>)
    requires limit >= 1 && Legal(limit, trace) && Exec(limit, trace).client.CaughtUp?
    ensures
      var s := Exec(limit, trace);
      && s.client.logged <= |s.log|
      && (forall e :: e in s.client.replayed ==> e in Tail(s.log[..s.client.logged], limit) && e.id <= s.counter)
      && (forall i, j :: 0 <= i < j < |s.client.replayed| ==> s.client.replayed[i].id != s.client.replayed[j].id)
  {
    InvOverRuns(limit, trace);
    NumberedOverRuns(limit, trace);
    var s := Exec(limit, trace);
    SinceMembers(Tail(s.log[..s.client.logged], limit), s.client.last);
    ReplayedDistinct(s.log[..s.client.logged], limit, s.client.last);
  }

  lemma ReplayedDistinct(log: seq<Entry>, limit: nat, last: nat)
    requires forall i, j :: 0 <= i < j < |log| ==> log[i].id != log[j].id
    ensures var r := Since(Tail(log, limit), last);
            forall i, j :: 0 <= i < j < |r| ==> r[i].id != r[j].id
  {
    var differ := (x: Entry, y: Entry) => x.id != y.id;
    SincePairwise(Tail(log, limit), last, differ);
    assert Pairwise(Since(Tail(log, limit), last), differ);
  }

  /** In every interleaving: a client cut off during its replay can be replayed a written event
      again if and only if the replay's ids did not increase; if they did, no later buffer repeats
      one either. */
  lemma {:induction false} CutOffRepeatsIff(limit: nat, trace: seq<Move>)
    requires limit >= 1 && Legal(limit, trace) && Exec(limit, trace).client.CaughtUp?
    ensures
      var s := Exec(limit, trace);
      && s.client.logged <= |s.log|
      && ((exists k :: RepeatsAfter(Tail(s.log[..s.client.logged], limit), s.client.replayed, k))
          <==> !Increasing(s.client.replayed))
      && (Increasing(s.client.replayed) ==> forall later, k :: !RepeatsAfter(later, s.client.replayed, k))
  {
    ReplayedOnce(limit, trace);
    var s := Exec(limit, trace);
    RepeatsIffDisorder(Tail(s.log[..s.client.logged], limit), s.client.replayed);
    if Increasing(s.client.replayed) {
      forall later, k ensures !RepeatsAfter(later, s.client.replayed, k) {
        if RepeatsAfter(later, s.client.replayed, k) { RepeatIsDisorder(later, s.client.replayed, k); }
      }
    }
  }

  lemma RepeatsIffDisorder(buf: seq<Entry>, r: seq<Entry>)
    requires forall e :: e in r ==> e in buf
    requires forall i, j :: 0 <= i < j < |r| ==> r[i].id != r[j].id
    ensures (exists k :: RepeatsAfter(buf, r, k)) <==> !Increasing(r)
  {
    if !Increasing(r) {
      var i, j :| 0 <= i < j < |r| && r[i].id >= r[j].id;
      DisorderRepeats(buf, r, i, j);
    }
    if k :| RepeatsAfter(buf, r, k) {
      RepeatIsDisorder(buf, r, k);
    }
  }

  lemma DisorderRepeats(buf: seq<Entry>, r: seq<Entry>, i: nat, j: nat)
    requires i < j < |r| && r[i] in buf && r[i].id > r[j].id
    ensures RepeatsAfter(buf, r, j + 1)
  {
    SinceMembers(buf, r[j].id);
    var k := j + 1;
    assert r[..k][i] == r[i] && r[k - 1] == r[j];
    assert r[i] in r[..k] && r[i] in Since(buf, r[k - 1].id);
  }

  lemma RepeatIsDisorder(buf: seq<Entry>, r: seq<Entry>, k: nat)
    requires RepeatsAfter(buf, r, k)
    ensures !Increasing(r)
  {
    SinceMembers(buf, r[k - 1].id);
    var e :| e in r[..k] && e in Since(buf, r[k - 1].id);
    var i :| 0 <= i < k && r[..k][i] == e;
    assert r[i].id > r[k - 1].id;
  }

  /** From every run: two publishers that hold ids can append out of turn, and then a replay from
      below both is out of order (with room for two in the buffer). */
  lemma {:induction false} OvertakingDisorders(limit: nat, trace: seq<Move>, p: nat, q: nat, last: nat)
    requires limit >= 2 && Legal(limit, trace) && Exec(limit, trace).client.Away?
    requires p in Exec(limit, trace).taken && q in Exec(limit, trace).taken
    requires 0 < last < Exec(limit, trace).taken[p].id < Exec(limit, trace).taken[q].id
    ensures
      var t := trace + [Append(q)] + [Append(p)] + [Subscribe] + [ReadReplay(last)];
      Legal(limit, t) && Exec(limit, t).client.CaughtUp? && !Increasing(Exec(limit, t).client.replayed)
  {
    OvertakenState(limit, trace, p, q);
    var t2 := trace + [Append(q)] + [Append(p)];
    Extend(limit, t2, Subscribe);
    var t3 := t2 + [Subscribe];
    Extend(limit, t3, ReadReplay(last));
    SincePairwise(Exec(limit, t3).buf, last, (x: Entry, y: Entry) => x.id < y.id);
  }

  lemma {:induction false} OvertakenState(limit: nat, trace: seq<Move>, p: nat, q: nat)
    requires limit >= 2 && Legal(limit, trace) && Exec(limit, trace).client.Away?
    requires p in Exec(limit, trace).taken && q in Exec(limit, trace).taken && p != q
    ensures
      var t := trace + [Append(q)] + [Append(p)];
      && Legal(limit, t)
      && var s, s' := Exec(limit, trace), Exec(limit, t);
         && s'.client.Away? && s'.lines == [] && |s'.buf| >= 2
         && s'.buf[|s'.buf| - 2] == s.taken[q] && s'.buf[|s'.buf| - 1] == s.taken[p]
  {
    InvOverRuns(limit, trace);
    Extend(limit, trace, Append(q));
    Extend(limit, trace + [Append(q)], Append(p));
  }

  /** Such a run: ids 2 and 3 are appended the other way round and replayed as 3, 2; cut off after
      that, the client asks from 2 and is sent 3 again. */
  lemma OutOfOrderReplay(limit: nat)
    requires limit >= 2
    ensures
      var t := [OtherChannel] + [TakeId(0, "x")] + [TakeId(1, "y")] + [Append(1)] + [Append(0)] + [Subscribe]
            + [ReadReplay(1)];
      && Legal(limit, t)
      && var s := Exec(limit, t);
         && s.client == CaughtUp(1, [Entry(3, "y"), Entry(2, "x")], 2)
         && Entry(3, "y") in Since(s.buf, 2)
  {
    OvertakenAppend(limit);
    var t5 := [OtherChannel] + [TakeId(0, "x")] + [TakeId(1, "y")] + [Append(1)] + [Append(0)];
    Extend(limit, t5, Subscribe);
    var t6 := t5 + [Subscribe];
    Extend(limit, t6, ReadReplay(1));
    var buf := [Entry(3, "y"), Entry(2, "x")];
    SinceMembers(buf, 2);
    AllNewer(buf, 1);
  }

  lemma OvertakenAppend(limit: nat)
    requires limit >= 2
    ensures
      var t := [OtherChannel] + [TakeId(0, "x")] + [TakeId(1, "y")] + [Append(1)] + [Append(0)];
      && Legal(limit, t)
      && var s := Exec(limit, t);
         s.client.Away? && s.lines == [] && s.buf == [Entry(3, "y"), Entry(2, "x")] && |s.log| == 2
  {
    var t0: seq<Move> := [];
    Extend(limit, t0, OtherChannel);
    var t1 := [OtherChannel];
    assert t0 + t1 == t1;
    Extend(limit, t1, TakeId(0, "x"));
    var t2 := t1 + [TakeId(0, "x")];
    Extend(limit, t2, TakeId(1, "y"));
    var t3 := t2 + [TakeId(1, "y")];
    Extend(limit, t3, Append(1));
    var t4 := t3 + [Append(1)];
    Extend(limit, t4, Append(0));
  }

  // ---- From the connected line on ----

  /** Tags never decrease, are at least the id of their event and of everything replayed before,
      and never pass the counter; nothing that waits has a higher id than the counter. */
  ghost predicate StreamOk(s: State) {
    && LinesOk(s.lines, s.counter)
    && (forall e :: e in s.queue ==> e.id <= s.counter)
    && (forall p :: p in s.appended ==> s.appended[p].id <= s.counter)
    && (s.lines != [] ==> forall e :: e in ReplayOf(s.client) ==> e.id <= s.lines[0].tag)
  }

  ghost predicate LinesOk(lines: seq<Line>, counter: nat) {
    && (forall i, j :: 0 <= i < j < |lines| ==> lines[i].tag <= lines[j].tag)
    && (forall i :: 0 <= i < |lines| ==> lines[i].id <= lines[i].tag <= counter)
  }

  lemma HelloKeepsStream(limit: nat, s: State)
    requires limit >= 1 && StreamOk(s) && CanMove(s, Hello)
    requires forall e :: e in ReplayOf(s.client) ==> e.id <= s.counter
    ensures StreamOk(Moved(limit, s, Hello))
  {
  }

  lemma WriteKeepsStream(limit: nat, s: State)
    requires limit >= 1 && StreamOk(s) && CanMove(s, LiveWrite)
    ensures StreamOk(Moved(limit, s, LiveWrite))
  {
    assert s.queue[0] in s.queue;
    forall e | e in ReplayOf(s.client) ensures e.id <= s.counter { assert e.id <= s.lines[0].tag; }
  }

  lemma FedKeepsStream(s: State, e: Entry)
    requires StreamOk(s) && e.id <= s.counter
    ensures StreamOk(Fed(s, e))
  {
  }

  lemma FeedKeepsStream(limit: nat, s: State, m: Move)
    requires limit >= 1 && StreamOk(s) && CanMove(s, m) && (m.FanOut? || m.Broadcast?)
    ensures StreamOk(Moved(limit, s, m))
  {
    FedKeepsStream(s, if m.FanOut? then s.appended[m.publisher] else Entry(0, m.data));
  }

  lemma PublisherKeepsStream(limit: nat, s: State, m: Move)
    requires limit >= 1 && StreamOk(s) && CanMove(s, m) && (m.TakeId? || m.Append? || m.OtherChannel?)
    requires Numbered(s.counter, s.taken, s.log)
    ensures StreamOk(Moved(limit, s, m))
  {
  }

  lemma ClientKeepsStream(limit: nat, s: State, m: Move)
    requires limit >= 1 && StreamOk(s) && CanMove(s, m) && (m.Subscribe? || m.ReadReplay? || m.Unsubscribe?)
    ensures StreamOk(Moved(limit, s, m))
  {
  }

  lemma OtherKeepsStream(limit: nat, s: State, m: Move)
    requires limit >= 1 && StreamOk(s) && CanMove(s, m) && !m.Hello? && !m.LiveWrite?
    requires Numbered(s.counter, s.taken, s.log)
    ensures StreamOk(Moved(limit, s, m))
  {
    if m.FanOut? || m.Broadcast? {
      FeedKeepsStream(limit, s, m);
    } else if m.TakeId? || m.Append? || m.OtherChannel? {
      PublisherKeepsStream(limit, s, m);
    } else {
      ClientKeepsStream(limit, s, m);
    }
  }

  lemma {:induction false} StreamOverRuns(limit: nat, trace: seq<Move>)
    requires limit >= 1 && Legal(limit, trace)
    ensures StreamOk(Exec(limit, trace))
  {
    if trace != [] {
      var p, m := trace[..|trace| - 1], trace[|trace| - 1];
      StreamOverRuns(limit, p);
      NumberedOverRuns(limit, p);
      var s := Exec(limit, p);
      if m.Hello? {
        if s.client.CaughtUp? { ReplayedOnce(limit, p); }
        HelloKeepsStream(limit, s);
      } else if m.LiveWrite? {
        WriteKeepsStream(limit, s);
      } else {
        OtherKeepsStream(limit, s, m);
      }
    }
  }

  function LastTag(s: State): nat
    requires s.lines != []
  {
    s.lines[|s.lines| - 1].tag
  }

  ghost predicate OnLines(s: State, x: nat) { exists i :: 0 <= i < |s.lines| && s.lines[i].id == x }

  ghost predicate Replayed(s: State, x: nat) { Holds(ReplayOf(s.client), x) }

  /** In every interleaving: from the connected line on, tags never decrease and are at least their
      event's id, so a reconnect with the last of them never brings an event that this stream wrote
      live or replayed, in whatever order, and whatever the buffer holds by then. */
  lemma {:induction false} ConnectedNeverRepeats(limit: nat, trace: seq<Move>, later: seq<Entry>)
    requires limit >= 1 && Legal(limit, trace) && Exec(limit, trace).lines != []
    ensures
      var s := Exec(limit, trace);
      && (forall i, j :: 0 <= i < j < |s.lines| ==> s.lines[i].tag <= s.lines[j].tag)
      && (forall i :: 0 <= i < |s.lines| ==> s.lines[i].id <= s.lines[i].tag)
      && forall x :: Holds(Since(later, LastTag(s)), x) ==> !OnLines(s, x) && !Replayed(s, x)
  {
    StreamOverRuns(limit, trace);
    var s := Exec(limit, trace);
    forall x | Holds(Since(later, LastTag(s)), x) ensures !OnLines(s, x) && !Replayed(s, x) {
      NewerIsNew(s, later, x);
    }
  }

  lemma NewerIsNew(s: State, later: seq<Entry>, x: nat)
    requires StreamOk(s) && s.lines != [] && Holds(Since(later, LastTag(s)), x)
    ensures !OnLines(s, x) && !Replayed(s, x)
  {
    SinceHolds(later, LastTag(s), x);
    assert s.lines[0].tag <= LastTag(s);
  }

  // ---- What a cut loses ----

  /** The ids of some entries, and of the lines written live, which are all but the connected one. */
  function Bag(entries: seq<Entry>): multiset<nat> { multiset(EntryIds(entries)) }

  function SentBag(lines: seq<Line>): multiset<nat> {
    if |lines| <= 1 then multiset{} else SentBag(lines[..|lines| - 1]) + multiset{lines[|lines| - 1].id}
  }

  lemma BagMore(entries: seq<Entry>, e: Entry)
    ensures Bag(entries + [e]) == Bag(entries) + multiset{e.id}
  {
    assert EntryIds(entries + [e]) == EntryIds(entries) + [e.id];
  }

  lemma BagLess(entries: seq<Entry>)
    requires entries != []
    ensures Bag(entries) == multiset{entries[0].id} + Bag(entries[1..])
  {
    assert EntryIds(entries) == [entries[0].id] + EntryIds(entries[1..]);
  }

  lemma BagHolds(entries: seq<Entry>, x: nat)
    ensures x in Bag(entries) <==> Holds(entries, x)
  {
    if x in EntryIds(entries) {
      var i :| 0 <= i < |entries| && EntryIds(entries)[i] == x;
      assert entries[i] in entries;
    }
    if Holds(entries, x) {
      var e :| e in entries && e.id == x;
      var i :| 0 <= i < |entries| && entries[i] == e;
      assert EntryIds(entries)[i] == x;
    }
  }

  lemma {:induction false} SentHolds(lines: seq<Line>, x: nat)
    requires lines != []
    ensures x in SentBag(lines) <==> exists i :: 1 <= i < |lines| && lines[i].id == x
  {
    if |lines| > 1 {
      var p := lines[..|lines| - 1];
      SentHolds(p, x);
      if i :| 1 <= i < |p| && p[i].id == x { assert lines[i].id == x; }
      if i :| 1 <= i < |lines| && lines[i].id == x { assert i < |p| ==> p[i].id == x; }
    }
  }

  /** Every offer was written live, still waits or was dropped. */
  ghost predicate Adds(offered: seq<Entry>, lines: seq<Line>, queue: seq<Entry>, dropped: seq<Entry>) {
    && Bag(offered) == SentBag(lines) + Bag(queue) + Bag(dropped)
    && (lines != [] ==> lines[0].id == 0)
  }

  ghost predicate Conserved(s: State) { Adds(s.offered, s.lines, s.queue, s.dropped) }

  lemma FeedAdds(offered: seq<Entry>, lines: seq<Line>, queue: seq<Entry>, dropped: seq<Entry>, e: Entry)
    requires Adds(offered, lines, queue, dropped)
    ensures Adds(offered + [e], lines, queue + [e], dropped)
    ensures Adds(offered + [e], lines, queue, dropped + [e])
  {
    BagMore(offered, e);
    BagMore(queue, e);
    BagMore(dropped, e);
  }

  lemma FedConserves(s: State, e: Entry)
    requires Conserved(s)
    ensures Conserved(Fed(s, e))
  {
    FeedAdds(s.offered, s.lines, s.queue, s.dropped, e);
  }

  lemma WriteConserves(offered: seq<Entry>, lines: seq<Line>, queue: seq<Entry>, dropped: seq<Entry>, tag: nat)
    requires Adds(offered, lines, queue, dropped) && lines != [] && queue != []
    ensures Adds(offered, lines + [Line(tag, queue[0].id, queue[0].data)], queue[1..], dropped)
  {
    BagLess(queue);
    assert (lines + [Line(tag, queue[0].id, queue[0].data)])[..|lines|] == lines;
  }

  lemma MoveConserves(limit: nat, s: State, m: Move)
    requires limit >= 1 && CanMove(s, m) && Conserved(s)
    ensures Conserved(Moved(limit, s, m))
  {
    match m
    case FanOut(p) => FedConserves(s, s.appended[p]);
    case Broadcast(data) => FedConserves(s, Entry(0, data));
    case LiveWrite => WriteConserves(s.offered, s.lines, s.queue, s.dropped, s.counter);
    case _ =>
  }

  /** A publish to the channel that has taken the id `x` and is not finished. */
  ghost predicate Unfinished(s: State, x: nat) {
    exists p :: (p in s.taken && s.taken[p].id == x) || (p in s.appended && s.appended[p].id == x)
  }

  /** Numbered events are offered once, and not before their publish reaches its fan-out. */
  ghost predicate OnceEach(counter: nat, taken: map<nat, Entry>, appended: map<nat, Entry>, offered: multiset<nat>) {
    && (forall x: nat :: x > 0 ==> offered[x] <= 1)
    && (forall x :: x in offered ==> x <= counter)
    && (forall p :: p in taken ==> taken[p].id !in offered)
    && (forall p :: p in appended ==> 1 <= appended[p].id <= counter && appended[p].id !in offered)
    && (forall p, q :: p in appended && q in appended && p != q ==> appended[p].id != appended[q].id)
    && (forall p, q :: p in taken && q in appended ==> taken[p].id != appended[q].id)
  }

  lemma FanOutOnce(counter: nat, taken: map<nat, Entry>, appended: map<nat, Entry>, offered: multiset<nat>, p: nat)
    requires OnceEach(counter, taken, appended, offered) && p in appended
    ensures OnceEach(counter, taken, appended - {p}, offered)
    ensures OnceEach(counter, taken, appended - {p}, offered + multiset{appended[p].id})
  {
  }

  lemma BroadcastOnce(counter: nat, taken: map<nat, Entry>, appended: map<nat, Entry>, offered: multiset<nat>)
    requires OnceEach(counter, taken, appended, offered) && forall p :: p in taken ==> taken[p].id >= 1
    ensures OnceEach(counter, taken, appended, offered + multiset{0})
  {
  }

  lemma TakeOnce(counter: nat, taken: map<nat, Entry>, appended: map<nat, Entry>, offered: multiset<nat>, e: Entry,
                 p: nat)
    requires OnceEach(counter, taken, appended, offered) && e.id == counter + 1
    ensures OnceEach(counter + 1, taken, appended, offered)
    ensures OnceEach(counter + 1, taken[p := e], appended, offered)
  {
  }

  lemma AppendOnce(counter: nat, taken: map<nat, Entry>, appended: map<nat, Entry>, offered: multiset<nat>, p: nat)
    requires OnceEach(counter, taken, appended, offered) && p in taken && 1 <= taken[p].id <= counter
    requires forall q :: q in taken && q != p ==> taken[q].id != taken[p].id
    ensures OnceEach(counter, taken - {p}, appended[p := taken[p]], offered)
  {
  }

  ghost predicate Once(s: State) { OnceEach(s.counter, s.taken, s.appended, Bag(s.offered)) }

  lemma FeedOnce(limit: nat, s: State, p: nat)
    requires limit >= 1 && p in s.appended && Once(s)
    ensures Once(Moved(limit, s, FanOut(p)))
  {
    BagMore(s.offered, s.appended[p]);
    FanOutOnce(s.counter, s.taken, s.appended, Bag(s.offered), p);
  }

  lemma BroadcastKeepsOnce(limit: nat, s: State, data: string)
    requires limit >= 1 && Once(s) && forall p :: p in s.taken ==> s.taken[p].id >= 1
    ensures Once(Moved(limit, s, Broadcast(data)))
  {
    BagMore(s.offered, Entry(0, data));
    BroadcastOnce(s.counter, s.taken, s.appended, Bag(s.offered));
  }

  lemma PublisherOnce(limit: nat, s: State, m: Move)
    requires limit >= 1 && CanMove(s, m) && (m.TakeId? || m.Append? || m.OtherChannel?) && Once(s)
    requires Numbered(s.counter, s.taken, s.log)
    ensures Once(Moved(limit, s, m))
  {
    match m
    case TakeId(p, data) => TakeOnce(s.counter, s.taken, s.appended, Bag(s.offered), Entry(s.counter + 1, data), p);
    case Append(p) => AppendOnce(s.counter, s.taken, s.appended, Bag(s.offered), p);
    case OtherChannel => TakeOnce(s.counter, s.taken, s.appended, Bag(s.offered), Entry(s.counter + 1, ""), 0);
  }

  lemma MoveOnce(limit: nat, s: State, m: Move)
    requires limit >= 1 && CanMove(s, m) && Once(s) && Numbered(s.counter, s.taken, s.log)
    ensures Once(Moved(limit, s, m))
  {
    if m.FanOut? {
      FeedOnce(limit, s, m.publisher);
    } else if m.Broadcast? {
      BroadcastKeepsOnce(limit, s, m.data);
    } else if m.TakeId? || m.Append? || m.OtherChannel? {
      PublisherOnce(limit, s, m);
    }
  }

  /** Over every run: offers are conserved, and a numbered event is offered once, at its fan-out. */
  lemma {:induction false} OffersOverRuns(limit: nat, trace: seq<Move>)
    requires limit >= 1 && Legal(limit, trace)
    ensures Conserved(Exec(limit, trace)) && Once(Exec(limit, trace))
  {
    if trace != [] {
      var p := trace[..|trace| - 1];
      OffersOverRuns(limit, p);
      NumberedOverRuns(limit, p);
      MoveConserves(limit, Exec(limit, p), trace[|trace| - 1]);
      MoveOnce(limit, Exec(limit, p), trace[|trace| - 1]);
    }
  }

  /** A numbered event whose publish was not over before the client was listed. */
  ghost predicate Current(s: State, x: nat) {
    x > 0 && (Holds(s.offered, x) || Unfinished(s, x))
  }

  /** A numbered event in the queue, dropped on it, or of an unfinished publish. */
  ghost predicate Pending(s: State, x: nat) {
    x > 0 && (Holds(s.queue, x) || Holds(s.dropped, x) || Unfinished(s, x))
  }

  /** Of four bags that add up with no repetition, each element of the first is in exactly one other. */
  lemma OneOfThree(all: multiset<nat>, x1: multiset<nat>, x2: multiset<nat>, x3: multiset<nat>, x: nat)
    requires all == x1 + x2 + x3 && all[x] <= 1
    ensures x in all && x !in x1 <==> x in x2 || x in x3
    ensures x in x1 ==> x in all
  {
    assert all[x] == x1[x] + x2[x] + x3[x];
  }

  lemma OfferedIsSomewhere(s: State, x: nat)
    requires Conserved(s) && Once(s) && x > 0
    ensures Holds(s.offered, x) && !OnLines(s, x) <==> Holds(s.queue, x) || Holds(s.dropped, x)
    ensures Holds(s.offered, x) ==> x <= s.counter
    ensures OnLines(s, x) ==> Holds(s.offered, x)
  {
    OneOfThree(Bag(s.offered), SentBag(s.lines), Bag(s.queue), Bag(s.dropped), x);
    BagHolds(s.offered, x);
    BagHolds(s.queue, x);
    BagHolds(s.dropped, x);
    SentIsOnLines(s, x);
  }

  lemma SentIsOnLines(s: State, x: nat)
    requires Conserved(s) && x > 0
    ensures OnLines(s, x) <==> x in SentBag(s.lines)
  {
    if s.lines != [] {
      SentHolds(s.lines, x);
    }
  }

  lemma UnfinishedIsNotOffered(s: State, x: nat)
    requires Once(s) && Numbered(s.counter, s.taken, s.log) && Unfinished(s, x)
    ensures !Holds(s.offered, x) && x <= s.counter
  {
    BagHolds(s.offered, x);
  }

  lemma OffLinesIsPending(s: State, x: nat)
    requires Conserved(s) && Once(s) && Numbered(s.counter, s.taken, s.log) && x > 0
    ensures Current(s, x) && !OnLines(s, x) <==> Pending(s, x)
    ensures Current(s, x) ==> x <= s.counter
  {
    OfferedIsSomewhere(s, x);
    if Unfinished(s, x) {
      UnfinishedIsNotOffered(s, x);
    }
  }

  /** In every interleaving, for every stream past its connected line: the events of the channel
      whose publish was not over when it was listed and that it has not written live are exactly
      those queued, dropped or still being published; and no replay from the last tag, out of
      whatever buffer, brings any of them that is not above that tag. */
  lemma {:induction false} PassedOver(limit: nat, trace: seq<Move>, later: seq<Entry>)
    requires limit >= 1 && Legal(limit, trace) && Listed(Exec(limit, trace)) && Exec(limit, trace).lines != []
    ensures
      var s := Exec(limit, trace);
      && (forall x: nat :: x > 0 ==> (Current(s, x) && !OnLines(s, x) <==> Pending(s, x)))
      && (forall x: nat :: Pending(s, x) ==> x <= s.counter)
      && (forall x: nat :: Holds(Since(later, LastTag(s)), x) <==> Holds(later, x) && x > LastTag(s))
  {
    OffersOverRuns(limit, trace);
    NumberedOverRuns(limit, trace);
    var s := Exec(limit, trace);
    forall x: nat | x > 0
      ensures (Current(s, x) && !OnLines(s, x) <==> Pending(s, x)) && (Current(s, x) ==> x <= s.counter)
    {
      OffLinesIsPending(s, x);
    }
    forall x: nat ensures Holds(Since(later, LastTag(s)), x) <==> Holds(later, x) && x > LastTag(s) {
      SinceHolds(later, LastTag(s), x);
    }
  }

  // ---- Written twice on one stream ----

  lemma TailHolds(log: seq<Entry>, m: nat, limit: nat, i: nat)
    requires i < |log| && m <= |log| && forall j, k :: 0 <= j < k < |log| ==> log[j].id != log[k].id
    ensures Holds(Tail(log[..m], limit), log[i].id) <==> m - limit <= i < m
  {
    var buf := Tail(log[..m], limit);
    var cut := if m <= limit then 0 else m - limit;
    assert |buf| == m - cut && forall j :: 0 <= j < |buf| ==> buf[j] == log[cut + j];
    if m - limit <= i < m {
      assert buf[i - cut] == log[i];
      assert log[i] in buf;
    }
    if Holds(buf, log[i].id) {
      var e :| e in buf && e.id == log[i].id;
      var j :| 0 <= j < |buf| && buf[j] == e;
      assert log[cut + j].id == log[i].id;
    }
  }

  /** In every interleaving, for every event of the channel: it is replayed at most once, and that if
      and only if it is newer than asked for and its append came before the replay read and was not
      pushed out; it is written live at most once, and only after a fan-out while the stream was
      listed.  So it is on the stream twice if and only if both happened. */
  lemma {:induction false} WrittenAtMostTwice(limit: nat, trace: seq<Move>, i: nat)
    requires limit >= 1 && Legal(limit, trace) && Exec(limit, trace).client.CaughtUp? && i < |Exec(limit, trace).log|
    ensures
      var s := Exec(limit, trace);
      var x, r := s.log[i].id, s.client.replayed;
      && (forall j, k :: 0 <= j < k < |r| ==> r[j].id != r[k].id)
      && (Replayed(s, x) <==> s.client.logged - limit <= i < s.client.logged && x > s.client.last)
      && SentBag(s.lines)[x] <= 1
      && (OnLines(s, x) ==> Holds(s.offered, x))
      && (Holds(s.offered, x) && !OnLines(s, x) <==> Holds(s.queue, x) || Holds(s.dropped, x))
  {
    var s := Exec(limit, trace);
    InvOverRuns(limit, trace);
    NumberedOverRuns(limit, trace);
    OffersOverRuns(limit, trace);
    ReplayedOnce(limit, trace);
    TailHolds(s.log, s.client.logged, limit, i);
    SinceHolds(Tail(s.log[..s.client.logged], limit), s.client.last, s.log[i].id);
    OfferedIsSomewhere(s, s.log[i].id);
    SentOnce(s, s.log[i].id);
  }

  lemma SentOnce(s: State, x: nat)
    requires Conserved(s) && Once(s) && x > 0
    ensures SentBag(s.lines)[x] <= 1
  {
    assert Bag(s.offered)[x] == SentBag(s.lines)[x] + Bag(s.queue)[x] + Bag(s.dropped)[x];
  }

  /** From every run: if a publisher holds an id while a stream is listed and has not read the buffer,
      its event can be written twice, replayed and live. */
  lemma {:induction false} WrittenTwice(limit: nat, trace: seq<Move>, p: nat, last: nat)
    requires limit >= 1 && Legal(limit, trace) && p in Exec(limit, trace).taken
    requires 0 < last < Exec(limit, trace).taken[p].id
    requires
      var s := Exec(limit, trace);
      s.client.Listening? && s.lines == [] && s.queue == []
    ensures
      var t := trace + [Append(p)] + [FanOut(p)] + [ReadReplay(last)] + [Hello] + [LiveWrite];
      && Legal(limit, t)
      && var s, x := Exec(limit, t), Exec(limit, trace).taken[p].id;
         Replayed(s, x) && OnLines(s, x)
  {
    var e := Exec(limit, trace).taken[p];
    Extend(limit, trace, Append(p));
    var t1 := trace + [Append(p)];
    Extend(limit, t1, FanOut(p));
    var t2 := t1 + [FanOut(p)];
    var s2 := Exec(limit, t2);
    assert s2.queue == [e] && s2.buf[|s2.buf| - 1] == e && e in s2.buf;
    SinceHolds(s2.buf, last, e.id);
    ReadAndWrite(limit, t2, last, e);
  }

  lemma {:induction false} ReadAndWrite(limit: nat, trace: seq<Move>, last: nat, e: Entry)
    requires limit >= 1 && Legal(limit, trace) && last > 0
    requires
      var s := Exec(limit, trace);
      s.client.Listening? && s.lines == [] && s.queue == [e] && Holds(Since(s.buf, last), e.id)
    ensures
      var t := trace + [ReadReplay(last)] + [Hello] + [LiveWrite];
      Legal(limit, t) && Replayed(Exec(limit, t), e.id) && OnLines(Exec(limit, t), e.id)
  {
    Extend(limit, trace, ReadReplay(last));
    var t1 := trace + [ReadReplay(last)];
    Extend(limit, t1, Hello);
    var t2 := t1 + [Hello];
    Extend(limit, t2, LiveWrite);
    var s := Exec(limit, t2 + [LiveWrite]);
    assert s.lines[1].id == e.id;
  }

  // ---- In order ----

  /** The stream's history: offers that found fewer than 64 waiting, the others, and live writes. */
  datatype Flow = Flow(accepted: seq<Entry>, refused: seq<Entry>, live: seq<Entry>)

  function FlowOffer(s: State, f: Flow, e: Entry): Flow {
    if !(s.client.Listening? || s.client.CaughtUp?) then f
    else if |s.queue| < 64 then f.(accepted := f.accepted + [e])
    else f.(refused := f.refused + [e])
  }

  function Flowed(s: State, m: Move, f: Flow): Flow
    requires CanMove(s, m)
  {
    match m
    case FanOut(p) => FlowOffer(s, f, s.appended[p])
    case Broadcast(data) => FlowOffer(s, f, Entry(0, data))
    case LiveWrite => f.(live := f.live + [s.queue[0]])
    case _ => f
  }

  ghost function FlowOf(limit: nat, trace: seq<Move>): Flow
    requires limit >= 1 && Legal(limit, trace)
  {
    if trace == [] then Flow([], [], [])
    else
      var p := trace[..|trace| - 1];
      Flowed(Exec(limit, p), trace[|trace| - 1], FlowOf(limit, p))
  }

  function OnLine(lines: seq<Line>): (r: seq<Entry>)
    ensures |r| == |lines| && forall i :: 0 <= i < |lines| ==> r[i] == Entry(lines[i].id, lines[i].data)
  {
    seq(|lines|, i requires 0 <= i < |lines| => Entry(lines[i].id, lines[i].data))
  }

  ghost predicate Orderly(lines: seq<Line>, queue: seq<Entry>, dropped: seq<Entry>, f: Flow) {
    && f.live + queue == f.accepted && dropped == f.refused
    && (if lines == [] then f.live == [] else OnLine(lines) == [Entry(0, "connected")] + f.live)
  }

  lemma OfferOrderly(s: State, f: Flow, e: Entry)
    requires Orderly(s.lines, s.queue, s.dropped, f)
    ensures var s' := Fed(s, e); Orderly(s'.lines, s'.queue, s'.dropped, FlowOffer(s, f, e))
  {
    assert f.live + (s.queue + [e]) == f.live + s.queue + [e];
  }

  lemma WriteOrderly(lines: seq<Line>, queue: seq<Entry>, dropped: seq<Entry>, f: Flow, tag: nat)
    requires Orderly(lines, queue, dropped, f) && lines != [] && queue != []
    ensures Orderly(lines + [Line(tag, queue[0].id, queue[0].data)], queue[1..], dropped,
                    f.(live := f.live + [queue[0]]))
  {
    var e := queue[0];
    assert queue == [e] + queue[1..];
    assert f.live + ([e] + queue[1..]) == f.live + [e] + queue[1..];
    assert OnLine(lines + [Line(tag, e.id, e.data)]) == OnLine(lines) + [e];
    assert [Entry(0, "connected")] + f.live + [e] == [Entry(0, "connected")] + (f.live + [e]);
  }

  lemma MoveOrderly(limit: nat, s: State, m: Move, f: Flow)
    requires limit >= 1 && CanMove(s, m) && Orderly(s.lines, s.queue, s.dropped, f)
    ensures var s' := Moved(limit, s, m); Orderly(s'.lines, s'.queue, s'.dropped, Flowed(s, m, f))
  {
    match m
    case FanOut(p) => OfferOrderly(s, f, s.appended[p]);
    case Broadcast(data) => OfferOrderly(s, f, Entry(0, data));
    case LiveWrite => WriteOrderly(s.lines, s.queue, s.dropped, f, s.counter);
    case Hello =>
      assert OnLine([Line(s.counter, 0, "connected")]) == [Entry(0, "connected")];
      assert [Entry(0, "connected")] + [] == [Entry(0, "connected")];
    case _ =>
  }

  /** In every interleaving: from the connected line on the stream carries, in the order of the
      fan-outs and with their data, the events and broadcasts fanned out while it was listed that found
      fewer than 64 waiting, as far as it has written; the rest of them is its queue, and the others
      were dropped. */
  lemma {:induction false} StreamIsInOrder(limit: nat, trace: seq<Move>)
    requires limit >= 1 && Legal(limit, trace)
    ensures var s := Exec(limit, trace); Orderly(s.lines, s.queue, s.dropped, FlowOf(limit, trace))
  {
    if trace != [] {
      var p := trace[..|trace| - 1];
      StreamIsInOrder(limit, p);
      MoveOrderly(limit, Exec(limit, p), trace[|trace| - 1], FlowOf(limit, p));
    }
  }
}
