/** One SSE stream against concurrent publishers to its channel.  A publish is three separate moves:
    take an event id, append to the replay buffer under its lock, fan out under the other lock.
    The subscriber registers first, may read the buffer, writes its `connected` line and then the
    events from its queue, tagging each line with the counter of that moment. */
module SseHandoff {
  import opened Replay

  /** The client's side: not yet registered, registered, or past the replay read, of which we keep
      what it asked for, what it got and how long the channel's log was. */
  datatype Client =
    | Away
    | Listening
    | CaughtUp(last: nat, replayed: seq<Entry>, logged: nat)
    | Gone(was: seq<Entry>)

  /** What the stream replayed, if it did. */
  function ReplayOf(c: Client): seq<Entry> {
    match c
    case CaughtUp(_, replayed, _) => replayed
    case Gone(was) => was
    case _ => []
  }

  datatype State = State(
    counter: nat,                 // the broker-wide event id
    taken: map<nat, Entry>,       // publishers holding an id
    appended: map<nat, Entry>,    // publishers between append and fan-out
    log: seq<Entry>,              // everything ever appended for the channel
    buf: seq<Entry>,              // the replay buffer
    client: Client,
    offered: seq<Entry>,          // live offers to the client, accepted or dropped
    queue: seq<Entry>,            // accepted and not yet written
    dropped: seq<Entry>,          // offers that found the queue full
    lines: seq<Line>)             // the stream from its connected line on

  const Start := State(0, map[], map[], [], [], Away, [], [], [], [])

  predicate Listed(s: State) { s.client.Listening? || s.client.CaughtUp? }

  /** The non-blocking send to the client, if it is listed; a broadcast has id 0. */
  function Fed(s: State, e: Entry): State {
    if !Listed(s) then s
    else if |s.queue| < EVENTS then s.(offered := s.offered + [e], queue := s.queue + [e])
    else s.(offered := s.offered + [e], dropped := s.dropped + [e])
  }

  datatype Move =
    | TakeId(publisher: nat, data: string)
    | Append(publisher: nat)
    | FanOut(publisher: nat)
    | OtherChannel
    | Broadcast(data: string)
    | Subscribe
    | ReadReplay(last: nat)
    | Hello
    | LiveWrite
    | Unsubscribe

  predicate CanMove(s: State, m: Move) {
    match m
    case TakeId(p, _) => p !in s.taken && p !in s.appended
    case Append(p) => p in s.taken
    case FanOut(p) => p in s.appended
    case OtherChannel => true
    case Broadcast(_) => true
    case Subscribe => s.client.Away?
    case ReadReplay(last) => s.client.Listening? && s.lines == [] && last > 0
    case Hello => Listed(s) && s.lines == []
    case LiveWrite => Listed(s) && s.lines != [] && s.queue != []
    case Unsubscribe => Listed(s)
  }

  function Moved(limit: nat, s: State, m: Move): State
    requires limit >= 1 && CanMove(s, m)
  {
    match m
    case TakeId(p, data) =>
      s.(counter := s.counter + 1, taken := s.taken[p := Entry(s.counter + 1, data)])
    case Append(p) =>
      var e := s.taken[p];
      s.(taken := s.taken - {p}, appended := s.appended[p := e], log := s.log + [e], buf := Push(s.buf, limit, e))
    case FanOut(p) => Fed(s, s.appended[p]).(appended := s.appended - {p})
    case OtherChannel => s.(counter := s.counter + 1)
    case Broadcast(data) => Fed(s, Entry(0, data))
    case Subscribe => s.(client := Listening)
    case ReadReplay(last) => s.(client := CaughtUp(last, Since(s.buf, last), |s.log|))
    case Hello => s.(lines := [Line(s.counter, 0, CONNECTED)])
    case LiveWrite =>
      s.(queue := s.queue[1..], lines := s.lines + [Line(s.counter, s.queue[0].id, s.queue[0].data)])
    case Unsubscribe => s.(client := Gone(ReplayOf(s.client)))
  }

  ghost predicate Legal(limit: nat, trace: seq<Move>)
    requires limit >= 1
    decreases |trace|, 0
  {
    trace == [] || (Legal(limit, trace[..|trace| - 1])
          && CanMove(Exec(limit, trace[..|trace| - 1]), trace[|trace| - 1]))
  }

  ghost function Exec(limit: nat, trace: seq<Move>): State
    requires limit >= 1 && Legal(limit, trace)
    decreases |trace|, 1
  {
    if trace == [] then Start else Moved(limit, Exec(limit, trace[..|trace| - 1]), trace[|trace| - 1])
  }

  /** An entry the client has been, or is still going to be, offered live. */
  ghost predicate LiveOrComing(s: State, e: Entry) {
    e in s.offered || exists p :: p in s.appended && s.appended[p] == e
  }

  ghost predicate Inv(limit: nat, s: State) {
    && s.buf == Tail(s.log, limit)
    && s.taken.Keys !! s.appended.Keys
    && (s.client.Away? ==> s.lines == [])
    && (s.client.CaughtUp? ==>
          && s.client.logged <= |s.log|
          && s.client.replayed == Since(Tail(s.log[..s.client.logged], limit), s.client.last)
          && forall i :: s.client.logged <= i < |s.log| ==> LiveOrComing(s, s.log[i]))
  }

  lemma MoveKeepsInv(limit: nat, s: State, m: Move)
    requires limit >= 1 && Inv(limit, s) && CanMove(s, m)
    ensures Inv(limit, Moved(limit, s, m))
  {
    var s' := Moved(limit, s, m);
    if m.Append? {
      PushIsTail(s.log, limit, s.taken[m.publisher]);
    }
    if s.client.CaughtUp? && s'.client.CaughtUp? {
      assert s'.log[..s.client.logged] == s.log[..s.client.logged];
      forall i | s.client.logged <= i < |s'.log| ensures LiveOrComing(s', s'.log[i]) {
        if i < |s.log| {
          LiveStays(limit, s, m, s.log[i]);
        } else {
          assert s'.appended[m.publisher] == s'.log[i];
        }
      }
    }
    if m.ReadReplay? {
      assert s.log[..|s.log|] == s.log;
    }
  }

  lemma LiveStays(limit: nat, s: State, m: Move, e: Entry)
    requires limit >= 1 && CanMove(s, m) && LiveOrComing(s, e)
    requires s.client.CaughtUp? && !m.Unsubscribe? && s.taken.Keys !! s.appended.Keys
    ensures LiveOrComing(Moved(limit, s, m), e)
  {
    var s' := Moved(limit, s, m);
    if e !in s.offered {
      var p :| p in s.appended && s.appended[p] == e;
      if m == FanOut(p) {
        assert s'.offered[|s.offered|] == e;
      } else {
        assert p in s'.appended && s'.appended[p] == e;
      }
    }
  }

  lemma {:induction false} InvOverRuns(limit: nat, trace: seq<Move>)
    requires limit >= 1 && Legal(limit, trace)
    ensures Inv(limit, Exec(limit, trace))
  {
    if trace != [] {
      var p := trace[..|trace| - 1];
      InvOverRuns(limit, p);
      MoveKeepsInv(limit, Exec(limit, p), trace[|trace| - 1]);
    }
  }

  /** A run may go on with any possible move. */
  lemma {:induction false} Extend(limit: nat, trace: seq<Move>, m: Move)
    requires limit >= 1 && Legal(limit, trace) && CanMove(Exec(limit, trace), m)
    ensures Legal(limit, trace + [m]) && Exec(limit, trace + [m]) == Moved(limit, Exec(limit, trace), m)
  {
    assert (trace + [m])[..|trace|] == trace;
  }

  /** No gap between replay and live.  In every interleaving, each event of the channel newer than
      the id the client asked from was replayed to it, or was offered to it live, or will be by a
      publisher that has appended and not yet fanned out, or had been pushed out of the buffer by
      `limit` later events before the replay read. */
  lemma {:induction false} NoGap(limit: nat, trace: seq<Move>, i: nat)
    requires limit >= 1 && Legal(limit, trace)
    requires
      var s := Exec(limit, trace);
      s.client.CaughtUp? && i < |s.log| && s.log[i].id > s.client.last
    ensures
      var s := Exec(limit, trace);
      var e := s.log[i];
      || e in s.client.replayed
      || e in s.offered
      || (i >= s.client.logged && exists p :: p in s.appended && s.appended[p] == e)
      || i + limit < s.client.logged
  {
    InvOverRuns(limit, trace);
    var s := Exec(limit, trace);
    var e := s.log[i];
    if i < s.client.logged {
      var seen := s.log[..s.client.logged];
      SinceMembers(Tail(seen, limit), s.client.last);
      if i + limit >= |seen| {
        assert e in Tail(seen, limit) by {
          if |seen| <= limit { assert seen[i] == e; }
          else { assert Tail(seen, limit)[i - (|seen| - limit)] == e; }
        }
      }
    } else {
      assert LiveOrComing(s, e);
    }
  }
}
