/** A client cut off at any line of one stream that comes back on a second one, while publishers go
    on: both streams run against the same publishers, and each sees its own run of `SseHandoff`. */
module SseReconnect {
  import opened Replay
  import opened SseHandoff
  import opened SseInterleaved

  /** A move of the publishers, which both streams see, or of one stream. */
  datatype Joint = Publisher(move: Move) | First(move: Move) | Second(move: Move)

  predicate OfStream(m: Move) { m.Subscribe? || m.ReadReplay? || m.Hello? || m.LiveWrite? || m.Unsubscribe? }

  predicate WellFormed(js: seq<Joint>) {
    forall i :: 0 <= i < |js| ==> (js[i].Publisher? <==> !OfStream(js[i].move))
  }

  /** What one of the streams sees of a joint run. */
  function View(js: seq<Joint>, first: bool): seq<Move> {
    if js == [] then []
    else
      var rest, j := View(js[..|js| - 1], first), js[|js| - 1];
      if j.Publisher? || j.First? == first then rest + [j.move] else rest
  }

  /** A joint run is one that both streams can see. */
  ghost predicate Together(limit: nat, js: seq<Joint>)
    requires limit >= 1
  {
    WellFormed(js) && Legal(limit, View(js, true)) && Legal(limit, View(js, false))
  }

  ghost predicate SamePublishers(a: State, b: State) {
    a.counter == b.counter && a.taken == b.taken && a.appended == b.appended && a.log == b.log && a.buf == b.buf
  }

  lemma PublisherMoves(limit: nat, a: State, b: State, m: Move)
    requires limit >= 1 && SamePublishers(a, b) && CanMove(a, m) && CanMove(b, m) && !OfStream(m)
    ensures SamePublishers(Moved(limit, a, m), Moved(limit, b, m))
  {
  }

  lemma StreamMoves(limit: nat, a: State, m: Move)
    requires limit >= 1 && CanMove(a, m) && OfStream(m)
    ensures SamePublishers(a, Moved(limit, a, m))
  {
  }

  lemma {:induction false} ViewStep(limit: nat, js: seq<Joint>, first: bool)
    requires limit >= 1 && js != [] && Legal(limit, View(js, first))
    ensures Legal(limit, View(js[..|js| - 1], first))
    ensures
      var p, j := View(js[..|js| - 1], first), js[|js| - 1];
      if j.Publisher? || j.First? == first
      then CanMove(Exec(limit, p), j.move) && Exec(limit, View(js, first)) == Moved(limit, Exec(limit, p), j.move)
      else View(js, first) == p
  {
    var p, j := View(js[..|js| - 1], first), js[|js| - 1];
    if j.Publisher? || j.First? == first {
      assert View(js, first)[..|p|] == p;
    }
  }

  lemma {:induction false} PublishersAgree(limit: nat, js: seq<Joint>)
    requires limit >= 1 && Together(limit, js)
    ensures SamePublishers(Exec(limit, View(js, true)), Exec(limit, View(js, false)))
  {
    if js != [] {
      var p, j := js[..|js| - 1], js[|js| - 1];
      ViewStep(limit, js, true);
      ViewStep(limit, js, false);
      PublishersAgree(limit, p);
      var a, b := Exec(limit, View(p, true)), Exec(limit, View(p, false));
      if j.Publisher? {
        PublisherMoves(limit, a, b, j.move);
      } else if j.First? {
        StreamMoves(limit, a, j.move);
      } else {
        StreamMoves(limit, b, j.move);
      }
    }
  }

  /** The client saw the first stream's replay and its lines up to number `k`. */
  ghost predicate Saw(s: State, k: nat, x: nat) {
    Replayed(s, x) || exists i :: 0 <= i <= k && i < |s.lines| && s.lines[i].id == x
  }

  /** The second stream has brought the event, or a publisher on its way will. */
  ghost predicate Brings(s: State, e: Entry) {
    Replayed(s, e.id) || Holds(s.offered, e.id) || exists p :: p in s.appended && s.appended[p] == e
  }

  /** What the client saw is at or below the last tag it saw. */
  lemma SawIsOld(s: State, k: nat, x: nat)
    requires StreamOk(s) && k < |s.lines| && Saw(s, k, x)
    ensures x <= s.lines[k].tag
  {
    if Replayed(s, x) {
      var e :| e in ReplayOf(s.client) && e.id == x;
      assert e.id <= s.lines[0].tag;
    }
  }

  lemma {:induction false} BringsUnless(limit: nat, trace: seq<Move>, i: nat)
    requires limit >= 1 && Legal(limit, trace) && Exec(limit, trace).client.CaughtUp? && i < |Exec(limit, trace).log|
    ensures
      var s := Exec(limit, trace);
      var e := s.log[i];
      && (Replayed(s, e.id) <==> s.client.logged - limit <= i < s.client.logged && e.id > s.client.last)
      && (i >= s.client.logged ==> Brings(s, e))
  {
    WrittenAtMostTwice(limit, trace, i);
    InvOverRuns(limit, trace);
    var s := Exec(limit, trace);
    if i >= s.client.logged {
      assert LiveOrComing(s, s.log[i]);
    }
  }

  /** In every interleaving of publishers and both streams, for a cut after any line of the first
      stream and a second stream that asks from the tag of that line: an event of the channel is lost,
      neither seen on the first nor brought by the second, if and only if it was not seen, was not
      fanned out while the second was listed and is not about to be, and either its id is not above
      that tag or `limit` later events had pushed it out before the second read the buffer.  And the
      second never replays what was seen. */
  lemma {:induction false} CutLosesIff(limit: nat, js: seq<Joint>, k: nat, i: nat)
    requires limit >= 1 && Together(limit, js)
    requires k < |Exec(limit, View(js, true)).lines| && i < |Exec(limit, View(js, true)).log|
    requires
      var a, b := Exec(limit, View(js, true)), Exec(limit, View(js, false));
      b.client.CaughtUp? && b.client.last == a.lines[k].tag
    ensures
      var a, b := Exec(limit, View(js, true)), Exec(limit, View(js, false));
      var e := a.log[i];
      && b.log == a.log
      && (!Saw(a, k, e.id) && !Brings(b, e) <==>
            && !Saw(a, k, e.id) && !Holds(b.offered, e.id) && !(exists p :: p in b.appended && b.appended[p] == e)
            && (e.id <= a.lines[k].tag || i < b.client.logged - limit))
      && (Saw(a, k, e.id) ==> !Replayed(b, e.id))
  {
    var a, b := Exec(limit, View(js, true)), Exec(limit, View(js, false));
    var e := a.log[i];
    PublishersAgree(limit, js);
    BringsUnless(limit, View(js, false), i);
    StreamOverRuns(limit, View(js, true));
    if Saw(a, k, e.id) {
      SawIsOld(a, k, e.id);
    }
  }
}
