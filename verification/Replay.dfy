/** The per-channel replay buffer of the SSE broker against the unbounded log it stands for, and
    what a stream is made of. */
module Replay {

  datatype Entry = Entry(id: nat, data: string)

  const REPLAY_LIMIT: nat := 100

  /** The capacity of a subscriber's queue. */
  const EVENTS: nat := 64

  /** What a stream wrote: the id line, the true id of the event it carried (0 for none), and its data. */
  datatype Line = Line(tag: nat, id: nat, data: string)

  const CONNECTED := "connected"

  /** The buffer update of a publish: drop the oldest when full, then append. */
  function Push(buf: seq<Entry>, limit: nat, e: Entry): seq<Entry>
    requires limit >= 1
  {
    (if |buf| >= limit then buf[1..] else buf) + [e]
  }

  /** The entries newer than `last`, in order. */
  function Since(buf: seq<Entry>, last: nat): seq<Entry> {
    if buf == [] then []
    else Since(buf[..|buf| - 1], last) + if buf[|buf| - 1].id > last then [buf[|buf| - 1]] else []
  }

  function Tail(log: seq<Entry>, limit: nat): seq<Entry> {
    if |log| <= limit then log else log[|log| - limit..]
  }

  ghost predicate Increasing(log: seq<Entry>) {
    forall i, j :: 0 <= i < j < |log| ==> log[i].id < log[j].id
  }

  function EntryIds(entries: seq<Entry>): (r: seq<nat>)
    ensures |r| == |entries| && forall i :: 0 <= i < |entries| ==> r[i] == entries[i].id
  {
    seq(|entries|, i requires 0 <= i < |entries| => entries[i].id)
  }

  ghost predicate Holds(entries: seq<Entry>, x: nat) {
    exists e :: e in entries && e.id == x
  }

  /** The buffer always is the end of the log. */
  lemma PushIsTail(log: seq<Entry>, limit: nat, e: Entry)
    requires limit >= 1
    ensures Push(Tail(log, limit), limit, e) == Tail(log + [e], limit)
  {
  }

  lemma {:induction false} SinceAppend(a: seq<Entry>, b: seq<Entry>, last: nat)
    ensures Since(a + b, last) == Since(a, last) + Since(b, last)
  {
    if b == [] {
      assert a + b == a;
    } else {
      var n := |b| - 1;
      SinceAppend(a, b[..n], last);
      assert (a + b)[..|a + b| - 1] == a + b[..n];
    }
  }

  lemma {:induction false} SinceMembers(buf: seq<Entry>, last: nat)
    ensures forall e :: e in Since(buf, last) <==> e in buf && e.id > last
    ensures |Since(buf, last)| <= |buf|
  {
    if buf != [] {
      SinceMembers(buf[..|buf| - 1], last);
      assert buf == buf[..|buf| - 1] + [buf[|buf| - 1]];
    }
  }

  lemma SinceHolds(entries: seq<Entry>, last: nat, x: nat)
    ensures Holds(Since(entries, last), x) <==> Holds(entries, x) && x > last
  {
    SinceMembers(entries, last);
  }

  ghost predicate NewerPairwise(buf: seq<Entry>, last: nat, rel: (Entry, Entry) -> bool) {
    forall i, j :: 0 <= i < j < |buf| && buf[i].id > last && buf[j].id > last ==> rel(buf[i], buf[j])
  }

  lemma NewerPairwiseMore(s: seq<Entry>, e: Entry, last: nat, rel: (Entry, Entry) -> bool)
    ensures NewerPairwise(s + [e], last, rel)
            <==> NewerPairwise(s, last, rel) && (e.id > last ==> forall d :: d in s && d.id > last ==> rel(d, e))
  {
    if NewerPairwise(s + [e], last, rel) {
      forall i, j | 0 <= i < j < |s| && s[i].id > last && s[j].id > last ensures rel(s[i], s[j]) {
        assert (s + [e])[i] == s[i] && (s + [e])[j] == s[j];
      }
      forall d | e.id > last && d in s && d.id > last ensures rel(d, e) {
        var i :| 0 <= i < |s| && s[i] == d;
        assert (s + [e])[i] == d && (s + [e])[|s|] == e;
      }
    }
  }

  /** Filtering keeps order: a relation holds along a replay exactly when it holds along the newer
      entries of the buffer. */
  lemma {:induction false} SincePairwise(buf: seq<Entry>, last: nat, rel: (Entry, Entry) -> bool)
    ensures Pairwise(Since(buf, last), rel) <==> NewerPairwise(buf, last, rel)
  {
    if buf != [] {
      var p, e := buf[..|buf| - 1], buf[|buf| - 1];
      SincePairwise(p, last, rel);
      assert buf == p + [e];
      NewerPairwiseMore(p, e, last, rel);
      SinceMore(p, e, last, rel);
    }
  }

  lemma {:induction false} SinceMore(p: seq<Entry>, e: Entry, last: nat, rel: (Entry, Entry) -> bool)
    ensures Pairwise(Since(p + [e], last), rel)
            <==> Pairwise(Since(p, last), rel) && (e.id > last ==> forall d :: d in p && d.id > last ==> rel(d, e))
  {
    SinceAppend(p, [e], last);
    assert Since([e], last) == if e.id > last then [e] else [];
    SinceMembers(p, last);
    var r := Since(p, last);
    if e.id > last {
      PairwiseMore(r, e, rel);
    } else {
      assert r + [] == r;
    }
  }

  ghost predicate Pairwise(s: seq<Entry>, rel: (Entry, Entry) -> bool) {
    forall i, j :: 0 <= i < j < |s| ==> rel(s[i], s[j])
  }

  lemma PairwiseMore(s: seq<Entry>, e: Entry, rel: (Entry, Entry) -> bool)
    ensures Pairwise(s + [e], rel) <==> Pairwise(s, rel) && forall d :: d in s ==> rel(d, e)
  {
    if Pairwise(s + [e], rel) {
      forall i, j | 0 <= i < j < |s| ensures rel(s[i], s[j]) {
        assert (s + [e])[i] == s[i] && (s + [e])[j] == s[j];
      }
      forall d | d in s ensures rel(d, e) {
        var i :| 0 <= i < |s| && s[i] == d;
        assert (s + [e])[i] == d && (s + [e])[|s|] == e;
      }
    }
  }

  /** Reading any bounded buffer gives what filtering the full log would, in whatever order its ids
      were appended, exactly when nothing newer has been pushed out. */
  lemma {:induction false} ReplayIsExactIffNothingEvicted(log: seq<Entry>, limit: nat, last: nat)
    ensures Since(Tail(log, limit), last) == Since(log, last)
            <==> forall i :: 0 <= i < |log| - limit ==> log[i].id <= last
  {
    if |log| > limit {
      var gone, tail := log[..|log| - limit], log[|log| - limit..];
      assert log == gone + tail;
      SinceAppend(gone, tail, last);
      SinceMembers(gone, last);
      var a, b := Since(gone, last), Since(tail, last);
      assert |a + b| == |a| + |b|;
      assert a == [] ==> a + b == b;
      if a == [] {
        forall i | 0 <= i < |log| - limit ensures log[i].id <= last { assert gone[i] in gone && gone[i] !in a; }
      } else {
        assert a[0] in a;
      }
    }
  }

  lemma {:induction false} AllNewer(buf: seq<Entry>, last: nat)
    requires forall i :: 0 <= i < |buf| ==> buf[i].id > last
    ensures Since(buf, last) == buf
  {
    if buf != [] {
      AllNewer(buf[..|buf| - 1], last);
      assert buf == buf[..|buf| - 1] + [buf[|buf| - 1]];
    }
  }

  lemma {:induction false} NoneNewer(buf: seq<Entry>, last: nat)
    requires forall i :: 0 <= i < |buf| ==> buf[i].id <= last
    ensures Since(buf, last) == []
  {
    if buf != [] {
      NoneNewer(buf[..|buf| - 1], last);
    }
  }

  lemma {:induction false} OldEntriesDecide(gone: seq<Entry>, tail: seq<Entry>, last: nat)
    requires gone != [] && Increasing(gone + tail)
    ensures Since(gone, last) != [] ==> Since(tail, last) == tail
  {
    SinceMembers(gone, last);
    if Since(gone, last) != [] {
      var e := Since(gone, last)[0];
      assert e in Since(gone, last);
      var i :| 0 <= i < |gone| && gone[i] == e;
      forall j | 0 <= j < |tail| ensures tail[j].id > last {
        assert (gone + tail)[i] == e && (gone + tail)[|gone| + j] == tail[j];
      }
      AllNewer(tail, last);
    }
  }

  /** Reading the bounded buffer gives what filtering the full log would, exactly when at most
      `limit` newer entries exist. */
  lemma {:induction false} ReplayIsExactIff(log: seq<Entry>, limit: nat, last: nat)
    requires Increasing(log) && limit >= 1
    ensures Since(Tail(log, limit), last) == Since(log, last) <==> |Since(log, last)| <= limit
  {
    SinceMembers(log, last);
    if |log| > limit {
      var gone, tail := log[..|log| - limit], log[|log| - limit..];
      assert log == gone + tail;
      SinceAppend(gone, tail, last);
      SinceMembers(tail, last);
      OldEntriesDecide(gone, tail, last);
      var a, b := Since(gone, last), Since(tail, last);
      assert |a + b| == |a| + |b|;
      assert a == [] ==> a + b == b;
    }
  }
}
