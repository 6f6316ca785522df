/** The Elixir broker's request limiter: a shared table of accepted request times, counted over the
    trailing window, with stale rows swept at random.  Here each call is one step, so calls do not
    overlap; `SlidingRace` takes a call apart. */
module SlidingLog {
  import opened Sets

  /** A row {{ip, unique}, time}; unique integers are handed out in increasing order. */
  type Table = map<(string, nat), int>

  datatype Ets = Ets(rows: Table, next: nat)

  /** One call of allowed?: who asks, the clock, and whether the dice chose to sweep first. */
  datatype Call = Call(ip: string, now: int, sweep: bool)

  /** An accepted request. */
  datatype Accepted = Accepted(ip: string, time: int)

  function Fresh(rows: Table, start: int): Table {
    map k | k in rows && rows[k] >= start :: rows[k]
  }

  function InWindow(rows: Table, ip: string, start: int): set<(string, nat)> {
    set k | k in rows && k.0 == ip && rows[k] >= start
  }

  predicate Admits(e: Ets, limit: nat, window: int, c: Call) {
    var rows := if c.sweep then Fresh(e.rows, c.now - window) else e.rows;
    |InWindow(rows, c.ip, c.now - window)| < limit
  }

  function Step(e: Ets, limit: nat, window: int, c: Call): Ets {
    var rows := if c.sweep then Fresh(e.rows, c.now - window) else e.rows;
    if Admits(e, limit, window, c) then Ets(rows[(c.ip, e.next) := c.now], e.next + 1)
    else Ets(rows, e.next)
  }

  ghost function Run(calls: seq<Call>, limit: nat, window: int): Ets {
    if calls == [] then Ets(map[], 0)
    else Step(Run(calls[..|calls| - 1], limit, window), limit, window, calls[|calls| - 1])
  }

  // ---- The reference: an append-only log that is never swept ----

  ghost function Recent(log: seq<Accepted>, ip: string, lo: int): set<(string, nat)> {
    set u: nat | u < |log| && log[u].ip == ip && log[u].time >= lo :: (ip, u)
  }

  ghost predicate LogAdmits(log: seq<Accepted>, limit: nat, window: int, c: Call) {
    |Recent(log, c.ip, c.now - window)| < limit
  }

  ghost function Log(calls: seq<Call>, limit: nat, window: int): seq<Accepted> {
    if calls == [] then []
    else
      var log := Log(calls[..|calls| - 1], limit, window);
      var c := calls[|calls| - 1];
      if LogAdmits(log, limit, window, c) then log + [Accepted(c.ip, c.now)] else log
  }

  ghost predicate Ordered(calls: seq<Call>) {
    forall i, j :: 0 <= i < j < |calls| ==> calls[i].now <= calls[j].now
  }

  /** Rows and log agree on everything a call at time `t` or later can still see. */
  ghost predicate Tracks(e: Ets, log: seq<Accepted>, horizon: int) {
    && e.next == |log|
    && (forall k :: k in e.rows ==> k.1 < |log| && log[k.1] == Accepted(k.0, e.rows[k]))
    && (forall u: nat :: u < |log| && log[u].time >= horizon ==> (log[u].ip, u) in e.rows)
  }

  lemma {:induction false} StepTracks(e: Ets, log: seq<Accepted>, limit: nat, window: int, c: Call)
    requires Tracks(e, log, c.now - window)
    ensures Admits(e, limit, window, c) <==> LogAdmits(log, limit, window, c)
    ensures Tracks(Step(e, limit, window, c),
                   if LogAdmits(log, limit, window, c) then log + [Accepted(c.ip, c.now)] else log,
                   c.now - window)
  {
    var start := c.now - window;
    var rows := if c.sweep then Fresh(e.rows, start) else e.rows;
    assert InWindow(rows, c.ip, start) == Recent(log, c.ip, start);
  }

  /** The swept table refines the unswept log, over every run with a clock that does not
      run backwards and whatever the dice say. */
  lemma {:induction false} TableRefinesLog(calls: seq<Call>, limit: nat, window: int, t: int)
    requires Ordered(calls) && (calls != [] ==> calls[|calls| - 1].now <= t)
    ensures Tracks(Run(calls, limit, window), Log(calls, limit, window), t - window)
  {
    if calls != [] {
      var p := calls[..|calls| - 1];
      var c := calls[|calls| - 1];
      TableRefinesLog(p, limit, window, c.now);
      StepTracks(Run(p, limit, window), Log(p, limit, window), limit, window, c);
    }
  }

  /** Each decision is the reference log's. */
  lemma {:induction false} DecisionIsLogDecision(calls: seq<Call>, c: Call, limit: nat, window: int)
    requires Ordered(calls + [c])
    ensures Admits(Run(calls, limit, window), limit, window, c)
            <==> LogAdmits(Log(calls, limit, window), limit, window, c)
  {
    if calls != [] {
      assert (calls + [c])[|calls| - 1] == calls[|calls| - 1] && (calls + [c])[|calls|] == c;
    }
    assert Ordered(calls) by {
      forall i, j | 0 <= i < j < |calls| ensures calls[i].now <= calls[j].now {
        assert (calls + [c])[i] == calls[i] && (calls + [c])[j] == calls[j];
      }
    }
    TableRefinesLog(calls, limit, window, c.now);
    StepTracks(Run(calls, limit, window), Log(calls, limit, window), limit, window, c);
  }

  /** The same requests with a different dice outcome at every call. */
  ghost predicate SameRequests(a: seq<Call>, b: seq<Call>) {
    |a| == |b| && forall i :: 0 <= i < |a| ==> a[i].ip == b[i].ip && a[i].now == b[i].now
  }

  lemma {:induction false} LogIgnoresSweeps(a: seq<Call>, b: seq<Call>, limit: nat, window: int)
    requires SameRequests(a, b)
    ensures Log(a, limit, window) == Log(b, limit, window)
  {
    if a != [] {
      LogIgnoresSweeps(a[..|a| - 1], b[..|b| - 1], limit, window);
    }
  }

  /** Random cleanup never changes a later decision. */
  lemma {:induction false} SweepsNeverMatter(a: seq<Call>, b: seq<Call>, c: Call, d: Call, limit: nat, window: int)
    requires Ordered(a + [c]) && Ordered(b + [d])
    requires SameRequests(a, b) && c.ip == d.ip && c.now == d.now
    ensures Admits(Run(a, limit, window), limit, window, c) <==> Admits(Run(b, limit, window), limit, window, d)
  {
    var log := Log(a, limit, window);
    assert log == Log(b, limit, window) by { LogIgnoresSweeps(a, b, limit, window); }
    DecisionIsLogDecision(a, c, limit, window);
    DecisionIsLogDecision(b, d, limit, window);
    assert LogAdmits(log, limit, window, c) <==> LogAdmits(log, limit, window, d);
  }

  ghost function AcceptedBetween(log: seq<Accepted>, ip: string, lo: int, hi: int): set<(string, nat)> {
    set u: nat | u < |log| && log[u].ip == ip && lo <= log[u].time <= hi :: (ip, u)
  }

  /** The log itself never holds more than `limit` rows of one address in an interval as short as
      the window. */
  lemma {:induction false} LogWithinLimit(calls: seq<Call>, limit: nat, window: int, ip: string, lo: int, hi: int)
    requires hi - lo <= window
    ensures |AcceptedBetween(Log(calls, limit, window), ip, lo, hi)| <= limit
  {
    if calls != [] {
      var p := calls[..|calls| - 1];
      var c := calls[|calls| - 1];
      LogWithinLimit(p, limit, window, ip, lo, hi);
      var log := Log(p, limit, window);
      if LogAdmits(log, limit, window, c) {
        AcceptKeepsLimit(log, limit, window, c, ip, lo, hi);
      }
    }
  }

  lemma AcceptedAfterAppend(log: seq<Accepted>, x: Accepted, ip: string, lo: int, hi: int)
    ensures |AcceptedBetween(log + [x], ip, lo, hi)|
            == |AcceptedBetween(log, ip, lo, hi)| + if x.ip == ip && lo <= x.time <= hi then 1 else 0
  {
    var was := AcceptedBetween(log, ip, lo, hi);
    if x.ip == ip && lo <= x.time <= hi {
      assert AcceptedBetween(log + [x], ip, lo, hi) == was + {(ip, |log|)};
    } else {
      assert AcceptedBetween(log + [x], ip, lo, hi) == was;
    }
  }

  lemma AcceptKeepsLimit(log: seq<Accepted>, limit: nat, window: int, c: Call, ip: string, lo: int, hi: int)
    requires hi - lo <= window && LogAdmits(log, limit, window, c)
    requires |AcceptedBetween(log, ip, lo, hi)| <= limit
    ensures |AcceptedBetween(log + [Accepted(c.ip, c.now)], ip, lo, hi)| <= limit
  {
    AcceptedAfterAppend(log, Accepted(c.ip, c.now), ip, lo, hi);
    if c.ip == ip && lo <= c.now <= hi {
      SubsetIsNoLarger(AcceptedBetween(log, ip, lo, hi), Recent(log, ip, c.now - window));
    }
  }

  /** The calls of `ip` that the swept table let through at a time in [lo, hi], as call numbers. */
  ghost function AdmittedBetween(calls: seq<Call>, limit: nat, window: int, ip: string, lo: int, hi: int): set<nat> {
    if calls == [] then {}
    else
      var p := calls[..|calls| - 1];
      var c := calls[|calls| - 1];
      var g := AdmittedBetween(p, limit, window, ip, lo, hi);
      if c.ip == ip && lo <= c.now <= hi && Admits(Run(p, limit, window), limit, window, c) then g + {|p|} else g
  }

  lemma {:induction false} AdmittedAreLogged(calls: seq<Call>, limit: nat, window: int, ip: string, lo: int, hi: int)
    requires Ordered(calls)
    ensures |AdmittedBetween(calls, limit, window, ip, lo, hi)|
            == |AcceptedBetween(Log(calls, limit, window), ip, lo, hi)|
    ensures forall i :: i in AdmittedBetween(calls, limit, window, ip, lo, hi) ==> i < |calls|
  {
    if calls == [] {
      assert AcceptedBetween([], ip, lo, hi) == {};
    } else {
      var p := calls[..|calls| - 1];
      var c := calls[|calls| - 1];
      AdmittedAreLogged(p, limit, window, ip, lo, hi);
      assert p + [c] == calls;
      DecisionIsLogDecision(p, c, limit, window);
      assert |p| !in AdmittedBetween(p, limit, window, ip, lo, hi);
      AcceptedAfterAppend(Log(p, limit, window), Accepted(c.ip, c.now), ip, lo, hi);
    }
  }

  /** The limit: at most `limit` requests of one address pass in any interval as short as the
      window, over every run, whatever the dice say. */
  lemma {:induction false} AtMostLimitPerWindow(calls: seq<Call>, limit: nat, window: int, ip: string, lo: int, hi: int)
    requires Ordered(calls) && hi - lo <= window
    ensures |AdmittedBetween(calls, limit, window, ip, lo, hi)| <= limit
  {
    AdmittedAreLogged(calls, limit, window, ip, lo, hi);
    LogWithinLimit(calls, limit, window, ip, lo, hi);
  }

  /** One more call: what it does to the table and to the log, and what it is answered. */
  lemma {:induction false} OneMoreCall(calls: seq<Call>, c: Call, limit: nat, window: int)
    ensures
      var admitted := Admits(Run(calls, limit, window), limit, window, c);
      var log := Log(calls, limit, window);
      && Run(calls + [c], limit, window) == Step(Run(calls, limit, window), limit, window, c)
      && (Ordered(calls + [c]) ==>
            && (admitted <==> LogAdmits(log, limit, window, c))
            && Log(calls + [c], limit, window) == if admitted then log + [Accepted(c.ip, c.now)] else log)
  {
    assert (calls + [c])[..|calls|] == calls;
    if Ordered(calls + [c]) {
      DecisionIsLogDecision(calls, c, limit, window);
    }
  }

  /** The plug's table; the ghost list is every call so far. */
  class RateLimiter {
    var rows: Table
    var next: nat
    const limit: nat
    const window: int
    ghost var calls: seq<Call>

    ghost predicate Valid()
      reads this
    {
      State() == Run(calls, limit, window)
    }

    constructor (limit: nat, window: int)
      ensures Valid() && calls == [] && this.limit == limit && this.window == window
    {
      rows, next := map[], 0;
      calls := [];
      this.limit, this.window := limit, window;
    }

    function State(): Ets reads this { Ets(rows, next) }

    /** While the clock does not run backwards, the answer is the one the log that is never swept
        gives: fewer than `limit` of the address's acceptances lie in the trailing window. */
    method Allowed(ip: string, now: int, sweep: bool) returns (ok: bool)
      requires Valid()
      modifies this
      ensures Valid() && calls == old(calls) + [Call(ip, now, sweep)]
      ensures State() == Step(old(State()), limit, window, Call(ip, now, sweep))
      ensures forall k :: k in old(rows) && k != (ip, old(next)) ==>
                (k in rows <==> !(sweep && old(rows)[k] < now - window)) && (k in rows ==> rows[k] == old(rows)[k])
      ensures Ordered(calls) ==>
                (ok <==> |Recent(Log(old(calls), limit, window), ip, now - window)| < limit)
                && Log(calls, limit, window)
                   == if ok then Log(old(calls), limit, window) + [Accepted(ip, now)]
                         else Log(old(calls), limit, window)
    {
      OneMoreCall(calls, Call(ip, now, sweep), limit, window);
      calls := calls + [Call(ip, now, sweep)];
      var start := now - window;
      if sweep {
        rows := map k | k in rows && !(rows[k] < start) :: rows[k];
        assert rows == Fresh(old(rows), start);
      }
      var count := |set k | k in rows && k.0 == ip && rows[k] >= start|;
      assert count == |InWindow(rows, ip, start)|;
      if count < limit {
        rows := rows[(ip, next) := now];
        next := next + 1;
        return true;
      }
      return false;
    }
  }
}
