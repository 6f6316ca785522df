/** The two limiters side by side on the same traffic. */
module LimiterSimulation {
  import Gap = GapLimiter
  import Log = SlidingLog

  /** One request put to both limiters, or a cleanup of the Go table.  The Elixir clock reading
      lies between the two Go readings; `sweep` is the Elixir dice. */
  datatype Joint =
    | Both(key: string, at: Gap.Reading, now: int, sweep: bool)
    | GoSweep(clock: string -> int)

  ghost function GoView(js: seq<Joint>): (h: seq<Gap.Event>)
    ensures |h| == |js|
  {
    if js == [] then []
    else
      GoView(js[..|js| - 1]) + [match js[|js| - 1]
                                case Both(key, at, _, _) => Gap.Ask(key, at)
                                case GoSweep(clock) => Gap.Sweep(clock)]
  }

  ghost function ElixirView(js: seq<Joint>): seq<Log.Call> {
    if js == [] then []
    else
      var rest := ElixirView(js[..|js| - 1]);
      match js[|js| - 1]
      case Both(key, _, now, sweep) => rest + [Log.Call(key, now, sweep)]
      case GoSweep(_) => rest
  }

  ghost predicate Before(j: Joint, t: int) {
    match j
    case Both(_, at, _, _) => at.stamped <= t
    case GoSweep(clock) => forall k :: clock(k) <= t
  }

  /** One clock, read in order by both. */
  ghost predicate Ordered(js: seq<Joint>) {
    forall j :: 0 <= j < |js| && js[j].Both? ==>
      js[j].at.checked <= js[j].now <= js[j].at.stamped
      && forall i :: 0 <= i < j ==> Before(js[i], js[j].at.checked)
  }

  lemma {:induction false} GoViewAt(js: seq<Joint>, i: nat)
    requires i < |js|
    ensures GoView(js)[i]
          == match js[i] case Both(key, at, _, _) => Gap.Ask(key, at) case GoSweep(clock) => Gap.Sweep(clock)
  {
    if i < |js| - 1 {
      GoViewAt(js[..|js| - 1], i);
    }
  }

  lemma GoViewOrdered(js: seq<Joint>)
    requires Ordered(js)
    ensures Gap.Ordered(GoView(js))
  {
    forall j | 0 <= j < |js| && GoView(js)[j].Ask?
      ensures GoView(js)[j].at.checked <= GoView(js)[j].at.stamped
      ensures forall i :: 0 <= i < j ==> Gap.Before(GoView(js)[i], GoView(js)[j].at.checked)
    {
      GoViewAt(js, j);
      forall i | 0 <= i < j ensures Gap.Before(GoView(js)[i], GoView(js)[j].at.checked) {
        GoViewAt(js, i);
        assert Before(js[i], js[j].at.checked);
      }
    }
  }

  lemma {:induction false} ElixirViewOrdered(js: seq<Joint>, t: int)
    requires Ordered(js) && forall i :: 0 <= i < |js| ==> Before(js[i], t)
    ensures Log.Ordered(ElixirView(js))
    ensures forall c :: c in ElixirView(js) ==> c.now <= t
  {
    if js != [] {
      var p := js[..|js| - 1];
      var j := js[|js| - 1];
      ElixirViewOrdered(p, t);
      if j.Both? {
        ElixirViewOrdered(p, j.at.checked);
        var rest := ElixirView(p);
        forall i, k | 0 <= i < k < |rest| + 1
          ensures (rest + [Log.Call(j.key, j.now, j.sweep)])[i].now <= (rest + [Log.Call(j.key, j.now, j.sweep)])[k].now
        {
          if k == |rest| { assert rest[i] in rest; }
        }
      }
    }
  }

  /** How many acceptances of a key lie at or after a time. */
  ghost function Count(log: seq<Log.Accepted>, key: string, lo: int): nat {
    if log == [] then 0
    else
      var x := log[|log| - 1];
      Count(log[..|log| - 1], key, lo) + if x.ip == key && x.time >= lo then 1 else 0
  }

  lemma CountAppend(log: seq<Log.Accepted>, x: Log.Accepted, key: string, lo: int)
    ensures Count(log + [x], key, lo) == Count(log, key, lo) + if x.ip == key && x.time >= lo then 1 else 0
  {
    assert (log + [x])[..|log|] == log;
  }

  lemma {:induction false} CountIsRecent(log: seq<Log.Accepted>, key: string, lo: int)
    ensures Count(log, key, lo) == |Log.Recent(log, key, lo)|
  {
    if log == [] {
      assert Log.Recent(log, key, lo) == {};
    } else {
      var p, x := log[..|log| - 1], log[|log| - 1];
      CountIsRecent(p, key, lo);
      assert Log.Recent(log, key, lo)
          == Log.Recent(p, key, lo) + if x.ip == key && x.time >= lo then {(key, |p|)} else {};
    }
  }

  /** What the Elixir log still counts for a key at time `t` fits in the key's current Go run,
      and is nothing once the Go gap has passed. */
  ghost predicate Fits(a: seq<Gap.Reading>, log: seq<Log.Accepted>, window: int, key: string, t: int) {
    var n := Count(log, key, t - window);
    && (a == [] ==> n == 0)
    && (a != [] ==> n <= Gap.Position(a, window))
    && (a != [] && t - a[|a| - 1].stamped > window ==> n == 0)
  }

  /** A request refused by the Elixir side, or accepted by it. */
  lemma AppendOwnAsk(a: seq<Gap.Reading>, r: Gap.Reading, log: seq<Log.Accepted>, now: int, window: int, key: string,
                     t: int)
    requires Fits(a, log, window, key, t)
    requires r.checked <= now <= r.stamped <= t && (a != [] ==> a[|a| - 1].stamped <= r.checked)
    ensures Fits(a + [r], log, window, key, t)
    ensures Fits(a + [r], log + [Log.Accepted(key, now)], window, key, t)
  {
    Gap.NextPosition(a, r, window);
    CountAppend(log, Log.Accepted(key, now), key, t - window);
  }

  lemma AsksStep(js: seq<Joint>, key: string)
    requires js != []
    ensures
      var j := js[|js| - 1];
      var a := Gap.Asks(GoView(js[..|js| - 1]), key);
      Gap.Asks(GoView(js), key) == if j.Both? && j.key == key then a + [j.at] else a
  {
    GoViewStep(js);
  }

  lemma LogStep(js: seq<Joint>, limit: nat, window: int)
    requires js != []
    ensures
      var j := js[|js| - 1];
      var log := Log.Log(ElixirView(js[..|js| - 1]), limit, window);
      Log.Log(ElixirView(js), limit, window)
      == if j.Both? && Log.LogAdmits(log, limit, window, Log.Call(j.key, j.now, j.sweep))
         then log + [Log.Accepted(j.key, j.now)] else log
  {
    if js[|js| - 1].Both? {
      var rest := ElixirView(js[..|js| - 1]);
      assert ElixirView(js)[..|rest|] == rest;
    }
  }

  lemma FitsAfter(a: seq<Gap.Reading>, log: seq<Log.Accepted>, j: Joint, admitted: bool, window: int, key: string,
                  t: int)
    requires j.Both? && Fits(a, log, window, key, t) && j.at.checked <= j.now <= j.at.stamped <= t
    requires j.key == key && a != [] ==> a[|a| - 1].stamped <= j.at.checked
    ensures Fits(if j.key == key then a + [j.at] else a,
                 if admitted then log + [Log.Accepted(j.key, j.now)] else log, window, key, t)
  {
    if j.key == key {
      AppendOwnAsk(a, j.at, log, j.now, window, key, t);
    } else {
      CountAppend(log, Log.Accepted(j.key, j.now), key, t - window);
    }
  }

  /** A key's earlier requests were stamped before its next one was checked. */
  lemma {:induction false} LastAskBefore(js: seq<Joint>)
    requires js != [] && js[|js| - 1].Both? && Ordered(js)
    ensures var p, j := js[..|js| - 1], js[|js| - 1];
            var a := Gap.Asks(GoView(p), j.key);
            a != [] ==> a[|a| - 1].stamped <= j.at.checked
  {
    var p, j := js[..|js| - 1], js[|js| - 1];
    forall i | 0 <= i < |p| ensures Before(p[i], j.at.checked) { assert Before(js[i], j.at.checked); }
    AsksBounded(p, j.key, j.at.checked);
  }

  lemma {:induction false} LogFitsStep(js: seq<Joint>, limit: nat, window: int, key: string, t: int)
    requires js != [] && Ordered(js) && Before(js[|js| - 1], t)
    requires
      var p := js[..|js| - 1];
      Fits(Gap.Asks(GoView(p), key), Log.Log(ElixirView(p), limit, window), window, key, t)
    ensures Fits(Gap.Asks(GoView(js), key), Log.Log(ElixirView(js), limit, window), window, key, t)
  {
    var p, j := js[..|js| - 1], js[|js| - 1];
    AsksStep(js, key);
    LogStep(js, limit, window);
    if j.Both? {
      var log := Log.Log(ElixirView(p), limit, window);
      if j.key == key {
        LastAskBefore(js);
      }
      FitsAfter(Gap.Asks(GoView(p), key), log, j,
                Log.LogAdmits(log, limit, window, Log.Call(j.key, j.now, j.sweep)), window, key, t);
    }
  }

  lemma {:induction false} LogFitsRun(js: seq<Joint>, limit: nat, window: int, key: string, t: int)
    requires Ordered(js) && forall i :: 0 <= i < |js| ==> Before(js[i], t)
    ensures Fits(Gap.Asks(GoView(js), key), Log.Log(ElixirView(js), limit, window), window, key, t)
  {
    if js != [] {
      LogFitsRun(js[..|js| - 1], limit, window, key, t);
      LogFitsStep(js, limit, window, key, t);
    }
  }

  lemma GoViewStep(js: seq<Joint>)
    requires js != []
    ensures GoView(js)[..|js| - 1] == GoView(js[..|js| - 1])
  {
  }

  lemma AsksBounded(js: seq<Joint>, key: string, t: int)
    requires Ordered(js) && forall i :: 0 <= i < |js| ==> Before(js[i], t)
    ensures forall r :: r in Gap.Asks(GoView(js), key) ==> r.stamped <= t
  {
  }

  lemma {:induction false} LastCallOrdered(js: seq<Joint>)
    requires js != [] && js[|js| - 1].Both? && Ordered(js)
    ensures var j := js[|js| - 1];
            Log.Ordered(ElixirView(js[..|js| - 1]) + [Log.Call(j.key, j.now, j.sweep)])
  {
    var j := js[|js| - 1];
    forall i | 0 <= i < |js| ensures Before(js[i], j.at.stamped) {
      if i < |js| - 1 { assert Before(js[i], j.at.checked); }
    }
    ElixirViewOrdered(js, j.at.stamped);
  }

  /** What decides the last request of a joint run on each side. */
  ghost predicate GoGrants(js: seq<Joint>, limit: nat, window: int)
    requires js != [] && js[|js| - 1].Both?
  {
    var j := js[|js| - 1];
    Gap.Granted(Gap.Run(GoView(js[..|js| - 1]), window), limit, window, j.key, j.at.checked)
  }

  ghost predicate ElixirGrants(js: seq<Joint>, limit: nat, window: int)
    requires js != [] && js[|js| - 1].Both?
  {
    var j := js[|js| - 1];
    Log.Admits(Log.Run(ElixirView(js[..|js| - 1]), limit, window), limit, window, Log.Call(j.key, j.now, j.sweep))
  }

  /** The requests of the last key, this one included. */
  ghost function OwnAsks(js: seq<Joint>): (a: seq<Gap.Reading>)
    requires js != [] && js[|js| - 1].Both?
    ensures a != []
  {
    Gap.Asks(GoView(js[..|js| - 1]), js[|js| - 1].key) + [js[|js| - 1].at]
  }

  /** Acceptances of the last key that the Elixir window still holds when it asks. */
  ghost function WindowFill(js: seq<Joint>, limit: nat, window: int): nat
    requires js != [] && js[|js| - 1].Both?
  {
    var j := js[|js| - 1];
    Count(Log.Log(ElixirView(js[..|js| - 1]), limit, window), j.key, j.now - window)
  }

  lemma {:induction false} GoDecides(js: seq<Joint>, limit: nat, window: int)
    requires js != [] && js[|js| - 1].Both? && Ordered(js)
    ensures var p := Gap.Position(OwnAsks(js), window);
            GoGrants(js, limit, window) <==> p == 1 || p <= limit
  {
    GoViewStep(js);
    GoViewOrdered(js);
    Gap.AnswerIsPosition(GoView(js), limit, window);
    AsksStep(js, js[|js| - 1].key);
  }

  lemma {:induction false} ElixirDecides(js: seq<Joint>, limit: nat, window: int)
    requires js != [] && js[|js| - 1].Both? && Ordered(js)
    ensures ElixirGrants(js, limit, window) <==> WindowFill(js, limit, window) < limit
  {
    var p, j := js[..|js| - 1], js[|js| - 1];
    CountIsRecent(Log.Log(ElixirView(p), limit, window), j.key, j.now - window);
    LastCallOrdered(js);
    Log.DecisionIsLogDecision(ElixirView(p), Log.Call(j.key, j.now, j.sweep), limit, window);
  }

  /** With a limit of at least one, whatever the Go limiter grants, the Elixir limiter grants:
      for every history, every placement of Go cleanups and every outcome of the Elixir dice. */
  lemma {:induction false} GoGrantsImplyElixirGrants(js: seq<Joint>, limit: nat, window: int)
    requires js != [] && js[|js| - 1].Both? && Ordered(js) && limit >= 1
    requires GoGrants(js, limit, window)
    ensures ElixirGrants(js, limit, window)
  {
    var p, j := js[..|js| - 1], js[|js| - 1];
    GoDecides(js, limit, window);
    ElixirDecides(js, limit, window);
    AskArrives(js, limit, window);
    Gap.NextPosition(Gap.Asks(GoView(p), j.key), j.at, window);
    CountAntitone(Log.Log(ElixirView(p), limit, window), j.key, j.at.checked - window, j.now - window);
  }

  /** With a limit of at least one, the two limiters agree on a request exactly when its position
      in its Go run is within the limit or the Elixir window is full; with a limit of zero, exactly
      when it does not start a run. */
  lemma {:induction false} LimitersAgreeIff(js: seq<Joint>, limit: nat, window: int)
    requires js != [] && js[|js| - 1].Both? && Ordered(js)
    ensures
      var p := Gap.Position(OwnAsks(js), window);
      (GoGrants(js, limit, window) <==> ElixirGrants(js, limit, window))
      <==> if limit >= 1 then p <= limit || WindowFill(js, limit, window) >= limit else p > 1
  {
    GoDecides(js, limit, window);
    ElixirDecides(js, limit, window);
    if GoGrants(js, limit, window) && limit >= 1 {
      GoGrantsImplyElixirGrants(js, limit, window);
    }
  }

  /** When the current Go run of a key began. */
  ghost function Began(a: seq<Gap.Reading>, window: int): int
    requires a != []
  {
    var n := |a|;
    if n == 1 || a[n - 1].checked - a[n - 2].stamped > window then a[n - 1].checked
    else Began(a[..n - 1], window)
  }

  lemma NextBegan(a: seq<Gap.Reading>, r: Gap.Reading, window: int)
    ensures Began(a + [r], window)
            == if a == [] || r.checked - a[|a| - 1].stamped > window then r.checked else Began(a, window)
  {
  }

  lemma {:induction false} CountAntitone(log: seq<Log.Accepted>, key: string, lo: int, hi: int)
    requires lo <= hi
    ensures Count(log, key, hi) <= Count(log, key, lo)
  {
    if log != [] {
      CountAntitone(log[..|log| - 1], key, lo, hi);
    }
  }

  /** Since the run began the log has taken every request of it until it was full, and nothing
      from before the run is within a window of it. */
  ghost predicate Filled(a: seq<Gap.Reading>, log: seq<Log.Accepted>, limit: nat, window: int, key: string) {
    a != [] ==>
      var b := Began(a, window);
      && Count(log, key, b - window) <= Count(log, key, b)
      && (Count(log, key, b) >= limit || Count(log, key, b) >= Gap.Position(a, window))
      && b <= a[|a| - 1].stamped
  }

  lemma FilledStep(a: seq<Gap.Reading>, r: Gap.Reading, log: seq<Log.Accepted>, now: int, limit: nat, window: int,
                   key: string)
    requires Filled(a, log, limit, window, key) && Fits(a, log, window, key, r.checked) && limit >= 1
    requires r.checked <= now <= r.stamped && (a != [] ==> a[|a| - 1].stamped <= r.checked)
    ensures Count(log, key, now - window) < limit ==>
          Filled(a + [r], log + [Log.Accepted(key, now)], limit, window, key)
    ensures Count(log, key, now - window) >= limit ==> Filled(a + [r], log, limit, window, key)
  {
    NextBegan(a, r, window);
    Gap.NextPosition(a, r, window);
    var b := Began(a + [r], window);
    CountAntitone(log, key, r.checked - window, now - window);
    CountAntitone(log, key, b - window, now - window);
    CountAppend(log, Log.Accepted(key, now), key, b);
    CountAppend(log, Log.Accepted(key, now), key, b - window);
  }

  lemma OthersKeepFill(a: seq<Gap.Reading>, log: seq<Log.Accepted>, x: Log.Accepted, limit: nat, window: int,
                       key: string)
    requires Filled(a, log, limit, window, key) && x.ip != key
    ensures Filled(a, log + [x], limit, window, key)
  {
    if a != [] {
      CountAppend(log, x, key, Began(a, window));
      CountAppend(log, x, key, Began(a, window) - window);
    }
  }

  lemma OwnAskFills(a: seq<Gap.Reading>, log: seq<Log.Accepted>, c: Log.Call, r: Gap.Reading, limit: nat, window: int)
    requires Filled(a, log, limit, window, c.ip) && Fits(a, log, window, c.ip, r.checked) && limit >= 1
    requires r.checked <= c.now <= r.stamped && (a != [] ==> a[|a| - 1].stamped <= r.checked)
    ensures Filled(a + [r],
                   if Log.LogAdmits(log, limit, window, c) then log + [Log.Accepted(c.ip, c.now)] else log,
                   limit, window, c.ip)
  {
    CountIsRecent(log, c.ip, c.now - window);
    FilledStep(a, r, log, c.now, limit, window, c.ip);
  }

  lemma FilledAfter(a: seq<Gap.Reading>, log: seq<Log.Accepted>, j: Joint, limit: nat, window: int, key: string)
    requires j.Both? && Filled(a, log, limit, window, key) && limit >= 1 && j.at.checked <= j.now <= j.at.stamped
    requires j.key == key ==> Fits(a, log, window, key, j.at.checked) && (a != [] ==>
          a[|a| - 1].stamped <= j.at.checked)
    ensures
      var admitted := Log.LogAdmits(log, limit, window, Log.Call(j.key, j.now, j.sweep));
      Filled(if j.key == key then a + [j.at] else a,
             if admitted then log + [Log.Accepted(j.key, j.now)] else log, limit, window, key)
  {
    if j.key == key {
      OwnAskFills(a, log, Log.Call(j.key, j.now, j.sweep), j.at, limit, window);
    } else {
      OthersKeepFill(a, log, Log.Accepted(j.key, j.now), limit, window, key);
    }
  }

  /** When a request arrives, everything recorded of its key lies before it. */
  lemma {:induction false} AskArrives(js: seq<Joint>, limit: nat, window: int)
    requires js != [] && js[|js| - 1].Both? && Ordered(js)
    ensures
      var p, j := js[..|js| - 1], js[|js| - 1];
      var a := Gap.Asks(GoView(p), j.key);
      && Fits(a, Log.Log(ElixirView(p), limit, window), window, j.key, j.at.checked)
      && (a != [] ==> a[|a| - 1].stamped <= j.at.checked)
  {
    var p, j := js[..|js| - 1], js[|js| - 1];
    forall i | 0 <= i < |p| ensures Before(p[i], j.at.checked) { assert Before(js[i], j.at.checked); }
    LastAskBefore(js);
    LogFitsRun(p, limit, window, j.key, j.at.checked);
  }

  lemma {:induction false} LogFillsRun(js: seq<Joint>, limit: nat, window: int, key: string)
    requires Ordered(js) && limit >= 1
    ensures Filled(Gap.Asks(GoView(js), key), Log.Log(ElixirView(js), limit, window), limit, window, key)
  {
    if js != [] {
      var p, j := js[..|js| - 1], js[|js| - 1];
      LogFillsRun(p, limit, window, key);
      AsksStep(js, key);
      LogStep(js, limit, window);
      if j.Both? {
        var a, log := Gap.Asks(GoView(p), key), Log.Log(ElixirView(p), limit, window);
        if j.key == key {
          AskArrives(js, limit, window);
        }
        FilledAfter(a, log, j, limit, window, key);
      }
    }
  }

  /** In particular they agree as long as the key's current run began no longer ago than the
      window: until then the window forgets nothing the counter still counts. */
  lemma {:induction false} AgreeWithinOneWindow(js: seq<Joint>, limit: nat, window: int)
    requires js != [] && js[|js| - 1].Both? && Ordered(js) && limit >= 1
    requires Began(OwnAsks(js), window) >= js[|js| - 1].now - window
    ensures GoGrants(js, limit, window) <==> ElixirGrants(js, limit, window)
  {
    LimitersAgreeIff(js, limit, window);
    var p, j := js[..|js| - 1], js[|js| - 1];
    var a, log := Gap.Asks(GoView(p), j.key), Log.Log(ElixirView(p), limit, window);
    NextBegan(a, j.at, window);
    Gap.NextPosition(a, j.at, window);
    if Gap.Position(OwnAsks(js), window) > limit {
      LogFillsRun(p, limit, window, j.key);
      CountAntitone(log, j.key, j.now - window, Began(a, window));
    }
  }

  /** The converse fails, and so does a zero limit.  Steady traffic slower than the limit keeps a
      Go run alive for ever, so its counter refuses what the Elixir window has room for; and the
      Go counter grants a first request whatever the limit. */
  lemma LimitersDiffer()
    ensures
      var ask := (t: int) => Gap.Ask("a", Gap.Reading(t, t));
      var call := (t: int) => Log.Call("a", t, false);
      && !Gap.Granted(Gap.Run([ask(0), ask(6)], 10), 2, 10, "a", 12)
      && Log.Admits(Log.Run([call(0), call(6)], 2, 10), 2, 10, call(12))
      && Gap.Granted(Gap.Run([], 10), 0, 10, "a", 0)
      && !Log.Admits(Log.Run([], 0, 10), 0, 10, call(0))
  {
    var g0, g1 := Gap.Ask("a", Gap.Reading(0, 0)), Gap.Ask("a", Gap.Reading(6, 6));
    assert [g0, g1][..1] == [g0] && [g0][..0] == [];
    assert Gap.Run([g0], 10) == map["a" := Gap.Visitor(1, 0)];
    assert Gap.Run([g0, g1], 10) == map["a" := Gap.Visitor(2, 6)];
    var c0, c1 := Log.Call("a", 0, false), Log.Call("a", 6, false);
    assert [c0, c1][..1] == [c0] && [c0][..0] == [];
    var k0, k1 := ("a", 0), ("a", 1);
    var none: Log.Table := map[];
    assert Log.Run([], 2, 10) == Log.Ets(none, 0);
    assert Log.InWindow(none, "a", -10) == {};
    var e1 := Log.Run([c0], 2, 10);
    assert e1 == Log.Ets(map[k0 := 0], 1);
    assert Log.InWindow(e1.rows, "a", -4) == {k0};
    var e2 := Log.Run([c0, c1], 2, 10);
    assert e2 == Log.Ets(map[k0 := 0, k1 := 6], 2);
    assert Log.InWindow(e2.rows, "a", 2) == {k1};
  }
}
