/** The Go broker's request limiters: one counter per key, restarted after a quiet gap
    longer than the window.  The per-address and the per-key limiter are the same
    algorithm over different key strings. */
module GapLimiter {

  /** What is kept for one key: requests counted in the current run, and when the last one came. */
  datatype Visitor = Visitor(count: int, lastSeen: int)

  type Table = map<string, Visitor>

  /** The two clock readings of one request: one for the gap test, one stored as last-seen. */
  datatype Reading = Reading(checked: int, stamped: int)

  /** One locked call: a request, or a cleanup, which reads the clock once per entry it visits. */
  datatype Event =
    | Ask(key: string, at: Reading)
    | Sweep(clock: string -> int)

  predicate Quiet(v: Visitor, reading: int, window: int) {
    reading - v.lastSeen > window
  }

  /** The answer the stored counter gives. */
  predicate Granted(t: Table, rate: int, window: int, key: string, checked: int) {
    key !in t || Quiet(t[key], checked, window) || t[key].count + 1 <= rate
  }

  function Counted(t: Table, window: int, key: string, at: Reading): Table {
    if key !in t || Quiet(t[key], at.checked, window) then t[key := Visitor(1, at.stamped)]
    else t[key := Visitor(t[key].count + 1, at.stamped)]
  }

  function Swept(t: Table, window: int, clock: string -> int): Table {
    map k | k in t && !Quiet(t[k], clock(k), window) :: t[k]
  }

  /** The table after a whole history of calls. */
  ghost function Run(h: seq<Event>, window: int): Table {
    if h == [] then map[]
    else
      var t := Run(h[..|h| - 1], window);
      match h[|h| - 1]
      case Ask(key, at) => Counted(t, window, key, at)
      case Sweep(clock) => Swept(t, window, clock)
  }

  /** The requests of one key, in order: cleanups and other keys are forgotten. */
  ghost function Asks(h: seq<Event>, key: string): seq<Reading> {
    if h == [] then []
    else
      var rest := Asks(h[..|h| - 1], key);
      match h[|h| - 1]
      case Ask(k, at) => if k == key then rest + [at] else rest
      case Sweep(_) => rest
  }

  /** Where the last request stands in its run of gaps no longer than the window. */
  ghost function Position(asks: seq<Reading>, window: int): (p: nat)
    requires asks != []
    ensures 1 <= p <= |asks|
  {
    var n := |asks|;
    if n == 1 || asks[n - 1].checked - asks[n - 2].stamped > window then 1
    else 1 + Position(asks[..n - 1], window)
  }

  ghost predicate Before(e: Event, t: int) {
    match e
    case Ask(_, at) => at.stamped <= t
    case Sweep(clock) => forall k :: clock(k) <= t
  }

  /** The clock does not run backwards: a request reads it after everything before it did. */
  ghost predicate Ordered(h: seq<Event>) {
    forall j :: 0 <= j < |h| && h[j].Ask? ==>
      h[j].at.checked <= h[j].at.stamped
      && forall i :: 0 <= i < j ==> Before(h[i], h[j].at.checked)
  }

  /** The table means: an entry holds the run position of its key's last request, and a
      missing entry belongs to a key that has been quiet for longer than the window. */
  lemma {:induction false} TableMeaning(h: seq<Event>, window: int, key: string, t: int)
    requires Ordered(h)
    requires forall i :: 0 <= i < |h| ==> Before(h[i], t)
    ensures
      var a := Asks(h, key);
      var s := Run(h, window);
      if a == [] then key !in s
      else if key in s then s[key] == Visitor(Position(a, window), a[|a| - 1].stamped)
      else t - a[|a| - 1].stamped > window
  {
    if h != [] {
      var p := h[..|h| - 1];
      var e := h[|h| - 1];
      if e.Ask? && e.key == key {
        TableMeaning(p, window, key, e.at.checked);
        NextPosition(Asks(p, key), e.at, window);
      } else {
        TableMeaning(p, window, key, t);
      }
    }
  }

  /** The answer is a function of the key's own request history alone: a request is granted
      exactly when it starts a run or its position in the run is at most the rate. */
  lemma {:induction false} AnswerIsPosition(h: seq<Event>, rate: int, window: int)
    requires h != [] && h[|h| - 1].Ask? && Ordered(h)
    ensures
      var e := h[|h| - 1];
      var p := Position(Asks(h, e.key), window);
      Granted(Run(h[..|h| - 1], window), rate, window, e.key, e.at.checked) <==> p == 1 || p <= rate
  {
    var e := h[|h| - 1];
    var p := h[..|h| - 1];
    TableMeaning(p, window, e.key, e.at.checked);
    NextPosition(Asks(p, e.key), e.at, window);
  }

  /** Cleanups, wherever they fall, and the traffic of other keys never change an answer. */
  lemma {:induction false} AnswerIgnoresCleanupAndOthers(h: seq<Event>, h': seq<Event>, rate: int, window: int)
    requires h != [] && h' != [] && Ordered(h) && Ordered(h')
    requires h[|h| - 1] == h'[|h'| - 1] && h[|h| - 1].Ask?
    requires Asks(h, h[|h| - 1].key) == Asks(h', h[|h| - 1].key)
    ensures
      var e := h[|h| - 1];
      Granted(Run(h[..|h| - 1], window), rate, window, e.key, e.at.checked)
      <==> Granted(Run(h'[..|h'| - 1], window), rate, window, e.key, e.at.checked)
  {
    AnswerIsPosition(h, rate, window);
    AnswerIsPosition(h', rate, window);
  }

  /** The requests of `key` granted with a gap-test reading in [lo, hi], as event numbers. */
  ghost function GrantedBetween(h: seq<Event>, rate: int, window: int, key: string, lo: int, hi: int): set<nat> {
    if h == [] then {}
    else
      var p := h[..|h| - 1];
      var e := h[|h| - 1];
      var g := GrantedBetween(p, rate, window, key, lo, hi);
      if e.Ask? && e.key == key && lo <= e.at.checked <= hi
         && Granted(Run(p, window), rate, window, key, e.at.checked)
      then g + {|p|} else g
  }

  function AtLeastOne(rate: int): int { if rate < 1 then 1 else rate }

  lemma NextPosition(a: seq<Reading>, r: Reading, window: int)
    ensures Position(a + [r], window)
            == if a == [] || r.checked - a[|a| - 1].stamped > window then 1 else Position(a, window) + 1
  {
  }

  /** Every granted request in an interval that is still running has its own run position. */
  ghost predicate Fit(g: nat, a: seq<Reading>, rate: int, window: int, lo: int, hi: int) {
    && g <= AtLeastOne(rate)
    && (a != [] && a[|a| - 1].checked <= hi ==> g <= Position(a, window))
    && (g > 0 ==> a != [] && lo <= a[|a| - 1].stamped)
  }

  lemma FitStep(g: nat, a: seq<Reading>, r: Reading, granted: bool, rate: int, window: int, lo: int, hi: int)
    requires Fit(g, a, rate, window, lo, hi) && hi - lo <= window
    requires r.checked <= r.stamped && (a != [] ==> a[|a| - 1].checked <= a[|a| - 1].stamped <= r.checked)
    requires granted ==> lo <= r.checked <= hi && (Position(a + [r], window) == 1 || Position(a + [r], window) <= rate)
    ensures Fit(if granted then g + 1 else g, a + [r], rate, window, lo, hi)
  {
  }

  lemma {:induction false} AskFits(h: seq<Event>, g: nat, rate: int, window: int, lo: int, hi: int)
    requires h != [] && h[|h| - 1].Ask? && Ordered(h) && hi - lo <= window
    requires Fit(g, Asks(h[..|h| - 1], h[|h| - 1].key), rate, window, lo, hi)
    ensures
      var p, e := h[..|h| - 1], h[|h| - 1];
      var granted := lo <= e.at.checked <= hi && Granted(Run(p, window), rate, window, e.key, e.at.checked);
      Fit(if granted then g + 1 else g, Asks(h, e.key), rate, window, lo, hi)
  {
    var p, e := h[..|h| - 1], h[|h| - 1];
    AnswerIsPosition(h, rate, window);
    AsksAreEvents(p, e.key, e.at.checked);
    var granted := lo <= e.at.checked <= hi && Granted(Run(p, window), rate, window, e.key, e.at.checked);
    FitStep(g, Asks(p, e.key), e.at, granted, rate, window, lo, hi);
  }

  lemma {:induction false} GrantedFitPositions(h: seq<Event>, rate: int, window: int, key: string, lo: int, hi: int)
    requires Ordered(h) && hi - lo <= window
    ensures
      var g := GrantedBetween(h, rate, window, key, lo, hi);
      Fit(|g|, Asks(h, key), rate, window, lo, hi) && forall i :: i in g ==> i < |h|
  {
    if h != [] {
      var p := h[..|h| - 1];
      var e := h[|h| - 1];
      GrantedFitPositions(p, rate, window, key, lo, hi);
      if e.Ask? && e.key == key {
        var g := GrantedBetween(p, rate, window, key, lo, hi);
        assert |p| !in g;
        AskFits(h, |g|, rate, window, lo, hi);
      }
    }
  }

  /** Every recorded request is at or before a time that bounds the history. */
  lemma {:induction false} AsksAreEvents(h: seq<Event>, key: string, t: int)
    requires Ordered(h) && forall i :: 0 <= i < |h| ==> Before(h[i], t)
    ensures forall r :: r in Asks(h, key) ==> r.checked <= r.stamped <= t
  {
    if h != [] {
      AsksAreEvents(h[..|h| - 1], key, t);
    }
  }

  /** The limit: no interval as short as the window sees more than `rate` grants to one key
      (one grant when the configured rate is below one). */
  lemma {:induction false} AtMostRatePerWindow(h: seq<Event>, rate: int, window: int, key: string, lo: int, hi: int)
    requires Ordered(h) && hi - lo <= window
    ensures |GrantedBetween(h, rate, window, key, lo, hi)| <= AtLeastOne(rate)
  {
    GrantedFitPositions(h, rate, window, key, lo, hi);
  }

  /** One more request: what it does to the table, to the key histories, and what it is answered. */
  lemma {:induction false} OneMoreAsk(h: seq<Event>, key: string, at: Reading, rate: int, window: int)
    ensures
      var h' := h + [Ask(key, at)];
      && Run(h', window) == Counted(Run(h, window), window, key, at)
      && (forall k :: Asks(h', k) == if k == key then Asks(h, key) + [at] else Asks(h, k))
      && (Ordered(h') ==>
            (Granted(Run(h, window), rate, window, key, at.checked)
             <==> Position(Asks(h', key), window) == 1 || Position(Asks(h', key), window) <= rate))
  {
    var h' := h + [Ask(key, at)];
    assert h'[..|h'| - 1] == h;
    if Ordered(h') {
      AnswerIsPosition(h', rate, window);
    }
  }

  /** The limiter object.  Clock readings are arguments; the ghost history is every call so far. */
  class RateLimiter {
    var visitors: Table
    const rate: int
    const window: int
    ghost var history: seq<Event>

    ghost predicate Valid()
      reads this
    {
      visitors == Run(history, window)
    }

    constructor (rate: int, window: int)
      ensures Valid() && history == [] && this.rate == rate && this.window == window
    {
      visitors := map[];
      history := [];
      this.rate := rate;
      this.window := window;
    }

    /** While the clock does not run backwards, the answer is the request's position in its own
        key's current run, whatever other keys and cleanups did to the table. */
    method Allow(key: string, at: Reading) returns (ok: bool)
      requires Valid()
      modifies this
      ensures Valid() && history == old(history) + [Ask(key, at)]
      ensures visitors == Counted(old(visitors), window, key, at)
      ensures Ordered(history) ==>
                var p := Position(Asks(old(history), key) + [at], window);
                ok <==> p == 1 || p <= rate
      ensures forall k :: Asks(history, k) == if k == key then Asks(old(history), key) + [at] else Asks(old(history), k)
    {
      OneMoreAsk(history, key, at, rate, window);
      history := history + [Ask(key, at)];
      if key !in visitors || at.checked - visitors[key].lastSeen > window {
        visitors := visitors[key := Visitor(1, at.stamped)];
        return true;
      }
      var count := visitors[key].count + 1;
      visitors := visitors[key := Visitor(count, at.stamped)];
      return count <= rate;
    }

    /** A cleanup leaves every key's request history, and so every later answer, as it was. */
    method Cleanup(clock: string -> int)
      requires Valid()
      modifies this
      ensures Valid() && history == old(history) + [Sweep(clock)]
      ensures visitors == Swept(old(visitors), window, clock)
      ensures forall k :: k in visitors <==> k in old(visitors) && clock(k) - old(visitors)[k].lastSeen <= window
      ensures forall k :: k in visitors ==> visitors[k] == old(visitors)[k]
      ensures forall k :: Asks(history, k) == Asks(old(history), k)
      ensures Ordered(old(history)) ==> Ordered(history)
    {
      var todo := visitors.Keys;
      while todo != {}
        invariant todo <= old(visitors).Keys
        invariant visitors == map k | k in old(visitors)
                                && (k in todo || !Quiet(old(visitors)[k], clock(k), window)) :: old(visitors)[k]
        invariant history == old(history)
        decreases todo
      {
        var key :| key in todo;
        todo := todo - {key};
        if clock(key) - visitors[key].lastSeen > window {
          visitors := visitors - {key};
        }
      }
      history := history + [Sweep(clock)];
      assert history[..|history| - 1] == old(history);
    }
  }
}
