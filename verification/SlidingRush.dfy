/** How many concurrent requests the Elixir limiter really lets through: runs that reach the bounds
    of `SlidingRace`, and the run without overlap, which is the one-step machine of `SlidingLog`. */
module SlidingRush {
  import opened Sets
  import opened SlidingLog
  import opened SlidingRace

  // ---- Batches: several processes take the same step one after the other ----

  datatype Kind = Beginning | Counting | Inserting

  function MoveOf(kind: Kind, p: nat, ip: string, now: int): Move {
    match kind
    case Beginning => Begin(p, ip, now)
    case Counting => Count(p)
    case Inserting => Insert(p)
  }

  function Batch(kind: Kind, ps: seq<nat>, ip: string, now: int): seq<Move> {
    if ps == [] then [] else Batch(kind, ps[..|ps| - 1], ip, now) + [MoveOf(kind, ps[|ps| - 1], ip, now)]
  }

  function Copies(n: nat, x: Accepted): (r: seq<Accepted>)
    ensures |r| == n && forall i :: 0 <= i < n ==> r[i] == x
  {
    seq(n, i requires 0 <= i < n => x)
  }

  /** The processes can all take the step. */
  ghost predicate Ready(kind: Kind, limit: nat, window: int, s: State, ps: seq<nat>, ip: string, now: int) {
    && Distinct(ps)
    && match kind
       case Beginning => s.clock <= now && forall p :: p in ps ==> p !in s.calls
       case Counting =>
         |InWindow(s.rows, ip, now - window)| < limit
         && forall p :: p in ps ==> p in s.calls && Waits(s.calls[p], ip, now) && !s.calls[p].phase.Admitted?
       case Inserting =>
         forall p :: p in ps ==> p in s.calls && Waits(s.calls[p], ip, now) && s.calls[p].phase.Admitted?
  }

  predicate Waits(c: Pending, ip: string, now: int) { c.ip == ip && c.now == now }

  /** What one of them finds afterwards. */
  ghost predicate Took(kind: Kind, s: State, s': State, p: nat, ip: string, now: int) {
    match kind
    case Beginning => p in s'.calls && s'.calls[p] == Pending(ip, now, Started, {})
    case Counting => p in s'.calls && Waits(s'.calls[p], ip, now) && s'.calls[p].phase.Admitted?
    case Inserting => p !in s'.calls
  }

  ghost predicate SameCall(s: State, s': State, q: nat) {
    (q in s'.calls <==> q in s.calls) && (q in s.calls ==> s'.calls[q] == s.calls[q])
  }

  /** All of them took it and nothing else happened. */
  ghost predicate AllTook(kind: Kind, s: State, s': State, ps: seq<nat>, ip: string, now: int) {
    && s'.log == (if kind.Inserting? then s.log + Copies(|ps|, Accepted(ip, now)) else s.log)
    && (!kind.Inserting? ==> s'.rows == s.rows)
    && s'.clock == (if kind.Beginning? && ps != [] then now else s.clock)
    && (forall p :: p in ps ==> Took(kind, s, s', p, ip, now))
    && (forall q :: q !in ps ==> SameCall(s, s', q))
  }

  lemma OneTakes(kind: Kind, limit: nat, window: int, s: State, s1: State, ps: seq<nat>, ip: string, now: int)
    requires ps != [] && Ready(kind, limit, window, s, ps, ip, now)
    requires AllTook(kind, s, s1, ps[..|ps| - 1], ip, now)
    ensures Enabled(s1, MoveOf(kind, ps[|ps| - 1], ip, now))
    ensures AllTook(kind, s, Next(limit, window, s1, MoveOf(kind, ps[|ps| - 1], ip, now)), ps, ip, now)
  {
    var p := ps[|ps| - 1];
    assert p !in ps[..|ps| - 1] && SameCall(s, s1, p);
    var s2 := Next(limit, window, s1, MoveOf(kind, p, ip, now));
    assert forall q :: q in ps <==> q in ps[..|ps| - 1] || q == p;
    if kind.Inserting? {
      assert Copies(|ps|, Accepted(ip, now)) == Copies(|ps| - 1, Accepted(ip, now)) + [Accepted(ip, now)];
    }
    forall q | q !in ps ensures SameCall(s, s2, q) { assert SameCall(s, s1, q); }
    forall q | q in ps ensures Took(kind, s, s2, q, ip, now) {
      if q != p { assert Took(kind, s, s1, q, ip, now); }
    }
  }

  lemma {:induction false} OneMoreTakes(kind: Kind, limit: nat, window: int, s: State, t: seq<Move>,
                                        ps: seq<nat>, ip: string, now: int)
    requires Legal(limit, window, t) && ps != [] && Ready(kind, limit, window, s, ps, ip, now)
    requires AllTook(kind, s, Exec(limit, window, t), ps[..|ps| - 1], ip, now)
    ensures
      var t' := t + [MoveOf(kind, ps[|ps| - 1], ip, now)];
      Legal(limit, window, t') && AllTook(kind, s, Exec(limit, window, t'), ps, ip, now)
  {
    OneTakes(kind, limit, window, s, Exec(limit, window, t), ps, ip, now);
    Extend(limit, window, t, MoveOf(kind, ps[|ps| - 1], ip, now));
  }

  lemma NobodyTakes(kind: Kind, s: State, ip: string, now: int)
    ensures AllTook(kind, s, s, [], ip, now)
  {
    assert s.log + Copies(0, Accepted(ip, now)) == s.log;
  }

  lemma {:induction false} BatchMore(kind: Kind, trace: seq<Move>, ps: seq<nat>, ip: string, now: int)
    requires ps != []
    ensures trace + Batch(kind, ps, ip, now)
            == trace + Batch(kind, ps[..|ps| - 1], ip, now) + [MoveOf(kind, ps[|ps| - 1], ip, now)]
  {
  }

  lemma {:induction false} AllTake(kind: Kind, limit: nat, window: int, trace: seq<Move>,
                                   ps: seq<nat>, ip: string, now: int)
    requires Legal(limit, window, trace) && Ready(kind, limit, window, Exec(limit, window, trace), ps, ip, now)
    ensures
      var t := trace + Batch(kind, ps, ip, now);
      Legal(limit, window, t) && AllTook(kind, Exec(limit, window, trace), Exec(limit, window, t), ps, ip, now)
    decreases |ps|
  {
    if ps == [] {
      assert trace + Batch(kind, ps, ip, now) == trace;
      NobodyTakes(kind, Exec(limit, window, trace), ip, now);
    } else {
      var p := ps[..|ps| - 1];
      AllTake(kind, limit, window, trace, p, ip, now);
      OneMoreTakes(kind, limit, window, Exec(limit, window, trace), trace + Batch(kind, p, ip, now), ps, ip, now);
      BatchMore(kind, trace, ps, ip, now);
    }
  }

  /** A batch keeps the address as sparse as the batch is large, if nobody else is under way, and
      sweeps nothing. */
  lemma TookUnder(kind: Kind, s: State, s': State, ps: seq<nat>, ip: string, now: int)
    requires AllTook(kind, s, s', ps, ip, now) && Distinct(ps)
    ensures AllUnder(s'.calls, ip) <= AllUnder(s.calls, ip) + Of(ps)
  {
    forall q | q in AllUnder(s'.calls, ip) ensures q in AllUnder(s.calls, ip) + Of(ps) {
      if q !in ps { assert SameCall(s, s', q); }
    }
  }

  lemma {:induction false} SparseOne(limit: nat, window: int, t: seq<Move>, m: Move, ip: string, n: nat)
    requires Legal(limit, window, t) && Legal(limit, window, t + [m]) && Sparse(limit, window, t, ip, n)
    requires |AllUnder(Exec(limit, window, t + [m]).calls, ip)| <= n
    ensures Sparse(limit, window, t + [m], ip, n)
  {
    assert (t + [m])[..|t|] == t;
  }

  lemma {:induction false} SparseExtend(limit: nat, window: int, t: seq<Move>, m: Move, ip: string, n: nat)
    requires Legal(limit, window, t) && Enabled(Exec(limit, window, t), m) && Sparse(limit, window, t, ip, n)
    requires |AllUnder(Next(limit, window, Exec(limit, window, t), m).calls, ip)| <= n
    ensures Legal(limit, window, t + [m]) && Sparse(limit, window, t + [m], ip, n)
    ensures Exec(limit, window, t + [m]) == Next(limit, window, Exec(limit, window, t), m)
  {
    Extend(limit, window, t, m);
    SparseOne(limit, window, t, m, ip, n);
  }

  /** Nobody of the address but these processes is under way. */
  ghost predicate Only(s: State, ip: string, ps: seq<nat>) { AllUnder(s.calls, ip) <= Of(ps) }

  lemma OnlyIsFew(s: State, s': State, kind: Kind, ps: seq<nat>, part: seq<nat>, ip: string, now: int)
    requires Only(s, ip, ps) && Distinct(ps) && part <= ps && AllTook(kind, s, s', part, ip, now)
    ensures Only(s', ip, ps) && |AllUnder(s'.calls, ip)| <= |ps|
  {
    assert Distinct(part) && Of(part) <= Of(ps);
    TookUnder(kind, s, s', part, ip, now);
    CountDistinct(ps);
    SubsetIsNoLarger(AllUnder(s'.calls, ip), Of(ps));
  }

  lemma {:induction false} BatchSparse(kind: Kind, limit: nat, window: int, trace: seq<Move>,
                                       ps: seq<nat>, part: seq<nat>, ip: string, now: int)
    requires Legal(limit, window, trace) && Ready(kind, limit, window, Exec(limit, window, trace), part, ip, now)
    requires Only(Exec(limit, window, trace), ip, ps) && Distinct(ps) && part <= ps
    requires Sparse(limit, window, trace, ip, |ps|)
    ensures
      var t := trace + Batch(kind, part, ip, now);
      Legal(limit, window, t) && Sparse(limit, window, t, ip, |ps|)
    decreases |part|
  {
    BatchFew(kind, limit, window, trace, ps, part, ip, now);
    if part == [] {
      assert trace + Batch(kind, part, ip, now) == trace;
    } else {
      var p, m := part[..|part| - 1], MoveOf(kind, part[|part| - 1], ip, now);
      BatchSparse(kind, limit, window, trace, ps, p, ip, now);
      BatchMore(kind, trace, part, ip, now);
      SparseOne(limit, window, trace + Batch(kind, p, ip, now), m, ip, |ps|);
    }
  }

  lemma {:induction false} BatchFew(kind: Kind, limit: nat, window: int, trace: seq<Move>,
                                    ps: seq<nat>, part: seq<nat>, ip: string, now: int)
    requires Legal(limit, window, trace) && Ready(kind, limit, window, Exec(limit, window, trace), part, ip, now)
    requires Only(Exec(limit, window, trace), ip, ps) && Distinct(ps) && part <= ps
    ensures
      var t := trace + Batch(kind, part, ip, now);
      && Legal(limit, window, t) && Only(Exec(limit, window, t), ip, ps)
      && |AllUnder(Exec(limit, window, t).calls, ip)| <= |ps|
  {
    AllTake(kind, limit, window, trace, part, ip, now);
    OnlyIsFew(Exec(limit, window, trace), Exec(limit, window, trace + Batch(kind, part, ip, now)), kind, ps, part,
              ip, now);
  }

  lemma {:induction false} BatchNoSweep(kind: Kind, ps: seq<nat>, ip: string, now: int)
    ensures forall i :: 0 <= i < |Batch(kind, ps, ip, now)| ==> !Batch(kind, ps, ip, now)[i].Sweep?
  {
    if ps != [] {
      BatchNoSweep(kind, ps[..|ps| - 1], ip, now);
    }
  }

  /** Moves without a sweep keep sweeps timely. */
  lemma {:induction false} NoSweepTimely(limit: nat, window: int, trace: seq<Move>, more: seq<Move>)
    requires Legal(limit, window, trace) && Timely(limit, window, trace) && Legal(limit, window, trace + more)
    requires forall i :: 0 <= i < |more| ==> !more[i].Sweep?
    ensures Timely(limit, window, trace + more)
    decreases |more|
  {
    var t := trace + more;
    if more == [] {
      assert t == trace;
    } else {
      var less := more[..|more| - 1];
      assert t[..|t| - 1] == trace + less && t[|t| - 1] == more[|more| - 1];
      NoSweepTimely(limit, window, trace, less);
    }
  }

  // ---- The bounds are reached ----

  /** The address has one place left in the window that ends at `now`, none of its calls is under
      way, and the processes are free. */
  ghost predicate Poised(limit: nat, window: int, s: State, ps: seq<nat>, ip: string, now: int) {
    Free(s, ps, ip, now) && PassedIn(s, window, ip, now) == limit - 1
  }

  lemma {:induction false} CopiesAccepted(log: seq<Accepted>, n: nat, ip: string, now: int, lo: int, hi: int)
    requires lo <= now <= hi
    ensures |AcceptedBetween(log + Copies(n, Accepted(ip, now)), ip, lo, hi)| == |AcceptedBetween(log, ip, lo, hi)| + n
  {
    var x := Accepted(ip, now);
    if n == 0 {
      assert log + Copies(0, x) == log;
    } else {
      CopiesAccepted(log, n - 1, ip, now, lo, hi);
      AcceptedAfterAppend(log + Copies(n - 1, x), x, ip, lo, hi);
      assert log + Copies(n, x) == log + Copies(n - 1, x) + [x];
    }
  }

  /** How many requests of the address have passed in the window that ends at `now`. */
  ghost function PassedIn(s: State, window: int, ip: string, now: int): nat {
    |AcceptedBetween(s.log, ip, now - window, now)|
  }

  lemma CountGrows(s: State, s': State, n: nat, ip: string, now: int, window: int)
    requires s'.log == s.log + Copies(n, Accepted(ip, now)) && window >= 0
    ensures PassedIn(s', window, ip, now) == PassedIn(s, window, ip, now) + n
  {
    CopiesAccepted(s.log, n, ip, now, now - window, now);
  }

  /** A call that begins now sees everything accepted in its window. */
  lemma BeginnerSees(window: int, s: State, ip: string, now: int)
    requires Inv(s, window) && s.clock <= now && window >= 0
    ensures InWindow(s.rows, ip, now - window) == AcceptedBetween(s.log, ip, now - window, now)
  {
    var lo := now - window;
    forall k | k in AcceptedBetween(s.log, ip, lo, now) ensures k in InWindow(s.rows, ip, lo) {
      assert (s.log[k.1].ip, k.1) in s.rows;
    }
    forall k | k in InWindow(s.rows, ip, lo) ensures k in AcceptedBetween(s.log, ip, lo, now) {
      assert s.log[k.1] == Accepted(k.0, s.rows[k]) && s.log[k.1].time <= s.clock;
    }
  }

  function Opening(ps: seq<nat>, ip: string, now: int): seq<Move> { Batch(Beginning, ps, ip, now) }

  function Closing(ps: seq<nat>, ip: string, now: int): seq<Move> {
    Batch(Counting, ps, ip, now) + Batch(Inserting, ps, ip, now)
  }

  /** The processes have begun and not counted; the rest is as it was. */
  ghost predicate Open(limit: nat, window: int, s: State, ps: seq<nat>, ip: string, now: int) {
    Ready(Counting, limit, window, s, ps, ip, now) && Only(s, ip, ps)
  }

  /** All of them got in and are gone. */
  ghost predicate Through(s: State, s': State, ps: seq<nat>, ip: string, now: int) {
    && s'.log == s.log + Copies(|ps|, Accepted(ip, now)) && s'.clock == s.clock
    && AllUnder(s'.calls, ip) == {}
    && (forall p :: p in ps ==> p !in s'.calls) && (forall q :: q !in ps ==> SameCall(s, s', q))
  }

  lemma CloseState(s: State, s1: State, s2: State, ps: seq<nat>, ip: string, now: int)
    requires AllTook(Counting, s, s1, ps, ip, now) && AllTook(Inserting, s1, s2, ps, ip, now) && Only(s2, ip, ps)
    ensures Through(s, s2, ps, ip, now)
  {
    forall p | p in ps ensures p !in s2.calls { assert Took(Inserting, s1, s2, p, ip, now); }
    forall q | q !in ps ensures SameCall(s, s2, q) { assert SameCall(s, s1, q) && SameCall(s1, s2, q); }
    forall p ensures p !in AllUnder(s2.calls, ip) {
      assert p in AllUnder(s2.calls, ip) ==> p in Of(ps);
    }
  }

  lemma CountedIsReady(limit: nat, window: int, s: State, s': State, ps: seq<nat>, ip: string, now: int)
    requires AllTook(Counting, s, s', ps, ip, now) && Distinct(ps)
    ensures Ready(Inserting, limit, window, s', ps, ip, now)
  {
    forall p | p in ps ensures p in s'.calls && Waits(s'.calls[p], ip, now) && s'.calls[p].phase.Admitted? {
      assert Took(Counting, s, s', p, ip, now);
    }
  }

  ghost predicate Extends(limit: nat, window: int, trace: seq<Move>, t: seq<Move>, ip: string, n: nat)
    requires Legal(limit, window, trace)
  {
    && Legal(limit, window, t) && Sparse(limit, window, t, ip, n)
    && (Timely(limit, window, trace) ==> Timely(limit, window, t))
  }

  lemma {:induction false} BatchRuns(kind: Kind, limit: nat, window: int, trace: seq<Move>, ps: seq<nat>, ip: string,
                                     now: int)
    requires Legal(limit, window, trace) && Ready(kind, limit, window, Exec(limit, window, trace), ps, ip, now)
    requires Only(Exec(limit, window, trace), ip, ps) && Sparse(limit, window, trace, ip, |ps|)
    ensures
      var t := trace + Batch(kind, ps, ip, now);
      && Extends(limit, window, trace, t, ip, |ps|) && Only(Exec(limit, window, t), ip, ps)
      && AllTook(kind, Exec(limit, window, trace), Exec(limit, window, t), ps, ip, now)
  {
    AllTake(kind, limit, window, trace, ps, ip, now);
    BatchSparse(kind, limit, window, trace, ps, ps, ip, now);
    BatchFew(kind, limit, window, trace, ps, ps, ip, now);
    if Timely(limit, window, trace) {
      BatchNoSweep(kind, ps, ip, now);
      NoSweepTimely(limit, window, trace, Batch(kind, ps, ip, now));
    }
  }

  lemma Assoc(a: seq<Move>, b: seq<Move>, c: seq<Move>)
    ensures a + b + c == a + (b + c)
  {
  }

  /** All count before any inserts, so all pass. */
  lemma {:induction false} CloseAll(limit: nat, window: int, trace: seq<Move>, ps: seq<nat>, ip: string, now: int)
    requires Legal(limit, window, trace) && Open(limit, window, Exec(limit, window, trace), ps, ip, now)
    requires Sparse(limit, window, trace, ip, |ps|)
    ensures
      var t := trace + Closing(ps, ip, now);
      Extends(limit, window, trace, t, ip, |ps|)
      && Through(Exec(limit, window, trace), Exec(limit, window, t), ps, ip, now)
  {
    var s := Exec(limit, window, trace);
    BatchRuns(Counting, limit, window, trace, ps, ip, now);
    var t1 := trace + Batch(Counting, ps, ip, now);
    var s1 := Exec(limit, window, t1);
    CountedIsReady(limit, window, s, s1, ps, ip, now);
    BatchRuns(Inserting, limit, window, t1, ps, ip, now);
    Assoc(trace, Batch(Counting, ps, ip, now), Batch(Inserting, ps, ip, now));
    CloseState(s, s1, Exec(limit, window, trace + Closing(ps, ip, now)), ps, ip, now);
  }

  /** The processes are free and nobody of the address is under way. */
  ghost predicate Free(s: State, ps: seq<nat>, ip: string, now: int) {
    Distinct(ps) && s.clock <= now && AllUnder(s.calls, ip) == {} && forall p :: p in ps ==> p !in s.calls
  }

  /** They begin together. */
  lemma {:induction false} OpenAll(limit: nat, window: int, trace: seq<Move>, ps: seq<nat>, ip: string, now: int)
    requires Legal(limit, window, trace) && Sparse(limit, window, trace, ip, |ps|)
    requires Free(Exec(limit, window, trace), ps, ip, now)
    ensures
      var t := trace + Opening(ps, ip, now);
      && Extends(limit, window, trace, t, ip, |ps|) && Only(Exec(limit, window, t), ip, ps)
      && AllTook(Beginning, Exec(limit, window, trace), Exec(limit, window, t), ps, ip, now)
  {
    BatchRuns(Beginning, limit, window, trace, ps, ip, now);
  }

  lemma OpenIsReady(limit: nat, window: int, s: State, s': State, ps: seq<nat>, ip: string, now: int)
    requires AllTook(Beginning, s, s', ps, ip, now) && Distinct(ps) && |InWindow(s'.rows, ip, now - window)| < limit
    ensures Ready(Counting, limit, window, s', ps, ip, now)
  {
    forall p | p in ps ensures p in s'.calls && Waits(s'.calls[p], ip, now) && !s'.calls[p].phase.Admitted? {
      assert Took(Beginning, s, s', p, ip, now);
    }
  }

  lemma {:induction false} SparseIsMetered(limit: nat, window: int, trace: seq<Move>, ip: string, n: nat)
    requires Legal(limit, window, trace) && Sparse(limit, window, trace, ip, n)
    ensures Metered(limit, window, trace, ip, n)
  {
    var s := Exec(limit, window, trace);
    SubsetIsNoLarger(AllPast(s.calls, ip), AllUnder(s.calls, ip));
    if trace != [] {
      SparseIsMetered(limit, window, trace[..|trace| - 1], ip, n);
    }
  }

  /** Begin together, count together, insert: everybody gets through. */
  lemma {:induction false} Race(limit: nat, window: int, trace: seq<Move>, ps: seq<nat>, ip: string, now: int)
    requires Legal(limit, window, trace) && Poised(limit, window, Exec(limit, window, trace), ps, ip, now)
    requires Sparse(limit, window, trace, ip, |ps|) && window >= 0
    ensures
      var t := trace + Opening(ps, ip, now) + Closing(ps, ip, now);
      && Extends(limit, window, trace, t, ip, |ps|)
      && var s, s' := Exec(limit, window, trace), Exec(limit, window, t);
         && PassedIn(s', window, ip, now) == limit - 1 + |ps| && Free(s', ps, ip, now)
         && s'.log == s.log + Copies(|ps|, Accepted(ip, now))
         && (forall q :: q !in ps ==> SameCall(s, s', q))
  {
    var s := Exec(limit, window, trace);
    InvOverRuns(limit, window, trace);
    BeginnerSees(window, s, ip, now);
    OpenAll(limit, window, trace, ps, ip, now);
    var t1 := trace + Opening(ps, ip, now);
    var s1 := Exec(limit, window, t1);
    OpenIsReady(limit, window, s, s1, ps, ip, now);
    CloseAll(limit, window, t1, ps, ip, now);
    var s2 := Exec(limit, window, t1 + Closing(ps, ip, now));
    CountGrows(s, s2, |ps|, ip, now, window);
    forall q | q !in ps ensures SameCall(s, s2, q) { assert SameCall(s, s1, q) && SameCall(s1, s2, q); }
  }

  /** The first bound is reached: from every run that is poised, `n` processes that begin together all
      pass, and limit - 1 + n requests have passed in one window, with no sweep at all. */
  lemma {:induction false} RacersReachTheBound(limit: nat, window: int, trace: seq<Move>,
                                               ps: seq<nat>, ip: string, now: int)
    requires Legal(limit, window, trace) && Poised(limit, window, Exec(limit, window, trace), ps, ip, now)
    requires Sparse(limit, window, trace, ip, |ps|) && window >= 0
    ensures
      var t := trace + Opening(ps, ip, now) + Closing(ps, ip, now);
      && Legal(limit, window, t) && Metered(limit, window, t, ip, |ps|)
      && (Timely(limit, window, trace) ==> Timely(limit, window, t))
      && PassedIn(Exec(limit, window, t), window, ip, now) == limit - 1 + |ps|
  {
    Race(limit, window, trace, ps, ip, now);
    SparseIsMetered(limit, window, trace + Opening(ps, ip, now) + Closing(ps, ip, now), ip, |ps|);
  }

  /** A call of another address reads a clock more than a window later and sweeps. */
  function LateSweep(q: nat, other: string, later: int): seq<Move> { [Begin(q, other, later)] + [Sweep(q)] }

  /** The processes wait to count. */
  ghost predicate Began(s: State, ps: seq<nat>, ip: string, now: int) {
    && Distinct(ps) && Only(s, ip, ps) && s.clock <= now
    && forall p :: p in ps ==> p in s.calls && Waits(s.calls[p], ip, now) && !s.calls[p].phase.Admitted?
  }

  lemma OtherBegins(limit: nat, window: int, s: State, q: nat, other: string, later: int, ip: string)
    requires q !in s.calls && s.clock <= later && other != ip
    ensures var s' := Next(limit, window, s, Begin(q, other, later));
            AllUnder(s'.calls, ip) == AllUnder(s.calls, ip) && forall p :: p in s.calls ==> SameCall(s, s', p)
  {
  }

  /** The same request in the same phase. */
  ghost predicate SameRequest(s: State, s': State, p: nat) {
    p in s.calls && p in s'.calls && s'.calls[p].ip == s.calls[p].ip && s'.calls[p].now == s.calls[p].now
    && (s'.calls[p].phase.Admitted? <==> s.calls[p].phase.Admitted?)
  }

  lemma SweepKeepsRequests(limit: nat, window: int, s: State, q: nat)
    requires Enabled(s, Sweep(q))
    ensures var s' := Next(limit, window, s, Sweep(q));
            && s'.calls.Keys == s.calls.Keys && s'.log == s.log && s'.rows == Fresh(s.rows, s.calls[q].now - window)
            && forall p :: p in s.calls ==> SameRequest(s, s', p)
  {
  }

  lemma SameUnder(s: State, s': State, ip: string)
    requires s'.calls.Keys == s.calls.Keys && forall p :: p in s.calls ==> SameRequest(s, s', p)
    ensures AllUnder(s'.calls, ip) == AllUnder(s.calls, ip)
  {
    forall p ensures p in AllUnder(s'.calls, ip) <==> p in AllUnder(s.calls, ip) {
      if p in s.calls { assert SameRequest(s, s', p); }
    }
  }

  lemma SweepState(limit: nat, window: int, s: State, q: nat, other: string, later: int, ps: seq<nat>, ip: string,
                   now: int)
    requires RowsOk(s) && Began(s, ps, ip, now) && limit >= 1 && window >= 0
    requires q !in s.calls && q !in ps && other != ip && now + window < later
    ensures
      var s1 := Next(limit, window, s, Begin(q, other, later));
      && Enabled(s1, Sweep(q))
      && var s2 := Next(limit, window, s1, Sweep(q));
         && AllUnder(s1.calls, ip) == AllUnder(s.calls, ip) && AllUnder(s2.calls, ip) == AllUnder(s.calls, ip)
         && s2.log == s.log && Open(limit, window, s2, ps, ip, now)
  {
    var s1 := Next(limit, window, s, Begin(q, other, later));
    var s2 := Next(limit, window, s1, Sweep(q));
    OtherBegins(limit, window, s, q, other, later, ip);
    SweepKeepsRequests(limit, window, s1, q);
    SameUnder(s1, s2, ip);
    NothingFresh(s, window, later);
    assert s2.rows == map[];
    NothingInWindow(ip, now - window);
    forall p | p in ps ensures p in s2.calls && Waits(s2.calls[p], ip, now) && !s2.calls[p].phase.Admitted? {
      assert SameCall(s, s1, p) && SameRequest(s1, s2, p);
    }
  }

  lemma NothingInWindow(ip: string, lo: int)
    ensures |InWindow(map[], ip, lo)| == 0
  {
    assert InWindow(map[], ip, lo) == {};
  }

  lemma {:induction false} SweepClears(limit: nat, window: int, trace: seq<Move>, q: nat, other: string, later: int,
                                       ps: seq<nat>, ip: string, now: int)
    requires Legal(limit, window, trace) && Sparse(limit, window, trace, ip, |ps|) && limit >= 1 && window >= 0
    requires Began(Exec(limit, window, trace), ps, ip, now)
    requires q !in Exec(limit, window, trace).calls && q !in ps && other != ip && now + window < later
    ensures
      var t := trace + LateSweep(q, other, later);
      && Legal(limit, window, t) && Sparse(limit, window, t, ip, |ps|)
      && Exec(limit, window, t).log == Exec(limit, window, trace).log
      && Open(limit, window, Exec(limit, window, t), ps, ip, now)
  {
    var s := Exec(limit, window, trace);
    InvOverRuns(limit, window, trace);
    SweepState(limit, window, s, q, other, later, ps, ip, now);
    Few(s, ip, ps);
    SparseExtend(limit, window, trace, Begin(q, other, later), ip, |ps|);
    SparseExtend(limit, window, trace + [Begin(q, other, later)], Sweep(q), ip, |ps|);
    Assoc(trace, [Begin(q, other, later)], [Sweep(q)]);
  }

  lemma Few(s: State, ip: string, ps: seq<nat>)
    requires Only(s, ip, ps) && Distinct(ps)
    ensures |AllUnder(s.calls, ip)| <= |ps|
  {
    CountDistinct(ps);
    SubsetIsNoLarger(AllUnder(s.calls, ip), Of(ps));
  }

  lemma NothingFresh(s: State, window: int, later: int)
    requires RowsOk(s) && s.clock + window < later
    ensures Fresh(s.rows, later - window) == map[]
  {
    forall k | k in s.rows ensures s.rows[k] < later - window {
      assert s.log[k.1] == Accepted(k.0, s.rows[k]);
    }
  }

  /** Begin together, have the table swept, count together, insert: everybody gets through again. */
  lemma {:induction false} SweptRace(limit: nat, window: int, trace: seq<Move>, ps: seq<nat>, ip: string,
                                     now: int, q: nat, other: string, later: int)
    requires Legal(limit, window, trace) && Free(Exec(limit, window, trace), ps, ip, now)
    requires Sparse(limit, window, trace, ip, |ps|) && window >= 0 && limit >= 1
    requires q !in Exec(limit, window, trace).calls && q !in ps && other != ip && now + window < later
    ensures
      var t := trace + Opening(ps, ip, now) + LateSweep(q, other, later) + Closing(ps, ip, now);
      && Legal(limit, window, t) && Sparse(limit, window, t, ip, |ps|)
      && PassedIn(Exec(limit, window, t), window, ip, now)
            == PassedIn(Exec(limit, window, trace), window, ip, now) + |ps|
  {
    OpenAll(limit, window, trace, ps, ip, now);
    var t1 := trace + Opening(ps, ip, now);
    OpenIsBegun(Exec(limit, window, trace), Exec(limit, window, t1), ps, ip, now, q);
    SweepClears(limit, window, t1, q, other, later, ps, ip, now);
    var t2 := t1 + LateSweep(q, other, later);
    CloseAll(limit, window, t2, ps, ip, now);
    CountGrows(Exec(limit, window, t2), Exec(limit, window, t2 + Closing(ps, ip, now)), |ps|, ip, now, window);
  }

  lemma OpenIsBegun(s: State, s': State, ps: seq<nat>, ip: string, now: int, q: nat)
    requires Free(s, ps, ip, now) && AllTook(Beginning, s, s', ps, ip, now) && Only(s', ip, ps)
    requires q !in s.calls && q !in ps
    ensures Began(s', ps, ip, now) && q !in s'.calls && s'.log == s.log
  {
    assert SameCall(s, s', q);
    forall p | p in ps ensures p in s'.calls && Waits(s'.calls[p], ip, now) && !s'.calls[p].phase.Admitted? {
      assert Took(Beginning, s, s', p, ip, now);
    }
  }

  /** The second bound is reached: from every poised run, the racers pass, the same processes begin
      again at the same reading, a late sweep deletes the address's whole window under them, and they
      all pass again: limit - 1 + 2n requests in one window with never more than `n` under way. */
  lemma {:induction false} SweepReachesTheBound(limit: nat, window: int, trace: seq<Move>, ps: seq<nat>, ip: string,
                                                now: int, q: nat, other: string, later: int)
    requires Legal(limit, window, trace) && Poised(limit, window, Exec(limit, window, trace), ps, ip, now)
    requires Sparse(limit, window, trace, ip, |ps|) && window >= 0 && limit >= 1
    requires q !in Exec(limit, window, trace).calls && q !in ps && other != ip && now + window < later
    ensures
      var once := trace + Opening(ps, ip, now) + Closing(ps, ip, now);
      var t := once + Opening(ps, ip, now) + LateSweep(q, other, later) + Closing(ps, ip, now);
      && Legal(limit, window, t) && Sparse(limit, window, t, ip, |ps|)
      && PassedIn(Exec(limit, window, t), window, ip, now) == limit - 1 + 2 * |ps|
  {
    Race(limit, window, trace, ps, ip, now);
    var once := trace + Opening(ps, ip, now) + Closing(ps, ip, now);
    var s, s1 := Exec(limit, window, trace), Exec(limit, window, once);
    assert SameCall(s, s1, q);
    SweptRace(limit, window, once, ps, ip, now, q, other, later);
  }

  // ---- Inputs on which the limit and the log's decision fail ----

  /** With a limit of one, two requests of one address at the same moment both pass. */
  lemma TwoPass(window: int, ip: string)
    requires window >= 0
    ensures
      var t := Opening([0, 1], ip, 0) + Closing([0, 1], ip, 0);
      Legal(1, window, t) && PassedIn(Exec(1, window, t), window, ip, 0) == 2
  {
    assert AllUnder(Start.calls, ip) == {} && AcceptedBetween([], ip, 0 - window, 0) == {};
    RacersReachTheBound(1, window, [], [0, 1], ip, 0);
    assert [] + Opening([0, 1], ip, 0) == Opening([0, 1], ip, 0);
  }

  /** A call that read the clock at 10 should count the row of time 5, but another address's call that
      read it at 20 sweeps that row first: the log refuses and the table lets the request pass. */
  lemma LateSweepChangesDecision()
    ensures
      var t := Opening([0], "a", 5) + Closing([0], "a", 5) + [Begin(1, "a", 10)] + LateSweep(2, "b", 20);
      && Legal(1, 10, t) && Enabled(Exec(1, 10, t), Count(1))
      && Passes(Exec(1, 10, t), 1, 10, 1) && Logged(Exec(1, 10, t), 10, 1) == 1
  {
    SecondReading();
    var t2 := Opening([0], "a", 5) + Closing([0], "a", 5) + [Begin(1, "a", 10)];
    Extend(1, 10, t2, Begin(2, "b", 20));
    var t3 := t2 + [Begin(2, "b", 20)];
    Extend(1, 10, t3, Sweep(2));
    Assoc(t2, [Begin(2, "b", 20)], [Sweep(2)]);
    var s := Exec(1, 10, t3 + [Sweep(2)]);
    assert Recent(s.log, "a", 0) == {("a", 0)};
    assert InWindow(s.rows, "a", 0) == {};
  }

  lemma SecondReading()
    ensures
      var t := Opening([0], "a", 5) + Closing([0], "a", 5) + [Begin(1, "a", 10)];
      && Legal(1, 10, t)
      && var s := Exec(1, 10, t);
         && s.log == [Accepted("a", 5)] && s.clock == 10 && 2 !in s.calls
         && 1 in s.calls && s.calls[1] == Pending("a", 10, Started, {})
         && forall k :: k in s.rows ==> s.rows[k] == 5
  {
    FirstRow();
    Extend(1, 10, Opening([0], "a", 5) + Closing([0], "a", 5), Begin(1, "a", 10));
  }

  lemma FirstRow()
    ensures
      var t := Opening([0], "a", 5) + Closing([0], "a", 5);
      && Legal(1, 10, t)
      && var s := Exec(1, 10, t);
         && s.log == [Accepted("a", 5)] && s.clock <= 5 && 1 !in s.calls && 2 !in s.calls
         && forall k :: k in s.rows ==> s.rows[k] == 5
  {
    assert AllUnder(Start.calls, "a") == {} && AcceptedBetween([], "a", -5, 5) == {};
    Race(1, 10, [], [0], "a", 5);
    assert [] + Opening([0], "a", 5) == Opening([0], "a", 5);
    var t := Opening([0], "a", 5) + Closing([0], "a", 5);
    var s := Exec(1, 10, t);
    assert SameCall(Start, s, 1) && SameCall(Start, s, 2);
    InvOverRuns(1, 10, t);
    forall k | k in s.rows ensures s.rows[k] == 5 { assert s.log[k.1] == Accepted(k.0, s.rows[k]); }
  }

  // ---- Without overlap ----

  /** A call that runs from its clock reading to its insert while the others stand still. */
  function Alone(p: nat, c: Call, pass: bool): seq<Move> {
    var counted := if c.sweep then [Begin(p, c.ip, c.now)] + [Sweep(p)] + [Count(p)]
                   else [Begin(p, c.ip, c.now)] + [Count(p)];
    if pass then counted + [Insert(p)] else counted
  }

  function View(s: State): Ets { Ets(s.rows, |s.log|) }

  /** In every run, such a call is one step of the one-step machine: same answer, same table. */
  lemma {:induction false} AloneIsOneStep(limit: nat, window: int, trace: seq<Move>, p: nat, c: Call)
    requires Legal(limit, window, trace) && Enabled(Exec(limit, window, trace), Begin(p, c.ip, c.now))
    ensures
      var s := Exec(limit, window, trace);
      var pass := Admits(View(s), limit, window, c);
      var t := trace + Alone(p, c, pass);
      && Legal(limit, window, t)
      && var s' := Exec(limit, window, t);
         && View(s') == Step(View(s), limit, window, c) && s'.clock == c.now && p !in s'.calls
         && s'.log == if pass then s.log + [Accepted(c.ip, c.now)] else s.log
  {
    var s := Exec(limit, window, trace);
    var pass := Admits(View(s), limit, window, c);
    var t := if c.sweep then trace + [Begin(p, c.ip, c.now)] + [Sweep(p)] else trace + [Begin(p, c.ip, c.now)];
    ReadAlone(limit, window, trace, p, c);
    CountAlone(limit, window, t, p, c, pass);
    AloneMoves(trace, p, c, pass);
  }

  lemma {:induction false} ReadAlone(limit: nat, window: int, trace: seq<Move>, p: nat, c: Call)
    requires Legal(limit, window, trace) && Enabled(Exec(limit, window, trace), Begin(p, c.ip, c.now))
    ensures
      var t := if c.sweep then trace + [Begin(p, c.ip, c.now)] + [Sweep(p)] else trace + [Begin(p, c.ip, c.now)];
      && Legal(limit, window, t)
      && var s, s' := Exec(limit, window, trace), Exec(limit, window, t);
         && Enabled(s', Count(p)) && Waits(s'.calls[p], c.ip, c.now) && s'.log == s.log && s'.clock == c.now
         && s'.rows == if c.sweep then Fresh(s.rows, c.now - window) else s.rows
  {
    Extend(limit, window, trace, Begin(p, c.ip, c.now));
    if c.sweep {
      Extend(limit, window, trace + [Begin(p, c.ip, c.now)], Sweep(p));
    }
  }

  lemma {:induction false} CountAlone(limit: nat, window: int, t: seq<Move>, p: nat, c: Call, pass: bool)
    requires Legal(limit, window, t) && Enabled(Exec(limit, window, t), Count(p))
    requires
      var s := Exec(limit, window, t);
      Waits(s.calls[p], c.ip, c.now) && pass == (|InWindow(s.rows, c.ip, c.now - window)| < limit)
    ensures
      var s, t' := Exec(limit, window, t), if pass then t + [Count(p)] + [Insert(p)] else t + [Count(p)];
      && Legal(limit, window, t')
      && var s' := Exec(limit, window, t');
         && s'.rows == (if pass then s.rows[(c.ip, |s.log|) := c.now] else s.rows)
         && s'.log == (if pass then s.log + [Accepted(c.ip, c.now)] else s.log)
         && s'.clock == s.clock && p !in s'.calls
  {
    Extend(limit, window, t, Count(p));
    if pass {
      Extend(limit, window, t + [Count(p)], Insert(p));
    }
  }

  lemma AloneMoves(trace: seq<Move>, p: nat, c: Call, pass: bool)
    ensures
      var t := if c.sweep then trace + [Begin(p, c.ip, c.now)] + [Sweep(p)] else trace + [Begin(p, c.ip, c.now)];
      trace + Alone(p, c, pass) == if pass then t + [Count(p)] + [Insert(p)] else t + [Count(p)]
  {
  }

  /** Calls one after the other. */
  ghost function Sequence(calls: seq<Call>, limit: nat, window: int): seq<Move> {
    if calls == [] then []
    else
      var past, c := calls[..|calls| - 1], calls[|calls| - 1];
      Sequence(past, limit, window) + Alone(0, c, Admits(Run(past, limit, window), limit, window, c))
  }

  /** So the one-step machine is the run without overlap, and its theorems are that case. */
  lemma {:induction false} SequenceIsRun(calls: seq<Call>, limit: nat, window: int)
    requires Ordered(calls) && forall i :: 0 <= i < |calls| ==> calls[i].now >= 0
    ensures
      var t := Sequence(calls, limit, window);
      && Legal(limit, window, t)
      && var s := Exec(limit, window, t);
         && View(s) == Run(calls, limit, window) && 0 !in s.calls
         && s.clock == if calls == [] then 0 else calls[|calls| - 1].now
  {
    if calls != [] {
      var past, c := calls[..|calls| - 1], calls[|calls| - 1];
      SequenceIsRun(past, limit, window);
      assert past != [] ==> past[|past| - 1].now <= c.now;
      AloneIsOneStep(limit, window, Sequence(past, limit, window), 0, c);
    }
  }
}
