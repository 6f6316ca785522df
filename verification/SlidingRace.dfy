/** The Elixir limiter as concurrent request processes run it: reading the clock, the occasional
    sweep, the count and the insert are four separate moments on one shared table. */
module SlidingRace {
  import opened Sets
  import opened SlidingLog

  /** Before the count, with or without the sweep done, or past it and about to insert. */
  datatype Phase = Started | Swept | Admitted

  /** A call under way.  `missed` are the rows of its address that its window should still hold and
      that sweeps have deleted since it read the clock. */
  datatype Pending = Pending(ip: string, now: int, phase: Phase, missed: set<(string, nat)>)

  datatype State = State(
    rows: Table,
    log: seq<Accepted>,           // every insert ever made; its length numbers the next row
    calls: map<nat, Pending>,     // by process
    clock: int)                   // the latest reading

  const Start := State(map[], [], map[], 0)

  datatype Move =
    | Begin(process: nat, ip: string, now: int)
    | Sweep(process: nat)
    | Count(process: nat)
    | Insert(process: nat)

  predicate Enabled(s: State, m: Move) {
    match m
    case Begin(p, _, now) => p !in s.calls && s.clock <= now
    case Sweep(p) => p in s.calls && s.calls[p].phase.Started?
    case Count(p) => p in s.calls && !s.calls[p].phase.Admitted?
    case Insert(p) => p in s.calls && s.calls[p].phase.Admitted?
  }

  /** Rows of the call's address inside its window that a sweep at `start` deletes. */
  function Missing(c: Pending, rows: Table, window: int, start: int): set<(string, nat)> {
    InWindow(rows, c.ip, c.now - window) - InWindow(Fresh(rows, start), c.ip, c.now - window)
  }

  function AfterSweep(c: Pending, rows: Table, window: int, start: int): Pending {
    c.(missed := c.missed + Missing(c, rows, window, start))
  }

  predicate Passes(s: State, limit: nat, window: int, p: nat)
    requires p in s.calls
  {
    |InWindow(s.rows, s.calls[p].ip, s.calls[p].now - window)| < limit
  }

  function Next(limit: nat, window: int, s: State, m: Move): State
    requires Enabled(s, m)
  {
    match m
    case Begin(p, ip, now) => s.(calls := s.calls[p := Pending(ip, now, Started, {})], clock := now)
    case Sweep(p) =>
      var start := s.calls[p].now - window;
      var calls := map q | q in s.calls :: AfterSweep(s.calls[q], s.rows, window, start);
      s.(rows := Fresh(s.rows, start), calls := calls[p := calls[p].(phase := Swept)])
    case Count(p) =>
      if Passes(s, limit, window, p) then s.(calls := s.calls[p := s.calls[p].(phase := Admitted)])
      else s.(calls := s.calls - {p})
    case Insert(p) =>
      var c := s.calls[p];
      s.(rows := s.rows[(c.ip, |s.log|) := c.now], log := s.log + [Accepted(c.ip, c.now)], calls := s.calls - {p})
  }

  ghost predicate Legal(limit: nat, window: int, trace: seq<Move>)
    decreases |trace|, 0
  {
    trace == [] || (Legal(limit, window, trace[..|trace| - 1])
                    && Enabled(Exec(limit, window, trace[..|trace| - 1]), trace[|trace| - 1]))
  }

  ghost function Exec(limit: nat, window: int, trace: seq<Move>): State
    requires Legal(limit, window, trace)
    decreases |trace|, 1
  {
    if trace == [] then Start
    else Next(limit, window, Exec(limit, window, trace[..|trace| - 1]), trace[|trace| - 1])
  }

  /** A run may go on with any enabled step. */
  lemma {:induction false} Extend(limit: nat, window: int, trace: seq<Move>, m: Move)
    requires Legal(limit, window, trace) && Enabled(Exec(limit, window, trace), m)
    ensures Legal(limit, window, trace + [m])
    ensures Exec(limit, window, trace + [m]) == Next(limit, window, Exec(limit, window, trace), m)
  {
    assert (trace + [m])[..|trace|] == trace;
  }

  // ---- What the table still holds ----

  /** Rows are logged inserts, and no logged time or pending reading is ahead of the clock. */
  ghost predicate RowsOk(s: State) {
    && (forall k :: k in s.rows ==> k.1 < |s.log| && s.log[k.1] == Accepted(k.0, s.rows[k]))
    && (forall u: nat :: u < |s.log| ==> s.log[u].time <= s.clock)
    && (forall p :: p in s.calls ==> s.calls[p].now <= s.clock)
  }

  /** What a call that began now would see is all there. */
  ghost predicate FreshRowsOk(s: State, window: int) {
    forall u: nat :: u < |s.log| && s.log[u].time >= s.clock - window ==> (s.log[u].ip, u) in s.rows
  }

  /** A call that has not counted sees its window of the unswept log but for what it missed. */
  ghost predicate SeesAllBut(s: State, window: int, c: Pending) {
    && Recent(s.log, c.ip, c.now - window) == InWindow(s.rows, c.ip, c.now - window) + c.missed
    && InWindow(s.rows, c.ip, c.now - window) !! c.missed
  }

  ghost predicate ViewsOk(s: State, window: int) {
    forall p :: p in s.calls && !s.calls[p].phase.Admitted? ==> SeesAllBut(s, window, s.calls[p])
  }

  ghost predicate Inv(s: State, window: int) { RowsOk(s) && FreshRowsOk(s, window) && ViewsOk(s, window) }

  lemma BeginKeeps(limit: nat, window: int, s: State, p: nat, ip: string, now: int)
    requires Inv(s, window) && Enabled(s, Begin(p, ip, now))
    ensures Inv(Next(limit, window, s, Begin(p, ip, now)), window)
  {
    assert Recent(s.log, ip, now - window) == InWindow(s.rows, ip, now - window);
    var s' := Next(limit, window, s, Begin(p, ip, now));
    forall q | q in s'.calls && !s'.calls[q].phase.Admitted? ensures SeesAllBut(s', window, s'.calls[q]) {
      if q != p { assert SeesAllBut(s, window, s.calls[q]); }
    }
  }

  lemma SweepView(s: State, window: int, c: Pending, start: int)
    requires SeesAllBut(s, window, c)
    ensures SeesAllBut(s.(rows := Fresh(s.rows, start)), window, AfterSweep(c, s.rows, window, start))
  {
    var seen, left := InWindow(s.rows, c.ip, c.now - window), InWindow(Fresh(s.rows, start), c.ip, c.now - window);
    assert left <= seen;
    assert left + (c.missed + (seen - left)) == seen + c.missed;
  }

  lemma SameView(s: State, s': State, window: int, c: Pending, c': Pending)
    requires SeesAllBut(s, window, c) && s'.rows == s.rows && s'.log == s.log
    requires c'.ip == c.ip && c'.now == c.now && c'.missed == c.missed
    ensures SeesAllBut(s', window, c')
  {
  }

  lemma SweepRows(limit: nat, window: int, s: State, p: nat)
    requires RowsOk(s) && FreshRowsOk(s, window) && Enabled(s, Sweep(p))
    ensures var s' := Next(limit, window, s, Sweep(p)); RowsOk(s') && FreshRowsOk(s', window)
  {
  }

  lemma SweepKeeps(limit: nat, window: int, s: State, p: nat)
    requires Inv(s, window) && Enabled(s, Sweep(p))
    ensures Inv(Next(limit, window, s, Sweep(p)), window)
  {
    SweepRows(limit, window, s, p);
    var s' := Next(limit, window, s, Sweep(p));
    var start := s.calls[p].now - window;
    forall q | q in s'.calls && !s'.calls[q].phase.Admitted? ensures SeesAllBut(s', window, s'.calls[q]) {
      assert SeesAllBut(s, window, s.calls[q]);
      SweepView(s, window, s.calls[q], start);
      SameView(s.(rows := Fresh(s.rows, start)), s', window, AfterSweep(s.calls[q], s.rows, window, start),
               s'.calls[q]);
    }
  }

  lemma InsertView(s: State, window: int, c: Pending, ip: string, now: int)
    requires SeesAllBut(s, window, c) && RowsOk(s)
    ensures SeesAllBut(s.(rows := s.rows[(ip, |s.log|) := now], log := s.log + [Accepted(ip, now)]), window, c)
  {
    var lo := c.now - window;
    var rows', log' := s.rows[(ip, |s.log|) := now], s.log + [Accepted(ip, now)];
    var seen, recent := InWindow(s.rows, c.ip, lo), Recent(s.log, c.ip, lo);
    assert (c.ip, |s.log|) !in recent;
    if ip == c.ip && now >= lo {
      assert InWindow(rows', c.ip, lo) == seen + {(ip, |s.log|)};
      assert Recent(log', c.ip, lo) == recent + {(ip, |s.log|)};
    } else {
      assert InWindow(rows', c.ip, lo) == seen;
      assert Recent(log', c.ip, lo) == recent;
    }
  }

  lemma InsertKeeps(limit: nat, window: int, s: State, p: nat)
    requires Inv(s, window) && Enabled(s, Insert(p))
    ensures Inv(Next(limit, window, s, Insert(p)), window)
  {
    var s' := Next(limit, window, s, Insert(p));
    var c := s.calls[p];
    forall q | q in s'.calls && !s'.calls[q].phase.Admitted? ensures SeesAllBut(s', window, s'.calls[q]) {
      assert SeesAllBut(s, window, s.calls[q]);
      InsertView(s, window, s.calls[q], c.ip, c.now);
    }
  }

  lemma CountKeeps(limit: nat, window: int, s: State, p: nat)
    requires Inv(s, window) && Enabled(s, Count(p))
    ensures Inv(Next(limit, window, s, Count(p)), window)
  {
    var s' := Next(limit, window, s, Count(p));
    assert s'.rows == s.rows && s'.log == s.log && s'.clock == s.clock;
    assert forall q :: q in s'.calls ==> q in s.calls && s'.calls[q].now == s.calls[q].now;
    forall q | q in s'.calls && !s'.calls[q].phase.Admitted? ensures SeesAllBut(s', window, s'.calls[q]) {
      assert s'.calls[q] == s.calls[q];
      SameView(s, s', window, s.calls[q], s.calls[q]);
    }
  }

  lemma StepKeepsInv(limit: nat, window: int, s: State, m: Move)
    requires Inv(s, window) && Enabled(s, m)
    ensures Inv(Next(limit, window, s, m), window)
  {
    match m
    case Begin(p, ip, now) => BeginKeeps(limit, window, s, p, ip, now);
    case Sweep(p) => SweepKeeps(limit, window, s, p);
    case Count(p) => CountKeeps(limit, window, s, p);
    case Insert(p) => InsertKeeps(limit, window, s, p);
  }

  lemma {:induction false} InvOverRuns(limit: nat, window: int, trace: seq<Move>)
    requires Legal(limit, window, trace)
    ensures Inv(Exec(limit, window, trace), window)
  {
    if trace != [] {
      var t := trace[..|trace| - 1];
      InvOverRuns(limit, window, t);
      StepKeepsInv(limit, window, Exec(limit, window, t), trace[|trace| - 1]);
    }
  }

  /** How many rows of the log that is never swept lie in the call's window. */
  ghost function Logged(s: State, window: int, p: nat): nat
    requires p in s.calls
  {
    |Recent(s.log, s.calls[p].ip, s.calls[p].now - window)|
  }

  ghost function Counted(s: State, window: int, p: nat): nat
    requires p in s.calls
  {
    |InWindow(s.rows, s.calls[p].ip, s.calls[p].now - window)|
  }

  lemma ViewSizes(s: State, window: int, p: nat)
    requires p in s.calls && SeesAllBut(s, window, s.calls[p])
    ensures Logged(s, window, p) == Counted(s, window, p) + |s.calls[p].missed|
  {
  }

  /** In every interleaving: what a call counts is what the log that is never swept holds in its
      window, less the rows that sweeps deleted from that window since the call read the clock.  So
      its decision is the log's if and only if those rows make no difference. */
  lemma {:induction false} CountIsLogLessMissed(limit: nat, window: int, trace: seq<Move>, p: nat)
    requires Legal(limit, window, trace) && Enabled(Exec(limit, window, trace), Count(p))
    ensures
      var s := Exec(limit, window, trace);
      var logged, missed := Logged(s, window, p), |s.calls[p].missed|;
      && Counted(s, window, p) == logged - missed
      && ((Passes(s, limit, window, p) <==> logged < limit) <==> logged < limit || logged - missed >= limit)
  {
    InvOverRuns(limit, window, trace);
    var s := Exec(limit, window, trace);
    assert SeesAllBut(s, window, s.calls[p]);
    ViewSizes(s, window, p);
  }

  // ---- When sweeps do not matter ----

  /** A sweep deletes from a call's window exactly its address's rows older than the sweep's own
      window, so nothing at all unless the sweeping call read a later clock. */
  lemma MissingIs(c: Pending, rows: Table, window: int, start: int)
    ensures forall k :: k in Missing(c, rows, window, start)
                        <==> k in rows && k.0 == c.ip && c.now - window <= rows[k] < start
    ensures start <= c.now - window ==> Missing(c, rows, window, start) == {}
  {
  }

  /** No sweep falls between another call's clock reading and its count with a later clock. */
  ghost predicate Timely(limit: nat, window: int, trace: seq<Move>)
    requires Legal(limit, window, trace)
  {
    trace == [] ||
    (var t, m := trace[..|trace| - 1], trace[|trace| - 1];
     Timely(limit, window, t) && (m.Sweep? ==> NoneBehind(Exec(limit, window, t), m.process)))
  }

  ghost predicate NoneBehind(s: State, q: nat)
    requires q in s.calls
  {
    forall p :: p in s.calls && !s.calls[p].phase.Admitted? ==> s.calls[q].now <= s.calls[p].now
  }

  ghost predicate NothingMissed(s: State) {
    forall p :: p in s.calls && !s.calls[p].phase.Admitted? ==> s.calls[p].missed == {}
  }

  lemma StepMissesNothing(limit: nat, window: int, s: State, m: Move)
    requires Enabled(s, m) && NothingMissed(s) && (m.Sweep? ==> NoneBehind(s, m.process))
    ensures NothingMissed(Next(limit, window, s, m))
  {
    var s' := Next(limit, window, s, m);
    if m.Sweep? {
      var start := s.calls[m.process].now - window;
      forall p | p in s'.calls && !s'.calls[p].phase.Admitted? ensures s'.calls[p].missed == {} {
        MissingIs(s.calls[p], s.rows, window, start);
        assert !s.calls[p].phase.Admitted?;
      }
    }
  }

  lemma {:induction false} TimelyMissesNothing(limit: nat, window: int, trace: seq<Move>)
    requires Legal(limit, window, trace) && Timely(limit, window, trace)
    ensures NothingMissed(Exec(limit, window, trace))
  {
    if trace != [] {
      var t := trace[..|trace| - 1];
      TimelyMissesNothing(limit, window, t);
      StepMissesNothing(limit, window, Exec(limit, window, t), trace[|trace| - 1]);
    }
  }

  /** So with timely sweeps every decision is the one the log that is never swept would make. */
  lemma {:induction false} TimelySweepsNeverMatter(limit: nat, window: int, trace: seq<Move>, p: nat)
    requires Legal(limit, window, trace) && Timely(limit, window, trace)
    requires Enabled(Exec(limit, window, trace), Count(p))
    ensures
      var s := Exec(limit, window, trace);
      Passes(s, limit, window, p) <==> Logged(s, window, p) < limit
  {
    TimelyMissesNothing(limit, window, trace);
    CountIsLogLessMissed(limit, window, trace, p);
  }

  // ---- How far the limit can be overrun ----

  /** Calls of an address under way, with a reading in [lo, hi]; and those of them past the count. */
  function Under(calls: map<nat, Pending>, ip: string, lo: int, hi: int): set<nat> {
    set p | p in calls && calls[p].ip == ip && lo <= calls[p].now <= hi
  }

  function Past(calls: map<nat, Pending>, ip: string, lo: int, hi: int): set<nat> {
    set p | p in calls && calls[p].ip == ip && lo <= calls[p].now <= hi && calls[p].phase.Admitted?
  }

  function AllUnder(calls: map<nat, Pending>, ip: string): set<nat> { set p | p in calls && calls[p].ip == ip }

  function AllPast(calls: map<nat, Pending>, ip: string): set<nat> {
    set p | p in calls && calls[p].ip == ip && calls[p].phase.Admitted?
  }

  /** At most `n` calls of the address are ever between count and insert. */
  ghost predicate Metered(limit: nat, window: int, trace: seq<Move>, ip: string, n: nat)
    requires Legal(limit, window, trace)
  {
    && |AllPast(Exec(limit, window, trace).calls, ip)| <= n
    && (trace == [] || Metered(limit, window, trace[..|trace| - 1], ip, n))
  }

  /** At most `n` calls of the address are ever between clock reading and insert. */
  ghost predicate Sparse(limit: nat, window: int, trace: seq<Move>, ip: string, n: nat)
    requires Legal(limit, window, trace)
  {
    && |AllUnder(Exec(limit, window, trace).calls, ip)| <= n
    && (trace == [] || Sparse(limit, window, trace[..|trace| - 1], ip, n))
  }

  /** Requests of the address let through at a reading in [lo, hi]: inserted or about to be. */
  ghost function Load(s: State, ip: string, lo: int, hi: int): int {
    |AcceptedBetween(s.log, ip, lo, hi)| + |Past(s.calls, ip, lo, hi)|
  }

  ghost function Total(s: State, ip: string, lo: int, hi: int): int {
    |AcceptedBetween(s.log, ip, lo, hi)| + |Under(s.calls, ip, lo, hi)|
  }

  lemma OneLessPast(calls: map<nat, Pending>, p: nat, ip: string, lo: int, hi: int)
    requires p in calls && calls[p].phase.Admitted?
    ensures |Past(calls, ip, lo, hi)| == |Past(calls - {p}, ip, lo, hi)|
                                         + if calls[p].ip == ip && lo <= calls[p].now <= hi then 1 else 0
  {
    var all, less := Past(calls, ip, lo, hi), Past(calls - {p}, ip, lo, hi);
    assert p in all <==> calls[p].ip == ip && lo <= calls[p].now <= hi;
    forall q ensures q in less <==> q in all - {p} {
      assert q in calls - {p} <==> q in calls && q != p;
    }
    assert less == all - {p};
  }

  lemma OneLessUnder(calls: map<nat, Pending>, p: nat, ip: string, lo: int, hi: int)
    requires p in calls
    ensures |Under(calls, ip, lo, hi)| == |Under(calls - {p}, ip, lo, hi)|
                                          + if calls[p].ip == ip && lo <= calls[p].now <= hi then 1 else 0
  {
    var all, less := Under(calls, ip, lo, hi), Under(calls - {p}, ip, lo, hi);
    assert p in all <==> calls[p].ip == ip && lo <= calls[p].now <= hi;
    forall q ensures q in less <==> q in all - {p} {
      assert q in calls - {p} <==> q in calls && q != p;
    }
    assert less == all - {p};
  }

  /** An insert moves a call from under way to accepted. */
  lemma InsertMoves(limit: nat, window: int, s: State, p: nat, ip: string, lo: int, hi: int)
    requires Enabled(s, Insert(p))
    ensures Load(Next(limit, window, s, Insert(p)), ip, lo, hi) == Load(s, ip, lo, hi)
    ensures Total(Next(limit, window, s, Insert(p)), ip, lo, hi) == Total(s, ip, lo, hi)
  {
    var c := s.calls[p];
    AcceptedAfterAppend(s.log, Accepted(c.ip, c.now), ip, lo, hi);
    OneLessPast(s.calls, p, ip, lo, hi);
    OneLessUnder(s.calls, p, ip, lo, hi);
  }

  lemma SweepMoves(limit: nat, window: int, s: State, p: nat, ip: string, lo: int, hi: int)
    requires Enabled(s, Sweep(p))
    ensures Past(Next(limit, window, s, Sweep(p)).calls, ip, lo, hi) == Past(s.calls, ip, lo, hi)
    ensures Under(Next(limit, window, s, Sweep(p)).calls, ip, lo, hi) == Under(s.calls, ip, lo, hi)
  {
  }

  lemma BeginMoves(limit: nat, window: int, s: State, m: Move, ip: string, lo: int, hi: int)
    requires m.Begin? && Enabled(s, m)
    ensures Past(Next(limit, window, s, m).calls, ip, lo, hi) == Past(s.calls, ip, lo, hi)
    ensures m.now > hi ==> Under(Next(limit, window, s, m).calls, ip, lo, hi) == Under(s.calls, ip, lo, hi)
  {
  }

  lemma CountMoves(limit: nat, window: int, s: State, p: nat, ip: string, lo: int, hi: int)
    requires Enabled(s, Count(p))
    ensures
      var s', c := Next(limit, window, s, Count(p)), s.calls[p];
      && Under(s'.calls, ip, lo, hi) <= Under(s.calls, ip, lo, hi)
      && (!(Passes(s, limit, window, p) && c.ip == ip && lo <= c.now <= hi) ==>
            Past(s'.calls, ip, lo, hi) == Past(s.calls, ip, lo, hi))
  {
  }

  /** A call that passes has counted everything accepted in the interval, unless it missed rows. */
  lemma PassKeepsLoad(limit: nat, window: int, s: State, p: nat, ip: string, lo: int, hi: int, n: nat)
    requires Enabled(s, Count(p)) && Passes(s, limit, window, p) && hi - lo <= window
    requires s.calls[p].ip == ip && lo <= s.calls[p].now <= hi
    requires AcceptedBetween(s.log, ip, lo, hi) <= InWindow(s.rows, ip, s.calls[p].now - window)
    requires |AllPast(Next(limit, window, s, Count(p)).calls, ip)| <= n
    ensures Load(Next(limit, window, s, Count(p)), ip, lo, hi) <= limit - 1 + n
  {
    var s' := Next(limit, window, s, Count(p));
    SubsetIsNoLarger(AcceptedBetween(s.log, ip, lo, hi), InWindow(s.rows, ip, s.calls[p].now - window));
    SubsetIsNoLarger(Past(s'.calls, ip, lo, hi), AllPast(s'.calls, ip));
  }

  lemma StepKeepsLoad(limit: nat, window: int, s: State, m: Move, ip: string, lo: int, hi: int, n: nat)
    requires Enabled(s, m) && hi - lo <= window && Load(s, ip, lo, hi) <= limit - 1 + n
    requires |AllPast(Next(limit, window, s, m).calls, ip)| <= n
    requires m.Count? && s.calls[m.process].ip == ip && lo <= s.calls[m.process].now <= hi ==>
               AcceptedBetween(s.log, ip, lo, hi) <= InWindow(s.rows, ip, s.calls[m.process].now - window)
    ensures Load(Next(limit, window, s, m), ip, lo, hi) <= limit - 1 + n
  {
    match m
    case Begin(_, _, _) => BeginMoves(limit, window, s, m, ip, lo, hi);
    case Sweep(p) => SweepMoves(limit, window, s, p, ip, lo, hi);
    case Insert(p) => InsertMoves(limit, window, s, p, ip, lo, hi);
    case Count(p) =>
      CountMoves(limit, window, s, p, ip, lo, hi);
      if Passes(s, limit, window, p) && s.calls[p].ip == ip && lo <= s.calls[p].now <= hi {
        PassKeepsLoad(limit, window, s, p, ip, lo, hi, n);
      }
  }

  /** What was accepted in an interval as short as the window, whoever counts in it and missed
      nothing counts. */
  lemma CountSeesAccepted(s: State, window: int, p: nat, lo: int, hi: int)
    requires ViewsOk(s, window) && NothingMissed(s) && Enabled(s, Count(p))
    requires s.calls[p].now <= hi && hi - lo <= window
    ensures AcceptedBetween(s.log, s.calls[p].ip, lo, hi) <= InWindow(s.rows, s.calls[p].ip, s.calls[p].now - window)
  {
    var c := s.calls[p];
    assert SeesAllBut(s, window, c);
    assert AcceptedBetween(s.log, c.ip, lo, hi) <= Recent(s.log, c.ip, c.now - window);
  }

  lemma {:induction false} TimelyLoad(limit: nat, window: int, trace: seq<Move>, ip: string, lo: int, hi: int, n: nat)
    requires Legal(limit, window, trace) && Timely(limit, window, trace) && Metered(limit, window, trace, ip, n)
    requires hi - lo <= window && limit >= 1
    ensures Load(Exec(limit, window, trace), ip, lo, hi) <= limit - 1 + n
  {
    if trace == [] {
      assert AcceptedBetween([], ip, lo, hi) == {} && Past(Start.calls, ip, lo, hi) == {};
    } else {
      var t, m := trace[..|trace| - 1], trace[|trace| - 1];
      TimelyLoad(limit, window, t, ip, lo, hi, n);
      InvOverRuns(limit, window, t);
      TimelyMissesNothing(limit, window, t);
      var s := Exec(limit, window, t);
      if m.Count? && s.calls[m.process].ip == ip && lo <= s.calls[m.process].now <= hi {
        CountSeesAccepted(s, window, m.process, lo, hi);
      }
      StepKeepsLoad(limit, window, s, m, ip, lo, hi, n);
    }
  }

  /** The limit under concurrency: with timely sweeps and at most `n` calls of the address between
      count and insert, at most limit - 1 + n requests pass in an interval as short as the window;
      so at most the limit when they come one at a time. */
  lemma {:induction false} AtMostLimitPlusRacers(limit: nat, window: int, trace: seq<Move>, ip: string,
                                                 lo: int, hi: int, n: nat)
    requires Legal(limit, window, trace) && Timely(limit, window, trace) && Metered(limit, window, trace, ip, n)
    requires hi - lo <= window && limit >= 1
    ensures |AcceptedBetween(Exec(limit, window, trace).log, ip, lo, hi)| <= limit - 1 + n
    ensures n <= 1 ==> |AcceptedBetween(Exec(limit, window, trace).log, ip, lo, hi)| <= limit
  {
    TimelyLoad(limit, window, trace, ip, lo, hi, n);
  }

  /** Until the clock has passed the interval by a window, no sweep has touched it; afterwards only
      the calls already under way can still pass in it. */
  ghost predicate Capped(s: State, limit: nat, window: int, ip: string, lo: int, hi: int, n: nat) {
    if s.clock <= lo + window then Load(s, ip, lo, hi) <= limit - 1 + n
    else Total(s, ip, lo, hi) <= limit - 1 + 2 * n
  }

  lemma EarlyStepCapped(limit: nat, window: int, s: State, m: Move, ip: string, lo: int, hi: int, n: nat)
    requires Inv(s, window) && Enabled(s, m) && hi - lo <= window && !m.Begin?
    requires s.clock <= lo + window && Load(s, ip, lo, hi) <= limit - 1 + n
    requires |AllUnder(Next(limit, window, s, m).calls, ip)| <= n
    ensures Load(Next(limit, window, s, m), ip, lo, hi) <= limit - 1 + n
  {
    var s' := Next(limit, window, s, m);
    SubsetIsNoLarger(AllPast(s'.calls, ip), AllUnder(s'.calls, ip));
    if m.Count? && s.calls[m.process].ip == ip && lo <= s.calls[m.process].now <= hi {
      forall k | k in AcceptedBetween(s.log, ip, lo, hi)
        ensures k in InWindow(s.rows, ip, s.calls[m.process].now - window)
      {
        assert (s.log[k.1].ip, k.1) in s.rows;
      }
    }
    StepKeepsLoad(limit, window, s, m, ip, lo, hi, n);
  }

  lemma LateStepCapped(limit: nat, window: int, s: State, m: Move, ip: string, lo: int, hi: int, cap: int)
    requires Enabled(s, m) && hi - lo <= window && s.clock > lo + window && Total(s, ip, lo, hi) <= cap
    ensures Total(Next(limit, window, s, m), ip, lo, hi) <= cap
  {
    match m
    case Begin(_, _, _) => BeginMoves(limit, window, s, m, ip, lo, hi);
    case Sweep(p) => SweepMoves(limit, window, s, p, ip, lo, hi);
    case Insert(p) => InsertMoves(limit, window, s, p, ip, lo, hi);
    case Count(p) =>
      CountMoves(limit, window, s, p, ip, lo, hi);
      SubsetIsNoLarger(Under(Next(limit, window, s, m).calls, ip, lo, hi), Under(s.calls, ip, lo, hi));
  }

  lemma BeginCapped(limit: nat, window: int, s: State, m: Move, ip: string, lo: int, hi: int, n: nat)
    requires m.Begin? && Enabled(s, m) && hi - lo <= window && |AllUnder(s.calls, ip)| <= n
    requires s.clock <= lo + window && Load(s, ip, lo, hi) <= limit - 1 + n
    ensures Capped(Next(limit, window, s, m), limit, window, ip, lo, hi, n)
  {
    BeginMoves(limit, window, s, m, ip, lo, hi);
    SubsetIsNoLarger(Under(s.calls, ip, lo, hi), AllUnder(s.calls, ip));
  }

  lemma {:induction false} CappedOverRuns(limit: nat, window: int, trace: seq<Move>, ip: string, lo: int, hi: int,
                                          n: nat)
    requires Legal(limit, window, trace) && Sparse(limit, window, trace, ip, n) && hi - lo <= window && limit >= 1
    ensures Capped(Exec(limit, window, trace), limit, window, ip, lo, hi, n)
  {
    if trace == [] {
      assert AcceptedBetween([], ip, lo, hi) == {} && Past(Start.calls, ip, lo, hi) == {}
            && Under(Start.calls, ip, lo, hi) == {};
    } else {
      var t, m := trace[..|trace| - 1], trace[|trace| - 1];
      CappedOverRuns(limit, window, t, ip, lo, hi, n);
      InvOverRuns(limit, window, t);
      var s := Exec(limit, window, t);
      if s.clock > lo + window {
        LateStepCapped(limit, window, s, m, ip, lo, hi, limit - 1 + 2 * n);
      } else if m.Begin? {
        BeginCapped(limit, window, s, m, ip, lo, hi, n);
      } else {
        EarlyStepCapped(limit, window, s, m, ip, lo, hi, n);
      }
    }
  }

  /** And with sweeps at any moment: with at most `n` calls of the address between clock reading and
      insert, at most limit - 1 + 2n requests pass in an interval as short as the window, in every
      run. */
  lemma {:induction false} AtMostLimitPlusTwice(limit: nat, window: int, trace: seq<Move>, ip: string,
                                                lo: int, hi: int, n: nat)
    requires Legal(limit, window, trace) && Sparse(limit, window, trace, ip, n) && hi - lo <= window && limit >= 1
    ensures |AcceptedBetween(Exec(limit, window, trace).log, ip, lo, hi)| <= limit - 1 + 2 * n
  {
    CappedOverRuns(limit, window, trace, ip, lo, hi, n);
  }
}
