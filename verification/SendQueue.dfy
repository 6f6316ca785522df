/** A client's bounded send queue together with the write loop that drains it.  Other goroutines
    offer and close; only the write loop receives.  Each action below is one atomic step. */
module SendQueue {

  /** A message: `Local` ones are written for one process only, `Tracked` ones carry the number
      their originating call was given. */
  datatype Msg = Local(text: string) | Tracked(uid: nat)

  const CAPACITY: nat := 256

  /** Where the write loop stands: waiting in its select, about to read the queue length after a
      write, in the inner drain with `left` receives to go, or returned. */
  datatype Writer =
    | Selecting
    | Measuring
    | Draining(left: nat)
    | Returned(closeFrame: bool)

  /** An offer as it was made: the message and the queue length it met. */
  datatype Offer = Offer(msg: Msg, depth: nat)

  datatype Pipe = Pipe(
    queue: seq<Msg>,
    closes: nat,          // how often the channel was closed
    offers: seq<Offer>,   // every offer ever made, accepted or dropped
    written: seq<Msg>,    // text frames written, in order
    failed: seq<Msg>,     // taken from the queue by a write that failed
    zeroReads: nat,       // receives that found the channel closed and empty inside the drain
    writer: Writer)

  const NewPipe := Pipe([], 0, [], [], [], 0, Selecting)

  predicate Closed(p: Pipe) { p.closes > 0 }

  /** The non-blocking send of the broker: dropped when the buffer is full.  Sending on a closed
      channel panics; callers test for that. */
  function Offered(p: Pipe, m: Msg): Pipe {
    var p' := p.(offers := p.offers + [Offer(m, |p.queue|)]);
    if |p.queue| < CAPACITY then p'.(queue := p.queue + [m]) else p'
  }

  function Shut(p: Pipe): Pipe { p.(closes := p.closes + 1) }

  /** The write loop's moves; `ok` says whether the write succeeded. */
  datatype Move = Take(ok: bool) | Measure | Drain(ok: bool) | Rearm | SeeClosed | Ping(ok: bool)

  predicate CanMove(p: Pipe, m: Move) {
    match m
    case Take(_) => p.writer.Selecting? && p.queue != []
    case Measure => p.writer.Measuring?
    case Drain(_) => p.writer.Draining? && p.writer.left > 0 && (p.queue != [] || Closed(p))
    case Rearm => p.writer.Draining? && p.writer.left == 0
    case SeeClosed => p.writer.Selecting? && p.queue == [] && Closed(p)
    case Ping(_) => p.writer.Selecting?
  }

  function WriteHead(p: Pipe, ok: bool, next: Writer): Pipe
    requires p.queue != []
  {
    if ok then p.(queue := p.queue[1..], written := p.written + [p.queue[0]], writer := next)
    else p.(queue := p.queue[1..], failed := [p.queue[0]], writer := Returned(false))
  }

  function Moved(p: Pipe, m: Move): Pipe
    requires CanMove(p, m)
  {
    match m
    case Take(ok) => WriteHead(p, ok, Measuring)
    case Measure => p.(writer := Draining(|p.queue|))
    case Drain(ok) =>
      if p.queue != [] then WriteHead(p, ok, Draining(p.writer.left - 1))
      else p.(zeroReads := p.zeroReads + 1, writer := if ok then Draining(p.writer.left - 1) else Returned(false))
    case Rearm => p.(writer := Selecting)
    case SeeClosed => p.(writer := Returned(true))
    case Ping(ok) => if ok then p else p.(writer := Returned(false))
  }

  /** The offers that found room. */
  function Accepted(offers: seq<Offer>): seq<Msg> {
    if offers == [] then []
    else
      var last := offers[|offers| - 1];
      Accepted(offers[..|offers| - 1]) + if last.depth < CAPACITY then [last.msg] else []
  }

  /** How often a message was offered. */
  function Times(offers: seq<Offer>, m: Msg): nat {
    if offers == [] then 0
    else Times(offers[..|offers| - 1], m) + if offers[|offers| - 1].msg == m then 1 else 0
  }

  /** The queue discipline: what was written, then a failed write, then what still waits, is
      exactly the accepted offers in order; the drain never outruns the queue. */
  ghost predicate Fifo(p: Pipe) {
    && p.written + p.failed + p.queue == Accepted(p.offers)
    && |p.queue| <= CAPACITY
    && (forall i :: 0 <= i < |p.offers| ==> p.offers[i].depth <= CAPACITY)
    && p.zeroReads == 0
    && (p.writer.Draining? ==> p.writer.left <= |p.queue|)
    && (p.failed != [] ==> p.writer == Returned(false))
    && (p.writer == Returned(true) ==> Closed(p))
  }

  datatype Action = Send(msg: Msg) | Close | Write(move: Move)

  /** What the environment and the write loop may do; nobody sends on a closed channel. */
  predicate CanAct(p: Pipe, a: Action) {
    match a
    case Send(_) => !Closed(p)
    case Close => !Closed(p)
    case Write(m) => CanMove(p, m)
  }

  function Acted(p: Pipe, a: Action): Pipe
    requires CanAct(p, a)
  {
    match a
    case Send(m) => Offered(p, m)
    case Close => Shut(p)
    case Write(m) => Moved(p, m)
  }

  lemma OfferKeepsFifo(p: Pipe, m: Msg)
    requires Fifo(p) && !Closed(p)
    ensures Fifo(Offered(p, m))
  {
  }

  lemma MoveKeepsFifo(p: Pipe, m: Move)
    requires Fifo(p) && CanMove(p, m)
    ensures Fifo(Moved(p, m))
    ensures Moved(p, m).offers == p.offers && Moved(p, m).closes == p.closes
  {
  }

  /** When the loop ends: on a failed write or ping without a close frame, on an empty closed queue with
      one; and then for good. */
  lemma LoopEnds(p: Pipe, m: Move)
    requires CanMove(p, m)
    ensures !p.writer.Returned?
    ensures Moved(p, m).writer.Returned? <==> m in {Take(false), Drain(false), Ping(false), SeeClosed}
    ensures Moved(p, m).writer == Returned(true) <==> m.SeeClosed?
    ensures m.Ping? && m.ok ==> Moved(p, m) == p
  {
  }

  /** Everything accepted before the close is on the wire before the close frame, and nothing is
      accepted after it. */
  ghost predicate Flushed(p: Pipe) {
    p.writer == Returned(true) ==> p.queue == [] && p.written == Accepted(p.offers)
  }

  lemma ActKeepsQueue(p: Pipe, a: Action)
    requires Fifo(p) && Flushed(p) && CanAct(p, a)
    ensures Fifo(Acted(p, a)) && Flushed(Acted(p, a))
  {
    match a
    case Send(m) => OfferKeepsFifo(p, m);
    case Close =>
    case Write(m) =>
      MoveKeepsFifo(p, m);
      if m.SeeClosed? {
        assert p.failed == [];
        assert p.written + [] + [] == p.written;
      }
  }

  ghost predicate Feasible(trace: seq<Action>)
    decreases |trace|, 0
  {
    trace == [] || (Feasible(trace[..|trace| - 1]) && CanAct(After(trace[..|trace| - 1]), trace[|trace| - 1]))
  }

  ghost function After(trace: seq<Action>): Pipe
    requires Feasible(trace)
    decreases |trace|, 1
  {
    if trace == [] then NewPipe else Acted(After(trace[..|trace| - 1]), trace[|trace| - 1])
  }

  /** Over every interleaving of senders, the closer and the write loop: frames are the accepted
      offers in order, only offers that met a full queue were dropped, the inner drain always
      finds a real message waiting, and a close frame is written only after every accepted
      message. */
  lemma {:induction false} WritesAreAcceptedOffers(trace: seq<Action>)
    requires Feasible(trace)
    ensures
      var p := After(trace);
      && p.written <= Accepted(p.offers)
      && (p.writer != Returned(false) ==> p.written + p.queue == Accepted(p.offers))
      && (forall i :: 0 <= i < |p.offers| && p.offers[i].depth >= CAPACITY ==> p.offers[i].depth == CAPACITY)
      && p.zeroReads == 0
      && (p.writer.Draining? && p.writer.left > 0 ==> p.queue != [])
      && (p.writer == Returned(true) ==> p.written == Accepted(p.offers))
  {
    QueueOverRuns(trace);
    FifoMeans(After(trace));
  }

  lemma FifoMeans(p: Pipe)
    requires Fifo(p)
    ensures p.written <= Accepted(p.offers)
    ensures p.writer != Returned(false) ==> p.written + p.queue == Accepted(p.offers)
  {
    assert p.written + p.failed + p.queue == p.written + (p.failed + p.queue);
    if p.failed == [] {
      assert p.written + [] + p.queue == p.written + p.queue;
    }
  }

  lemma {:induction false} QueueOverRuns(trace: seq<Action>)
    requires Feasible(trace)
    ensures Fifo(After(trace)) && Flushed(After(trace))
  {
    if trace != [] {
      var p := trace[..|trace| - 1];
      QueueOverRuns(p);
      ActKeepsQueue(After(p), trace[|trace| - 1]);
    }
  }
}
