/**
 What each outcome of the worker's select achieves, for every schedule: a tick and a flush
 request hand everything on, a receive takes the first row of its channel.
 */
module WorkerLaws {
  import opened Prelude
  import opened BatchStreams
  import opened BatchSafety
  import opened BatchTheorems
  import opened BatchWriter

  /** The table's stream after a schedule. */
  function After<T>(p: Progress<T>, schedule: seq<Select<T>>, u: Setup, t: Table): Stream<T> {
    Get(Steps(p, schedule, u).streams, t)
  }

  lemma StepsSnoc<T>(p: Progress<T>, schedule: seq<Select<T>>, e: Select<T>, u: Setup)
    ensures Steps(p, schedule + [e], u) == SelectStep(Steps(p, schedule, u), e, u)
  {
    assert (schedule + [e])[..|schedule|] == schedule;
  }

  /** All rows that the worker has taken from the channel. */
  function Taken<T>(x: Stream<T>): seq<T> { x.delivered + x.pending }

  /** Everything taken has been delivered, or the last insert failed on exactly what is pending. */
  predicate HandedOn<T(==)>(x: Stream<T>) { x.pending == [] || x.failed == Some(x.pending) }

  /** Producers act: the worker's side of a table stays, its queue grows. */
  lemma {:induction false} OffersKeepTaken<T>(s: Streams<T>, arrivals: seq<Arrival<T>>, t: Table)
    ensures var x, y := Get(s, t), Get(OfferedBy(s, arrivals), t);
            && y.delivered == x.delivered && y.pending == x.pending && y.failed == x.failed
            && x.chan <= y.chan && x.accepted <= y.accepted
    decreases |arrivals|
  {
    if arrivals != [] { OffersKeepTaken(s, arrivals[..|arrivals| - 1], t); }
  }

  lemma ArriveKeepsTaken<T>(p: Progress<T>, t: Table)
    ensures var x, y := Get(p.streams, t), Get(Arrive(p).streams, t);
            && y.delivered == x.delivered && y.pending == x.pending && y.failed == x.failed
            && x.chan <= y.chan && x.accepted <= y.accepted
  {
    if p.busy != [] { OffersKeepTaken(p.streams, p.busy[0], t); }
  }

  ghost predicate AlwaysSucceeds(u: Setup) { forall n: nat :: u.outcomes(n) }

  /** One insert: its own table is handed on, other tables stay handed on; nothing is taken or dropped. */
  lemma InsertHandsOn<T>(p: Progress<T>, t: Table, u: Setup, v: Table)
    requires u.hasSink
    ensures var x, y := Get(p.streams, v), Get(InsertStep(p, t, u).streams, v);
            && Taken(y) == Taken(x) && x.chan <= y.chan && x.accepted <= y.accepted
            && (v == t || HandedOn(x) ==> HandedOn(y))
            && (AlwaysSucceeds(u) && (v == t || x.pending == []) ==> y.pending == [])
  {
    ArriveKeepsTaken(p, v);
    PutElsewhere(Arrive(p).streams, t, Inserted(Get(Arrive(p).streams, t), true, u.outcomes(p.turn)), v);
  }

  lemma FlushHandsOn<T>(p: Progress<T>, u: Setup, v: Table)
    requires u.hasSink
    ensures var x, y := Get(p.streams, v), Get(FlushStep(p, u).streams, v);
            && Taken(y) == Taken(x) && x.chan <= y.chan && x.accepted <= y.accepted && HandedOn(y)
            && (AlwaysSucceeds(u) ==> y.pending == [])
  {
    var q := InsertStep(p, RVMs, u);
    InsertHandsOn(p, RVMs, u, v);
    InsertHandsOn(q, Events, u, v);
    InsertHandsOn(InsertStep(q, Events, u), Bins, u, v);
  }

  /** A drain takes all that was queued, in order, and what came meanwhile. */
  lemma {:induction false} TakeAllTakes<T>(p: Progress<T>, t: Table, v: Table)
    ensures var x, y := Get(p.streams, v), Get(TakeAll(p, t).streams, v);
            && Taken(x) <= Taken(y) && Taken(x) + x.chan <= Taken(y) + y.chan && x.accepted <= y.accepted
            && (v == t ==> y.chan == [])
    decreases |p.busy|, |Get(p.streams, t).chan|
  {
    if Get(p.streams, t).chan != [] {
      OneTaken(p, t, v);
      ArriveKeepsTaken(TakeOne(p, t), v);
      TakeAllTakes(Arrive(TakeOne(p, t)), t, v);
    }
  }

  lemma OneTaken<T>(p: Progress<T>, t: Table, v: Table)
    requires Get(p.streams, t).chan != []
    ensures var x, y := Get(p.streams, v), Get(TakeOne(p, t).streams, v);
            && y.delivered == x.delivered && y.accepted == x.accepted && y.failed == x.failed
            && (v == t ==> Taken(y) == Taken(x) + [x.chan[0]] && y.chan == x.chan[1..])
            && (v != t ==> y == x)
            && Taken(x) + x.chan == Taken(y) + y.chan
  {
    var x := Get(p.streams, t);
    assert x.delivered + (x.pending + [x.chan[0]]) == x.delivered + x.pending + [x.chan[0]];
    assert x.delivered + x.pending + x.chan == x.delivered + x.pending + [x.chan[0]] + x.chan[1..];
  }

  lemma DrainTableTakes<T>(p: Progress<T>, t: Table, v: Table)
    ensures var x, y := Get(p.streams, v), Get(DrainTable(p, t).streams, v);
            && Taken(x) + x.chan <= Taken(y) + y.chan && Taken(x) <= Taken(y) && x.accepted <= y.accepted
            && (v == t ==> Taken(x) + x.chan <= Taken(y))
  {
    ArriveKeepsTaken(p, v);
    TakeAllTakes(Arrive(p), t, v);
  }

  lemma DrainTakes<T>(p: Progress<T>, v: Table)
    ensures var x, y := Get(p.streams, v), Get(DrainStep(p).streams, v);
            Taken(x) + x.chan <= Taken(y) && x.accepted <= y.accepted
  {
    var q := DrainTable(p, RVMs);
    DrainTableTakes(p, RVMs, v);
    DrainTableTakes(q, Events, v);
    DrainTableTakes(DrainTable(q, Events), Bins, v);
  }

  lemma DrainFlushHandsOn<T>(p: Progress<T>, u: Setup, v: Table)
    requires u.hasSink
    ensures var x, y := Get(p.streams, v), Get(DrainFlushStep(p, u).streams, v);
            && Taken(x) + x.chan <= Taken(y) && HandedOn(y)
            && (AlwaysSucceeds(u) ==> y.pending == [] && Taken(x) + x.chan <= y.delivered)
  {
    DrainTakes(p, v);
    FlushHandsOn(DrainStep(p), u, v);
    var y := Get(DrainFlushStep(p, u).streams, v);
    if AlwaysSucceeds(u) { assert y.delivered + [] == y.delivered; }
  }

  /** A receive on a channel that has rows. */
  lemma ReceiveStepTakes<T>(p: Progress<T>, t: Table, u: Setup, v: Table)
    requires u.hasSink && Get(p.streams, t).chan != []
    ensures var x, y := Get(p.streams, v), Get(ReceiveStep(p, t, u).streams, v);
            var full := |Get(p.streams, t).pending| + 1 >= u.batchSize;
            && (v == t ==> Taken(y) == Taken(x) + [x.chan[0]] && x.chan[1..] <= y.chan)
            && (full ==> HandedOn(y))
            && (!full && v != t ==> y == x)
            && (!full && v == t ==> y.pending == x.pending + [x.chan[0]] && y.chan == x.chan[1..])
  {
    OneTaken(p, t, v);
    FlushHandsOn(TakeOne(p, t), u, v);
    assert |Get(TakeOne(p, t).streams, t).pending| == |Get(p.streams, t).pending| + 1;
  }

  // ---- Main results ----------------------------------------------------------------------

  /**
   A tick hands everything on: for every table and after any schedule, the rows taken are the
   same and have been delivered, except that a failed insert leaves its batch pending. If
   inserts succeed, everything received before the tick is delivered.
   */
  lemma TickHandsOn<T>(p: Progress<T>, schedule: seq<Select<T>>, u: Setup, t: Table)
    requires u.hasSink
    ensures var before, x := After(p, schedule, u, t), After(p, schedule + [Ticker], u, t);
            && before.delivered + before.pending == x.delivered + x.pending
            && (x.pending == [] || x.failed == Some(x.pending))
            && (AlwaysSucceeds(u) ==> x.pending == [] && x.delivered == before.delivered + before.pending)
  {
    var q := Steps(p, schedule, u);
    StepsSnoc(p, schedule, Ticker, u);
    assert Steps(p, schedule + [Ticker], u) == FlushStep(q, u);
    FlushHandsOn(q, u, t);
    var x := Get(FlushStep(q, u).streams, t);
    if AlwaysSucceeds(u) { assert x.delivered + [] == x.delivered; }
  }

  /**
   A flush request or a stop hands on all that was taken or queued: those rows come first, in
   order, among the rows that have then been taken. If inserts succeed they are delivered.
   */
  lemma RequestHandsOn<T>(p: Progress<T>, schedule: seq<Select<T>>, e: Select<T>, u: Setup, t: Table)
    requires u.hasSink && (e.FlushRequest? || e.StopClosed?)
    ensures var before, x := After(p, schedule, u, t), After(p, schedule + [e], u, t);
            && before.delivered + before.pending + before.chan <= x.delivered + x.pending
            && (x.pending == [] || x.failed == Some(x.pending))
            && (AlwaysSucceeds(u) ==>
                  x.pending == [] && before.delivered + before.pending + before.chan <= x.delivered)
  {
    var q := Steps(p, schedule, u);
    StepsSnoc(p, schedule, e, u);
    assert Steps(p, schedule + [e], u) == DrainFlushStep(q, u);
    DrainFlushHandsOn(q, u, t);
  }

  /** Started on an empty buffer, all that was accepted is handed on then. */
  lemma AcceptedIsHandedOn<T>(b: Buffer<T>, busy: seq<seq<Arrival<T>>>, schedule: seq<Select<T>>, e: Select<T>,
                              u: Setup, t: Table)
    requires Init(b) && u.hasSink == b.hasSink && u.batchSize == b.batchSize && u.hasSink
    requires (e.FlushRequest? || e.StopClosed?) && forall i | 0 <= i < |schedule| :: !schedule[i].StopClosed?
    ensures var p := Progress(b.streams, 0, busy);
            var before, x := After(p, schedule, u, t), After(p, schedule + [e], u, t);
            && before.accepted <= x.delivered + x.pending
            && (AlwaysSucceeds(u) ==> before.accepted <= x.delivered)
  {
    WorkerKeepsRows(b, schedule, busy, u, t);
    RequestHandsOn(Progress(b.streams, 0, busy), schedule, e, u, t);
  }

  /** The outcome in which the channel of a table is ready. */
  function Ready<T>(t: Table): Select<T> {
    match t case RVMs => RvmReady case Events => EventReady case Bins => BinReady
  }

  /**
   A receive takes exactly the first row of its channel. Below the batch size nothing else
   happens; at the batch size every table is handed on.
   */
  lemma ReceiveTakesFirst<T>(p: Progress<T>, schedule: seq<Select<T>>, u: Setup, t: Table, v: Table)
    requires u.hasSink && After(p, schedule, u, t).chan != []
    ensures var before, x := After(p, schedule, u, t), After(p, schedule + [Ready(t)], u, t);
            && x.delivered + x.pending == before.delivered + before.pending + [before.chan[0]]
            && before.chan[1..] <= x.chan
    ensures var full := |After(p, schedule, u, t).pending| + 1 >= u.batchSize;
            var other, y := After(p, schedule, u, v), After(p, schedule + [Ready(t)], u, v);
            && (full ==> y.pending == [] || y.failed == Some(y.pending))
            && (!full && v != t ==> y == other)
            && (!full && v == t ==> y.pending == other.pending + [other.chan[0]] && y.chan == other.chan[1..])
  {
    var q := Steps(p, schedule, u);
    StepsSnoc(p, schedule, Ready(t), u);
    assert Steps(p, schedule + [Ready(t)], u) == ReceiveStep(q, t, u);
    ReceiveStepTakes(q, t, u, t);
    ReceiveStepTakes(q, t, u, v);
  }

  /** An offer joins its channel if that holds less than 5000 rows, 10000 for bins, and is dropped otherwise. */
  lemma OfferJoinsQueue<T>(p: Progress<T>, schedule: seq<Select<T>>, t: Table, row: T, u: Setup, v: Table)
    ensures var before, x := After(p, schedule, u, v), After(p, schedule + [Producer(t, row)], u, v);
            if v != t then x == before
            else if |before.chan| < (if t.Bins? then 10000 else 5000) then
              x == before.(chan := before.chan + [row], accepted := before.accepted + [row])
            else x == before.(refused := before.refused + [row])
  {
    StepsSnoc(p, schedule, Producer(t, row), u);
    PutElsewhere(Steps(p, schedule, u).streams, t, Offered(After(p, schedule, u, t), Capacity(t), row), v);
  }

  /** How many of the tables before `t`, in the order of the inserts, have something to insert. */
  function InsertsBefore<T>(s: Streams<T>, t: Table): nat {
    match t
    case RVMs => 0
    case Events => if s.rvms.pending != [] then 1 else 0
    case Bins => (if s.rvms.pending != [] then 1 else 0) + if s.events.pending != [] then 1 else 0
  }

  /**
   The inserts of a tick go by table: machines, events, bins, each table once if it has
   rows. A table is delivered exactly if its own insert succeeds, whatever the others do.
   */
  lemma InsertsInOrder<T>(p: Progress<T>, schedule: seq<Select<T>>, u: Setup, t: Table)
    requires u.hasSink && Steps(p, schedule, u).busy == []
    ensures var q, y := Steps(p, schedule, u), After(p, schedule + [Ticker], u, t);
            var x := After(p, schedule, u, t);
            var ok := u.outcomes(q.turn + InsertsBefore(q.streams, t));
            && (x.pending != [] && ok ==> y.delivered == x.delivered + x.pending && y.pending == [])
            && (x.pending != [] && !ok ==> y == x.(failed := Some(x.pending)))
            && (x.pending == [] ==> y == x)
  {
    StepsSnoc(p, schedule, Ticker, u);
    assert Steps(p, schedule + [Ticker], u) == FlushStep(Steps(p, schedule, u), u);
  }

  /** Without a sink a tick discards what is pending. */
  lemma WithoutSinkDiscarded<T>(p: Progress<T>, schedule: seq<Select<T>>, u: Setup, t: Table)
    requires !u.hasSink
    ensures After(p, schedule + [Ticker], u, t).pending == []
    ensures After(p, schedule + [Ticker], u, t).delivered == After(p, schedule, u, t).delivered
  {
    StepsSnoc(p, schedule, Ticker, u);
    var q := Steps(p, schedule, u);
    var q1 := InsertStep(q, RVMs, u);
    DiscardStep(q, RVMs, u, t);
    DiscardStep(q1, Events, u, t);
    DiscardStep(InsertStep(q1, Events, u), Bins, u, t);
  }

  lemma DiscardStep<T>(p: Progress<T>, t: Table, u: Setup, v: Table)
    requires !u.hasSink
    ensures var x, y := Get(p.streams, v), Get(InsertStep(p, t, u).streams, v);
            y.delivered == x.delivered && y.pending == if v == t then [] else x.pending
  {
    ArriveKeepsTaken(p, v);
  }
}
