/** What the batch buffer guarantees in every run. */
module BatchTheorems {
  import opened Prelude
  import opened BatchStreams
  import opened BatchSafety

  /** What an acknowledged flush promised still holds. */
  ghost predicate AckInv<T>(b: Buffer<T>) {
    forall i, t: Table | 0 <= i < |b.requests| && b.requests[i].acked ::
      var x, mark := Get(b.streams, t), MarkOf(b.requests[i].marks, t);
      mark <= |x.delivered| + |x.pending| && (OkOf(b.requests[i], t) ==> mark <= |x.delivered|)
  }

  ghost predicate Inv<T>(b: Buffer<T>) {
    && StreamsInv(b) && DisciplineInv(b) && ControlInv(b) && MarksInv(b) && GoalInv(b)
    && (b.hasSink ==> AckInv(b))
    && forall t: Table :: |Get(b.streams, t).chan| <= Capacity(t)
  }

  /** Rows that have been taken from the channel stay taken, delivered rows stay delivered. */
  lemma TakenStaysTaken<T>(b: Buffer<T>, e: Event<T>, t: Table)
    requires b.hasSink && Enabled(b, e)
    ensures var x, y := Get(b.streams, t), Get(Apply(b, e).streams, t);
            |x.delivered| <= |y.delivered| && |x.delivered| + |x.pending| <= |y.delivered| + |y.pending|
  {
  }

  lemma AckStep<T>(b: Buffer<T>, e: Event<T>)
    requires Inv(b) && b.hasSink && Enabled(b, e)
    ensures AckInv(Apply(b, e))
  {
    var c := Apply(b, e);
    forall i, t: Table | 0 <= i < |c.requests| && c.requests[i].acked
      ensures var x, mark := Get(c.streams, t), MarkOf(c.requests[i].marks, t);
              mark <= |x.delivered| + |x.pending| && (OkOf(c.requests[i], t) ==> mark <= |x.delivered|)
    {
      TakenStaysTaken(b, e, t);
      if i < |b.requests| && !b.requests[i].acked {
        NewlyAcked(b, e, i, t);
      }
    }
  }

  /** The worker acknowledges a request only once its rows have been through an insert. */
  lemma NewlyAcked<T>(b: Buffer<T>, e: Event<T>, i: nat, t: Table)
    requires Inv(b) && b.hasSink && Enabled(b, e) && i < |b.requests| && !b.requests[i].acked
    requires Apply(b, e).requests[i].acked
    ensures var c := Apply(b, e);
            var x, mark := Get(c.streams, t), MarkOf(c.requests[i].marks, t);
            && mark <= |x.delivered| + |x.pending| && (OkOf(c.requests[i], t) ==> mark <= |x.delivered|)
            && (OkOf(c.requests[i], t) <==> x.pending == [])
            && (!OkOf(c.requests[i], t) ==> x.failed == Some(x.pending))
  {
    var c, m := Apply(b, e), b.requests[i].marks;
    assert e.Insert? && b.phase == Flushing(Bins, Ack(i)) && Goal(b) == Some(m);
    DrainedStays(b, e, t, MarkOf(m, t));
    StreamsStep(b, e);
    assert StreamInv(Get(c.streams, t), c.hasSink);
    DisciplineInsert(b, e.ok);
  }

  lemma InvStep<T>(b: Buffer<T>, e: Event<T>)
    requires Inv(b) && Enabled(b, e)
    ensures Inv(Apply(b, e))
  {
    StreamsStep(b, e);
    DisciplineStep(b, e);
    ControlStep(b, e);
    MarksStep(b, e);
    GoalStep(b, e);
    if b.hasSink { AckStep(b, e); }
    ChannelsStayBounded(b, e);
  }

  lemma ChannelsStayBounded<T>(b: Buffer<T>, e: Event<T>)
    requires Enabled(b, e) && forall t: Table :: |Get(b.streams, t).chan| <= Capacity(t)
    ensures forall t: Table :: |Get(Apply(b, e).streams, t).chan| <= Capacity(t)
  {
    forall t: Table ensures |Get(Apply(b, e).streams, t).chan| <= Capacity(t) {
      assert |Get(b.streams, t).chan| <= Capacity(t);
    }
  }

  lemma InitialInv<T>(b: Buffer<T>)
    requires Init(b)
    ensures Inv(b)
  {
  }

  lemma {:induction false} InvRun<T>(b: Buffer<T>, es: seq<Event<T>>, c: Buffer<T>)
    requires Inv(b) && Reaches(b, es, c)
    ensures Inv(c) && c.hasSink == b.hasSink
    decreases |es|
  {
    if es != [] {
      InvStep(b, es[0]);
      InvRun(Apply(b, es[0]), es[1..], c);
    }
  }

  // ---- Main results ----------------------------------------------------------------------

  /**
   Conservation and order: whatever the interleaving and whichever inserts fail, each table's
   accepted rows are, in order and once each, the delivered ones, then the pending ones, then
   those in the channel.
   */
  lemma NothingLostOrReordered<T>(b0: Buffer<T>, es: seq<Event<T>>, b: Buffer<T>, t: Table)
    requires Init(b0) && Reaches(b0, es, b) && b.hasSink
    ensures var x := Get(b.streams, t); x.accepted == x.delivered + x.pending + x.chan && |x.chan| <= Capacity(t)
  {
    InitialInv(b0);
    InvRun(b0, es, b);
    assert StreamInv(Get(b.streams, t), b.hasSink);
  }

  /** An offer is refused exactly when the channel is full, and touches nothing else. */
  lemma OfferRefusedIffFull<T>(b0: Buffer<T>, es: seq<Event<T>>, b: Buffer<T>, t: Table, row: T)
    requires Init(b0) && Reaches(b0, es, b)
    ensures var x, y := Get(b.streams, t), Get(Apply(b, Offer(t, row)).streams, t);
            var room := if t.Bins? then 10_000 else 5_000;
            && (y.refused == x.refused + [row] <==> |x.chan| == room)
            && (y.accepted == x.accepted + [row] <==> |x.chan| < room)
            && y.delivered == x.delivered && y.pending == x.pending
  {
    InitialInv(b0);
    InvRun(b0, es, b);
    assert |Get(b.streams, t).chan| <= Capacity(t);
  }

  /**
   An insert, in every reachable state: a successful one delivers exactly what is pending, a
   failed one leaves it pending, and the worker goes on to the next table.
   */
  lemma InsertDelivers<T>(b0: Buffer<T>, es: seq<Event<T>>, b: Buffer<T>, ok: bool)
    requires Init(b0) && Reaches(b0, es, b) && b.hasSink && b.phase.Flushing? && Enabled(b, Insert(ok))
    ensures var x, c := Get(b.streams, b.phase.table), Apply(b, Insert(ok));
            var y := Get(c.streams, b.phase.table);
            && (ok ==> y.pending == [] && y.delivered == x.delivered + x.pending)
            && (!ok ==> y.pending == x.pending && y.delivered == x.delivered)
            && (b.phase.table.RVMs? ==> c.phase == Flushing(Events, b.phase.why))
            && (b.phase.table.Events? ==> c.phase == Flushing(Bins, b.phase.why))
            && (b.phase.table.Bins? ==> !Busy(c))
  {
    assert Get(b.streams, b.phase.table).pending == [] ==>
        Get(b.streams, b.phase.table).delivered + [] == Get(b.streams, b.phase.table).delivered;
  }

  /** What starts a flush of all tables: a tick, and a receive that fills a batch. */
  lemma FlushStartsIff<T>(b: Buffer<T>, e: Event<T>)
    requires Enabled(b, e) && b.phase.Loop?
    ensures Apply(b, e).phase.Flushing? <==>
              e.TickFires? || (e.Receive? && |Get(b.streams, e.table).pending| + 1 >= b.batchSize)
    ensures Apply(b, e).phase.Flushing? ==> Apply(b, e).phase.table.RVMs?
  {
  }

  /**
   Batch discipline: at the loop head a slice is as long as a batch only if its latest insert
   failed; a failed batch is the start of the next one tried; and the outcome of one table's
   insert leaves the other tables' rows alone.
   */
  lemma BatchDiscipline<T>(b0: Buffer<T>, es: seq<Event<T>>, b: Buffer<T>, t: Table)
    requires Init(b0) && Reaches(b0, es, b)
    ensures var x := Get(b.streams, t);
            && (b.phase.Loop? && |x.pending| >= b.batchSize ==> x.failed.Some?)
            && (x.failed.Some? ==> x.failed.value <= x.pending)
            && (b.phase.Flushing? && b.phase.table != t && Enabled(b, Insert(true)) ==>
                  Get(Apply(b, Insert(true)).streams, t) == x == Get(Apply(b, Insert(false)).streams, t))
  {
    InitialInv(b0);
    InvRun(b0, es, b);
    assert StreamInv(Get(b.streams, t), b.hasSink);
  }

  /**
   Flush completeness: once a flush is acknowledged, the rows accepted before it was called
   are delivered, in order, for every table whose final insert succeeded, and otherwise still
   delivered or pending in order.
   */
  lemma FlushComplete<T>(b0: Buffer<T>, es: seq<Event<T>>, b: Buffer<T>, i: nat, t: Table)
    requires Init(b0) && Reaches(b0, es, b) && b.hasSink && i < |b.requests| && b.requests[i].acked
    ensures var x, mark := Get(b.streams, t), MarkOf(b.requests[i].marks, t);
            && mark <= |x.accepted| && mark <= |x.delivered| + |x.pending|
            && x.accepted[..mark] == (x.delivered + x.pending)[..mark]
            && (OkOf(b.requests[i], t) ==> mark <= |x.delivered| && x.accepted[..mark] == x.delivered[..mark])
  {
    InitialInv(b0);
    InvRun(b0, es, b);
    assert StreamInv(Get(b.streams, t), b.hasSink);
  }

  /** At the moment of the acknowledgement a table counts as successful exactly when nothing is left pending. */
  lemma AcknowledgedOutcome<T>(b0: Buffer<T>, es: seq<Event<T>>, b: Buffer<T>, e: Event<T>, i: nat, t: Table)
    requires Init(b0) && Reaches(b0, es, b) && b.hasSink && Enabled(b, e)
    requires i < |b.requests| && !b.requests[i].acked && Apply(b, e).requests[i].acked
    ensures var x := Get(Apply(b, e).streams, t);
            && (OkOf(Apply(b, e).requests[i], t) <==> x.pending == [])
            && (!OkOf(Apply(b, e).requests[i], t) ==> x.failed == Some(x.pending))
  {
    InitialInv(b0);
    InvRun(b0, es, b);
    NewlyAcked(b, e, i, t);
  }

  /** Stop completeness: when the worker has exited, the same holds for the rows accepted before Stop was called. */
  lemma StopComplete<T>(b0: Buffer<T>, es: seq<Event<T>>, b: Buffer<T>, t: Table)
    requires Init(b0) && Reaches(b0, es, b) && b.hasSink && b.phase.Exited?
    ensures b.halt.Some?
    ensures var x, mark := Get(b.streams, t), MarkOf(b.halt.value, t);
            && mark <= |x.accepted| && mark <= |x.delivered| + |x.pending|
            && x.accepted[..mark] == (x.delivered + x.pending)[..mark]
            && (x.pending == [] ==> x.accepted[..mark] == x.delivered[..mark])
            && (x.pending != [] ==> x.failed == Some(x.pending))
  {
    InitialInv(b0);
    InvRun(b0, es, b);
    assert StreamInv(Get(b.streams, t), b.hasSink);
    assert Drained(Get(b.streams, t), MarkOf(Goal(b).value, t));
    assert Flushed(Get(b.streams, t));
  }

  /** For a stop the worker has drained this table for the last time. */
  predicate LastDrained<T>(b: Buffer<T>, t: Table) {
    || b.phase.Exited?
    || (b.phase.Flushing? && b.phase.why.Halt?)
    || (b.phase.Draining? && b.phase.why.Halt? && Rank(t) < Rank(b.phase.table))
  }

  lemma LastDrainedStep<T>(b: Buffer<T>, e: Event<T>, t: Table)
    requires LastDrained(b, t) && Enabled(b, e) && b.hasSink
    ensures var x, y := Get(b.streams, t), Get(Apply(b, e).streams, t);
            && LastDrained(Apply(b, e), t)
            && y.delivered + y.pending == x.delivered + x.pending && x.chan <= y.chan
            && (b.phase.Exited? ==> Apply(b, e).phase.Exited? && y.delivered == x.delivered)
  {
  }

  /**
   Nothing leaves a table's channel once it has been drained for a stop: the rows delivered
   or pending stay the same ones, and rows offered from then on stay in the channel. Once the
   worker has exited, nothing more is delivered either.
   */
  lemma {:induction false} ExitIsFinal<T>(b: Buffer<T>, es: seq<Event<T>>, c: Buffer<T>, t: Table)
    requires LastDrained(b, t) && Reaches(b, es, c) && b.hasSink
    ensures LastDrained(c, t) && Get(c.streams, t).delivered + Get(c.streams, t).pending ==
            Get(b.streams, t).delivered + Get(b.streams, t).pending
    ensures Get(b.streams, t).chan <= Get(c.streams, t).chan
    ensures b.phase.Exited? ==> c.phase.Exited? && Get(c.streams, t).delivered == Get(b.streams, t).delivered
    decreases |es|
  {
    if es != [] {
      LastDrainedStep(b, es[0], t);
      ExitIsFinal(Apply(b, es[0]), es[1..], c, t);
    }
  }

  /**
   Which accepted rows the worker ever takes: in every state `c` after a table's last drain,
   exactly those accepted before that drain ended, in state `b`; all others are queued.
   */
  lemma TakenIffBeforeLastDrain<T>(b0: Buffer<T>, es: seq<Event<T>>, b: Buffer<T>, fs: seq<Event<T>>, c: Buffer<T>)
    requires Init(b0) && Reaches(b0, es, b) && b.hasSink && b.phase.Draining? && b.phase.why.Halt?
    requires Enabled(b, DrainNext) && Reaches(Apply(b, DrainNext), fs, c)
    ensures var x, y := Get(b.streams, b.phase.table), Get(c.streams, b.phase.table);
            y.delivered + y.pending == x.accepted && y.accepted == x.accepted + y.chan
  {
    var t, e: Event<T> := b.phase.table, DrainNext;
    OneEvent(b, e);
    RunThen(b0, es, b, [e], Apply(b, e));
    RunThen(b0, es + [e], Apply(b, e), fs, c);
    InitialInv(b0);
    InvRun(b0, es, b);
    InvRun(b0, es + [e] + fs, c);
    NothingLostOrReordered(b0, es, b, t);
    NothingLostOrReordered(b0, es + [e] + fs, c, t);
    ExitIsFinal(Apply(b, e), fs, c, t);
  }

  /** A row offered while a stop drains the next table is accepted and never delivered, whatever follows. */
  lemma OfferDuringStopIsLost<T>(b0: Buffer<T>, row: T) returns (es: seq<Event<T>>, b: Buffer<T>)
    requires Init(b0) && b0.hasSink
    ensures Reaches(b0, es, b) && b.streams.rvms.accepted == b.streams.rvms.chan == [row]
    ensures forall fs, c | Reaches(b, fs, c) ::
              c.streams.rvms.delivered == c.streams.rvms.pending == [] && row in c.streams.rvms.chan
  {
    var e1: Event<T>, e2: Event<T>, e3: Event<T>, e4 := CallStop, SeeStop, DrainNext, Offer(RVMs, row);
    var b1 := Apply(b0, e1);
    var b2 := Apply(b1, e2);
    var b3 := Apply(b2, e3);
    b := Apply(b3, e4);
    es := [e1] + [e2] + [e3] + [e4];
    OneEvent(b0, e1);
    OneEvent(b1, e2);
    OneEvent(b2, e3);
    OneEvent(b3, e4);
    RunThen(b0, [e1], b1, [e2], b2);
    RunThen(b0, [e1] + [e2], b2, [e3], b3);
    RunThen(b0, [e1] + [e2] + [e3], b3, [e4], b);
    forall fs, c | Reaches(b, fs, c)
      ensures c.streams.rvms.delivered == c.streams.rvms.pending == [] && row in c.streams.rvms.chan
    {
      ExitIsFinal(b, fs, c, RVMs);
      assert Get(c.streams, RVMs).delivered + Get(c.streams, RVMs).pending == [];
      assert row == b.streams.rvms.chan[0] == c.streams.rvms.chan[0];
    }
  }

  // ---- Tables do not affect each other ---------------------------------------------------

  /** What happens to one table's channel: a row is offered, or the worker takes one. */
  datatype Move<T> = In(row: T) | Taken

  function MovesOf<T>(b: Buffer<T>, e: Event<T>, t: Table): seq<Move<T>> {
    if e.Offer? && e.table == t then [In(e.row)]
    else if (e.Receive? && e.table == t) || (e.DrainOne? && b.phase.Draining? && b.phase.table == t) then [Taken]
    else []
  }

  /** The moves of a run at one table. */
  function Traffic<T>(b: Buffer<T>, es: seq<Event<T>>, t: Table): seq<Move<T>>
    decreases |es|
  {
    if es == [] || !Enabled(b, es[0]) then []
    else MovesOf(b, es[0], t) + Traffic(Apply(b, es[0]), es[1..], t)
  }

  /** A table's rows without the distinction that inserts make: taken, queued and refused. */
  datatype Queue<T> = Queue(taken: seq<T>, chan: seq<T>, accepted: seq<T>, refused: seq<T>)

  function QueueOf<T>(x: Stream<T>): Queue<T> { Queue(x.delivered + x.pending, x.chan, x.accepted, x.refused) }

  function PlayOne<T>(q: Queue<T>, cap: nat, m: Move<T>): Queue<T> {
    match m
    case In(row) =>
      if |q.chan| < cap then q.(chan := q.chan + [row], accepted := q.accepted + [row])
      else q.(refused := q.refused + [row])
    case Taken => if q.chan == [] then q else q.(taken := q.taken + [q.chan[0]], chan := q.chan[1..])
  }

  function Play<T>(q: Queue<T>, cap: nat, moves: seq<Move<T>>): Queue<T>
    decreases |moves|
  {
    if moves == [] then q else Play(PlayOne(q, cap, moves[0]), cap, moves[1..])
  }

  lemma {:induction false} PlayConcat<T>(q: Queue<T>, cap: nat, a: seq<Move<T>>, b: seq<Move<T>>)
    ensures Play(q, cap, a + b) == Play(Play(q, cap, a), cap, b)
    decreases |a|
  {
    if a == [] {
      assert a + b == b;
    } else {
      assert (a + b)[1..] == a[1..] + b;
      PlayConcat(PlayOne(q, cap, a[0]), cap, a[1..], b);
    }
  }

  lemma PlayStep<T>(b: Buffer<T>, e: Event<T>, t: Table)
    requires Enabled(b, e) && b.hasSink
    ensures QueueOf(Get(Apply(b, e).streams, t)) == Play(QueueOf(Get(b.streams, t)), Capacity(t), MovesOf(b, e, t))
  {
    var x, y, ms := Get(b.streams, t), Get(Apply(b, e).streams, t), MovesOf(b, e, t);
    if ms != [] {
      assert ms[1..] == [];
      if ms[0].Taken? { assert x.delivered + (x.pending + [x.chan[0]]) == x.delivered + x.pending + [x.chan[0]]; }
    } else {
      assert y.delivered + y.pending == x.delivered + x.pending;
    }
  }

  lemma {:induction false} RunIsPlayed<T>(b: Buffer<T>, es: seq<Event<T>>, c: Buffer<T>, t: Table)
    requires Reaches(b, es, c) && b.hasSink
    ensures QueueOf(Get(c.streams, t)) == Play(QueueOf(Get(b.streams, t)), Capacity(t), Traffic(b, es, t))
    decreases |es|
  {
    if es != [] {
      var b1 := Apply(b, es[0]);
      assert Reaches(b1, es[1..], c);
      PlayStep(b, es[0], t);
      RunIsPlayed(b1, es[1..], c, t);
      PlayConcat(QueueOf(Get(b.streams, t)), Capacity(t), MovesOf(b, es[0], t), Traffic(b1, es[1..], t));
    }
  }

  /**
   Independence of the tables over whole runs: in two runs with the same offers to and takes
   from a table, whatever happens to the other tables and whichever inserts fail, the same
   rows of it have been delivered or are pending, in the same order, and the same are queued,
   accepted and refused.
   */
  lemma TablesAreIndependent<T>(b: Buffer<T>, es: seq<Event<T>>, c: Buffer<T>,
                                b': Buffer<T>, fs: seq<Event<T>>, c': Buffer<T>, t: Table)
    requires b.hasSink && b'.hasSink && Reaches(b, es, c) && Reaches(b', fs, c')
    requires QueueOf(Get(b.streams, t)) == QueueOf(Get(b'.streams, t)) && Traffic(b, es, t) == Traffic(b', fs, t)
    ensures QueueOf(Get(c.streams, t)) == QueueOf(Get(c'.streams, t))
  {
    RunIsPlayed(b, es, c, t);
    RunIsPlayed(b', fs, c', t);
  }

  // ---- The drain ends --------------------------------------------------------------------

  /** Worker steps left if nobody offers anything more. */
  function Cost<T>(b: Buffer<T>): nat {
    var r, e, n := |b.streams.rvms.chan|, |b.streams.events.chan|, |b.streams.bins.chan|;
    match b.phase
    case Draining(RVMs, _) => r + e + n + 6
    case Draining(Events, _) => e + n + 5
    case Draining(Bins, _) => n + 4
    case Flushing(t, _) => 3 - Rank(t)
    case _ => 0
  }

  predicate Outside<T>(e: Event<T>) { e.Offer? || e.CallFlush? || e.CallStop? }

  predicate Finishing<T>(e: Event<T>) { e.DrainOne? || e.DrainNext? || e.Insert? }

  function Offers<T>(es: seq<Event<T>>): nat {
    if es == [] then 0 else (if es[0].Offer? then 1 else 0) + Offers(es[1..])
  }

  function Finishings<T>(es: seq<Event<T>>): nat {
    if es == [] then 0 else (if Finishing(es[0]) then 1 else 0) + Finishings(es[1..])
  }

  lemma OneStepCost<T>(b: Buffer<T>, e: Event<T>)
    requires Enabled(b, e)
    ensures Finishing(e) ==> Cost(Apply(b, e)) + 1 <= Cost(b)
    ensures e.Offer? ==> Cost(Apply(b, e)) <= Cost(b) + 1
    ensures Outside(e) && !e.Offer? ==> Cost(Apply(b, e)) == Cost(b)
  {
  }

  /**
   The drain terminates against any finite set of producers: while the worker is draining and
   flushing it takes at most one step per row in the channels, per row offered meanwhile, and
   six more.
   */
  lemma {:induction false} DrainTerminates<T>(b: Buffer<T>, es: seq<Event<T>>, c: Buffer<T>)
    requires Reaches(b, es, c) && forall i | 0 <= i < |es| :: Outside(es[i]) || Finishing(es[i])
    ensures Finishings(es) + Cost(c) <= Cost(b) + Offers(es)
    decreases |es|
  {
    if es != [] {
      OneStepCost(b, es[0]);
      forall i | 0 <= i < |es[1..]| ensures Outside(es[1..][i]) || Finishing(es[1..][i]) {
        assert es[1..][i] == es[i + 1];
      }
      DrainTerminates(Apply(b, es[0]), es[1..], c);
    }
  }

  /** And it is never stuck: a busy worker always has its next step. */
  lemma BusyWorkerMoves<T>(b0: Buffer<T>, es: seq<Event<T>>, b: Buffer<T>)
    requires Init(b0) && Reaches(b0, es, b) && Busy(b)
    ensures exists e: Event<T> :: Finishing(e) && Enabled(b, e)
  {
    InitialInv(b0);
    InvRun(b0, es, b);
    var one: Event<T>, next: Event<T>, insert: Event<T> := DrainOne, DrainNext, Insert(true);
    assert Enabled(b, one) || Enabled(b, next) || Enabled(b, insert);
    assert Finishing(one) && Finishing(next) && Finishing(insert);
  }
}
