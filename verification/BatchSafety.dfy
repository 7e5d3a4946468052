/** No row is lost, duplicated or reordered; flushes and stops are complete. */
module BatchSafety {
  import opened Prelude
  import opened BatchStreams

  // ---- One stream ------------------------------------------------------------------------

  /** Conservation and order, and: a failed batch is the start of the next one. */
  predicate StreamInv<T(==)>(x: Stream<T>, hasSink: bool) {
    && (if hasSink then x.accepted == x.delivered + x.pending + x.chan else x.delivered == [] && x.failed.None?)
    && (x.failed.Some? ==> x.failed.value != [] && x.failed.value <= x.pending)
  }

  /** Just flushed: nothing pending, or exactly the batch that failed. */
  predicate Flushed<T(==)>(x: Stream<T>) { x.pending == [] || x.failed == Some(x.pending) }

  lemma OfferKeeps<T>(x: Stream<T>, cap: nat, row: T, hasSink: bool)
    requires StreamInv(x, hasSink)
    ensures StreamInv(Offered(x, cap, row), hasSink)
  {
    if hasSink { assert x.delivered + x.pending + x.chan + [row] == x.delivered + x.pending + (x.chan + [row]); }
  }

  lemma ReceiveKeeps<T>(x: Stream<T>, hasSink: bool)
    requires StreamInv(x, hasSink) && x.chan != []
    ensures StreamInv(Received(x), hasSink)
  {
    assert x.chan == [x.chan[0]] + x.chan[1..];
    if hasSink {
      assert x.delivered + (x.pending + [x.chan[0]]) + x.chan[1..] == x.delivered + x.pending + x.chan;
    }
  }

  lemma InsertKeeps<T>(x: Stream<T>, hasSink: bool, ok: bool)
    requires StreamInv(x, hasSink)
    ensures StreamInv(Inserted(x, hasSink, ok), hasSink)
    ensures Flushed(Inserted(x, hasSink, ok))
  {
  }

  // ---- The buffer ------------------------------------------------------------------------

  ghost predicate StreamsInv<T>(b: Buffer<T>) {
    forall t: Table :: StreamInv(Get(b.streams, t), b.hasSink)
  }

  lemma PutElsewhere<T>(s: Streams<T>, t: Table, x: Stream<T>, u: Table)
    ensures Get(Put(s, t, x), u) == if t == u then x else Get(s, u)
  {
  }

  lemma StreamStep<T>(b: Buffer<T>, e: Event<T>, u: Table)
    requires StreamInv(Get(b.streams, u), b.hasSink) && Enabled(b, e)
    ensures StreamInv(Get(Apply(b, e).streams, u), b.hasSink)
  {
    var x := Get(b.streams, u);
    match e
    case Offer(t, row) => OfferKeeps(x, Capacity(t), row, b.hasSink);
    case Receive(t) => if t == u { ReceiveKeeps(x, b.hasSink); }
    case DrainOne => if b.phase.table == u { ReceiveKeeps(x, b.hasSink); }
    case Insert(ok) => InsertKeeps(x, b.hasSink, ok);
    case _ =>
  }

  lemma StreamsStep<T>(b: Buffer<T>, e: Event<T>)
    requires StreamsInv(b) && Enabled(b, e)
    ensures StreamsInv(Apply(b, e)) && Apply(b, e).hasSink == b.hasSink
  {
    forall u: Table ensures StreamInv(Get(Apply(b, e).streams, u), b.hasSink) {
      assert StreamInv(Get(b.streams, u), b.hasSink);
      StreamStep(b, e, u);
    }
  }

  /** Position of a table in the order of draining and flushing. */
  function Rank(t: Table): nat { match t case RVMs => 0 case Events => 1 case Bins => 2 }

  /** At the loop head a slice has reached the batch size only if its latest insert failed. */
  ghost predicate DisciplineInv<T>(b: Buffer<T>) {
    && b.batchSize > 0
    && (b.phase.Loop? ==> forall t: Table ::
          |Get(b.streams, t).pending| >= b.batchSize ==> Get(b.streams, t).failed.Some?)
    && (b.phase.Flushing? ==> forall t: Table | Rank(t) < Rank(b.phase.table) :: Flushed(Get(b.streams, t)))
    && (b.phase.Exited? ==> forall t: Table :: Flushed(Get(b.streams, t)))
  }

  lemma DisciplineInsert<T>(b: Buffer<T>, ok: bool)
    requires StreamsInv(b) && DisciplineInv(b) && Enabled(b, Insert(ok))
    ensures DisciplineInv(Apply(b, Insert(ok)))
    ensures b.phase.table.Bins? ==> forall t: Table :: Flushed(Get(Apply(b, Insert(ok)).streams, t))
  {
    assert StreamInv(Get(b.streams, b.phase.table), b.hasSink);
    InsertKeeps(Get(b.streams, b.phase.table), b.hasSink, ok);
    var c := Apply(b, Insert(ok));
    forall t: Table | Rank(t) <= Rank(b.phase.table) ensures Flushed(Get(c.streams, t)) {
      PutElsewhere(b.streams, b.phase.table, Inserted(Get(b.streams, b.phase.table), b.hasSink, ok), t);
    }
  }

  lemma DisciplineReceive<T>(b: Buffer<T>, t: Table)
    requires DisciplineInv(b) && Enabled(b, Receive(t))
    ensures DisciplineInv(Apply(b, Receive(t)))
  {
    forall u: Table { PutElsewhere(b.streams, t, Received(Get(b.streams, t)), u); }
  }

  lemma DisciplineOffer<T>(b: Buffer<T>, t: Table, row: T)
    requires DisciplineInv(b)
    ensures DisciplineInv(Apply(b, Offer(t, row)))
  {
    forall u: Table { PutElsewhere(b.streams, t, Offered(Get(b.streams, t), Capacity(t), row), u); }
  }

  lemma DisciplineStep<T>(b: Buffer<T>, e: Event<T>)
    requires StreamsInv(b) && DisciplineInv(b) && Enabled(b, e)
    ensures DisciplineInv(Apply(b, e))
  {
    match e
    case Insert(ok) => DisciplineInsert(b, ok);
    case Receive(t) => DisciplineReceive(b, t);
    case Offer(t, row) => DisciplineOffer(b, t, row);
    case _ =>
  }

  // ---- Completeness ----------------------------------------------------------------------

  /** The first `mark` accepted rows have left the channel. */
  predicate Drained<T>(x: Stream<T>, mark: nat) { mark + |x.chan| <= |x.accepted| }

  predicate WithinAccepted<T>(b: Buffer<T>, m: Marks) {
    && m.rvms <= |b.streams.rvms.accepted|
    && m.events <= |b.streams.events.accepted|
    && m.bins <= |b.streams.bins.accepted|
  }

  /** The marks of what the worker is draining or flushing for. */
  function Goal<T>(b: Buffer<T>): Option<Marks> {
    var why := if b.phase.Draining? || b.phase.Flushing? then b.phase.why else Tick;
    if b.phase.Exited? then b.halt
    else if why.Ack? && why.request < |b.requests| then Some(b.requests[why.request].marks)
    else if why.Halt? then b.halt
    else None
  }

  predicate Busy<T>(b: Buffer<T>) { b.phase.Draining? || b.phase.Flushing? }

  /** The worker serves one taken, unacknowledged request at a time, or a stop that was called. */
  ghost predicate ControlInv<T>(b: Buffer<T>) {
    && (Busy(b) && b.phase.why.Ack? ==>
          && b.phase.why.request < |b.requests|
          && b.requests[b.phase.why.request].taken && !b.requests[b.phase.why.request].acked)
    && (Busy(b) && b.phase.why.Halt? ==> b.halt.Some?)
    && (b.phase.Draining? ==> b.phase.why.Ack? || b.phase.why.Halt?)
    && (b.phase.Exited? ==> b.halt.Some?)
    && (forall i | 0 <= i < |b.requests| && b.requests[i].acked :: b.requests[i].taken)
  }

  lemma ControlStep<T>(b: Buffer<T>, e: Event<T>)
    requires ControlInv(b) && Enabled(b, e)
    ensures ControlInv(Apply(b, e))
  {
  }

  ghost predicate MarksInv<T>(b: Buffer<T>) {
    && (forall i | 0 <= i < |b.requests| :: WithinAccepted(b, b.requests[i].marks))
    && (b.halt.Some? ==> WithinAccepted(b, b.halt.value))
  }

  lemma AcceptedGrows<T>(b: Buffer<T>, e: Event<T>)
    requires Enabled(b, e)
    ensures var m, n := MarksOf(b.streams), MarksOf(Apply(b, e).streams);
            m.rvms <= n.rvms && m.events <= n.events && m.bins <= n.bins
  {
  }

  lemma MarksStep<T>(b: Buffer<T>, e: Event<T>)
    requires MarksInv(b) && Enabled(b, e)
    ensures MarksInv(Apply(b, e))
  {
    var c := Apply(b, e);
    AcceptedGrows(b, e);
    forall i | 0 <= i < |c.requests| ensures WithinAccepted(c, c.requests[i].marks) {
      if i < |b.requests| {
        assert WithinAccepted(b, b.requests[i].marks) && c.requests[i].marks == b.requests[i].marks;
      }
    }
  }

  /** Tables already drained for the worker's goal hold none of its rows in their channel. */
  ghost predicate GoalInv<T>(b: Buffer<T>) {
    Goal(b).Some? ==> forall t: Table | !b.phase.Draining? || Rank(t) < Rank(b.phase.table) ::
      Drained(Get(b.streams, t), MarkOf(Goal(b).value, t))
  }

  /** No event pushes a drained mark back into a channel. */
  lemma DrainedStays<T>(b: Buffer<T>, e: Event<T>, t: Table, mark: nat)
    requires Enabled(b, e) && Drained(Get(b.streams, t), mark)
    ensures Drained(Get(Apply(b, e).streams, t), mark)
  {
  }

  /** The goal changes only when the worker takes up or finishes something. */
  lemma GoalStays<T>(b: Buffer<T>, e: Event<T>)
    requires ControlInv(b) && Enabled(b, e) && (Busy(b) || b.phase.Exited?) && Goal(Apply(b, e)).Some?
    ensures Goal(Apply(b, e)) == Goal(b)
  {
  }

  lemma GoalStep<T>(b: Buffer<T>, e: Event<T>)
    requires ControlInv(b) && MarksInv(b) && GoalInv(b) && Enabled(b, e)
    ensures GoalInv(Apply(b, e))
  {
    var c := Apply(b, e);
    if Goal(c).Some? && (Busy(b) || b.phase.Exited?) {
      GoalStays(b, e);
      forall t: Table | !c.phase.Draining? || Rank(t) < Rank(c.phase.table)
        ensures Drained(Get(c.streams, t), MarkOf(Goal(c).value, t))
      {
        if b.phase.Draining? && t == b.phase.table {
          NothingInChannel(b, t, Goal(b).value);
        } else {
          DrainedStays(b, e, t, MarkOf(Goal(b).value, t));
        }
      }
    }
  }

  lemma NothingInChannel<T>(b: Buffer<T>, t: Table, m: Marks)
    requires WithinAccepted(b, m)
    ensures Get(b.streams, t).chan == [] ==> Drained(Get(b.streams, t), MarkOf(m, t))
  {
  }
}
