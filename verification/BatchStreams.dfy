/**
 The batch buffer as a protocol: three bounded channels filled by any number of producers,
 one worker with a private slice per table, a sink whose inserts succeed or fail, and the
 size, tick, request and stop triggers. The three Go row types are one type parameter.
 Fields marked "history" never influence an event.
 */
module BatchStreams {
  import opened Prelude

  datatype Table = RVMs | Events | Bins

  function Capacity(t: Table): nat { if t.Bins? then 10000 else 5000 }

  /**
   One table's rows: in the channel, in the worker's slice, in the sink. History: all rows
   accepted and refused so far, and the batch of the latest insert if that insert failed.
   */
  datatype Stream<T> = Stream(chan: seq<T>, pending: seq<T>, delivered: seq<T>,
                              accepted: seq<T>, refused: seq<T>, failed: Option<seq<T>>)

  /** A non-blocking send: a full channel drops the row. */
  function Offered<T>(x: Stream<T>, cap: nat, row: T): Stream<T> {
    if |x.chan| < cap then x.(chan := x.chan + [row], accepted := x.accepted + [row])
    else x.(refused := x.refused + [row])
  }

  function Received<T>(x: Stream<T>): Stream<T>
    requires x.chan != []
  {
    x.(chan := x.chan[1..], pending := x.pending + [x.chan[0]])
  }

  /** One insert attempt; an empty slice makes none, a missing sink discards the slice. */
  function Inserted<T>(x: Stream<T>, hasSink: bool, ok: bool): Stream<T> {
    if x.pending == [] then x
    else if !hasSink then x.(pending := [], failed := None)
    else if ok then x.(pending := [], delivered := x.delivered + x.pending, failed := None)
    else x.(failed := Some(x.pending))
  }

  datatype Streams<T> = Streams(rvms: Stream<T>, events: Stream<T>, bins: Stream<T>)

  function Get<T>(b: Streams<T>, t: Table): Stream<T> {
    match t case RVMs => b.rvms case Events => b.events case Bins => b.bins
  }

  function Put<T>(b: Streams<T>, t: Table, x: Stream<T>): Streams<T> {
    match t case RVMs => b.(rvms := x) case Events => b.(events := x) case Bins => b.(bins := x)
  }

  /** How many rows of each table had been accepted at some moment (history). */
  datatype Marks = Marks(rvms: nat, events: nat, bins: nat)

  function MarksOf<T>(b: Streams<T>): Marks { Marks(|b.rvms.accepted|, |b.events.accepted|, |b.bins.accepted|) }

  function MarkOf(m: Marks, t: Table): nat {
    match t case RVMs => m.rvms case Events => m.events case Bins => m.bins
  }

  /** A `Flush` call: the marks when it was made, and whether the worker took and acknowledged it. */
  datatype Request = Request(marks: Marks, taken: bool, acked: bool, rvmsOk: bool, eventsOk: bool, binsOk: bool)

  function OkOf(r: Request, t: Table): bool {
    match t case RVMs => r.rvmsOk case Events => r.eventsOk case Bins => r.binsOk
  }

  datatype Why = Size | Tick | Ack(request: nat) | Halt

  datatype Phase = Loop | Draining(table: Table, why: Why) | Flushing(table: Table, why: Why) | Exited

  /** `halt` holds the marks of the moment Stop was called. */
  datatype Buffer<T> = Buffer(streams: Streams<T>, phase: Phase, requests: seq<Request>, halt: Option<Marks>,
                              batchSize: nat, hasSink: bool)

  datatype Event<T> =
    | Offer(table: Table, row: T)
    | Receive(table: Table)
    | TickFires
    | CallFlush
    | TakeRequest(request: nat)
    | CallStop
    | SeeStop
    | DrainOne
    | DrainNext
    | Insert(ok: bool)

  ghost predicate Init<T>(b: Buffer<T>) {
    var empty := Stream([], [], [], [], [], None);
    b.streams == Streams(empty, empty, empty) && b.phase.Loop? && b.requests == [] && b.halt.None? && b.batchSize > 0
  }

  predicate Enabled<T>(b: Buffer<T>, e: Event<T>) {
    match e
    case Offer(_, _) => true
    case Receive(t) => b.phase.Loop? && Get(b.streams, t).chan != []
    case TickFires => b.phase.Loop?
    case CallFlush => true
    case TakeRequest(i) => b.phase.Loop? && i < |b.requests| && !b.requests[i].taken
    case CallStop => b.halt.None?
    case SeeStop => b.phase.Loop? && b.halt.Some?
    case DrainOne => b.phase.Draining? && Get(b.streams, b.phase.table).chan != []
    case DrainNext => b.phase.Draining? && Get(b.streams, b.phase.table).chan == []
    case Insert(_) => b.phase.Flushing? && (b.phase.why.Ack? ==> b.phase.why.request < |b.requests|)
  }

  function PutTable<T>(b: Buffer<T>, t: Table, x: Stream<T>): Buffer<T> { b.(streams := Put(b.streams, t, x)) }

  /** The acknowledgement, with which tables had nothing left to insert. */
  function Acknowledged<T>(r: Request, s: Streams<T>): Request {
    r.(acked := true, rvmsOk := s.rvms.pending == [], eventsOk := s.events.pending == [],
        binsOk := s.bins.pending == [])
  }

  /** After the third insert. */
  function Finish<T>(b: Buffer<T>, why: Why): Buffer<T>
    requires why.Ack? ==> why.request < |b.requests|
  {
    match why
    case Ack(i) => b.(phase := Loop, requests := b.requests[i := Acknowledged(b.requests[i], b.streams)])
    case Halt => b.(phase := Exited)
    case _ => b.(phase := Loop)
  }

  function Apply<T>(b: Buffer<T>, e: Event<T>): Buffer<T>
    requires Enabled(b, e)
  {
    match e
    case Offer(t, row) => PutTable(b, t, Offered(Get(b.streams, t), Capacity(t), row))
    case Receive(t) =>
      var x := Received(Get(b.streams, t));
      PutTable(b, t, x).(phase := if |x.pending| >= b.batchSize then Flushing(RVMs, Size) else Loop)
    case TickFires => b.(phase := Flushing(RVMs, Tick))
    case CallFlush => b.(requests := b.requests + [Request(MarksOf(b.streams), false, false, false, false, false)])
    case TakeRequest(i) =>
      b.(phase := Draining(RVMs, Ack(i)), requests := b.requests[i := b.requests[i].(taken := true)])
    case CallStop => b.(halt := Some(MarksOf(b.streams)))
    case SeeStop => b.(phase := Draining(RVMs, Halt))
    case DrainOne => PutTable(b, b.phase.table, Received(Get(b.streams, b.phase.table)))
    case DrainNext =>
      (match b.phase.table
       case RVMs => b.(phase := Draining(Events, b.phase.why))
       case Events => b.(phase := Draining(Bins, b.phase.why))
       case Bins => b.(phase := Flushing(RVMs, b.phase.why)))
    case Insert(ok) =>
      var t, why := b.phase.table, b.phase.why;
      var c := PutTable(b, t, Inserted(Get(b.streams, t), b.hasSink, ok));
      (match t
       case RVMs => c.(phase := Flushing(Events, why))
       case Events => c.(phase := Flushing(Bins, why))
       case Bins => Finish(c, why))
  }

  ghost predicate Reaches<T>(b: Buffer<T>, es: seq<Event<T>>, c: Buffer<T>)
    decreases |es|
  {
    if es == [] then b == c
    else Enabled(b, es[0]) && Reaches(Apply(b, es[0]), es[1..], c)
  }

  lemma OneEvent<T>(b: Buffer<T>, e: Event<T>)
    requires Enabled(b, e)
    ensures Reaches(b, [e], Apply(b, e))
  {
    assert [e][1..] == [];
  }

  lemma {:induction false} RunThen<T>(b: Buffer<T>, es: seq<Event<T>>, c: Buffer<T>, fs: seq<Event<T>>, d: Buffer<T>)
    requires Reaches(b, es, c) && Reaches(c, fs, d)
    ensures Reaches(b, es + fs, d)
    decreases |es|
  {
    if es == [] {
      assert es + fs == fs;
    } else {
      RunThen(Apply(b, es[0]), es[1..], c, fs, d);
      assert (es + fs)[1..] == es[1..] + fs;
    }
  }
}
