/**
 The batch buffer object: its channels, the worker's slices and its loop. Every run of it
 is a run of the protocol.
 */
module BatchWriter {
  import opened Prelude
  import opened BatchStreams
  import opened BatchSafety
  import opened BatchTheorems

  /** The tables. An insert that fails has stored nothing. */
  class Sink<T> {
    const outcomes: nat -> bool
    var turn: nat
    var rvms: seq<T>
    var events: seq<T>
    var bins: seq<T>

    constructor (outcomes: nat -> bool)
      ensures this.outcomes == outcomes && rvms == events == bins == []
    {
      this.outcomes := outcomes;
      turn, rvms, events, bins := 0, [], [], [];
    }

    method InsertRVMs(batch: seq<T>) returns (ok: bool)
      modifies this
      ensures ok == outcomes(old(turn)) && turn == old(turn) + 1
      ensures rvms == (if ok then old(rvms) + batch else old(rvms)) && events == old(events) && bins == old(bins)
    {
      ok, turn := outcomes(turn), turn + 1;
      if ok { rvms := rvms + batch; }
    }

    method InsertEvents(batch: seq<T>) returns (ok: bool)
      modifies this
      ensures ok == outcomes(old(turn)) && turn == old(turn) + 1
      ensures events == (if ok then old(events) + batch else old(events)) && rvms == old(rvms) && bins == old(bins)
    {
      ok, turn := outcomes(turn), turn + 1;
      if ok { events := events + batch; }
    }

    method InsertBins(batch: seq<T>) returns (ok: bool)
      modifies this
      ensures ok == outcomes(old(turn)) && turn == old(turn) + 1
      ensures bins == (if ok then old(bins) + batch else old(bins)) && rvms == old(rvms) && events == old(events)
    {
      ok, turn := outcomes(turn), turn + 1;
      if ok { bins := bins + batch; }
    }
  }

  /** An offer by some producer. */
  datatype Arrival<T> = Arrival(table: Table, row: T)

  /** The producers: what they offer before each of the worker's coming moves, until they are done. */
  class Producers<T> {
    var busy: seq<seq<Arrival<T>>>

    constructor (busy: seq<seq<Arrival<T>>>)
      ensures this.busy == busy
    {
      this.busy := busy;
    }

    method Next() returns (now: seq<Arrival<T>>)
      modifies this
      ensures if old(busy) == [] then now == [] && busy == [] else now == old(busy)[0] && busy == old(busy)[1..]
    {
      now := [];
      if busy != [] { now, busy := busy[0], busy[1..]; }
    }
  }

  /** What the worker's select meets next, or an offer between two selects. */
  datatype Select<T> =
    | Producer(table: Table, row: T)
    | RvmReady
    | EventReady
    | BinReady
    | Ticker
    | FlushRequest
    | StopClosed

  /** The batch size, whether there is a sink, and which of its inserts succeed. */
  datatype Setup = Setup(batchSize: nat, hasSink: bool, outcomes: nat -> bool)

  /** The three streams, how many inserts have been tried, and what producers still offer. */
  datatype Progress<T> = Progress(streams: Streams<T>, turn: nat, busy: seq<seq<Arrival<T>>>)

  // ---- Specification of the loop, outcome by outcome --------------------------------------

  function OfferTo<T>(s: Streams<T>, t: Table, row: T): Streams<T> {
    Put(s, t, Offered(Get(s, t), Capacity(t), row))
  }

  function OfferedBy<T>(s: Streams<T>, arrivals: seq<Arrival<T>>): Streams<T> {
    if arrivals == [] then s
    else
      var last := arrivals[|arrivals| - 1];
      OfferTo(OfferedBy(s, arrivals[..|arrivals| - 1]), last.table, last.row)
  }

  /** Producers act before the worker's next move. */
  function Arrive<T>(p: Progress<T>): Progress<T> {
    if p.busy == [] then p else p.(streams := OfferedBy(p.streams, p.busy[0]), busy := p.busy[1..])
  }

  function InsertStep<T>(before: Progress<T>, t: Table, u: Setup): Progress<T> {
    var p := Arrive(before);
    var x := Get(p.streams, t);
    p.(streams := Put(p.streams, t, Inserted(x, u.hasSink, u.outcomes(p.turn))),
       turn := if x.pending != [] && u.hasSink then p.turn + 1 else p.turn)
  }

  function FlushStep<T>(p: Progress<T>, u: Setup): Progress<T> {
    InsertStep(InsertStep(InsertStep(p, RVMs, u), Events, u), Bins, u)
  }

  function TakeOne<T>(p: Progress<T>, t: Table): Progress<T>
    requires Get(p.streams, t).chan != []
  {
    p.(streams := Put(p.streams, t, Received(Get(p.streams, t))))
  }

  /** One drain loop, producers acting before each of its selects; it ends because they do. */
  function TakeAll<T>(p: Progress<T>, t: Table): Progress<T>
    decreases |p.busy|, |Get(p.streams, t).chan|
  {
    if Get(p.streams, t).chan == [] then p else TakeAll(Arrive(TakeOne(p, t)), t)
  }

  function DrainTable<T>(p: Progress<T>, t: Table): Progress<T> { TakeAll(Arrive(p), t) }

  function DrainStep<T>(p: Progress<T>): Progress<T> { DrainTable(DrainTable(DrainTable(p, RVMs), Events), Bins) }

  function DrainFlushStep<T>(p: Progress<T>, u: Setup): Progress<T> { FlushStep(DrainStep(p), u) }

  /** A receive, with its size trigger; nothing happens on an empty channel. */
  function ReceiveStep<T>(p: Progress<T>, t: Table, u: Setup): Progress<T> {
    if Get(p.streams, t).chan == [] then p
    else
      var q := TakeOne(p, t);
      if |Get(q.streams, t).pending| >= u.batchSize then FlushStep(q, u) else q
  }

  function SelectStep<T>(p: Progress<T>, e: Select<T>, u: Setup): Progress<T> {
    match e
    case Producer(t, row) => p.(streams := OfferTo(p.streams, t, row))
    case RvmReady => ReceiveStep(p, RVMs, u)
    case EventReady => ReceiveStep(p, Events, u)
    case BinReady => ReceiveStep(p, Bins, u)
    case Ticker => FlushStep(p, u)
    case FlushRequest => DrainFlushStep(p, u)
    case StopClosed => DrainFlushStep(p, u)
  }

  function Steps<T>(p: Progress<T>, schedule: seq<Select<T>>, u: Setup): Progress<T> {
    if schedule == [] then p
    else SelectStep(Steps(p, schedule[..|schedule| - 1], u), schedule[|schedule| - 1], u)
  }

  predicate EndsInStop<T>(schedule: seq<Select<T>>) { schedule != [] && schedule[|schedule| - 1].StopClosed? }

  /** How many rows producers offered to a table during a schedule. */
  function OffersTo<T>(schedule: seq<Select<T>>, t: Table): nat {
    if schedule == [] then 0
    else
      var last := schedule[|schedule| - 1];
      OffersTo(schedule[..|schedule| - 1], t) + if last.Producer? && last.table == t then 1 else 0
  }

  function Requests<T>(schedule: seq<Select<T>>): nat {
    if schedule == [] then 0
    else Requests(schedule[..|schedule| - 1]) + if schedule[|schedule| - 1].FlushRequest? then 1 else 0
  }

  // ---- The object ------------------------------------------------------------------------

  class BatchBuffer<T> {
    const sink: Sink?<T>
    const batchSize: nat
    const producers: Producers<T>
    var rvmChan: seq<T>
    var eventChan: seq<T>
    var binChan: seq<T>
    var rvms: seq<T>
    var events: seq<T>
    var bins: seq<T>
    ghost var view: Streams<T>

    /** The real fields are those of the protocol's streams. */
    ghost predicate Valid()
      reads this, sink
    {
      && batchSize > 0
      && view.rvms.chan == rvmChan && view.events.chan == eventChan && view.bins.chan == binChan
      && view.rvms.pending == rvms && view.events.pending == events && view.bins.pending == bins
      && (sink != null ==>
            && view.rvms.delivered == sink.rvms
            && view.events.delivered == sink.events
            && view.bins.delivered == sink.bins)
    }

    /** The state the specification speaks of. */
    ghost function State(): Progress<T>
      reads this, sink, producers
    {
      Progress(view, if sink == null then 0 else sink.turn, producers.busy)
    }

    ghost function Config(): Setup {
      Setup(batchSize, sink != null, if sink == null then n => true else sink.outcomes)
    }

    /** A configured batch size that is not positive is replaced by 500. */
    constructor (configured: int, sink: Sink?<T>, producers: Producers<T>)
      requires sink != null ==> sink.rvms == sink.events == sink.bins == []
      ensures Valid() && this.sink == sink && this.producers == producers
      ensures batchSize == if configured > 0 then configured else 500
      ensures view == var empty := Stream([], [], [], [], [], None); Streams(empty, empty, empty)
    {
      this.sink, this.producers := sink, producers;
      batchSize := if configured > 0 then configured else 500;
      rvmChan, eventChan, binChan, rvms, events, bins := [], [], [], [], [], [];
      var empty := Stream<T>.Stream([], [], [], [], [], None);
      view := Streams(empty, empty, empty);
    }

    method EnqueueRVM(r: T)
      requires Valid()
      modifies this`rvmChan, this`view
      ensures Valid() && view == old(view).(rvms := Offered(old(view).rvms, Capacity(RVMs), r))
    {
      view := view.(rvms := Offered(view.rvms, Capacity(RVMs), r));
      if |rvmChan| < 5000 { rvmChan := rvmChan + [r]; }
    }

    method EnqueueEvent(e: T)
      requires Valid()
      modifies this`eventChan, this`view
      ensures Valid() && view == old(view).(events := Offered(old(view).events, Capacity(Events), e))
    {
      view := view.(events := Offered(view.events, Capacity(Events), e));
      if |eventChan| < 5000 { eventChan := eventChan + [e]; }
    }

    method EnqueueBin(b: T)
      requires Valid()
      modifies this`binChan, this`view
      ensures Valid() && view == old(view).(bins := Offered(old(view).bins, Capacity(Bins), b))
    {
      view := view.(bins := Offered(view.bins, Capacity(Bins), b));
      if |binChan| < 10000 { binChan := binChan + [b]; }
    }

    /** Producers act. */
    method Arrivals()
      requires Valid()
      modifies this`rvmChan, this`eventChan, this`binChan, this`view, producers
      ensures Valid() && State() == Arrive(old(State()))
      ensures old(producers.busy) != [] ==> |producers.busy| < |old(producers.busy)|
      ensures old(producers.busy) == [] ==> producers.busy == [] && view == old(view)
    {
      var now := producers.Next();
      ghost var busy := producers.busy;
      for i := 0 to |now|
        invariant Valid() && view == OfferedBy(old(view), now[..i]) && producers.busy == busy
      {
        assert now[..i + 1][..i] == now[..i];
        Enqueue(now[i].table, now[i].row);
      }
      assert now[..|now|] == now;
    }

    method DrainRVMs()
      requires Valid()
      modifies this, producers
      ensures Valid() && State() == DrainTable(old(State()), RVMs)
    {
      Arrivals();
      while rvmChan != []
        invariant Valid() && TakeAll(State(), RVMs) == DrainTable(old(State()), RVMs)
        decreases |producers.busy|, |rvmChan|
      {
        view := view.(rvms := Received(view.rvms));
        rvms, rvmChan := rvms + [rvmChan[0]], rvmChan[1..];
        Arrivals();
      }
    }

    method DrainEvents()
      requires Valid()
      modifies this, producers
      ensures Valid() && State() == DrainTable(old(State()), Events)
    {
      Arrivals();
      while eventChan != []
        invariant Valid() && TakeAll(State(), Events) == DrainTable(old(State()), Events)
        decreases |producers.busy|, |eventChan|
      {
        view := view.(events := Received(view.events));
        events, eventChan := events + [eventChan[0]], eventChan[1..];
        Arrivals();
      }
    }

    method DrainBins()
      requires Valid()
      modifies this, producers
      ensures Valid() && State() == DrainTable(old(State()), Bins)
    {
      Arrivals();
      while binChan != []
        invariant Valid() && TakeAll(State(), Bins) == DrainTable(old(State()), Bins)
        decreases |producers.busy|, |binChan|
      {
        view := view.(bins := Received(view.bins));
        bins, binChan := bins + [binChan[0]], binChan[1..];
        Arrivals();
      }
    }

    /** Each channel in turn until a select finds it empty, producers acting all the while. */
    method DrainChannels()
      requires Valid()
      modifies this, producers
      ensures Valid() && State() == DrainStep(old(State()))
    {
      DrainRVMs();
      DrainEvents();
      DrainBins();
    }

    method FlushRVMs()
      requires Valid()
      modifies this, sink, producers
      ensures Valid() && State() == InsertStep(old(State()), RVMs, Config())
    {
      Arrivals();
      if |rvms| > 0 && sink != null {
        var ok := sink.InsertRVMs(rvms);
        view := view.(rvms := Inserted(view.rvms, true, ok));
        if ok { rvms := []; }
      } else if |rvms| > 0 && sink == null {
        view := view.(rvms := Inserted(view.rvms, false, true));
        rvms := [];
      }
    }

    method FlushEvents()
      requires Valid()
      modifies this, sink, producers
      ensures Valid() && State() == InsertStep(old(State()), Events, Config())
    {
      Arrivals();
      if |events| > 0 && sink != null {
        var ok := sink.InsertEvents(events);
        view := view.(events := Inserted(view.events, true, ok));
        if ok { events := []; }
      } else if |events| > 0 && sink == null {
        view := view.(events := Inserted(view.events, false, true));
        events := [];
      }
    }

    method FlushBins()
      requires Valid()
      modifies this, sink, producers
      ensures Valid() && State() == InsertStep(old(State()), Bins, Config())
    {
      Arrivals();
      if |bins| > 0 && sink != null {
        var ok := sink.InsertBins(bins);
        view := view.(bins := Inserted(view.bins, true, ok));
        if ok { bins := []; }
      } else if |bins| > 0 && sink == null {
        view := view.(bins := Inserted(view.bins, false, true));
        bins := [];
      }
    }

    /** Three inserts, one table at a time. */
    method Flush()
      requires Valid()
      modifies this, sink, producers
      ensures Valid() && State() == FlushStep(old(State()), Config())
    {
      FlushRVMs();
      FlushEvents();
      FlushBins();
    }

    /** One receive of the select, with its size trigger. */
    method Receive(t: Table)
      requires Valid()
      requires match t case RVMs => rvmChan != [] case Events => eventChan != [] case Bins => binChan != []
      modifies this, sink, producers
      ensures Valid() && State() == ReceiveStep(old(State()), t, Config())
    {
      view := Put(view, t, Received(Get(view, t)));
      var size;
      match t {
        case RVMs => rvms, rvmChan := rvms + [rvmChan[0]], rvmChan[1..]; size := |rvms|;
        case Events => events, eventChan := events + [eventChan[0]], eventChan[1..]; size := |events|;
        case Bins => bins, binChan := bins + [binChan[0]], binChan[1..]; size := |bins|;
      }
      if size >= batchSize { Flush(); }
    }

    method DrainAndFlush()
      requires Valid()
      modifies this, sink, producers
      ensures Valid() && State() == DrainFlushStep(old(State()), Config())
    {
      DrainChannels();
      Flush();
    }

    /** One outcome of the select, or one producer's offer. */
    method Serve(e: Select<T>)
      requires Valid()
      modifies this, sink, producers
      ensures Valid() && State() == SelectStep(old(State()), e, Config())
    {
      match e {
        case Producer(t, row) => Enqueue(t, row);
        case RvmReady => if rvmChan != [] { Receive(RVMs); }
        case EventReady => if eventChan != [] { Receive(Events); }
        case BinReady => if binChan != [] { Receive(Bins); }
        case Ticker => Flush();
        case FlushRequest => DrainAndFlush();
        case StopClosed => DrainAndFlush();
      }
    }

    method Enqueue(t: Table, row: T)
      requires Valid()
      modifies this`rvmChan, this`eventChan, this`binChan, this`view
      ensures Valid() && view == OfferTo(old(view), t, row)
    {
      match t {
        case RVMs => EnqueueRVM(row);
        case Events => EnqueueEvent(row);
        case Bins => EnqueueBin(row);
      }
    }

    /**
     The worker loop over a schedule of select outcomes, until Stop or the end of the
     schedule; `n` outcomes are consumed and every flush request among them acknowledged.
     `WorkerIsARun` says what the resulting state means.
     */
    method Worker(schedule: seq<Select<T>>) returns (n: nat, stopped: bool, acks: nat)
      requires Valid()
      modifies this, sink, producers
      ensures Valid() && n <= |schedule|
      ensures State() == Steps(old(State()), schedule[..n], Config())
      ensures if stopped then n > 0 && schedule[n - 1].StopClosed? && StopClosed !in schedule[..n - 1]
              else n == |schedule| && StopClosed !in schedule
      ensures acks == Requests(schedule[..n])
    {
      acks := 0;
      for i := 0 to |schedule|
        invariant Valid() && State() == Steps(old(State()), schedule[..i], Config())
        invariant StopClosed !in schedule[..i] && acks == Requests(schedule[..i])
      {
        assert schedule[..i + 1][..i] == schedule[..i] && schedule[..i + 1][i] == schedule[i];
        Serve(schedule[i]);
        if schedule[i].FlushRequest? { acks := acks + 1; }
        if schedule[i].StopClosed? { return i + 1, true, acks; }
      }
      assert schedule[..|schedule|] == schedule;
      return |schedule|, false, acks;
    }
  }

  // ---- Every run of the object is a run of the protocol -----------------------------------

  /** The producers' offers are events of the protocol at any time. */
  lemma {:induction false} OffersAreARun<T>(b: Buffer<T>, arrivals: seq<Arrival<T>>) returns (es: seq<Event<T>>)
    ensures Reaches(b, es, b.(streams := OfferedBy(b.streams, arrivals)))
    decreases |arrivals|
  {
    if arrivals == [] {
      es := [];
    } else {
      var front, last := arrivals[..|arrivals| - 1], arrivals[|arrivals| - 1];
      es := OffersAreARun(b, front);
      var b1, e := b.(streams := OfferedBy(b.streams, front)), Offer(last.table, last.row);
      OneEvent(b1, e);
      RunThen(b, es, b1, [e], Apply(b1, e));
      es := es + [e];
    }
  }

  lemma ArriveIsARun<T>(b: Buffer<T>, p: Progress<T>) returns (es: seq<Event<T>>)
    requires p.streams == b.streams
    ensures Reaches(b, es, b.(streams := Arrive(p).streams))
  {
    if p.busy == [] { es := []; } else { es := OffersAreARun(b, p.busy[0]); }
  }

  /** One insert of a flush. */
  lemma InsertIsARun<T>(b: Buffer<T>, p: Progress<T>, u: Setup) returns (es: seq<Event<T>>, c: Buffer<T>)
    requires b.phase.Flushing? && p.streams == b.streams && u.hasSink == b.hasSink
    requires b.phase.why.Ack? ==> b.phase.why.request < |b.requests|
    ensures Reaches(b, es, c) && c.streams == InsertStep(p, b.phase.table, u).streams
    ensures match b.phase.table
            case RVMs => c == b.(streams := c.streams, phase := Flushing(Events, b.phase.why))
            case Events => c == b.(streams := c.streams, phase := Flushing(Bins, b.phase.why))
            case Bins => c == Finish(b.(streams := c.streams), b.phase.why)
  {
    var q := Arrive(p);
    var b1, e := b.(streams := q.streams), Insert(u.outcomes(q.turn));
    es := ArriveIsARun(b, p);
    c := Apply(b1, e);
    OneEvent(b1, e);
    RunThen(b, es, b1, [e], c);
    es := es + [e];
  }

  /** The three inserts of a flush. */
  lemma FlushIsARun<T>(b: Buffer<T>, p: Progress<T>, u: Setup) returns (es: seq<Event<T>>, c: Buffer<T>)
    requires b.phase.Flushing? && b.phase.table.RVMs? && p.streams == b.streams && u.hasSink == b.hasSink
    requires b.phase.why.Ack? ==> b.phase.why.request < |b.requests|
    ensures Reaches(b, es, c)
    ensures c == Finish(b.(streams := FlushStep(p, u).streams), b.phase.why)
  {
    var q := InsertStep(p, RVMs, u);
    var es1, b1 := InsertIsARun(b, p, u);
    var es2, b2 := InsertIsARun(b1, q, u);
    var es3;
    es3, c := InsertIsARun(b2, InsertStep(q, Events, u), u);
    RunThen(b, es1, b1, es2, b2);
    RunThen(b, es1 + es2, b2, es3, c);
    es := es1 + es2 + es3;
  }

  lemma {:induction false} TakeAllIsARun<T>(b: Buffer<T>, p: Progress<T>) returns (es: seq<Event<T>>)
    requires b.phase.Draining? && p.streams == b.streams
    ensures Reaches(b, es, b.(streams := TakeAll(p, b.phase.table).streams))
    ensures Get(TakeAll(p, b.phase.table).streams, b.phase.table).chan == []
    decreases |p.busy|, |Get(p.streams, b.phase.table).chan|
  {
    var t, e: Event<T> := b.phase.table, DrainOne;
    if Get(p.streams, t).chan == [] {
      es := [];
    } else {
      var q := TakeOne(p, t);
      var b1 := Apply(b, e);
      OneEvent(b, e);
      var more := ArriveIsARun(b1, q);
      var b2 := b1.(streams := Arrive(q).streams);
      var rest := TakeAllIsARun(b2, Arrive(q));
      RunThen(b, [e], b1, more, b2);
      RunThen(b, [e] + more, b2, rest, b.(streams := TakeAll(p, t).streams));
      es := [e] + more + rest;
    }
  }

  /** The drain of one table, and the step to the next. */
  lemma DrainTableIsARun<T>(b: Buffer<T>, p: Progress<T>) returns (es: seq<Event<T>>, c: Buffer<T>)
    requires b.phase.Draining? && p.streams == b.streams
    ensures Reaches(b, es, c) && c.streams == DrainTable(p, b.phase.table).streams
    ensures c == b.(streams := c.streams,
                    phase := match b.phase.table
                             case RVMs => Draining(Events, b.phase.why)
                             case Events => Draining(Bins, b.phase.why)
                             case Bins => Flushing(RVMs, b.phase.why))
  {
    var e: Event<T> := DrainNext;
    es := ArriveIsARun(b, p);
    var b1 := b.(streams := Arrive(p).streams);
    var more := TakeAllIsARun(b1, Arrive(p));
    var b2 := b1.(streams := TakeAll(Arrive(p), b.phase.table).streams);
    c := Apply(b2, e);
    OneEvent(b2, e);
    RunThen(b, es, b1, more, b2);
    RunThen(b, es + more, b2, [e], c);
    es := es + more + [e];
  }

  /** Draining and flushing, for a request or a stop that the worker has just taken up. */
  lemma DrainFlushIsARun<T>(b: Buffer<T>, p: Progress<T>, u: Setup) returns (es: seq<Event<T>>, c: Buffer<T>)
    requires b.phase.Draining? && b.phase.table.RVMs? && p.streams == b.streams && u.hasSink == b.hasSink
    requires b.phase.why.Ack? ==> b.phase.why.request < |b.requests|
    ensures Reaches(b, es, c)
    ensures c == Finish(b.(streams := DrainFlushStep(p, u).streams), b.phase.why)
  {
    var q := DrainTable(p, RVMs);
    var es1, b1 := DrainTableIsARun(b, p);
    var es2, b2 := DrainTableIsARun(b1, q);
    var es3, b3 := DrainTableIsARun(b2, DrainTable(q, Events));
    var es4;
    es4, c := FlushIsARun(b3, DrainStep(p), u);
    RunThen(b, es1, b1, es2, b2);
    RunThen(b, es1 + es2, b2, es3, b3);
    RunThen(b, es1 + es2 + es3, b3, es4, c);
    es := es1 + es2 + es3 + es4;
  }

  lemma ReceiveIsARun<T>(b: Buffer<T>, t: Table, p: Progress<T>, u: Setup) returns (es: seq<Event<T>>, c: Buffer<T>)
    requires p.streams == b.streams && b.phase.Loop? && u.hasSink == b.hasSink && u.batchSize == b.batchSize
    ensures Reaches(b, es, c) && c == b.(streams := ReceiveStep(p, t, u).streams)
  {
    if Get(b.streams, t).chan == [] {
      es, c := [], b;
    } else {
      var b1 := Apply(b, Receive(t));
      OneEvent(b, Receive(t));
      es, c := [Receive(t)], b1;
      if b1.phase.Flushing? {
        var more;
        more, c := FlushIsARun(b1, TakeOne(p, t), u);
        RunThen(b, [Receive(t)], b1, more, c);
        es := [Receive(t)] + more;
      }
    }
  }

  lemma TickIsARun<T>(b: Buffer<T>, p: Progress<T>, u: Setup) returns (es: seq<Event<T>>, c: Buffer<T>)
    requires p.streams == b.streams && b.phase.Loop? && u.hasSink == b.hasSink
    ensures Reaches(b, es, c) && c == b.(streams := FlushStep(p, u).streams)
  {
    OneEvent(b, TickFires);
    es, c := FlushIsARun(Apply(b, TickFires), p, u);
    RunThen(b, [TickFires], Apply(b, TickFires), es, c);
    es := [TickFires] + es;
  }

  /** A flush request is made, taken up, served and acknowledged. */
  lemma RequestIsARun<T>(b: Buffer<T>, p: Progress<T>, u: Setup) returns (es: seq<Event<T>>, c: Buffer<T>)
    requires p.streams == b.streams && b.phase.Loop? && u.hasSink == b.hasSink
    ensures Reaches(b, es, c) && c.streams == DrainFlushStep(p, u).streams
    ensures c == b.(streams := c.streams, requests := c.requests)
    ensures |c.requests| == |b.requests| + 1 && c.requests[..|b.requests|] == b.requests
    ensures c.requests[|b.requests|].acked && c.requests[|b.requests|].marks == MarksOf(b.streams)
  {
    var i := |b.requests|;
    var b1 := Apply(b, CallFlush);
    var b2 := Apply(b1, TakeRequest(i));
    OneEvent(b, CallFlush);
    OneEvent(b1, TakeRequest(i));
    RunThen(b, [CallFlush], b1, [TakeRequest(i)], b2);
    es, c := DrainFlushIsARun(b2, p, u);
    RunThen(b, [CallFlush] + [TakeRequest(i)], b2, es, c);
    es := [CallFlush] + [TakeRequest(i)] + es;
  }

  /** Stop is called, seen, and served with a last drain and flush. */
  lemma StopIsARun<T>(b: Buffer<T>, p: Progress<T>, u: Setup) returns (es: seq<Event<T>>, c: Buffer<T>)
    requires p.streams == b.streams && b.phase.Loop? && u.hasSink == b.hasSink && b.halt.None?
    ensures Reaches(b, es, c) && c.streams == DrainFlushStep(p, u).streams
    ensures c == b.(streams := c.streams, phase := Exited, halt := Some(MarksOf(b.streams)))
  {
    var b1 := Apply(b, CallStop);
    var b2 := Apply(b1, SeeStop);
    OneEvent(b, CallStop);
    OneEvent(b1, SeeStop);
    RunThen(b, [CallStop], b1, [SeeStop], b2);
    es, c := DrainFlushIsARun(b2, p, u);
    RunThen(b, [CallStop] + [SeeStop], b2, es, c);
    es := [CallStop] + [SeeStop] + es;
  }

  lemma SelectIsARun<T>(b: Buffer<T>, e: Select<T>, p: Progress<T>, u: Setup) returns (es: seq<Event<T>>, c: Buffer<T>)
    requires p.streams == b.streams && b.phase.Loop? && b.halt.None?
    requires u.hasSink == b.hasSink && u.batchSize == b.batchSize
    ensures Reaches(b, es, c) && c.streams == SelectStep(p, e, u).streams
    ensures c == b.(streams := c.streams, requests := c.requests, phase := c.phase, halt := c.halt)
    ensures e.StopClosed? ==> c.phase.Exited? && c.halt == Some(MarksOf(b.streams))
    ensures !e.StopClosed? ==> c.phase.Loop? && c.halt.None?
    ensures |c.requests| == |b.requests| + if e.FlushRequest? then 1 else 0
    ensures (forall i | 0 <= i < |b.requests| :: b.requests[i].acked) ==>
              forall i | 0 <= i < |c.requests| :: c.requests[i].acked
  {
    match e
    case Producer(t, row) => OneEvent(b, Offer(t, row)); es, c := [Offer(t, row)], Apply(b, Offer(t, row));
    case RvmReady => es, c := ReceiveIsARun(b, RVMs, p, u);
    case EventReady => es, c := ReceiveIsARun(b, Events, p, u);
    case BinReady => es, c := ReceiveIsARun(b, Bins, p, u);
    case Ticker => es, c := TickIsARun(b, p, u);
    case FlushRequest =>
      es, c := RequestIsARun(b, p, u);
      assert forall i | 0 <= i < |b.requests| :: c.requests[i] == c.requests[..|b.requests|][i];
    case StopClosed => es, c := StopIsARun(b, p, u);
  }

  /**
   Refinement: whatever schedule the worker loop meets, with a Stop at most at its end, its
   state is one that the protocol reaches, with every flush request acknowledged, and with
   the worker gone exactly after a Stop. So every law of the protocol holds of the object.
   */
  lemma {:induction false} WorkerIsARun<T>(b: Buffer<T>, schedule: seq<Select<T>>, p: Progress<T>, u: Setup)
    returns (es: seq<Event<T>>, c: Buffer<T>)
    requires p.streams == b.streams && b.phase.Loop? && b.halt.None? && b.requests == []
    requires u.hasSink == b.hasSink && u.batchSize == b.batchSize
    requires forall i | 0 <= i < |schedule| - 1 :: !schedule[i].StopClosed?
    ensures Reaches(b, es, c) && c.streams == Steps(p, schedule, u).streams
    ensures c.hasSink == b.hasSink && c.batchSize == b.batchSize
    ensures if EndsInStop(schedule) then c.phase.Exited? else c.phase.Loop? && c.halt.None?
    ensures |c.requests| == Requests(schedule) && forall i | 0 <= i < |c.requests| :: c.requests[i].acked
    decreases |schedule|
  {
    if schedule == [] {
      es, c := [], b;
    } else {
      var front, e := schedule[..|schedule| - 1], schedule[|schedule| - 1];
      var es1, b1 := WorkerIsARun(b, front, p, u);
      var es2;
      es2, c := SelectIsARun(b1, e, Steps(p, front, u), u);
      RunThen(b, es1, b1, es2, c);
      es := es1 + es2;
    }
  }

  function Seen<T>(x: Stream<T>): nat { |x.accepted| + |x.refused| }

  /** Offers that one burst, or all coming ones, make to a table. */
  function OffersIn<T>(arrivals: seq<Arrival<T>>, t: Table): nat {
    if arrivals == [] then 0
    else OffersIn(arrivals[..|arrivals| - 1], t) + if arrivals[|arrivals| - 1].table == t then 1 else 0
  }

  function Coming<T>(busy: seq<seq<Arrival<T>>>, t: Table): nat {
    if busy == [] then 0 else OffersIn(busy[0], t) + Coming(busy[1..], t)
  }

  /** Offers seen by a table, and those still to come. */
  function SeenOrComing<T>(p: Progress<T>, t: Table): nat { Seen(Get(p.streams, t)) + Coming(p.busy, t) }

  lemma {:induction false} OfferedBySees<T>(s: Streams<T>, arrivals: seq<Arrival<T>>, v: Table)
    ensures Seen(Get(OfferedBy(s, arrivals), v)) == Seen(Get(s, v)) + OffersIn(arrivals, v)
    decreases |arrivals|
  {
    if arrivals != [] { OfferedBySees(s, arrivals[..|arrivals| - 1], v); }
  }

  lemma ArriveSees<T>(p: Progress<T>, v: Table)
    ensures SeenOrComing(Arrive(p), v) == SeenOrComing(p, v)
  {
    if p.busy != [] { OfferedBySees(p.streams, p.busy[0], v); }
  }

  lemma InsertSees<T>(p: Progress<T>, t: Table, u: Setup, v: Table)
    ensures SeenOrComing(InsertStep(p, t, u), v) == SeenOrComing(p, v)
  {
    ArriveSees(p, v);
  }

  lemma FlushSees<T>(p: Progress<T>, u: Setup, v: Table)
    ensures SeenOrComing(FlushStep(p, u), v) == SeenOrComing(p, v)
  {
    var q := InsertStep(p, RVMs, u);
    InsertSees(p, RVMs, u, v);
    InsertSees(q, Events, u, v);
    InsertSees(InsertStep(q, Events, u), Bins, u, v);
  }

  lemma TakeSees<T>(p: Progress<T>, t: Table, v: Table)
    requires Get(p.streams, t).chan != []
    ensures SeenOrComing(TakeOne(p, t), v) == SeenOrComing(p, v)
  {
  }

  lemma {:induction false} TakeAllSees<T>(p: Progress<T>, t: Table, v: Table)
    ensures SeenOrComing(TakeAll(p, t), v) == SeenOrComing(p, v)
    decreases |p.busy|, |Get(p.streams, t).chan|
  {
    if Get(p.streams, t).chan != [] {
      TakeSees(p, t, v);
      ArriveSees(TakeOne(p, t), v);
      TakeAllSees(Arrive(TakeOne(p, t)), t, v);
    }
  }

  lemma DrainTableSees<T>(p: Progress<T>, t: Table, v: Table)
    ensures SeenOrComing(DrainTable(p, t), v) == SeenOrComing(p, v)
  {
    ArriveSees(p, v);
    TakeAllSees(Arrive(p), t, v);
  }

  lemma DrainFlushSees<T>(p: Progress<T>, u: Setup, v: Table)
    ensures SeenOrComing(DrainFlushStep(p, u), v) == SeenOrComing(p, v)
  {
    var q := DrainTable(p, RVMs);
    DrainTableSees(p, RVMs, v);
    DrainTableSees(q, Events, v);
    DrainTableSees(DrainTable(q, Events), Bins, v);
    FlushSees(DrainStep(p), u, v);
  }

  lemma ReceiveSees<T>(p: Progress<T>, t: Table, u: Setup, v: Table)
    ensures SeenOrComing(ReceiveStep(p, t, u), v) == SeenOrComing(p, v)
  {
    if Get(p.streams, t).chan != [] {
      TakeSees(p, t, v);
      FlushSees(TakeOne(p, t), u, v);
    }
  }

  lemma SelectSees<T>(p: Progress<T>, e: Select<T>, u: Setup, v: Table)
    ensures SeenOrComing(SelectStep(p, e, u), v) == SeenOrComing(p, v) + if e.Producer? && e.table == v then 1 else 0
  {
    match e
    case Producer(_, _) =>
    case RvmReady => ReceiveSees(p, RVMs, u, v);
    case EventReady => ReceiveSees(p, Events, u, v);
    case BinReady => ReceiveSees(p, Bins, u, v);
    case Ticker => FlushSees(p, u, v);
    case _ => DrainFlushSees(p, u, v);
  }

  /** Every offer is accepted or refused, once, or still to come. */
  lemma {:induction false} OffersAddUp<T>(p: Progress<T>, schedule: seq<Select<T>>, u: Setup, t: Table)
    ensures SeenOrComing(Steps(p, schedule, u), t) == SeenOrComing(p, t) + OffersTo(schedule, t)
    decreases |schedule|
  {
    if schedule != [] {
      var front := schedule[..|schedule| - 1];
      OffersAddUp(p, front, u, t);
      SelectSees(Steps(p, front, u), schedule[|schedule| - 1], u, t);
    }
  }

  /**
   The worker started on an empty buffer: every offer was accepted, refused or is still to
   come; accepted rows are delivered, then pending, then queued, in order; and after a Stop
   what was accepted before it has left the channel, and what is pending is exactly the
   batch whose insert failed.
   */
  lemma WorkerKeepsRows<T>(b: Buffer<T>, schedule: seq<Select<T>>, busy: seq<seq<Arrival<T>>>, u: Setup, t: Table)
    requires Init(b) && u.hasSink == b.hasSink && u.batchSize == b.batchSize && u.hasSink
    requires forall i | 0 <= i < |schedule| - 1 :: !schedule[i].StopClosed?
    ensures var p := Progress(b.streams, 0, busy);
            var q := Steps(p, schedule, u);
            var x := Get(q.streams, t);
            && x.accepted == x.delivered + x.pending + x.chan
            && |x.accepted| + |x.refused| + Coming(q.busy, t) == Coming(busy, t) + OffersTo(schedule, t)
            && (|x.pending| >= u.batchSize ==> x.failed.Some?)
            && (EndsInStop(schedule) ==>
                  var before := Get(Steps(p, schedule[..|schedule| - 1], u).streams, t);
                  && before.accepted <= x.delivered + x.pending
                  && (x.pending == [] || x.failed == Some(x.pending)))
  {
    var p := Progress(b.streams, 0, busy);
    var es, c := WorkerIsARun(b, schedule, p, u);
    OffersAddUp(p, schedule, u, t);
    NothingLostOrReordered(b, es, c, t);
    BatchDiscipline(b, es, c, t);
    if c.phase.Exited? {
      StopComplete(b, es, c, t);
      LastStepStops(b, schedule, p, u, t);
    }
  }

  /** The run up to a Stop, and the Stop. */
  lemma LastStepStops<T>(b: Buffer<T>, schedule: seq<Select<T>>, p: Progress<T>, u: Setup, t: Table)
    requires Init(b) && p.streams == b.streams && u.hasSink == b.hasSink && u.batchSize == b.batchSize && u.hasSink
    requires EndsInStop(schedule)
    requires forall i | 0 <= i < |schedule| - 1 :: !schedule[i].StopClosed?
    ensures var x := Get(Steps(p, schedule, u).streams, t);
            Get(Steps(p, schedule[..|schedule| - 1], u).streams, t).accepted <= x.delivered + x.pending
  {
    var front := schedule[..|schedule| - 1];
    var es1, b1 := WorkerIsARun(b, front, p, u);
    var es2, c := SelectIsARun(b1, schedule[|schedule| - 1], Steps(p, front, u), u);
    RunThen(b, es1, b1, es2, c);
    InitialInv(b);
    InvRun(b, es1 + es2, c);
    StopComplete(b, es1 + es2, c, t);
    NothingLostOrReordered(b, es1 + es2, c, t);
    AcceptedIsPrefix(b1, es2, c, t);
  }

  lemma {:induction false} AcceptedIsPrefix<T>(b: Buffer<T>, es: seq<Event<T>>, c: Buffer<T>, t: Table)
    requires Reaches(b, es, c)
    ensures Get(b.streams, t).accepted <= Get(c.streams, t).accepted
    decreases |es|
  {
    if es != [] {
      AcceptedIsPrefix(Apply(b, es[0]), es[1..], c, t);
    }
  }
}
