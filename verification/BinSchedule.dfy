/**
 The concurrent part of a bin poll cycle: workers taking machines from a closed job
 channel, a bounded channel of scraped bins, and one collector. Go's scheduler and its
 map order are free choices.
 */
module BinSchedule {
  import opened Prelude
  import opened Bins

  datatype Machine = Machine(id: U32, supplier: string)

  /** The bins of one response, and the clock when it came. */
  datatype Answer = Answer(now: int, bins: seq<Bin>)

  /** What upstream answers for each machine in this cycle; an error answers nothing. */
  type Answers = U32 -> Answer

  /** The items a worker makes of an answer: stamped with the machine's id, the time and its supplier. */
  function Stamped(m: Machine, answers: Answers): (items: seq<Item>)
    ensures |items| == |answers(m.id).bins| && forall i | 0 <= i < |items| :: items[i].bin.id == m.id
  {
    var a := answers(m.id);
    seq(|a.bins|, i requires 0 <= i < |a.bins| => Item(a.bins[i].(id := m.id, polledAt := a.now), m.supplier))
  }

  const CAPACITY: nat := 1000

  datatype Worker =
    | Idle
    | Checking(machine: Machine)
    | Requesting(machine: Machine)
    | Sending(machine: Machine, rest: seq<Item>)
    | Exited

  datatype State = State(jobs: seq<Machine>, workers: seq<Worker>, requested: seq<Machine>, channel: seq<Item>,
                         closed: bool, collected: seq<Item>, collectorDone: bool, cancelled: bool)

  datatype Event =
    | Take(w: nat)
    | Finish(w: nat)
    | Check(w: nat)
    | Ask(w: nat, failed: bool)
    | Send(w: nat)
    | Next(w: nat)
    | Close
    | Collect
    | CollectorExit
    | Cancel

  ghost predicate Init(s: State, machines: seq<Machine>) {
    && s.jobs == machines && (forall w | 0 <= w < |s.workers| :: s.workers[w].Idle?) && |s.workers| > 0
    && s.requested == [] && s.channel == [] && s.collected == []
    && !s.closed && !s.collectorDone && !s.cancelled
  }

  /** Only a cancelled context makes a request fail that would have been answered. */
  ghost predicate Enabled(s: State, e: Event) {
    match e
    case Take(w) => w < |s.workers| && s.workers[w].Idle? && s.jobs != []
    case Finish(w) => w < |s.workers| && s.workers[w].Idle? && s.jobs == []
    case Check(w) => w < |s.workers| && s.workers[w].Checking?
    case Ask(w, failed) => w < |s.workers| && s.workers[w].Requesting? && (failed ==> s.cancelled)
    case Send(w) => w < |s.workers| && s.workers[w].Sending? && s.workers[w].rest != [] && |s.channel| < CAPACITY
    case Next(w) => w < |s.workers| && s.workers[w].Sending? && s.workers[w].rest == []
    case Close => !s.closed && forall w | 0 <= w < |s.workers| :: s.workers[w].Exited?
    case Collect => !s.collectorDone && s.channel != []
    case CollectorExit => !s.collectorDone && s.closed && s.channel == []
    case Cancel => !s.cancelled
  }

  function Move(s: State, w: nat, worker: Worker): State
    requires w < |s.workers|
  {
    s.(workers := s.workers[w := worker])
  }

  function Apply(s: State, e: Event, answers: Answers): State
    requires Enabled(s, e)
  {
    match e
    case Take(w) => Move(s.(jobs := s.jobs[1..]), w, Checking(s.jobs[0]))
    case Finish(w) => Move(s, w, Exited)
    case Check(w) => Move(s, w, if s.cancelled then Exited else Requesting(s.workers[w].machine))
    case Ask(w, failed) =>
      var m := s.workers[w].machine;
      Move(s.(requested := s.requested + [m]), w, Sending(m, if failed then [] else Stamped(m, answers)))
    case Send(w) =>
      var k := s.workers[w];
      Move(s.(channel := s.channel + [k.rest[0]]), w, Sending(k.machine, k.rest[1..]))
    case Next(w) => Move(s, w, Idle)
    case Close => s.(closed := true)
    case Collect => s.(collected := s.collected + [s.channel[0]], channel := s.channel[1..])
    case CollectorExit => s.(collectorDone := true)
    case Cancel => s.(cancelled := true)
  }

  ghost predicate Reaches(s: State, es: seq<Event>, t: State, answers: Answers)
    decreases |es|
  {
    if es == [] then s == t
    else Enabled(s, es[0]) && Reaches(Apply(s, es[0], answers), es[1..], t, answers)
  }

  // ---- Termination and progress ----------------------------------------------------------

  function JobCost(m: Machine, answers: Answers): nat { 2 * |answers(m.id).bins| + 5 }

  function WorkerCost(k: Worker, answers: Answers): nat {
    match k
    case Idle => 1
    case Checking(m) => 2 * |answers(m.id).bins| + 4
    case Requesting(m) => 2 * |answers(m.id).bins| + 3
    case Sending(_, rest) => 2 * |rest| + 2
    case Exited => 0
  }

  function JobsCost(jobs: seq<Machine>, answers: Answers): nat {
    if jobs == [] then 0 else JobCost(jobs[0], answers) + JobsCost(jobs[1..], answers)
  }

  function WorkersCost(ks: seq<Worker>, answers: Answers): nat {
    if ks == [] then 0 else WorkerCost(ks[0], answers) + WorkersCost(ks[1..], answers)
  }

  lemma {:induction false} WorkerMoves(ks: seq<Worker>, w: nat, k: Worker, answers: Answers)
    requires w < |ks|
    ensures WorkersCost(ks[w := k], answers) ==
              WorkersCost(ks, answers) - WorkerCost(ks[w], answers) + WorkerCost(k, answers)
    decreases w
  {
    if w == 0 {
      assert ks[0 := k][1..] == ks[1..];
    } else {
      assert ks[w := k][1..] == ks[1..][w - 1 := k];
      WorkerMoves(ks[1..], w - 1, k, answers);
    }
  }

  function Remaining(s: State, answers: Answers): nat {
    JobsCost(s.jobs, answers) + WorkersCost(s.workers, answers) + |s.channel|
    + (if s.closed then 0 else 1) + (if s.collectorDone then 0 else 1) + (if s.cancelled then 0 else 1)
  }

  /** A worker that becomes cheaper makes the whole cheaper. */
  lemma MoveCosts(s: State, w: nat, k: Worker, answers: Answers)
    requires w < |s.workers|
    ensures Remaining(Move(s, w, k), answers) ==
              Remaining(s, answers) - WorkerCost(s.workers[w], answers) + WorkerCost(k, answers)
  {
    WorkerMoves(s.workers, w, k, answers);
  }

  lemma WorkerStepCosts(s: State, e: Event, answers: Answers)
    requires Enabled(s, e) && (e.Finish? || e.Check? || e.Next?)
    ensures Remaining(Apply(s, e, answers), answers) < Remaining(s, answers)
  {
    MoveCosts(s, e.w, Apply(s, e, answers).workers[e.w], answers);
  }

  lemma TransferCosts(s: State, e: Event, answers: Answers)
    requires Enabled(s, e) && (e.Take? || e.Ask? || e.Send?)
    ensures Remaining(Apply(s, e, answers), answers) < Remaining(s, answers)
  {
    var t := Apply(s, e, answers);
    MoveCosts(s.(jobs := t.jobs, requested := t.requested, channel := t.channel), e.w, t.workers[e.w], answers);
  }

  lemma QuietCosts(s: State, e: Event, answers: Answers)
    requires Enabled(s, e) && (e.Close? || e.Collect? || e.CollectorExit? || e.Cancel?)
    ensures Remaining(Apply(s, e, answers), answers) < Remaining(s, answers)
  {
  }

  lemma StepCosts(s: State, e: Event, answers: Answers)
    requires Enabled(s, e)
    ensures Remaining(Apply(s, e, answers), answers) < Remaining(s, answers)
  {
    if e.Finish? || e.Check? || e.Next? { WorkerStepCosts(s, e, answers); }
    else if e.Take? || e.Ask? || e.Send? { TransferCosts(s, e, answers); }
    else { QuietCosts(s, e, answers); }
  }

  /** Every schedule ends, after at most this many steps. */
  lemma {:induction false} SchedulesEnd(s: State, es: seq<Event>, t: State, answers: Answers)
    requires Reaches(s, es, t, answers)
    ensures |es| + Remaining(t, answers) <= Remaining(s, answers)
    decreases |es|
  {
    if es != [] {
      StepCosts(s, es[0], answers);
      SchedulesEnd(Apply(s, es[0], answers), es[1..], t, answers);
    }
  }

  // ---- Who has which machine -------------------------------------------------------------

  ghost predicate DistinctMachines(ms: seq<Machine>) { forall i, j | 0 <= i < j < |ms| :: ms[i].id != ms[j].id }

  predicate Holds(k: Worker) { k.Checking? || k.Requesting? || k.Sending? }

  predicate Waits(k: Worker) { k.Checking? || k.Requesting? }

  /** Machine ids are in at most one place, and requested at most once. */
  ghost predicate PlaceInv(s: State) {
    && DistinctMachines(s.jobs) && DistinctMachines(s.requested)
    && (forall w | 0 <= w < |s.workers| && s.workers[w].Sending? :: s.workers[w].machine in s.requested)
    && (forall w, i | 0 <= w < |s.workers| && Waits(s.workers[w]) && 0 <= i < |s.requested| ::
          s.requested[i].id != s.workers[w].machine.id)
    && (forall w, i | 0 <= w < |s.workers| && Holds(s.workers[w]) && 0 <= i < |s.jobs| ::
          s.jobs[i].id != s.workers[w].machine.id)
    && (forall v, w | 0 <= v < w < |s.workers| && Holds(s.workers[v]) && Holds(s.workers[w]) ::
          s.workers[v].machine.id != s.workers[w].machine.id)
    && (forall i, j | 0 <= i < |s.jobs| && 0 <= j < |s.requested| :: s.jobs[i].id != s.requested[j].id)
  }

  /** Without cancellation no machine is forgotten. */
  ghost predicate Kept(s: State, m: Machine) {
    || m in s.jobs || m in s.requested
    || exists w :: 0 <= w < |s.workers| && Waits(s.workers[w]) && s.workers[w].machine == m
  }

  ghost predicate KeepInv(s: State, machines: seq<Machine>) {
    && (forall m | m in s.jobs || m in s.requested :: m in machines)
    && (forall w | 0 <= w < |s.workers| && Holds(s.workers[w]) :: s.workers[w].machine in machines)
    && (!s.cancelled ==> forall m | m in machines :: Kept(s, m))
  }

  /** How the cycle winds down. */
  ghost predicate EndInv(s: State) {
    && |s.workers| > 0
    && (s.closed ==> forall w | 0 <= w < |s.workers| :: s.workers[w].Exited?)
    && (s.collectorDone ==> s.closed && s.channel == [])
    && (!s.cancelled ==> forall w | 0 <= w < |s.workers| && s.workers[w].Exited? :: s.jobs == [])
  }

  function Out(s: State): seq<Item> { s.collected + s.channel }

  /** A requested machine's bins have all come out, or some worker is still sending them. */
  ghost predicate Answered(s: State, m: Machine, answers: Answers) {
    || Of(Out(s), m.id) == Stamped(m, answers)
    || exists w :: 0 <= w < |s.workers| && s.workers[w].Sending? && s.workers[w].machine == m
  }

  /** Of each machine exactly the bins already sent have come out, in order. */
  ghost predicate StreamInv(s: State, answers: Answers) {
    && (forall w | 0 <= w < |s.workers| && s.workers[w].Sending? ::
          Of(Out(s), s.workers[w].machine.id) + s.workers[w].rest == Stamped(s.workers[w].machine, answers))
    && (forall i | 0 <= i < |s.requested| :: Answered(s, s.requested[i], answers))
    && (forall id: U32 | (forall i | 0 <= i < |s.requested| :: s.requested[i].id != id) :: Of(Out(s), id) == [])
  }

  ghost predicate Inv(s: State, machines: seq<Machine>, answers: Answers) {
    PlaceInv(s) && KeepInv(s, machines) && EndInv(s) && (!s.cancelled ==> StreamInv(s, answers))
  }

  /** A worker that keeps, or lets go of, the machine it has. */
  lemma PlaceMove(s: State, w: nat, k: Worker)
    requires PlaceInv(s) && w < |s.workers|
    requires Holds(k) ==> Holds(s.workers[w]) && k.machine == s.workers[w].machine
    requires (Waits(k) ==> Waits(s.workers[w])) && (k.Sending? ==> s.workers[w].Sending?)
    ensures PlaceInv(Move(s, w, k))
  {
  }

  lemma PlaceTake(s: State, w: nat)
    requires PlaceInv(s) && Enabled(s, Take(w))
    ensures PlaceInv(Move(s.(jobs := s.jobs[1..]), w, Checking(s.jobs[0])))
  {
  }

  lemma PlaceAsk(s: State, w: nat, rest: seq<Item>)
    requires PlaceInv(s) && w < |s.workers| && s.workers[w].Requesting?
    ensures var m := s.workers[w].machine; PlaceInv(Move(s.(requested := s.requested + [m]), w, Sending(m, rest)))
  {
  }

  /** Events that touch neither workers nor machines. */
  lemma PlaceQuiet(s: State, t: State)
    requires PlaceInv(s) && t.workers == s.workers && t.jobs == s.jobs && t.requested == s.requested
    ensures PlaceInv(t)
  {
  }

  lemma PlaceStep(s: State, e: Event, answers: Answers)
    requires PlaceInv(s) && Enabled(s, e)
    ensures PlaceInv(Apply(s, e, answers))
  {
    var t := Apply(s, e, answers);
    match e
    case Take(w) => PlaceTake(s, w);
    case Ask(w, _) => PlaceAsk(s, w, t.workers[w].rest);
    case Finish(w) => PlaceMove(s, w, t.workers[w]);
    case Check(w) => PlaceMove(s, w, t.workers[w]);
    case Send(w) => PlaceMove(s, w, t.workers[w]); PlaceQuiet(Move(s, w, t.workers[w]), t);
    case Next(w) => PlaceMove(s, w, t.workers[w]);
    case _ => PlaceQuiet(s, t);
  }

  lemma KeepStep(s: State, e: Event, machines: seq<Machine>, answers: Answers)
    requires KeepInv(s, machines) && Enabled(s, e)
    ensures KeepInv(Apply(s, e, answers), machines)
  {
    var t := Apply(s, e, answers);
    if !t.cancelled {
      forall m | m in machines ensures Kept(t, m) {
        assert Kept(s, m);
        KeptStays(s, e, m, answers);
      }
    }
  }

  lemma KeptStays(s: State, e: Event, m: Machine, answers: Answers)
    requires Kept(s, m) && Enabled(s, e) && !Apply(s, e, answers).cancelled
    ensures Kept(Apply(s, e, answers), m)
  {
    var t := Apply(s, e, answers);
    if w :| 0 <= w < |s.workers| && Waits(s.workers[w]) && s.workers[w].machine == m {
      if Waits(t.workers[w]) { assert t.workers[w].machine == m; }
    }
    if e.Take? && s.jobs[0] == m { assert Waits(t.workers[e.w]); }
  }

  lemma EndStep(s: State, e: Event, answers: Answers)
    requires EndInv(s) && Enabled(s, e)
    ensures EndInv(Apply(s, e, answers))
  {
  }

  lemma OfOne(x: Item, id: U32)
    ensures Of([x], id) == if x.bin.id == id then [x] else []
  {
    assert [x][1..] == [];
  }

  /** The next item a worker sends is its own machine's. */
  lemma HeadIsOwn(sent: seq<Item>, rest: seq<Item>, m: Machine, answers: Answers)
    requires sent + rest == Stamped(m, answers) && rest != []
    ensures rest[0].bin.id == m.id
  {
    assert (sent + rest)[|sent|] == rest[0];
  }

  /** Sending appends one item to one machine's stream. */
  lemma SendExtends(s: State, w: nat, answers: Answers, id: U32)
    requires StreamInv(s, answers) && Enabled(s, Send(w))
    ensures var t, m := Apply(s, Send(w), answers), s.workers[w].machine;
            Of(Out(t), id) == if id == m.id then Of(Out(s), id) + [s.workers[w].rest[0]] else Of(Out(s), id)
  {
    var t, m, x := Apply(s, Send(w), answers), s.workers[w].machine, s.workers[w].rest[0];
    assert Out(t) == Out(s) + [x];
    HeadIsOwn(Of(Out(s), m.id), s.workers[w].rest, m, answers);
    OfConcat(Out(s), [x], id);
    OfOne(x, id);
  }

  lemma MoveHead(a: seq<Item>, b: seq<Item>)
    requires b != []
    ensures a + [b[0]] + b[1..] == a + b
  {
  }

  lemma SenderStream(s: State, w: nat, answers: Answers)
    requires StreamInv(s, answers) && Enabled(s, Send(w))
    ensures var t, m := Apply(s, Send(w), answers), s.workers[w].machine;
            Of(Out(t), m.id) + s.workers[w].rest[1..] == Stamped(m, answers)
  {
    var k := s.workers[w];
    SendExtends(s, w, answers, k.machine.id);
    MoveHead(Of(Out(s), k.machine.id), k.rest);
  }

  lemma OtherSenderStream(s: State, w: nat, answers: Answers, v: nat)
    requires PlaceInv(s) && StreamInv(s, answers) && Enabled(s, Send(w))
    requires v < |s.workers| && v != w && s.workers[v].Sending?
    ensures var t, k := Apply(s, Send(w), answers), s.workers[v];
            Of(Out(t), k.machine.id) + k.rest == Stamped(k.machine, answers)
  {
    assert Holds(s.workers[v]) && Holds(s.workers[w]);
    assert s.workers[v].machine.id != s.workers[w].machine.id;
    SendExtends(s, w, answers, s.workers[v].machine.id);
  }

  lemma RequestedAfterSend(s: State, w: nat, answers: Answers, i: nat)
    requires PlaceInv(s) && StreamInv(s, answers) && Enabled(s, Send(w)) && i < |s.requested|
    ensures Answered(Apply(s, Send(w), answers), s.requested[i], answers)
  {
    var t, m := Apply(s, Send(w), answers), s.workers[w].machine;
    assert Answered(s, s.requested[i], answers);
    SendExtends(s, w, answers, s.requested[i].id);
    if s.requested[i].id == m.id {
      var j :| 0 <= j < |s.requested| && s.requested[j] == m;
      assert i == j && t.workers[w].Sending? && t.workers[w].machine == t.requested[i];
    } else if v :| 0 <= v < |s.workers| && s.workers[v].Sending? && s.workers[v].machine == s.requested[i] {
      assert t.workers[v].Sending? && t.workers[v].machine == t.requested[i];
    }
  }

  lemma StreamSend(s: State, w: nat, answers: Answers)
    requires PlaceInv(s) && StreamInv(s, answers) && Enabled(s, Send(w))
    ensures StreamInv(Apply(s, Send(w), answers), answers)
  {
    var t, m := Apply(s, Send(w), answers), s.workers[w].machine;
    forall v | 0 <= v < |t.workers| && t.workers[v].Sending?
      ensures Of(Out(t), t.workers[v].machine.id) + t.workers[v].rest == Stamped(t.workers[v].machine, answers)
    {
      if v == w { SenderStream(s, w, answers); } else { OtherSenderStream(s, w, answers, v); }
    }
    forall i | 0 <= i < |t.requested| ensures Answered(t, t.requested[i], answers) {
      RequestedAfterSend(s, w, answers, i);
    }
    forall id: U32 | (forall i | 0 <= i < |t.requested| :: t.requested[i].id != id) ensures Of(Out(t), id) == [] {
      SendExtends(s, w, answers, id);
      assert m in t.requested;
    }
  }

  /** A machine that has an answer keeps it while worker `w`, not yet sending, starts to send another's. */
  lemma AnsweredAfterAsk(s: State, w: nat, answers: Answers, m: Machine)
    requires Enabled(s, Ask(w, false)) && (Answered(s, m, answers) || m == s.workers[w].machine)
    ensures Answered(Apply(s, Ask(w, false), answers), m, answers)
  {
    var t := Apply(s, Ask(w, false), answers);
    assert Out(t) == Out(s);
    if m == s.workers[w].machine {
      assert t.workers[w].Sending? && t.workers[w].machine == m;
    } else if v :| 0 <= v < |s.workers| && s.workers[v].Sending? && s.workers[v].machine == m {
      assert t.workers[v] == s.workers[v];
    }
  }

  lemma StreamAsk(s: State, w: nat, answers: Answers)
    requires PlaceInv(s) && StreamInv(s, answers) && Enabled(s, Ask(w, false))
    ensures StreamInv(Apply(s, Ask(w, false), answers), answers)
  {
    var t, m := Apply(s, Ask(w, false), answers), s.workers[w].machine;
    assert Waits(s.workers[w]) && Out(t) == Out(s);
    assert Of(Out(t), m.id) == [];
    assert [] + Stamped(m, answers) == Stamped(m, answers);
    forall i | 0 <= i < |t.requested| ensures Answered(t, t.requested[i], answers) {
      AnsweredAfterAsk(s, w, answers, t.requested[i]);
    }
    forall id: U32 | (forall i | 0 <= i < |t.requested| :: t.requested[i].id != id) ensures Of(Out(t), id) == [] {
      forall i | 0 <= i < |s.requested| ensures s.requested[i].id != id { assert t.requested[i] == s.requested[i]; }
    }
  }

  lemma StreamNext(s: State, w: nat, answers: Answers)
    requires PlaceInv(s) && StreamInv(s, answers) && Enabled(s, Next(w))
    ensures StreamInv(Apply(s, Next(w), answers), answers)
  {
    var t, m := Apply(s, Next(w), answers), s.workers[w].machine;
    assert Of(Out(s), m.id) + [] == Of(Out(s), m.id);
    forall i | 0 <= i < |t.requested| ensures Answered(t, t.requested[i], answers) {
      if v :| 0 <= v < |s.workers| && s.workers[v].Sending? && s.workers[v].machine == s.requested[i] && v != w {
        assert t.workers[v].machine == t.requested[i];
      }
    }
  }

  /** Nothing changes if the items that have come out and the senders stay the same. */
  lemma StreamSame(s: State, t: State, answers: Answers)
    requires StreamInv(s, answers) && Out(t) == Out(s) && t.requested == s.requested && |t.workers| == |s.workers|
    requires forall w | 0 <= w < |s.workers| :: s.workers[w].Sending? || t.workers[w].Sending? ==>
               t.workers[w] == s.workers[w]
    ensures StreamInv(t, answers)
  {
    forall i | 0 <= i < |t.requested| ensures Answered(t, t.requested[i], answers) {
      if v :| 0 <= v < |s.workers| && s.workers[v].Sending? && s.workers[v].machine == s.requested[i] {
        assert t.workers[v].machine == t.requested[i];
      }
    }
  }

  /** Events that neither send nor change who is sending. */
  lemma StreamQuiet(s: State, e: Event, answers: Answers)
    requires StreamInv(s, answers) && Enabled(s, e) && !e.Ask? && !e.Send? && !e.Next?
    ensures StreamInv(Apply(s, e, answers), answers)
  {
    if e.Collect? { assert s.channel == [s.channel[0]] + s.channel[1..]; }
    assert Out(Apply(s, e, answers)) == Out(s);
    StreamSame(s, Apply(s, e, answers), answers);
  }

  lemma InvStep(s: State, e: Event, machines: seq<Machine>, answers: Answers)
    requires Inv(s, machines, answers) && Enabled(s, e)
    ensures Inv(Apply(s, e, answers), machines, answers)
  {
    PlaceStep(s, e, answers);
    KeepStep(s, e, machines, answers);
    EndStep(s, e, answers);
    if !Apply(s, e, answers).cancelled {
      match e
      case Send(w) => StreamSend(s, w, answers);
      case Ask(w, _) => StreamAsk(s, w, answers);
      case Next(w) => StreamNext(s, w, answers);
      case _ => StreamQuiet(s, e, answers);
    }
  }

  lemma {:induction false} InvRun(s: State, es: seq<Event>, t: State, machines: seq<Machine>, answers: Answers)
    requires Inv(s, machines, answers) && Reaches(s, es, t, answers)
    ensures Inv(t, machines, answers)
    decreases |es|
  {
    if es != [] {
      InvStep(s, es[0], machines, answers);
      InvRun(Apply(s, es[0], answers), es[1..], t, machines, answers);
    }
  }

  lemma InitialInv(s: State, machines: seq<Machine>, answers: Answers)
    requires Init(s, machines) && DistinctMachines(machines)
    ensures Inv(s, machines, answers)
  {
  }

  // ---- Main results ----------------------------------------------------------------------

  /** No deadlock: until the collector is done some step is enabled, cancelled or not. */
  lemma NoDeadlock(s0: State, es: seq<Event>, s: State, machines: seq<Machine>, answers: Answers)
    requires Init(s0, machines) && DistinctMachines(machines) && Reaches(s0, es, s, answers) && !s.collectorDone
    ensures exists e: Event :: !e.Cancel? && Enabled(s, e)
  {
    InitialInv(s0, machines, answers);
    InvRun(s0, es, s, machines, answers);
    if s.channel != [] {
      assert Enabled(s, Collect);
    } else if w :| 0 <= w < |s.workers| && !s.workers[w].Exited? {
      match s.workers[w]
      case Idle => assert Enabled(s, if s.jobs == [] then Finish(w) else Take(w));
      case Checking(_) => assert Enabled(s, Check(w));
      case Requesting(_) => assert Enabled(s, Ask(w, false));
      case Sending(_, rest) => assert Enabled(s, if rest == [] then Next(w) else Send(w));
    } else {
      assert Enabled(s, if s.closed then CollectorExit else Close);
    }
  }

  /** Cancelled or not, no machine is asked twice. */
  lemma RequestedAtMostOnce(s0: State, es: seq<Event>, s: State, machines: seq<Machine>, answers: Answers)
    requires Init(s0, machines) && DistinctMachines(machines) && Reaches(s0, es, s, answers)
    ensures DistinctMachines(s.requested) && forall m | m in s.requested :: m in machines
  {
    InitialInv(s0, machines, answers);
    InvRun(s0, es, s, machines, answers);
  }

  /** The items are those of the machines' answers, each machine's in order, and no others. */
  ghost predicate Gathers(items: seq<Item>, machines: seq<Machine>, answers: Answers) {
    && (forall m | m in machines :: Of(items, m.id) == Stamped(m, answers))
    && (forall id: U32 | (forall m | m in machines :: m.id != id) :: Of(items, id) == [])
  }

  /** A finished, uncancelled cycle has asked each machine once and collected its bins in order. */
  lemma FinishedCycle(s0: State, es: seq<Event>, s: State, machines: seq<Machine>, answers: Answers)
    requires Init(s0, machines) && DistinctMachines(machines) && Reaches(s0, es, s, answers)
    requires s.collectorDone && !s.cancelled
    ensures DistinctMachines(s.requested) && forall m :: m in s.requested <==> m in machines
    ensures Gathers(s.collected, machines, answers)
  {
    InitialInv(s0, machines, answers);
    InvRun(s0, es, s, machines, answers);
    assert Out(s) == s.collected;
    assert s.workers[0].Exited?;
    forall m | m in machines ensures m in s.requested && Of(s.collected, m.id) == Stamped(m, answers) {
      assert Kept(s, m);
      var i :| 0 <= i < |s.requested| && s.requested[i] == m;
    }
    forall id: U32 | (forall m | m in machines :: m.id != id) ensures Of(s.collected, id) == [] {
      forall i | 0 <= i < |s.requested| ensures s.requested[i].id != id { assert s.requested[i] in s.requested; }
    }
  }

  /** What is gathered decides the ledger, however it is interleaved. */
  lemma GatheredAlike(g: Ledger, answers: Answers, m1: seq<Machine>, a: seq<Item>, m2: seq<Machine>, b: seq<Item>)
    requires forall m :: m in m1 <==> m in m2
    requires Gathers(a, m1, answers) && Gathers(b, m2, answers)
    ensures Cycle(g, a) == Cycle(g, b)
  {
    forall id: U32 ensures Of(a, id) == Of(b, id) {
      if m :| m in m1 && m.id == id { assert m in m2; }
    }
    FoldIgnoresInterleaving(g.(gauge := map[]), a, b);
  }

  /**
   Schedule independence: two finished cycles over the same machines and answers, with any
   numbers of workers, job orders and interleavings, leave the same last counts, ingestion
   totals and gauges.
   */
  lemma ScheduleIndependence(g: Ledger, answers: Answers,
                             m1: seq<Machine>, s1: State, es1: seq<Event>, t1: State,
                             m2: seq<Machine>, s2: State, es2: seq<Event>, t2: State)
    requires DistinctMachines(m1) && DistinctMachines(m2) && forall m :: m in m1 <==> m in m2
    requires Init(s1, m1) && Reaches(s1, es1, t1, answers) && t1.collectorDone && !t1.cancelled
    requires Init(s2, m2) && Reaches(s2, es2, t2, answers) && t2.collectorDone && !t2.cancelled
    ensures Cycle(g, t1.collected) == Cycle(g, t2.collected)
  {
    FinishedCycle(s1, es1, t1, m1, answers);
    FinishedCycle(s2, es2, t2, m2, answers);
    GatheredAlike(g, answers, m1, t1.collected, m2, t2.collected);
  }

  lemma {:induction false} InOf(items: seq<Item>, i: nat)
    requires i < |items|
    ensures items[i] in Of(items, items[i].bin.id)
    decreases |items|
  {
    if i > 0 { InOf(items[1..], i - 1); }
  }

  /** Whatever is gathered is a bin of an answer, with its machine's id and supplier and the time of the answer. */
  lemma GatheredItem(items: seq<Item>, machines: seq<Machine>, answers: Answers, i: nat)
    requires Gathers(items, machines, answers) && i < |items|
    ensures exists m, n :: m in machines && 0 <= n < |answers(m.id).bins| &&
              var b, a := items[i].bin, answers(m.id).bins[n];
              && items[i].supplier == m.supplier && b.id == m.id
              && b.compartment == a.compartment && b.capacity == a.capacity
              && b.count == a.count && b.threshold == a.threshold && b.polledAt == answers(m.id).now
  {
    InOf(items, i);
    var m :| m in machines && m.id == items[i].bin.id;
    var n :| 0 <= n < |answers(m.id).bins| && Stamped(m, answers)[n] == items[i];
  }

  // ---- Cancellation ----------------------------------------------------------------------

  function Requesters(ks: seq<Worker>): nat {
    if ks == [] then 0 else (if ks[0].Requesting? then 1 else 0) + Requesters(ks[1..])
  }

  lemma {:induction false} RequesterMoves(ks: seq<Worker>, w: nat, k: Worker)
    requires w < |ks|
    ensures Requesters(ks[w := k]) ==
            Requesters(ks) - (if ks[w].Requesting? then 1 else 0) + if k.Requesting? then 1 else 0
    decreases w
  {
    if w == 0 {
      assert ks[0 := k][1..] == ks[1..];
    } else {
      assert ks[w := k][1..] == ks[1..][w - 1 := k];
      RequesterMoves(ks[1..], w - 1, k);
    }
  }

  lemma CancelledStep(s: State, e: Event, answers: Answers)
    requires s.cancelled && Enabled(s, e)
    ensures var t := Apply(s, e, answers);
            t.cancelled && |t.requested| + Requesters(t.workers) <= |s.requested| + Requesters(s.workers)
  {
    if e.Take? || e.Finish? || e.Check? || e.Ask? || e.Send? || e.Next? {
      RequesterMoves(s.workers, e.w, Apply(s, e, answers).workers[e.w]);
    }
  }

  /** After a cancellation no machine is asked but those whose request was already due. */
  lemma {:induction false} CancelStopsAsking(s: State, es: seq<Event>, t: State, answers: Answers)
    requires s.cancelled && Reaches(s, es, t, answers)
    ensures |t.requested| + Requesters(t.workers) <= |s.requested| + Requesters(s.workers)
    decreases |es|
  {
    if es != [] {
      CancelledStep(s, es[0], answers);
      CancelStopsAsking(Apply(s, es[0], answers), es[1..], t, answers);
    }
  }

  // ---- The bounded channel ---------------------------------------------------------------

  /** The channel never holds more than 1000 bins; a worker with a bin to send waits exactly while it holds 1000. */
  lemma {:induction false} ChannelIsBounded(s: State, es: seq<Event>, t: State, answers: Answers)
    requires |s.channel| <= 1000 && Reaches(s, es, t, answers)
    ensures |t.channel| <= 1000
    ensures forall w: nat | w < |t.workers| && t.workers[w].Sending? && t.workers[w].rest != [] ::
              Enabled(t, Send(w)) <==> |t.channel| != 1000
    decreases |es|
  {
    if es != [] { ChannelIsBounded(Apply(s, es[0], answers), es[1..], t, answers); }
  }

  // ---- One worker ------------------------------------------------------------------------

  /** What a single worker gathers. */
  function InTurn(machines: seq<Machine>, answers: Answers): seq<Item> {
    if machines == [] then []
    else InTurn(machines[..|machines| - 1], answers) + Stamped(machines[|machines| - 1], answers)
  }

  lemma {:induction false} OfStamped(items: seq<Item>, owner: U32, id: U32)
    requires forall i | 0 <= i < |items| :: items[i].bin.id == owner
    ensures Of(items, id) == if id == owner then items else []
    decreases |items|
  {
    if items != [] { OfStamped(items[1..], owner, id); }
  }

  lemma InTurnStep(machines: seq<Machine>, answers: Answers, id: U32)
    requires machines != []
    ensures var front, last := machines[..|machines| - 1], machines[|machines| - 1];
            Of(InTurn(machines, answers), id) ==
            Of(InTurn(front, answers), id) + if id == last.id then Stamped(last, answers) else []
  {
    var front, last := machines[..|machines| - 1], machines[|machines| - 1];
    OfConcat(InTurn(front, answers), Stamped(last, answers), id);
    OfStamped(Stamped(last, answers), last.id, id);
  }

  lemma {:induction false} InTurnOfOthers(machines: seq<Machine>, answers: Answers, id: U32)
    requires forall i | 0 <= i < |machines| :: machines[i].id != id
    ensures Of(InTurn(machines, answers), id) == []
    decreases |machines|
  {
    if machines != [] {
      InTurnStep(machines, answers, id);
      InTurnOfOthers(machines[..|machines| - 1], answers, id);
    }
  }

  lemma {:induction false} InTurnOf(machines: seq<Machine>, answers: Answers, i: nat)
    requires DistinctMachines(machines) && i < |machines|
    ensures Of(InTurn(machines, answers), machines[i].id) == Stamped(machines[i], answers)
    decreases |machines|
  {
    var front, last := machines[..|machines| - 1], machines[|machines| - 1];
    InTurnStep(machines, answers, machines[i].id);
    if i < |front| {
      assert machines[i].id != last.id && front[i] == machines[i];
      InTurnOf(front, answers, i);
    } else {
      InTurnOfOthers(front, answers, last.id);
    }
  }

  lemma InTurnGathers(machines: seq<Machine>, answers: Answers)
    requires DistinctMachines(machines)
    ensures Gathers(InTurn(machines, answers), machines, answers)
  {
    forall m | m in machines ensures Of(InTurn(machines, answers), m.id) == Stamped(m, answers) {
      var i :| 0 <= i < |machines| && machines[i] == m;
      InTurnOf(machines, answers, i);
    }
    forall id: U32 | (forall m | m in machines :: m.id != id) ensures Of(InTurn(machines, answers), id) == [] {
      InTurnOfOthers(machines, answers, id);
    }
  }

  /** One worker leaves the ledger that any finished schedule of any number of workers leaves. */
  lemma OneWorkerIsEnough(g: Ledger, answers: Answers, jobs: seq<Machine>,
                          m: seq<Machine>, s: State, es: seq<Event>, t: State)
    requires DistinctMachines(jobs) && DistinctMachines(m) && forall x :: x in jobs <==> x in m
    requires Init(s, m) && Reaches(s, es, t, answers) && t.collectorDone && !t.cancelled
    ensures Cycle(g, InTurn(jobs, answers)) == Cycle(g, t.collected)
  {
    FinishedCycle(s, es, t, m, answers);
    InTurnGathers(jobs, answers);
    GatheredAlike(g, answers, jobs, InTurn(jobs, answers), m, t.collected);
  }
}
