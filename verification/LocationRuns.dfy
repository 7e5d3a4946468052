/**
 Whole runs of the location poller: memory, the table of current machines and the event
 log, through any number of polls and restarts.
 */
module LocationRuns {
  import opened Prelude
  import opened Diff
  import opened DiffLaws

  // ---- The table `rvm_current` -----------------------------------------------------------

  /** One more row for a table that keeps, per id, the row with the largest `updated_at`. */
  function Merge(m: map<U32, RVM>, r: RVM): map<U32, RVM> {
    if r.id in m && m[r.id].updated > r.updated then m else m[r.id := r]
  }

  /** The rows that `FINAL` keeps. */
  function Final(table: seq<RVM>): map<U32, RVM> {
    if table == [] then map[] else Merge(Final(table[..|table| - 1]), table[|table| - 1])
  }

  /** What a restart loads: the kept rows that are not marked deleted. */
  function Loaded(table: seq<RVM>): map<U32, RVM> {
    map id | id in Final(table) && Final(table)[id].isDeleted == 0 :: Final(table)[id]
  }

  /** The stored rows are the sent ones in some order, some perhaps more than once. */
  ghost predicate SameRows(table: seq<RVM>, rows: seq<RVM>) { forall r :: r in table <==> r in rows }

  ghost predicate NoTies(rows: seq<RVM>) {
    forall r, s | r in rows && s in rows && r.id == s.id && r.updated == s.updated :: r == s
  }

  lemma {:induction false} FinalMeaning(t: seq<RVM>, id: U32)
    ensures id in Final(t) ==> Final(t)[id] in t && Final(t)[id].id == id
    ensures forall r | r in t && r.id == id :: id in Final(t) && r.updated <= Final(t)[id].updated
    decreases |t|
  {
    if t != [] {
      var front := t[..|t| - 1];
      FinalMeaning(front, id);
      assert t == front + [t[|t| - 1]];
    }
  }

  /** The order and repetition of stored rows do not matter. */
  lemma FinalIgnoresOrder(t: seq<RVM>, u: seq<RVM>)
    requires NoTies(u) && SameRows(t, u)
    ensures Final(t) == Final(u)
  {
    forall id: U32
      ensures id in Final(t) <==> id in Final(u)
      ensures id in Final(t) && id in Final(u) ==> Final(t)[id] == Final(u)[id]
    {
      FinalMeaning(t, id);
      FinalMeaning(u, id);
    }
  }

  /** Newer rows overwrite the table the way a patch overwrites a view. */
  lemma {:induction false} FinalOfNewerRows(rows: seq<RVM>, batch: seq<RVM>, now: int)
    requires (forall r | r in rows :: r.updated <= now) && (forall r | r in batch :: r.updated == now)
    ensures LiveView(Final(rows + batch)) == Patch(LiveView(Final(rows)), batch)
    decreases |batch|
  {
    if batch == [] {
      assert rows + batch == rows;
    } else {
      var front, r := batch[..|batch| - 1], batch[|batch| - 1];
      FinalOfNewerRows(rows, front, now);
      assert (rows + batch)[..|rows + batch| - 1] == rows + front;
      FinalMeaning(rows + front, r.id);
      MergeIsPatch(Final(rows + front), r);
    }
  }

  lemma MergeIsPatch(m: map<U32, RVM>, r: RVM)
    requires r.id in m ==> m[r.id].updated <= r.updated
    ensures LiveView(Merge(m, r)) == PatchOne(LiveView(m), r)
  {
  }

  // ---- Polls, restarts and runs ----------------------------------------------------------

  /** A machine as the API reports it; decoding leaves the other columns zero. */
  datatype Location = Location(id: U32, serial: string, supplier: string, location: string,
                               address: string, status: string, details: string)

  const ZERO_TIME: int := -62135596800_000

  function Decode(l: Location): RVM {
    RVM(l.id, l.serial, l.supplier, l.location, l.address, l.status, l.details, ZERO_TIME, ZERO_TIME, 0)
  }

  function DecodeAll(ls: seq<Location>): seq<RVM> { seq(|ls|, i requires 0 <= i < |ls| => Decode(ls[i])) }

  /** A Go map built record by record. */
  function ById(current: seq<RVM>): map<U32, RVM> {
    if current == [] then map[]
    else ById(current[..|current| - 1])[current[|current| - 1].id := current[|current| - 1]]
  }

  /** One poll: its time (in the table's milliseconds), the response, the order of the removal loop. */
  datatype Poll = Poll(now: int, locations: seq<Location>, order: seq<U32>)

  /** A poll, or a restart that loads what the table then holds. */
  datatype Step = Polled(poll: Poll) | Restarted(table: seq<RVM>)

  /** Memory, all rows and events sent so far, and the time of the last poll. */
  datatype Tracker = Tracker(active: map<U32, RVM>, rows: seq<RVM>, log: seq<Event>, clock: int)

  ghost predicate ValidStep(s: Tracker, step: Step) {
    match step
    case Polled(p) =>
      && s.clock < p.now && DistinctIds(DecodeAll(p.locations))
      && Enumerates(p.order, RemovedIds(s.active, DecodeAll(p.locations)))
    case Restarted(table) => SameRows(table, s.rows)
  }

  function PollDiff(s: Tracker, p: Poll): DiffResult
    requires forall id | id in p.order :: id in s.active
  {
    DiffBy(s.active, DecodeAll(p.locations), p.now, p.order)
  }

  function After(s: Tracker, step: Step): Tracker
    requires step.Polled? ==> forall id | id in step.poll.order :: id in s.active
  {
    match step
    case Polled(p) =>
      var d := PollDiff(s, p);
      Tracker(ById(DecodeAll(p.locations)), s.rows + Rows(d), s.log + d.events, p.now)
    case Restarted(table) => s.(active := Loaded(table))
  }

  ghost predicate ValidRun(s: Tracker, steps: seq<Step>)
    decreases |steps|
  {
    steps == [] || (ValidStep(s, steps[0]) && ValidRun(After(s, steps[0]), steps[1..]))
  }

  ghost function Run(s: Tracker, steps: seq<Step>): Tracker
    requires ValidRun(s, steps)
    decreases |steps|
  {
    if steps == [] then s else Run(After(s, steps[0]), steps[1..])
  }

  predicate Fresh(s: Tracker) { s.active == map[] && s.rows == [] && s.log == [] }

  // ---- Replaying the event log -----------------------------------------------------------

  function Statuses(v: map<U32, Tracked>): map<U32, string> { map id | id in v :: v[id].status }

  /** One event against the statuses so far; None if it does not fit them. */
  function ReplayOne(m: map<U32, string>, e: Event): Option<map<U32, string>> {
    match e.kind
    case MachineAdded => if e.id !in m && e.previousStatus == "" then Some(m[e.id := e.currentStatus]) else None
    case StatusChanged =>
      if e.id in m && m[e.id] == e.previousStatus && e.currentStatus != e.previousStatus
      then Some(m[e.id := e.currentStatus]) else None
    case MetadataUpdated =>
      if e.id in m && m[e.id] == e.previousStatus && e.currentStatus == e.previousStatus then Some(m) else None
    case MachineRemoved =>
      if e.id in m && m[e.id] == e.previousStatus && e.currentStatus == "DELETED" then Some(m - {e.id}) else None
  }

  function Replay(m: map<U32, string>, es: seq<Event>): Option<map<U32, string>> {
    if es == [] then Some(m)
    else
      var before := Replay(m, es[..|es| - 1]);
      if before.Some? then ReplayOne(before.value, es[|es| - 1]) else None
  }

  lemma {:induction false} ReplayConcat(m: map<U32, string>, a: seq<Event>, b: seq<Event>)
    requires Replay(m, a).Some?
    ensures Replay(m, a + b) == Replay(Replay(m, a).value, b)
    decreases |b|
  {
    if b == [] {
      assert a + b == a;
    } else {
      assert (a + b)[..|a + b| - 1] == a + b[..|b| - 1];
      ReplayConcat(m, a, b[..|b| - 1]);
    }
  }

  /** The events for one record of the response. */
  function RecordEvents(previous: map<U32, RVM>, r: RVM, now: int): seq<Event> {
    if !Live(previous, r.id) then [AddedEvent(r, now)]
    else if Changed(previous, r) then [UpdatedEvent(previous[r.id], r, now)]
    else []
  }

  /** The event, if any, for one record of the response, replayed on a view that still has the old entry. */
  lemma ReplayRecord(v: map<U32, Tracked>, previous: map<U32, RVM>, r: RVM, now: int)
    requires Entry(v, r.id) == Entry(LiveView(previous), r.id)
    ensures Replay(Statuses(v), RecordEvents(previous, r, now)) == Some(Statuses(v[r.id := TrackedOf(r)]))
  {
    assert Statuses(v[r.id := TrackedOf(r)]) == Statuses(v)[r.id := r.status];
    if Live(previous, r.id) && previous[r.id].status == r.status {
      assert Statuses(v)[r.id := r.status] == Statuses(v);
    }
  }

  lemma OverlayPut(v: map<U32, Tracked>, w: map<U32, Tracked>, id: U32, x: Tracked)
    ensures v + w[id := x] == (v + w)[id := x]
    ensures id !in w ==> Entry(v + w, id) == Entry(v, id)
  {
  }

  lemma OverlayStep(previous: map<U32, RVM>, front: seq<RVM>, r: RVM)
    requires DistinctIds(front + [r])
    ensures Entry(LiveView(previous) + CurrentView(front), r.id) == Entry(LiveView(previous), r.id)
    ensures LiveView(previous) + CurrentView(front + [r]) ==
              (LiveView(previous) + CurrentView(front))[r.id := TrackedOf(r)]
  {
    CurrentViewKeys(front);
    forall i | 0 <= i < |front| ensures front[i].id != r.id {
      assert (front + [r])[i] == front[i] && (front + [r])[|front|] == r;
    }
    assert (front + [r])[..|front|] == front;
    OverlayPut(LiveView(previous), CurrentView(front), r.id, TrackedOf(r));
  }

  lemma {:induction false} ReplayCurrent(previous: map<U32, RVM>, current: seq<RVM>, now: int)
    requires DistinctIds(current)
    ensures Replay(Statuses(LiveView(previous)), CurrentEvents(previous, current, now)) ==
            Some(Statuses(LiveView(previous) + CurrentView(current)))
    decreases |current|
  {
    var m := Statuses(LiveView(previous));
    if current == [] {
      assert LiveView(previous) + CurrentView(current) == LiveView(previous);
    } else {
      var front, r := current[..|current| - 1], current[|current| - 1];
      var es, more := CurrentEvents(previous, front, now), RecordEvents(previous, r, now);
      assert current == front + [r];
      ReplayCurrent(previous, front, now);
      OverlayStep(previous, front, r);
      ReplayRecord(LiveView(previous) + CurrentView(front), previous, r, now);
      ReplayConcat(m, es, more);
      assert CurrentEvents(previous, current, now) == es + more;
    }
  }

  lemma ReplaySnoc(m: map<U32, string>, es: seq<Event>, e: Event)
    requires Replay(m, es).Some?
    ensures Replay(m, es + [e]) == ReplayOne(Replay(m, es).value, e)
  {
    assert (es + [e])[..|es|] == es;
  }

  lemma RemoveSnoc(m: map<U32, string>, front: seq<U32>, id: U32)
    ensures m - Visited(front + [id]) == m - Visited(front) - {id}
  {
    assert Visited(front + [id]) == Visited(front) + {id};
  }

  lemma ReplayRemoval(m: map<U32, string>, prev: RVM, now: int)
    requires prev.id in m && m[prev.id] == prev.status
    ensures ReplayOne(m, RemovedEvent(prev, now)) == Some(m - {prev.id})
  {
  }

  lemma {:induction false} ReplayRemoved(m: map<U32, string>, previous: map<U32, RVM>, order: seq<U32>, now: int)
    requires KeysMatch(previous) && (forall i, j | 0 <= i < j < |order| :: order[i] != order[j])
    requires forall id | id in order :: id in previous && id in m && m[id] == previous[id].status
    ensures Replay(m, RemovedEvents(previous, order, now)) == Some(m - Visited(order))
    decreases |order|
  {
    if order == [] {
      assert m - Visited(order) == m;
    } else {
      var front, id := order[..|order| - 1], order[|order| - 1];
      ReplayRemoved(m, previous, front, now);
      assert order == front + [id] && id !in front && id in order;
      assert RemovedEvents(previous, order, now) ==
          RemovedEvents(previous, front, now) + [RemovedEvent(previous[id], now)];
      ReplaySnoc(m, RemovedEvents(previous, front, now), RemovedEvent(previous[id], now));
      ReplayRemoval(m - Visited(front), previous[id], now);
      RemoveSnoc(m, front, id);
    }
  }

  lemma DiffOverlay(previous: map<U32, RVM>, current: seq<RVM>)
    ensures var v := LiveView(previous) + CurrentView(current);
            && Statuses(v) - RemovedIds(previous, current) == Statuses(CurrentView(current))
            && forall id | id in RemovedIds(previous, current) ::
                id in Statuses(v) && Statuses(v)[id] == previous[id].status
  {
    CurrentViewKeys(current);
  }

  lemma ReplayDiff(previous: map<U32, RVM>, current: seq<RVM>, now: int, order: seq<U32>)
    requires KeysMatch(previous) && DistinctIds(current) && Enumerates(order, RemovedIds(previous, current))
    ensures Replay(Statuses(LiveView(previous)), DiffBy(previous, current, now, order).events) ==
            Some(Statuses(CurrentView(current)))
  {
    var m := Statuses(LiveView(previous) + CurrentView(current));
    ReplayCurrent(previous, current, now);
    DiffOverlay(previous, current);
    ReplayRemoved(m, previous, order, now);
    ReplayConcat(Statuses(LiveView(previous)), CurrentEvents(previous, current, now),
                 RemovedEvents(previous, order, now));
    assert Visited(order) == RemovedIds(previous, current);
  }

  // ---- The invariant ---------------------------------------------------------------------

  ghost predicate TrackerInv(s: Tracker) {
    && KeysMatch(s.active)
    && (forall r | r in s.rows :: r.updated <= s.clock && r.isDeleted <= 1)
    && NoTies(s.rows)
    && LiveView(Final(s.rows)) == LiveView(s.active)
    && Replay(map[], s.log) == Some(Statuses(LiveView(s.active)))
  }

  lemma FreshInv(s: Tracker)
    requires Fresh(s)
    ensures TrackerInv(s)
  {
    assert Statuses(LiveView(s.active)) == map[];
  }

  lemma {:induction false} ByIdMeaning(current: seq<RVM>)
    requires forall r | r in current :: r.isDeleted == 0
    ensures KeysMatch(ById(current)) && LiveView(ById(current)) == CurrentView(current)
    ensures forall id | id in ById(current) :: ById(current)[id] in current
    decreases |current|
  {
    if current != [] {
      var front, r := current[..|current| - 1], current[|current| - 1];
      assert current == front + [r];
      ByIdMeaning(front);
    }
  }

  /** Every row of a diff bears the time of the poll. */
  lemma {:induction false} RowsAreStamped(previous: map<U32, RVM>, current: seq<RVM>, now: int)
    ensures forall r | r in AddedRows(previous, current, now) + UpdatedRows(previous, current, now) ::
              r.updated == now && r.isDeleted == 0
    decreases |current|
  {
    if current != [] { RowsAreStamped(previous, current[..|current| - 1], now); }
  }

  lemma DiffRowsAreStamped(s: Tracker, p: Poll)
    requires ValidStep(s, Polled(p))
    ensures forall r | r in Rows(PollDiff(s, p)) :: r.updated == p.now && r.isDeleted <= 1
  {
    RowsAreStamped(s.active, DecodeAll(p.locations), p.now);
    var d := PollDiff(s, p);
    assert forall r | r in Rows(d) :: r in d.added + d.updated || r in d.removed;
  }

  lemma PollKeepsRows(s: Tracker, p: Poll)
    requires TrackerInv(s) && ValidStep(s, Polled(p))
    ensures forall r | r in s.rows + Rows(PollDiff(s, p)) :: r.updated <= p.now && r.isDeleted <= 1
    ensures NoTies(s.rows + Rows(PollDiff(s, p)))
  {
    var batch := Rows(PollDiff(s, p));
    DiffRowsAreStamped(s, p);
    ListsAreDisjoint(s.active, DecodeAll(p.locations), p.now, p.order);
    NoTiesConcat(s.rows, batch, s.clock, p.now);
  }

  lemma NoTiesConcat(rows: seq<RVM>, batch: seq<RVM>, clock: int, now: int)
    requires NoTies(rows) && DistinctRowIds(batch) && clock < now
    requires (forall r | r in rows :: r.updated <= clock) && (forall r | r in batch :: r.updated == now)
    ensures NoTies(rows + batch)
  {
    forall r, s | r in batch && s in batch && r.id == s.id ensures r == s {}
  }

  lemma PollKeepsTable(s: Tracker, p: Poll)
    requires TrackerInv(s) && ValidStep(s, Polled(p))
    ensures LiveView(Final(s.rows + Rows(PollDiff(s, p)))) == CurrentView(DecodeAll(p.locations))
  {
    var current := DecodeAll(p.locations);
    DiffRowsAreStamped(s, p);
    FinalOfNewerRows(s.rows, Rows(PollDiff(s, p)), p.now);
    DistinctIdsLoseNothing(s.active, current);
    PatchReachesCurrentIff(s.active, current, p.now, p.order);
  }

  lemma PollKeepsInv(s: Tracker, p: Poll)
    requires TrackerInv(s) && ValidStep(s, Polled(p))
    ensures TrackerInv(After(s, Polled(p)))
  {
    PollKeepsRows(s, p);
    PollKeepsTable(s, p);
    ByIdMeaning(DecodeAll(p.locations));
    ReplayDiff(s.active, DecodeAll(p.locations), p.now, p.order);
    ReplayConcat(map[], s.log, PollDiff(s, p).events);
  }

  lemma RestartKeepsInv(s: Tracker, table: seq<RVM>)
    requires TrackerInv(s) && ValidStep(s, Restarted(table))
    ensures TrackerInv(After(s, Restarted(table)))
    ensures LiveView(Loaded(table)) == LiveView(s.active)
  {
    FinalIgnoresOrder(table, s.rows);
    forall id | id in Final(table) ensures Final(table)[id].id == id && Final(table)[id].isDeleted <= 1 {
      FinalMeaning(table, id);
    }
    assert LiveView(Loaded(table)) == LiveView(Final(table));
  }

  lemma {:induction false} RunKeepsInv(s: Tracker, steps: seq<Step>)
    requires TrackerInv(s) && ValidRun(s, steps)
    ensures TrackerInv(Run(s, steps))
    decreases |steps|
  {
    if steps != [] {
      match steps[0] {
        case Polled(p) => PollKeepsInv(s, p);
        case Restarted(table) => RestartKeepsInv(s, table);
      }
      RunKeepsInv(After(s, steps[0]), steps[1..]);
    }
  }

  // ---- Main results ----------------------------------------------------------------------

  /**
   After any run, with any restarts, the table as it may be stored, whatever the order and
   repetition of its rows, loads exactly the machines in memory with the same status,
   location name and address.
   */
  lemma TableAgreesWithMemory(s0: Tracker, steps: seq<Step>, table: seq<RVM>)
    requires Fresh(s0) && ValidRun(s0, steps) && SameRows(table, Run(s0, steps).rows)
    ensures LiveView(Loaded(table)) == LiveView(Run(s0, steps).active)
  {
    FreshInv(s0);
    RunKeepsInv(s0, steps);
    RestartKeepsInv(Run(s0, steps), table);
  }

  /** Replaying the whole event log, across restarts, gives the machines in memory and their statuses. */
  lemma LogReplaysToMemory(s0: Tracker, steps: seq<Step>)
    requires Fresh(s0) && ValidRun(s0, steps)
    ensures Replay(map[], Run(s0, steps).log) == Some(Statuses(LiveView(Run(s0, steps).active)))
  {
    FreshInv(s0);
    RunKeepsInv(s0, steps);
  }

  // ---- The log machine by machine --------------------------------------------------------

  /** `i` is the last event about `id` before position `n`. */
  ghost predicate LastBefore(log: seq<Event>, n: nat, id: U32, i: int) {
    0 <= i < n <= |log| && log[i].id == id && forall k | i < k < n :: log[k].id != id
  }

  lemma {:induction false} ReplayPrefix(log: seq<Event>, n: nat)
    requires Replay(map[], log).Some? && n <= |log|
    ensures Replay(map[], log[..n]).Some?
    decreases |log|
  {
    if n < |log| {
      ReplayPrefix(log[..|log| - 1], n);
      assert log[..|log| - 1][..n] == log[..n];
    } else {
      assert log[..n] == log;
    }
  }

  /** The status a log leaves a machine with, if it leaves it present. */
  function LastStatus(es: seq<Event>, id: U32): Option<string> {
    if es == [] then None
    else
      var e := es[|es| - 1];
      if e.id != id then LastStatus(es[..|es| - 1], id)
      else if e.kind.MachineRemoved? then None else Some(e.currentStatus)
  }

  function StatusIn(m: map<U32, string>, id: U32): Option<string> { if id in m then Some(m[id]) else None }

  lemma ReplayOneKnows(m: map<U32, string>, e: Event, id: U32)
    requires ReplayOne(m, e).Some?
    ensures StatusIn(ReplayOne(m, e).value, id) ==
            if e.id != id then StatusIn(m, id) else if e.kind.MachineRemoved? then None else Some(e.currentStatus)
  {
  }

  /** What a replayed log knows of a machine is what its last event there said. */
  lemma {:induction false} ReplayKnowsLast(es: seq<Event>, id: U32)
    requires Replay(map[], es).Some?
    ensures StatusIn(Replay(map[], es).value, id) == LastStatus(es, id)
    decreases |es|
  {
    if es != [] {
      var front := es[..|es| - 1];
      ReplayKnowsLast(front, id);
      ReplayOneKnows(Replay(map[], front).value, es[|es| - 1], id);
    }
  }

  lemma {:induction false} LastStatusMeaning(log: seq<Event>, n: nat, id: U32)
    requires n <= |log|
    ensures (forall k | 0 <= k < n :: log[k].id != id) ==> LastStatus(log[..n], id) == None
    ensures forall i | LastBefore(log, n, id, i) ::
              LastStatus(log[..n], id) == if log[i].kind.MachineRemoved? then None else Some(log[i].currentStatus)
    decreases n
  {
    if n > 0 {
      assert log[..n][..n - 1] == log[..n - 1];
      LastStatusMeaning(log, n - 1, id);
      forall i | LastBefore(log, n, id, i)
        ensures LastStatus(log[..n], id) == if log[i].kind.MachineRemoved? then None else Some(log[i].currentStatus)
      {
        if i < n - 1 { assert LastBefore(log, n - 1, id, i); }
      }
    }
  }

  /** What the history of one machine must look like at position `j` of a log. */
  ghost predicate LifeStory(log: seq<Event>, j: nat)
    requires j < |log|
  {
    && ((forall k | 0 <= k < j :: log[k].id != log[j].id) ==> log[j].kind.MachineAdded?)
    && forall i | LastBefore(log, j, log[j].id, i) ::
         && (log[j].kind.MachineAdded? <==> log[i].kind.MachineRemoved?)
         && (!log[j].kind.MachineAdded? ==> log[j].previousStatus == log[i].currentStatus)
  }

  lemma ReplayedLogIsLifeStory(log: seq<Event>, j: nat)
    requires Replay(map[], log).Some? && j < |log|
    ensures LifeStory(log, j)
  {
    ReplayPrefix(log, j);
    ReplayPrefix(log, j + 1);
    assert log[..j + 1][..j] == log[..j];
    ReplayKnowsLast(log[..j], log[j].id);
    LastStatusMeaning(log, j, log[j].id);
    EventFits(Replay(map[], log[..j]).value, log[j]);
  }

  /**
   Per machine the log reads as a life story: it starts with ADDED; ADDED comes only first
   or right after REMOVED; only ADDED follows REMOVED; and every other event's previous
   status is the current status of the event before.
   */
  lemma LifeStories(s0: Tracker, steps: seq<Step>, j: nat)
    requires Fresh(s0) && ValidRun(s0, steps) && j < |Run(s0, steps).log|
    ensures LifeStory(Run(s0, steps).log, j)
  {
    LogReplaysToMemory(s0, steps);
    ReplayedLogIsLifeStory(Run(s0, steps).log, j);
  }

  /** An event that fits the statuses so far: only ADDED for an absent machine, and never for a present one. */
  lemma EventFits(m: map<U32, string>, e: Event)
    requires ReplayOne(m, e).Some?
    ensures e.kind.MachineAdded? <==> StatusIn(m, e.id) == None
    ensures !e.kind.MachineAdded? ==> StatusIn(m, e.id) == Some(e.previousStatus)
  {
  }
}
