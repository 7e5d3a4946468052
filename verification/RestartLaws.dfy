/** A restart cannot be told apart from no restart, and what it does show: `first_seen_at`. */
module RestartLaws {
  import opened Prelude
  import opened Diff
  import opened DiffLaws
  import opened LocationRuns

  /** The part of an event that a restart must not change. */
  datatype EventKey = EventKey(kind: EventKind, id: U32, previousStatus: string, currentStatus: string)

  function KeyOf(e: Event): EventKey { EventKey(e.kind, e.id, e.previousStatus, e.currentStatus) }

  function Keys(es: seq<Event>): seq<EventKey> { seq(|es|, i requires 0 <= i < |es| => KeyOf(es[i])) }

  /** Two memories with the same view emit the same events for the records of a response. */
  lemma {:induction false} SameCurrentKeys(m: map<U32, RVM>, n: map<U32, RVM>, current: seq<RVM>, now: int)
    requires LiveView(m) == LiveView(n)
    ensures Keys(CurrentEvents(m, current, now)) == Keys(CurrentEvents(n, current, now))
    decreases |current|
  {
    if current != [] {
      var front, r := current[..|current| - 1], current[|current| - 1];
      SameCurrentKeys(m, n, front, now);
      assert Entry(LiveView(m), r.id) == Entry(LiveView(n), r.id);
      assert CurrentEvents(m, current, now) == CurrentEvents(m, front, now) + RecordEvents(m, r, now);
      assert CurrentEvents(n, current, now) == CurrentEvents(n, front, now) + RecordEvents(n, r, now);
      KeysConcat(CurrentEvents(m, front, now), RecordEvents(m, r, now));
      KeysConcat(CurrentEvents(n, front, now), RecordEvents(n, r, now));
      assert Keys(RecordEvents(m, r, now)) == Keys(RecordEvents(n, r, now));
    }
  }

  lemma KeysConcat(a: seq<Event>, b: seq<Event>)
    ensures Keys(a + b) == Keys(a) + Keys(b)
  {
  }

  function RemovalKeys(v: map<U32, Tracked>, order: seq<U32>): seq<EventKey>
    requires forall id | id in order :: id in v
  {
    seq(|order|, i requires 0 <= i < |order| => EventKey(MachineRemoved, order[i], v[order[i]].status, "DELETED"))
  }

  lemma {:induction false} DistinctCount(ks: seq<EventKey>, k: EventKey)
    requires forall i, j | 0 <= i < j < |ks| :: ks[i] != ks[j]
    ensures multiset(ks)[k] == if k in ks then 1 else 0
    decreases |ks|
  {
    if ks != [] {
      var front := ks[..|ks| - 1];
      assert ks == front + [ks[|ks| - 1]];
      DistinctCount(front, k);
    }
  }

  /** Visiting the same machines in another order permutes the keys. */
  lemma RemovalKeysPermute(v: map<U32, Tracked>, a: seq<U32>, b: seq<U32>)
    requires (forall id | id in a :: id in v) && forall id | id in b :: id in v
    requires (forall i, j | 0 <= i < j < |a| :: a[i] != a[j]) && forall i, j | 0 <= i < j < |b| :: b[i] != b[j]
    requires forall id :: id in a <==> id in b
    ensures multiset(RemovalKeys(v, a)) == multiset(RemovalKeys(v, b))
  {
    var ka, kb := RemovalKeys(v, a), RemovalKeys(v, b);
    forall k: EventKey ensures multiset(ka)[k] == multiset(kb)[k] {
      DistinctCount(ka, k);
      DistinctCount(kb, k);
      if k in ka {
        var i :| 0 <= i < |a| && ka[i] == k;
        assert a[i] in b;
        var j :| 0 <= j < |b| && b[j] == a[i];
        assert kb[j] == k;
      }
      if k in kb {
        var i :| 0 <= i < |b| && kb[i] == k;
        assert b[i] in a;
        var j :| 0 <= j < |a| && a[j] == b[i];
        assert ka[j] == k;
      }
    }
  }

  lemma RemovedKeys(m: map<U32, RVM>, order: seq<U32>, now: int)
    requires KeysMatch(m) && forall id | id in order :: id in m && id in LiveView(m)
    ensures Keys(RemovedEvents(m, order, now)) == RemovalKeys(LiveView(m), order)
  {
  }

  /** Memories with the same view report the same changes, whatever else they remember. */
  lemma SameViewSameEvents(m: map<U32, RVM>, n: map<U32, RVM>, current: seq<RVM>, now: int, a: seq<U32>, b: seq<U32>)
    requires LiveView(m) == LiveView(n) && KeysMatch(m) && KeysMatch(n)
    requires Enumerates(a, RemovedIds(m, current)) && Enumerates(b, RemovedIds(n, current))
    ensures multiset(Keys(DiffBy(m, current, now, a).events)) == multiset(Keys(DiffBy(n, current, now, b).events))
  {
    var v := LiveView(m);
    forall id: U32 ensures id in RemovedIds(m, current) <==> id in RemovedIds(n, current) {
      assert id in LiveView(m) <==> id in LiveView(n);
    }
    SameCurrentKeys(m, n, current, now);
    RemovedKeys(m, a, now);
    RemovedKeys(n, b, now);
    RemovalKeysPermute(v, a, b);
    KeysConcat(CurrentEvents(m, current, now), RemovedEvents(m, a, now));
    KeysConcat(CurrentEvents(n, current, now), RemovedEvents(n, b, now));
  }

  // ---- Runs ------------------------------------------------------------------------------

  /** What upstream sends, poll by poll. */
  function Inputs(steps: seq<Step>): seq<(int, seq<Location>)> {
    if steps == [] then []
    else
      (if steps[0].Polled? then [(steps[0].poll.now, steps[0].poll.locations)] else []) + Inputs(steps[1..])
  }

  /** What each poll of a run reports. */
  ghost function Reports(s: Tracker, steps: seq<Step>): seq<multiset<EventKey>>
    requires ValidRun(s, steps)
    decreases |steps|
  {
    if steps == [] then []
    else
      (if steps[0].Polled? then [multiset(Keys(PollDiff(s, steps[0].poll).events))] else []) +
      Reports(After(s, steps[0]), steps[1..])
  }

  /** Two trackers that the outside cannot tell apart. */
  ghost predicate Twins(s: Tracker, t: Tracker) {
    TrackerInv(s) && TrackerInv(t) && LiveView(s.active) == LiveView(t.active)
  }

  /** The same response, polled by both, whatever order their removal loops take. */
  lemma TwinsAfterPolls(s: Tracker, t: Tracker, p: Poll, q: Poll)
    requires Twins(s, t) && ValidStep(s, Polled(p)) && ValidStep(t, Polled(q))
    requires p.now == q.now && p.locations == q.locations
    ensures Twins(After(s, Polled(p)), After(t, Polled(q)))
    ensures multiset(Keys(PollDiff(s, p).events)) == multiset(Keys(PollDiff(t, q).events))
  {
    SameViewSameEvents(s.active, t.active, DecodeAll(p.locations), p.now, p.order, q.order);
    PollKeepsInv(s, p);
    PollKeepsInv(t, q);
  }

  lemma InputsOfPoll(steps: seq<Step>)
    requires steps != [] && steps[0].Polled?
    ensures Inputs(steps) == [(steps[0].poll.now, steps[0].poll.locations)] + Inputs(steps[1..])
    ensures Inputs(steps)[1..] == Inputs(steps[1..])
  {
  }

  lemma {:induction false} TwinsReportAlike(s: Tracker, t: Tracker, a: seq<Step>, b: seq<Step>)
    requires Twins(s, t) && ValidRun(s, a) && ValidRun(t, b) && Inputs(a) == Inputs(b)
    ensures Reports(s, a) == Reports(t, b)
    ensures Twins(Run(s, a), Run(t, b))
    decreases |a| + |b|
  {
    if a != [] && a[0].Restarted? {
      RestartKeepsInv(s, a[0].table);
      TwinsReportAlike(After(s, a[0]), t, a[1..], b);
      assert Reports(s, a) == Reports(After(s, a[0]), a[1..]);
    } else if b != [] && b[0].Restarted? {
      RestartKeepsInv(t, b[0].table);
      TwinsReportAlike(s, After(t, b[0]), a, b[1..]);
      assert Reports(t, b) == Reports(After(t, b[0]), b[1..]);
    } else if a != [] && b != [] {
      InputsOfPoll(a);
      InputsOfPoll(b);
      assert Inputs(a)[0] == (a[0].poll.now, a[0].poll.locations) && Inputs(b)[0] == Inputs(a)[0];
      TwinsAfterPolls(s, t, a[0].poll, b[0].poll);
      TwinsReportAlike(After(s, a[0]), After(t, b[0]), a[1..], b[1..]);
    }
  }

  /**
   Restart equivalence: two runs of the same polls, with any restarts in either, loading
   any stored order of the rows, report the same multiset of (type, id, previous status,
   current status) at every poll and end with the same machines.
   */
  lemma RestartsAreInvisible(s0: Tracker, a: seq<Step>, b: seq<Step>)
    requires Fresh(s0) && ValidRun(s0, a) && ValidRun(s0, b) && Inputs(a) == Inputs(b)
    ensures Reports(s0, a) == Reports(s0, b)
    ensures LiveView(Run(s0, a).active) == LiveView(Run(s0, b).active)
  {
    FreshInv(s0);
    TwinsReportAlike(s0, s0, a, b);
  }

  // ---- first_seen_at ---------------------------------------------------------------------

  /** Memory holds raw records: no restart since the last poll. */
  ghost predicate RawMemory(m: map<U32, RVM>) { forall id | id in m :: m[id].firstSeen == ZERO_TIME }

  /** The time of the latest ADDED event of a machine. */
  function AddedTime(log: seq<Event>, id: U32): int {
    if log == [] then ZERO_TIME
    else
      var e := log[|log| - 1];
      if e.id == id && e.kind.MachineAdded? then e.recordedAt else AddedTime(log[..|log| - 1], id)
  }

  /**
   The machines whose latest row still has the time of their ADDED event. The adding row
   has it. Any other row keeps it only if the row before had it and no poll lies between
   the restart that loaded that row and the poll that writes the new one (`hydrated`).
   */
  ghost function Keepers(s: Tracker, steps: seq<Step>, keepers: set<U32>, hydrated: bool): set<U32>
    requires ValidRun(s, steps)
    decreases |steps|
  {
    if steps == [] then keepers
    else Keepers(After(s, steps[0]), steps[1..], KeepersAfter(s, steps[0], keepers, hydrated), steps[0].Restarted?)
  }

  ghost function KeepersAfter(s: Tracker, step: Step, keepers: set<U32>, hydrated: bool): set<U32>
    requires ValidStep(s, step)
  {
    match step
    case Restarted(_) => keepers
    case Polled(p) =>
      var d := PollDiff(s, p);
      (if hydrated then keepers else keepers - RowIds(d.updated) - RowIds(d.removed)) + RowIds(d.added)
  }

  /** Whether the last step of a run was a restart. */
  function Hydrated(steps: seq<Step>, before: bool): bool {
    if steps == [] then before else Hydrated(steps[1..], steps[0].Restarted?)
  }

  /** What the table, the log and memory know of first-seen times. */
  ghost predicate SeenInv(s: Tracker, keepers: set<U32>, hydrated: bool) {
    && TrackerInv(s)
    && (forall e | e in s.log :: e.recordedAt <= s.clock)
    && (forall id | id in Final(s.rows) ::
          Final(s.rows)[id].firstSeen == if id in keepers then AddedTime(s.log, id) else ZERO_TIME)
    && (hydrated ==>
        forall id | id in s.active :: id in Final(s.rows) && s.active[id].firstSeen == Final(s.rows)[id].firstSeen)
    && (!hydrated ==> RawMemory(s.active))
  }

  /** A new row is its machine's latest; machines without one keep theirs. */
  lemma FinalAfterPoll(rows: seq<RVM>, batch: seq<RVM>, clock: int, now: int, id: U32)
    requires NoTies(rows) && DistinctRowIds(batch) && clock < now
    requires (forall r | r in rows :: r.updated <= clock) && (forall r | r in batch :: r.updated == now)
    ensures id !in RowIds(batch) ==> (id in Final(rows + batch) <==> id in Final(rows))
    ensures id !in RowIds(batch) && id in Final(rows) ==> Final(rows + batch)[id] == Final(rows)[id]
    ensures forall r | r in batch && r.id == id :: id in Final(rows + batch) && Final(rows + batch)[id] == r
  {
    FinalMeaning(rows, id);
    FinalMeaning(rows + batch, id);
    if id in Final(rows + batch) {
      var kept := Final(rows + batch)[id];
      assert kept in rows || kept in batch;
      if id in RowIds(batch) {
        var r :| r in batch && r.id == id;
        assert r in rows + batch;
      }
      forall r | r in batch && r.id == id ensures kept == r { assert r in rows + batch; }
    }
    forall r | r in batch && r.id == id ensures id in Final(rows + batch) { assert r in rows + batch; }
    if id in Final(rows) { assert Final(rows)[id] in rows + batch; }
  }

  lemma {:induction false} AddedTimeConcat(log: seq<Event>, more: seq<Event>, id: U32, now: int)
    requires forall e | e in more :: e.recordedAt == now
    ensures AddedTime(log + more, id) ==
            if exists e :: e in more && e.id == id && e.kind.MachineAdded? then now else AddedTime(log, id)
    decreases |more|
  {
    if more == [] {
      assert log + more == log;
    } else {
      var front, e := more[..|more| - 1], more[|more| - 1];
      AddedTimeConcat(log, front, id, now);
      assert more == front + [e];
      assert (log + more)[..|log + more| - 1] == log + front;
    }
  }

  /** The ADDED events of a response are those of the machines it adds, and all events bear its time. */
  lemma {:induction false} AddedEvents(previous: map<U32, RVM>, current: seq<RVM>, now: int, id: U32)
    ensures (exists e :: e in CurrentEvents(previous, current, now) && e.id == id && e.kind.MachineAdded?)
            <==> id in Ids(current) && !Live(previous, id)
    ensures forall e | e in CurrentEvents(previous, current, now) :: e.recordedAt == now
    decreases |current|
  {
    if current != [] {
      var front, r := current[..|current| - 1], current[|current| - 1];
      AddedEvents(previous, front, now, id);
      assert current == front + [r];
      var es, more := CurrentEvents(previous, front, now), RecordEvents(previous, r, now);
      assert CurrentEvents(previous, current, now) == es + more;
      if r.id == id && !Live(previous, id) { assert more[0] in more; }
    }
  }

  /** After a poll, the added time is the poll's for the machines it adds. */
  lemma AddedTimeAfterPoll(s: Tracker, p: Poll, id: U32)
    requires ValidStep(s, Polled(p))
    ensures AddedTime(After(s, Polled(p)).log, id) ==
            if id in RowIds(PollDiff(s, p).added) then p.now else AddedTime(s.log, id)
    ensures forall e | e in PollDiff(s, p).events :: e.recordedAt == p.now
  {
    var current, d := DecodeAll(p.locations), PollDiff(s, p);
    AddedEvents(s.active, current, p.now, id);
    AddedIds(s.active, current, p.now, id);
    assert forall e | e in d.events :: e.recordedAt == p.now;
    AddedTimeConcat(s.log, d.events, id, p.now);
    if e :| e in CurrentEvents(s.active, current, p.now) && e.id == id && e.kind.MachineAdded? { assert e in d.events; }
  }

  /** First-seen times of a poll's rows: its own, or what memory has for the machine. */
  lemma {:induction false} CopiedTimes(previous: map<U32, RVM>, current: seq<RVM>, now: int)
    ensures forall r | r in AddedRows(previous, current, now) :: r.firstSeen == now
    ensures forall r | r in UpdatedRows(previous, current, now) ::
              r.id in previous && r.firstSeen == previous[r.id].firstSeen
    decreases |current|
  {
    if current != [] { CopiedTimes(previous, current[..|current| - 1], now); }
  }

  lemma PollRowTimes(s: Tracker, p: Poll, r: RVM)
    requires KeysMatch(s.active) && ValidStep(s, Polled(p)) && r in Rows(PollDiff(s, p))
    ensures r.id in RowIds(PollDiff(s, p).added) ==> r.firstSeen == p.now
    ensures r.id !in RowIds(PollDiff(s, p).added) ==>
              && r.id in RowIds(PollDiff(s, p).updated) + RowIds(PollDiff(s, p).removed)
              && r.id in s.active && r.firstSeen == s.active[r.id].firstSeen
  {
    var current, d := DecodeAll(p.locations), PollDiff(s, p);
    CopiedTimes(s.active, current, p.now);
    AddedIds(s.active, current, p.now, r.id);
    if r in d.updated {
      UpdatedIds(s.active, current, p.now);
      ChangedViewMeaning(s.active, current, r.id);
      assert r.id in RowIds(d.updated);
    } else if r !in d.added {
      var i :| 0 <= i < |d.removed| && d.removed[i] == r;
      assert p.order[i] in p.order;
      assert r.id in RowIds(d.removed);
    } else {
      assert r.id in RowIds(d.added);
    }
  }

  /** One machine's latest row after a poll. */
  lemma PollFinal(s: Tracker, p: Poll, id: U32)
    requires TrackerInv(s) && ValidStep(s, Polled(p)) && id in Final(After(s, Polled(p)).rows)
    ensures var d, kept := PollDiff(s, p), Final(After(s, Polled(p)).rows)[id];
            if id in RowIds(d.added) then kept.firstSeen == kept.updated == p.now
            else if id in RowIds(d.updated) + RowIds(d.removed) then
              kept.updated == p.now && id in s.active && kept.firstSeen == s.active[id].firstSeen
            else id in Final(s.rows) && kept == Final(s.rows)[id]
  {
    var d, batch := PollDiff(s, p), Rows(PollDiff(s, p));
    DiffRowsAreStamped(s, p);
    ListsAreDisjoint(s.active, DecodeAll(p.locations), p.now, p.order);
    FinalAfterPoll(s.rows, batch, s.clock, p.now, id);
    if r :| r in batch && r.id == id {
      PollRowTimes(s, p, r);
    } else {
      ThreeLists(d, id);
    }
  }

  lemma ThreeLists(d: DiffResult, id: U32)
    ensures id in RowIds(Rows(d)) <==> id in RowIds(d.added) + RowIds(d.updated) + RowIds(d.removed)
  {
    assert RowIds(Rows(d)) == RowIds(d.added) + RowIds(d.updated) + RowIds(d.removed);
  }

  lemma PollKeepsSeen(s: Tracker, p: Poll, keepers: set<U32>, hydrated: bool, id: U32)
    requires SeenInv(s, keepers, hydrated) && ValidStep(s, Polled(p)) && id in Final(After(s, Polled(p)).rows)
    ensures Final(After(s, Polled(p)).rows)[id].firstSeen ==
            if id in KeepersAfter(s, Polled(p), keepers, hydrated) then AddedTime(After(s, Polled(p)).log, id)
                else ZERO_TIME
  {
    PollFinal(s, p, id);
    AddedTimeAfterPoll(s, p, id);
  }

  lemma PollStampsLog(s: Tracker, p: Poll)
    requires ValidStep(s, Polled(p)) && forall e | e in s.log :: e.recordedAt <= s.clock
    ensures forall e | e in After(s, Polled(p)).log :: e.recordedAt <= p.now
  {
    AddedTimeAfterPoll(s, p, 0);
  }

  lemma PolledMemoryIsRaw(locations: seq<Location>)
    ensures RawMemory(ById(DecodeAll(locations)))
  {
    ByIdMeaning(DecodeAll(locations));
  }

  lemma PollSeen(s: Tracker, p: Poll, keepers: set<U32>, hydrated: bool)
    requires SeenInv(s, keepers, hydrated) && ValidStep(s, Polled(p))
    ensures SeenInv(After(s, Polled(p)), KeepersAfter(s, Polled(p), keepers, hydrated), false)
  {
    var t := After(s, Polled(p));
    PollKeepsInv(s, p);
    PollStampsLog(s, p);
    PolledMemoryIsRaw(p.locations);
    forall id | id in Final(t.rows)
      ensures Final(t.rows)[id].firstSeen ==
              if id in KeepersAfter(s, Polled(p), keepers, hydrated) then AddedTime(t.log, id) else ZERO_TIME
    {
      PollKeepsSeen(s, p, keepers, hydrated, id);
    }
  }

  lemma RestartSeen(s: Tracker, table: seq<RVM>, keepers: set<U32>, hydrated: bool)
    requires SeenInv(s, keepers, hydrated) && ValidStep(s, Restarted(table))
    ensures SeenInv(After(s, Restarted(table)), keepers, true)
  {
    RestartKeepsInv(s, table);
    FinalIgnoresOrder(table, s.rows);
  }

  lemma {:induction false} RunSeen(s: Tracker, steps: seq<Step>, keepers: set<U32>, hydrated: bool)
    requires SeenInv(s, keepers, hydrated) && ValidRun(s, steps)
    ensures SeenInv(Run(s, steps), Keepers(s, steps, keepers, hydrated), Hydrated(steps, hydrated))
    decreases |steps|
  {
    if steps != [] {
      match steps[0] {
        case Polled(p) => PollSeen(s, p, keepers, hydrated);
        case Restarted(table) => RestartSeen(s, table, keepers, hydrated);
      }
      RunSeen(After(s, steps[0]), steps[1..], KeepersAfter(s, steps[0], keepers, hydrated), steps[0].Restarted?);
    }
  }

  /**
   One diff copies a machine's first-seen time from the previous record, but a poll leaves
   raw records in memory. So, over any run of polls and restarts, a stored row has the time
   of its machine's ADDED event if it is the adding row, or was written by the first poll
   after a restart that loaded a row with that time; every other row has the zero time.
   */
  lemma FirstSeenKeptIff(s0: Tracker, steps: seq<Step>, id: U32)
    requires Fresh(s0) && ValidRun(s0, steps) && id in Final(Run(s0, steps).rows)
    ensures Final(Run(s0, steps).rows)[id].firstSeen ==
            if id in Keepers(s0, steps, {}, false) then AddedTime(Run(s0, steps).log, id) else ZERO_TIME
  {
    FreshInv(s0);
    RunSeen(s0, steps, {}, false);
  }

  /**
   The rows of a poll that follows another one: an adding row has the time of its poll, and
   every other row the zero time, even if the poll before followed a restart.
   */
  lemma SecondPollStoresZero(s: Tracker, p: Poll, q: Poll, keepers: set<U32>, hydrated: bool, r: RVM)
    requires SeenInv(s, keepers, hydrated) && ValidStep(s, Polled(p)) && ValidStep(After(s, Polled(p)), Polled(q))
    requires r in Rows(PollDiff(After(s, Polled(p)), q))
    ensures r.firstSeen == if r.id in RowIds(PollDiff(After(s, Polled(p)), q).added) then q.now else ZERO_TIME
  {
    PollSeen(s, p, keepers, hydrated);
    PollRowTimes(After(s, Polled(p)), q, r);
  }

  // ---- Without restarts ------------------------------------------------------------------

  ghost predicate NoRestarts(steps: seq<Step>) { forall i | 0 <= i < |steps| :: steps[i].Polled? }

  /** Only adding rows keep the time. */
  ghost predicate AddersKeep(s: Tracker, keepers: set<U32>) {
    forall id | id in Final(s.rows) :: id in keepers <==> Final(s.rows)[id].updated == AddedTime(s.log, id)
  }

  lemma {:induction false} AddedTimeIsPast(log: seq<Event>, id: U32, clock: int)
    requires forall e | e in log :: e.recordedAt <= clock
    ensures AddedTime(log, id) <= clock || AddedTime(log, id) == ZERO_TIME
    decreases |log|
  {
    if log != [] { AddedTimeIsPast(log[..|log| - 1], id, clock); }
  }

  lemma PollAddersKeep(s: Tracker, p: Poll, keepers: set<U32>, id: U32)
    requires SeenInv(s, keepers, false) && AddersKeep(s, keepers) && s.clock >= ZERO_TIME && ValidStep(s, Polled(p))
    requires id in Final(After(s, Polled(p)).rows)
    ensures var t := After(s, Polled(p));
            id in KeepersAfter(s, Polled(p), keepers, false) <==> Final(t.rows)[id].updated == AddedTime(t.log, id)
  {
    PollFinal(s, p, id);
    AddedTimeAfterPoll(s, p, id);
    AddedTimeIsPast(s.log, id, s.clock);
  }

  lemma {:induction false} RunAddersKeep(s: Tracker, steps: seq<Step>, keepers: set<U32>)
    requires SeenInv(s, keepers, false) && AddersKeep(s, keepers) && s.clock >= ZERO_TIME
    requires ValidRun(s, steps) && NoRestarts(steps)
    ensures AddersKeep(Run(s, steps), Keepers(s, steps, keepers, false))
    decreases |steps|
  {
    if steps != [] {
      var p := steps[0].poll;
      var t, more := After(s, Polled(p)), KeepersAfter(s, Polled(p), keepers, false);
      PollSeen(s, p, keepers, false);
      forall id | id in Final(t.rows) ensures id in more <==> Final(t.rows)[id].updated == AddedTime(t.log, id) {
        PollAddersKeep(s, p, keepers, id);
      }
      RunAddersKeep(t, steps[1..], more);
    }
  }

  /** Without restarts the time is kept exactly as long as the machine's latest row is the one that added it. */
  lemma FirstSeenWithoutRestarts(s0: Tracker, steps: seq<Step>, id: U32)
    requires Fresh(s0) && s0.clock >= ZERO_TIME && ValidRun(s0, steps) && NoRestarts(steps)
    requires id in Final(Run(s0, steps).rows)
    ensures var s, kept := Run(s0, steps), Final(Run(s0, steps).rows)[id];
            kept.firstSeen == if kept.updated == AddedTime(s.log, id) then kept.updated else ZERO_TIME
  {
    FreshInv(s0);
    FirstSeenKeptIff(s0, steps, id);
    RunAddersKeep(s0, steps, {});
  }

  /** The rows of a poll that reports one machine. */
  lemma OneMachineRows(previous: map<U32, RVM>, r: RVM, now: int)
    ensures AddedRows(previous, [r], now) == if Live(previous, r.id) then [] else [AddedRow(r, now)]
    ensures UpdatedRows(previous, [r], now) == if Changed(previous, r) then [UpdatedRow(previous[r.id], r, now)] else []
    ensures ById([r]) == map[r.id := r]
  {
    assert [r][..0] == [];
  }

  /** Two polls: a machine is added, then reported with another status. */
  function TwoPolls(l: Location, status: string): (Tracker, Tracker) {
    var s1 := After(Tracker(map[], [], [], 0), Polled(Poll(1, [l], [])));
    (s1, After(s1, Polled(Poll(2, [l.(status := status)], []))))
  }

  /** A machine added at time 1 that changes status at time 2 is then stored without its first-seen time. */
  lemma FirstSeenIsLostAfterTwoPolls(l: Location, status: string)
    requires status != l.status
    ensures var (s1, s2) := TwoPolls(l, status);
            && l.id in Final(s1.rows) && Final(s1.rows)[l.id].firstSeen == 1
            && l.id in Final(s2.rows) && Final(s2.rows)[l.id].firstSeen == ZERO_TIME
  {
    var (s1, s2) := TwoPolls(l, status);
    var a, b := Decode(l), Decode(l.(status := status));
    assert DecodeAll([l]) == [a] && DecodeAll([l.(status := status)]) == [b];
    OneMachineRows(map[], a, 1);
    assert s1.rows == [AddedRow(a, 1)] && s1.active == map[l.id := a];
    OneMachineRows(s1.active, b, 2);
    assert s2.rows == [AddedRow(a, 1), UpdatedRow(a, b, 2)];
    TwoRowsFinal(AddedRow(a, 1), UpdatedRow(a, b, 2));
  }

  lemma TwoRowsFinal(a: RVM, b: RVM)
    requires a.id == b.id && a.updated <= b.updated
    ensures Final([a]) == map[a.id := a] && Final([a, b]) == map[a.id := b]
  {
    assert [a][..0] == [] && [a, b][..1] == [a];
  }
}
