/** The poller object: its two caches, its metrics, and the rows it offers to the batch buffer's channels. */
module Poller {
  import opened Prelude
  import opened Diff
  import DL = DiffLaws
  import LR = LocationRuns
  import B = Bins
  import BR = BinRestart
  import BS = BinSchedule
  import MG = MachineGauge
  import Q = BatchStreams

  /** Last counts after loading a list of snapshots. */
  function LoadedInto(last: map<B.BinKey, U32>, list: seq<B.Bin>): map<B.BinKey, U32> {
    if list == [] then last
    else LoadedInto(last, list[..|list| - 1])[B.KeyOf(list[|list| - 1]) := list[|list| - 1].count]
  }

  /** The list a restart reads: per key the snapshot kept, each key once, in any order. */
  ghost predicate ListsLatest(list: seq<B.Bin>, stored: seq<B.Bin>) {
    && (forall i, j | 0 <= i < j < |list| :: B.KeyOf(list[i]) != B.KeyOf(list[j]))
    && forall b :: b in list <==> B.KeyOf(b) in BR.Latest(stored) && BR.Latest(stored)[B.KeyOf(b)] == b
  }

  lemma {:induction false} LoadedAbsent(last: map<B.BinKey, U32>, list: seq<B.Bin>, k: B.BinKey)
    requires forall i | 0 <= i < |list| :: B.KeyOf(list[i]) != k
    ensures B.Previous(LoadedInto(last, list), k) == B.Previous(last, k)
    decreases |list|
  {
    if list != [] { LoadedAbsent(last, list[..|list| - 1], k); }
  }

  lemma {:induction false} LoadedAt(last: map<B.BinKey, U32>, list: seq<B.Bin>, i: nat)
    requires i < |list| && forall h, j | 0 <= h < j < |list| :: B.KeyOf(list[h]) != B.KeyOf(list[j])
    ensures B.Previous(LoadedInto(last, list), B.KeyOf(list[i])) == Some(list[i].count)
    decreases |list|
  {
    if i < |list| - 1 { LoadedAt(last, list[..|list| - 1], i); }
  }

  /** Loading that list into an empty poller restores each key's latest stored count. */
  lemma HydrationRestoresCounts(list: seq<B.Bin>, stored: seq<B.Bin>, k: B.BinKey)
    requires ListsLatest(list, stored)
    ensures B.Previous(LoadedInto(map[], list), k) == BR.LoadedCount(stored, k)
  {
    BR.LatestMeaning(stored, k);
    if k in BR.Latest(stored) {
      assert BR.Latest(stored)[k] in list;
      var i :| 0 <= i < |list| && list[i] == BR.Latest(stored)[k];
      LoadedAt(map[], list, i);
    } else {
      forall i | 0 <= i < |list| ensures B.KeyOf(list[i]) != k { assert list[i] in list; }
      LoadedAbsent(map[], list, k);
    }
  }

  // ---- Offering rows to a channel --------------------------------------------------------

  /** Non-blocking sends, one row after the other. */
  function OfferedAll<T>(x: Q.Stream<T>, cap: nat, rows: seq<T>): Q.Stream<T> {
    if rows == [] then x
    else Q.Offered(OfferedAll(x, cap, rows[..|rows| - 1]), cap, rows[|rows| - 1])
  }

  lemma {:induction false} OfferedInParts<T>(x: Q.Stream<T>, cap: nat, a: seq<T>, b: seq<T>)
    ensures OfferedAll(x, cap, a + b) == OfferedAll(OfferedAll(x, cap, a), cap, b)
    decreases |b|
  {
    if b == [] {
      assert a + b == a;
    } else {
      assert (a + b)[..|a + b| - 1] == a + b[..|b| - 1];
      OfferedInParts(x, cap, a, b[..|b| - 1]);
    }
  }

  /** A channel with room accepts all of them, in order. */
  lemma {:induction false} RoomForAll<T>(x: Q.Stream<T>, cap: nat, rows: seq<T>)
    requires |x.chan| + |rows| <= cap
    ensures OfferedAll(x, cap, rows).accepted == x.accepted + rows
    ensures OfferedAll(x, cap, rows) == x.(chan := x.chan + rows, accepted := x.accepted + rows)
    decreases |rows|
  {
    if rows != [] {
      var front, last := rows[..|rows| - 1], rows[|rows| - 1];
      RoomForAll(x, cap, front);
      assert rows == front + [last];
      assert x.chan + rows == x.chan + front + [last] && x.accepted + rows == x.accepted + front + [last];
    } else {
      assert x.chan + rows == x.chan && x.accepted + rows == x.accepted;
    }
  }

  predicate HasRoom<T>(x: Q.Stream<T>, cap: nat, more: nat) { |x.chan| + more <= cap }

  const RVM_ROOM: nat := Q.Capacity(Q.RVMs)
  const EVENT_ROOM: nat := Q.Capacity(Q.Events)
  const BIN_ROOM: nat := Q.Capacity(Q.Bins)

  lemma {:induction false} ByIdKeysMatch(current: seq<RVM>)
    ensures DL.KeysMatch(LR.ById(current))
    decreases |current|
  {
    if current != [] { ByIdKeysMatch(current[..|current| - 1]); }
  }

  lemma LoadedKeysMatch(table: seq<RVM>)
    ensures DL.KeysMatch(LR.Loaded(table))
  {
    forall id | id in LR.Loaded(table) ensures LR.Loaded(table)[id].id == id { LR.FinalMeaning(table, id); }
  }

  class Poller {
    var activeRVMs: map<U32, RVM>
    var lastBinCounts: map<B.BinKey, U32>
    var rvmTotal: map<MG.Label, int>
    var ingested: map<B.Label, int>
    var binGauge: map<B.Label, int>
    var rvms: Q.Stream<RVM>
    var events: Q.Stream<Event>
    var bins: Q.Stream<B.Bin>

    constructor ()
      ensures Tracker(0) == LR.Tracker(map[], [], [], 0) && Ledger() == B.Ledger(map[], map[], map[])
      ensures DL.KeysMatch(activeRVMs) && rvmTotal == map[] && bins.accepted == []
    {
      activeRVMs, lastBinCounts, rvmTotal, ingested, binGauge := map[], map[], map[], map[], map[];
      rvms := Q.Stream([], [], [], [], [], None);
      events := Q.Stream([], [], [], [], [], None);
      bins := Q.Stream([], [], [], [], [], None);
    }

    /** The location side, as the run semantics sees it after a poll at time `clock`. */
    function Tracker(clock: int): LR.Tracker
      reads this
    {
      LR.Tracker(activeRVMs, rvms.accepted, events.accepted, clock)
    }

    /** The bin side. */
    function Ledger(): B.Ledger
      reads this
    {
      B.Ledger(lastBinCounts, ingested, binGauge)
    }

    /** A failed request changes nothing. A response is one step of the run, if the channels have room for its rows. */
    method PollLocations(response: Option<seq<LR.Location>>, now: int) returns (diff: DiffResult, order: seq<U32>)
      modifies this`activeRVMs, this`rvmTotal, this`rvms, this`events
      ensures response.None? ==>
                Tracker(0) == old(Tracker(0)) && rvmTotal == old(rvmTotal) && rvms == old(rvms) && events == old(events)
      ensures DL.KeysMatch(old(activeRVMs)) ==> DL.KeysMatch(activeRVMs)
      ensures response.Some? ==>
                var current := LR.DecodeAll(response.value);
                && Enumerates(order, RemovedIds(old(activeRVMs), current))
                && diff == DiffBy(old(activeRVMs), current, now, order)
                && activeRVMs == LR.ById(current) && rvmTotal == MG.GaugeOf(current, "")
                && rvms == OfferedAll(old(rvms), RVM_ROOM, DL.Rows(diff))
                && events == OfferedAll(old(events), EVENT_ROOM, diff.events)
      ensures response.Some?
              && HasRoom(old(rvms), RVM_ROOM, |DL.Rows(diff)|) && HasRoom(old(events), EVENT_ROOM, |diff.events|) ==>
                Tracker(now) == LR.After(old(Tracker(0)), LR.Polled(LR.Poll(now, response.value, order)))
    {
      if response.None? { return DiffResult([], [], [], []), []; }
      var locations := LR.DecodeAll(response.value);
      diff, order := DiffState(activeRVMs, locations, now);
      Remember(locations);
      EnqueueRows(diff.added);
      EnqueueRows(diff.updated);
      EnqueueRows(diff.removed);
      OfferedInParts(old(rvms), RVM_ROOM, diff.added, diff.updated);
      OfferedInParts(old(rvms), RVM_ROOM, diff.added + diff.updated, diff.removed);
      EnqueueEvents(diff.events);
      if HasRoom(old(rvms), RVM_ROOM, |DL.Rows(diff)|) { RoomForAll(old(rvms), RVM_ROOM, DL.Rows(diff)); }
      if HasRoom(old(events), EVENT_ROOM, |diff.events|) { RoomForAll(old(events), EVENT_ROOM, diff.events); }
    }

    /** The new memory and the machine gauge, built record by record. */
    method Remember(locations: seq<RVM>)
      modifies this`activeRVMs, this`rvmTotal
      ensures activeRVMs == LR.ById(locations) && rvmTotal == MG.GaugeOf(locations, "") && DL.KeysMatch(activeRVMs)
    {
      var newMap: map<U32, RVM> := map[];
      var statusCounts: map<MG.Label, int> := map[];
      for i := 0 to |locations|
        invariant newMap == LR.ById(locations[..i]) && statusCounts == MG.GaugeOf(locations[..i], "")
      {
        var loc := locations[i];
        newMap := newMap[loc.id := loc];
        statusCounts := MG.Counted(statusCounts, MG.Label(loc.status, loc.supplier, ""));
        assert locations[..i + 1][..i] == locations[..i];
      }
      assert locations[..|locations|] == locations;
      activeRVMs := newMap;
      ByIdKeysMatch(locations);
      rvmTotal := statusCounts;
    }

    method EnqueueRows(more: seq<RVM>)
      modifies this`rvms
      ensures rvms == OfferedAll(old(rvms), RVM_ROOM, more)
    {
      for i := 0 to |more|
        invariant rvms == OfferedAll(old(rvms), RVM_ROOM, more[..i])
      {
        assert more[..i + 1][..i] == more[..i];
        rvms := Q.Offered(rvms, 5000, more[i]);
      }
      assert more[..|more|] == more;
    }

    method EnqueueEvents(more: seq<Event>)
      modifies this`events
      ensures events == OfferedAll(old(events), EVENT_ROOM, more)
    {
      for i := 0 to |more|
        invariant events == OfferedAll(old(events), EVENT_ROOM, more[..i])
      {
        assert more[..i + 1][..i] == more[..i];
        events := Q.Offered(events, 5000, more[i]);
      }
      assert more[..|more|] == more;
    }

    /**
     Start-up: `table` and `list` are what the two queries read, None if one fails.
     In a poller without machines, what is loaded is the restart step of the run.
     `order` is the order in which the gauge visits the loaded machines.
     */
    method HydrateFromStorage(table: Option<seq<RVM>>, list: Option<seq<B.Bin>>) returns (order: seq<U32>)
      modifies this`activeRVMs, this`lastBinCounts, this`rvmTotal, this`binGauge
      ensures DL.KeysMatch(old(activeRVMs)) ==> DL.KeysMatch(activeRVMs)
      ensures table.Some? && LR.Loaded(table.value) != map[] ==>
                && activeRVMs == LR.Loaded(table.value) && Enumerates(order, activeRVMs.Keys)
                && rvmTotal == MG.GaugeOf(MG.InOrder(activeRVMs, order), "Default")
      ensures table.None? || LR.Loaded(table.value) == map[] ==>
                activeRVMs == old(activeRVMs) && rvmTotal == old(rvmTotal)
      ensures table.Some? && old(activeRVMs) == map[] ==>
                Tracker(0) == LR.After(old(Tracker(0)), LR.Restarted(table.value))
      ensures list.Some? && list.value != [] ==>
                && lastBinCounts == LoadedInto(old(lastBinCounts), list.value)
                && binGauge == BR.LoadedGauge(map[], list.value, map id | id in activeRVMs :: activeRVMs[id].supplier)
      ensures list.None? || list.value == [] ==> lastBinCounts == old(lastBinCounts) && binGauge == old(binGauge)
    {
      order := [];
      if table.Some? {
        LoadedKeysMatch(table.value);
        order := ApplyLoadedRVMs(LR.Loaded(table.value));
      }
      if list.Some? && |list.value| > 0 { ApplyHydratedBinSnapshots(list.value); }
    }

    /** An empty result leaves memory and gauge alone. */
    method ApplyLoadedRVMs(loaded: map<U32, RVM>) returns (order: seq<U32>)
      modifies this`activeRVMs, this`rvmTotal
      ensures activeRVMs == if loaded != map[] then loaded else old(activeRVMs)
      ensures loaded != map[] ==>
                Enumerates(order, activeRVMs.Keys) && rvmTotal == MG.GaugeOf(MG.InOrder(activeRVMs, order), "Default")
      ensures loaded == map[] ==> rvmTotal == old(rvmTotal)
    {
      order := [];
      if |loaded| > 0 {
        activeRVMs := loaded;
        order := SetRVMTotal();
      }
      assert |loaded| == 0 ==> loaded == map[];
    }

    /** The gauge of the machines in memory, visited in the order the map happens to yield. */
    method SetRVMTotal() returns (order: seq<U32>)
      modifies this`rvmTotal
      ensures Enumerates(order, activeRVMs.Keys) && rvmTotal == MG.GaugeOf(MG.InOrder(activeRVMs, order), "Default")
    {
      var statusCounts: map<MG.Label, int> := map[];
      order := [];
      var todo := activeRVMs.Keys;
      while todo != {}
        invariant todo <= activeRVMs.Keys
        invariant forall i, j | 0 <= i < j < |order| :: order[i] != order[j]
        invariant forall id :: id in order <==> id in activeRVMs && id !in todo
        invariant statusCounts == MG.GaugeOf(MG.InOrder(activeRVMs, order), "Default")
        decreases todo
      {
        var id :| id in todo;
        todo := todo - {id};
        var loc := activeRVMs[id];
        ghost var before := MG.InOrder(activeRVMs, order);
        order := order + [id];
        statusCounts := MG.Counted(statusCounts, MG.Label(loc.status, loc.supplier, "Default"));
        assert MG.InOrder(activeRVMs, order) == before + [loc];
        assert (before + [loc])[..|before|] == before;
      }
      rvmTotal := statusCounts;
    }

    method ApplyHydratedBinSnapshots(list: seq<B.Bin>)
      modifies this`lastBinCounts, this`binGauge
      ensures lastBinCounts == LoadedInto(old(lastBinCounts), list)
      ensures binGauge == BR.LoadedGauge(map[], list, map id | id in activeRVMs :: activeRVMs[id].supplier)
    {
      var binCounts: map<B.Label, int> := map[];
      for i := 0 to |list|
        invariant lastBinCounts == LoadedInto(old(lastBinCounts), list[..i])
        invariant binCounts == BR.LoadedGauge(map[], list[..i], map id | id in activeRVMs :: activeRVMs[id].supplier)
      {
        var b := list[i];
        assert list[..i + 1][..i] == list[..i];
        lastBinCounts := lastBinCounts[B.BinKey(b.id, b.compartment) := b.count];
        var supplier := "UNKNOWN";
        if b.id in activeRVMs && activeRVMs[b.id].supplier != "" { supplier := activeRVMs[b.id].supplier; }
        var cType := b.compartment;
        if cType == "" { cType := "UNKNOWN"; }
        var inBin := b.threshold * 10;
        if b.capacity > 0 { inBin := b.count; }
        binCounts := B.Plus(binCounts, B.Label(cType, supplier), inBin);
      }
      assert list[..|list|] == list;
      binGauge := binCounts;
    }

    /** The machines a bin cycle asks, each once, in the order the map happened to yield. */
    method BinJobs() returns (jobs: seq<BS.Machine>)
      requires DL.KeysMatch(activeRVMs)
      ensures BS.DistinctMachines(jobs)
      ensures forall m :: m in jobs <==>
                m.id in activeRVMs && activeRVMs[m.id].isDeleted == 0 && m.supplier == activeRVMs[m.id].supplier
    {
      jobs := [];
      var todo := activeRVMs.Keys;
      while todo != {}
        invariant todo <= activeRVMs.Keys
        invariant BS.DistinctMachines(jobs)
        invariant forall m :: m in jobs <==>
                    && m.id in activeRVMs && m.id !in todo
                    && activeRVMs[m.id].isDeleted == 0 && m.supplier == activeRVMs[m.id].supplier
        decreases todo
      {
        var id :| id in todo;
        todo := todo - {id};
        var r := activeRVMs[id];
        if r.isDeleted == 0 {
          forall i | 0 <= i < |jobs| ensures jobs[i].id != r.id { assert jobs[i] in jobs; }
          jobs := jobs + [BS.Machine(r.id, r.supplier)];
        }
      }
    }

    /** Containers accepted since the previous reading: odometers, then physical counts. */
    static method Increment(prev: Option<U32>, capacity: U32, count: U32) returns (delta: U32)
      ensures delta == B.Delta(prev, capacity, count)
    {
      delta := 0;
      if prev.Some? {
        if capacity == 0 {
          if prev.value > 0 && count >= prev.value {
            var diff := count - prev.value;
            if diff <= 200 { delta := diff; }
          }
        } else if count > prev.value {
          var diff := count - prev.value;
          if diff <= 200 { delta := diff; }
        } else if count < prev.value {
          if prev.value >= 50 && count <= prev.value / 2 {
            if count <= 200 { delta := count; }
          }
        }
      }
    }

    /** One scraped bin: its fill joins `counts`, its increment the counter. */
    method RecordBin(item: B.Item, counts: map<B.Label, int>) returns (currentCounts: map<B.Label, int>)
      modifies this`lastBinCounts, this`ingested
      ensures B.Ledger(lastBinCounts, ingested, currentCounts) ==
                B.Record(B.Ledger(old(lastBinCounts), old(ingested), counts), item)
    {
      var b, supplier := item.bin, item.supplier;
      var cType := b.compartment;
      if cType == "" { cType := "UNKNOWN"; }
      if supplier == "" { supplier := "UNKNOWN"; }
      var inBin := b.threshold * 10;
      if b.capacity > 0 { inBin := b.count; }
      currentCounts := B.Plus(counts, B.Label(cType, supplier), inBin);

      var key := B.BinKey(b.id, b.compartment);
      var prev := B.Previous(lastBinCounts, key);
      lastBinCounts := lastBinCounts[key := b.count];
      var delta := Increment(prev, b.capacity, b.count);
      ingested := B.Plus(ingested, B.Label(cType, supplier), delta);
    }

    /** The last part of a bin cycle, under the lock: counts, increments and gauges. */
    method RecordBins(allBins: seq<B.Item>)
      modifies this`lastBinCounts, this`ingested, this`binGauge
      ensures Ledger() == B.Cycle(old(Ledger()), allBins)
    {
      var currentCounts: map<B.Label, int> := map[];
      ghost var start := Ledger().(gauge := map[]);
      for n := 0 to |allBins|
        invariant B.Ledger(lastBinCounts, ingested, currentCounts) == B.Fold(start, allBins[..n])
      {
        BR.FoldSnoc(start, allBins[..n], allBins[n]);
        assert allBins[..n + 1] == allBins[..n] + [allBins[n]];
        currentCounts := RecordBin(allBins[n], currentCounts);
      }
      assert allBins[..|allBins|] == allBins;
      binGauge := currentCounts;
    }

    /**
     A bin cycle with one worker; `BinSchedule.OneWorkerIsEnough` says that every other
     schedule leaves the same ledger. Without live machines nothing changes, not even the gauges.
     */
    method PollBins(answers: BS.Answers) returns (jobs: seq<BS.Machine>)
      requires DL.KeysMatch(activeRVMs)
      modifies this`lastBinCounts, this`ingested, this`binGauge, this`bins
      ensures BS.DistinctMachines(jobs)
      ensures forall m :: m in jobs <==>
                m.id in activeRVMs && activeRVMs[m.id].isDeleted == 0 && m.supplier == activeRVMs[m.id].supplier
      ensures Ledger() == if jobs == [] then old(Ledger()) else B.Cycle(old(Ledger()), BS.InTurn(jobs, answers))
      ensures bins == OfferedAll(old(bins), BIN_ROOM, BR.Snapshots(BS.InTurn(jobs, answers)))
    {
      jobs := BinJobs();
      if jobs == [] { return; }
      var allBins: seq<B.Item> := [];
      for i := 0 to |jobs|
        invariant allBins == BS.InTurn(jobs[..i], answers)
        invariant bins == OfferedAll(old(bins), BIN_ROOM, BR.Snapshots(allBins))
        invariant Ledger() == old(Ledger())
      {
        assert jobs[..i + 1][..i] == jobs[..i];
        allBins := ScrapeMachine(jobs[i], answers, allBins, old(bins));
      }
      assert jobs[..|jobs|] == jobs;
      RecordBins(allBins);
    }

    /** One job of a worker: each bin of the answer is stamped, offered to the buffer and sent on. */
    method ScrapeMachine(m: BS.Machine, answers: BS.Answers, before: seq<B.Item>, ghost start: Q.Stream<B.Bin>)
      returns (after: seq<B.Item>)
      requires bins == OfferedAll(start, BIN_ROOM, BR.Snapshots(before))
      modifies this`bins
      ensures after == before + BS.Stamped(m, answers)
      ensures bins == OfferedAll(start, BIN_ROOM, BR.Snapshots(after))
    {
      after := before;
      var answer := answers(m.id);
      for n := 0 to |answer.bins|
        invariant after == before + BS.Stamped(m, answers)[..n]
        invariant bins == OfferedAll(start, BIN_ROOM, BR.Snapshots(after))
      {
        var b := answer.bins[n].(id := m.id, polledAt := answer.now);
        ghost var rows := BR.Snapshots(after);
        after := after + [B.Item(b, m.supplier)];
        assert BR.Snapshots(after) == rows + [b] && (rows + [b])[..|rows|] == rows;
        bins := Q.Offered(bins, 10000, b);
      }
      assert BS.Stamped(m, answers)[..|answer.bins|] == BS.Stamped(m, answers);
    }
  }
}
