/** A diff is a sound and minimal patch, and its events describe exactly the changes. */
module DiffLaws {
  import opened Prelude
  import opened Diff

  /** The tracked fields of the machines a state considers present. */
  function LiveView(m: map<U32, RVM>): map<U32, Tracked> {
    map id | id in m && m[id].isDeleted != 1 :: TrackedOf(m[id])
  }

  /** The tracked fields a response reports; the last record of an id wins, as in a Go map. */
  function CurrentView(current: seq<RVM>): map<U32, Tracked> {
    if current == [] then map[]
    else
      var r := current[|current| - 1];
      CurrentView(current[..|current| - 1])[r.id := TrackedOf(r)]
  }

  function PatchOne(v: map<U32, Tracked>, r: RVM): map<U32, Tracked> {
    if r.isDeleted == 1 then v - {r.id} else v[r.id := TrackedOf(r)]
  }

  /** Applying rows one after the other. */
  function Patch(v: map<U32, Tracked>, rows: seq<RVM>): map<U32, Tracked> {
    if rows == [] then v else PatchOne(Patch(v, rows[..|rows| - 1]), rows[|rows| - 1])
  }

  /** All rows of a diff in the order in which they are enqueued. */
  function Rows(d: DiffResult): seq<RVM> { d.added + d.updated + d.removed }

  function Entry(v: map<U32, Tracked>, id: U32): Option<Tracked> { if id in v then Some(v[id]) else None }

  ghost predicate KeysMatch(m: map<U32, RVM>) { forall id | id in m :: m[id].id == id }

  ghost predicate DistinctIds(current: seq<RVM>) {
    forall i, j | 0 <= i < j < |current| :: current[i].id != current[j].id
  }

  /** If any record of a machine in the response differs from memory, so does its last one. */
  ghost predicate NoLostReversal(previous: map<U32, RVM>, current: seq<RVM>) {
    forall i | 0 <= i < |current| && Changed(previous, current[i]) ::
      Entry(CurrentView(current), current[i].id) != Some(TrackedOf(previous[current[i].id]))
  }

  lemma {:induction false} PatchConcat(v: map<U32, Tracked>, a: seq<RVM>, b: seq<RVM>)
    ensures Patch(v, a + b) == Patch(Patch(v, a), b)
    decreases |b|
  {
    if b == [] {
      assert a + b == a;
    } else {
      assert (a + b)[..|a + b| - 1] == a + b[..|b| - 1];
      PatchConcat(v, a, b[..|b| - 1]);
    }
  }

  lemma {:induction false} CurrentViewKeys(current: seq<RVM>)
    ensures CurrentView(current).Keys == Ids(current)
    decreases |current|
  {
    if current != [] {
      var front := current[..|current| - 1];
      CurrentViewKeys(front);
      assert current == front + [current[|current| - 1]];
    }
  }

  /** For every machine that was not present, its last record. */
  function AddedView(previous: map<U32, RVM>, current: seq<RVM>): map<U32, Tracked> {
    if current == [] then map[]
    else
      var r := current[|current| - 1];
      var before := AddedView(previous, current[..|current| - 1]);
      if Live(previous, r.id) then before else before[r.id := TrackedOf(r)]
  }

  lemma {:induction false} AddedViewMeaning(previous: map<U32, RVM>, current: seq<RVM>, id: U32)
    ensures Entry(AddedView(previous, current), id) ==
            if Live(previous, id) then None else Entry(CurrentView(current), id)
    decreases |current|
  {
    if current != [] { AddedViewMeaning(previous, current[..|current| - 1], id); }
  }

  lemma {:induction false} PatchAdded(v: map<U32, Tracked>, previous: map<U32, RVM>, current: seq<RVM>, now: int)
    ensures Patch(v, AddedRows(previous, current, now)) == v + AddedView(previous, current)
    decreases |current|
  {
    if current != [] {
      var front, r := current[..|current| - 1], current[|current| - 1];
      PatchAdded(v, previous, front, now);
      var more := if Live(previous, r.id) then [] else [AddedRow(r, now)];
      PatchConcat(v, AddedRows(previous, front, now), more);
    }
  }

  /** For every machine with a changed record, its last changed record. */
  function ChangedView(previous: map<U32, RVM>, current: seq<RVM>): map<U32, Tracked> {
    if current == [] then map[]
    else
      var r := current[|current| - 1];
      var before := ChangedView(previous, current[..|current| - 1]);
      if Changed(previous, r) then before[r.id := TrackedOf(r)] else before
  }

  lemma {:induction false} PatchUpdated(v: map<U32, Tracked>, previous: map<U32, RVM>, current: seq<RVM>, now: int)
    ensures Patch(v, UpdatedRows(previous, current, now)) == v + ChangedView(previous, current)
    decreases |current|
  {
    if current != [] {
      var front, r := current[..|current| - 1], current[|current| - 1];
      PatchUpdated(v, previous, front, now);
      var more := if Changed(previous, r) then [UpdatedRow(previous[r.id], r, now)] else [];
      PatchConcat(v, UpdatedRows(previous, front, now), more);
    }
  }

  lemma {:induction false} PatchRemoved(v: map<U32, Tracked>, previous: map<U32, RVM>, order: seq<U32>, now: int)
    requires KeysMatch(previous) && forall id | id in order :: id in previous
    ensures Patch(v, RemovedRows(previous, order, now)) == v - Visited(order)
    decreases |order|
  {
    if order != [] {
      var front := order[..|order| - 1];
      PatchRemoved(v, previous, front, now);
      assert RemovedRows(previous, order, now)[..|order| - 1] == RemovedRows(previous, front, now);
      assert order == front + [order[|order| - 1]];
      assert Visited(order) == Visited(front) + {order[|order| - 1]};
      assert v - Visited(order) == v - Visited(front) - {order[|order| - 1]};
    }
  }

  lemma {:induction false} ChangedViewMeaning(previous: map<U32, RVM>, current: seq<RVM>, id: U32)
    ensures id in ChangedView(previous, current) <==>
              exists i :: 0 <= i < |current| && current[i].id == id && Changed(previous, current[i])
    ensures id in ChangedView(previous, current) ==>
              && Live(previous, id) && id in CurrentView(current)
              && ChangedView(previous, current)[id] != TrackedOf(previous[id])
    ensures id in ChangedView(previous, current) && CurrentView(current)[id] != TrackedOf(previous[id]) ==>
              ChangedView(previous, current)[id] == CurrentView(current)[id]
    ensures Live(previous, id) && id in CurrentView(current) && id !in ChangedView(previous, current) ==>
              CurrentView(current)[id] == TrackedOf(previous[id])
    decreases |current|
  {
    if current != [] {
      var front, r := current[..|current| - 1], current[|current| - 1];
      ChangedViewMeaning(previous, front, id);
      if i :| 0 <= i < |front| && front[i].id == id && Changed(previous, front[i]) { assert current[i] == front[i]; }
    }
  }

  /** What the rows of a diff do to a view. */
  lemma PatchOfDiff(previous: map<U32, RVM>, current: seq<RVM>, now: int, order: seq<U32>)
    requires KeysMatch(previous) && Enumerates(order, RemovedIds(previous, current))
    ensures Patch(LiveView(previous), Rows(DiffBy(previous, current, now, order))) ==
            LiveView(previous) + AddedView(previous, current) +
                ChangedView(previous, current) - RemovedIds(previous, current)
  {
    var v := LiveView(previous);
    var a, u := AddedRows(previous, current, now), UpdatedRows(previous, current, now);
    var r := RemovedRows(previous, order, now);
    PatchThree(v, a, u, r);
    PatchAdded(v, previous, current, now);
    var v1 := v + AddedView(previous, current);
    PatchUpdated(v1, previous, current, now);
    var v2 := v1 + ChangedView(previous, current);
    PatchRemoved(v2, previous, order, now);
    assert Visited(order) == RemovedIds(previous, current);
  }

  lemma PatchThree(v: map<U32, Tracked>, a: seq<RVM>, u: seq<RVM>, r: seq<RVM>)
    ensures Patch(v, a + u + r) == Patch(Patch(Patch(v, a), u), r)
  {
    PatchConcat(v, a + u, r);
    PatchConcat(v, a, u);
  }

  /**
   Soundness: applying the rows to the remembered machines gives the reported ones,
   exactly when no machine is reported changed and then, later in the same response,
   unchanged again.
   */
  lemma PatchReachesCurrentIff(previous: map<U32, RVM>, current: seq<RVM>, now: int, order: seq<U32>)
    requires KeysMatch(previous) && Enumerates(order, RemovedIds(previous, current))
    ensures Patch(LiveView(previous), Rows(DiffBy(previous, current, now, order))) == CurrentView(current)
            <==> NoLostReversal(previous, current)
  {
    PatchOfDiff(previous, current, now, order);
    CurrentViewKeys(current);
    var patched := LiveView(previous) + AddedView(previous, current) +
        ChangedView(previous, current) - RemovedIds(previous, current);
    forall id: U32
      ensures id in ChangedView(previous, current) <==>
                exists i :: 0 <= i < |current| && current[i].id == id && Changed(previous, current[i])
      ensures id !in ChangedView(previous, current) ==> Entry(patched, id) == Entry(CurrentView(current), id)
      ensures id in ChangedView(previous, current) ==>
                (Entry(patched, id) == Entry(CurrentView(current), id) <==>
                    CurrentView(current)[id] != TrackedOf(previous[id]))
    {
      AddedViewMeaning(previous, current, id);
      ChangedViewMeaning(previous, current, id);
    }
    if NoLostReversal(previous, current) {
      forall id: U32 ensures Entry(patched, id) == Entry(CurrentView(current), id) {
        if id in ChangedView(previous, current) { ChangedViewMeaning(previous, current, id); }
      }
      SameEntries(patched, CurrentView(current));
    }
    if patched == CurrentView(current) {
      forall i | 0 <= i < |current| && Changed(previous, current[i])
        ensures Entry(CurrentView(current), current[i].id) != Some(TrackedOf(previous[current[i].id]))
      {
        assert current[i].id in ChangedView(previous, current);
      }
    }
  }

  lemma SameEntries(a: map<U32, Tracked>, b: map<U32, Tracked>)
    requires forall id: U32 :: Entry(a, id) == Entry(b, id)
    ensures a == b
  {
    forall id: U32 ensures id in a <==> id in b { assert Entry(a, id) == Entry(b, id); }
    forall id | id in a ensures a[id] == b[id] { assert Entry(a, id) == Entry(b, id); }
  }

  lemma {:induction false} LastRecordWins(current: seq<RVM>, i: nat)
    requires DistinctIds(current) && i < |current|
    ensures Entry(CurrentView(current), current[i].id) == Some(TrackedOf(current[i]))
    decreases |current|
  {
    if i < |current| - 1 { LastRecordWins(current[..|current| - 1], i); }
  }

  /** Distinct ids are enough. */
  lemma DistinctIdsLoseNothing(previous: map<U32, RVM>, current: seq<RVM>)
    requires DistinctIds(current)
    ensures NoLostReversal(previous, current)
  {
    forall i | 0 <= i < |current| && Changed(previous, current[i])
      ensures Entry(CurrentView(current), current[i].id) != Some(TrackedOf(previous[current[i].id]))
    {
      LastRecordWins(current, i);
    }
  }

  /** A response that reports machine 1 closed and then open again leaves it closed in the rows. */
  lemma DuplicateIdsDiverge(now: int)
    ensures var open := RVM(1, "S", "V", "L", "A", "OPEN", "", 0, 0, 0);
            var shut := open.(status := "SHUT");
            var previous := map[1 := open];
            var d := DiffBy(previous, [shut, open], now, []);
            && Enumerates([], RemovedIds(previous, [shut, open]))
            && Patch(LiveView(previous), Rows(d)) != CurrentView([shut, open])
  {
    var open := RVM(1, "S", "V", "L", "A", "OPEN", "", 0, 0, 0);
    var shut := open.(status := "SHUT");
    var current := [shut, open];
    var previous: map<U32, RVM> := map[1 := open];
    assert current[0].id == 1 && current[1].id == 1;
    assert 1 in Ids(current);
    assert RemovedIds(previous, current) == {};
    PatchReachesCurrentIff(previous, current, now, []);
    assert current[..1] == [shut];
    assert CurrentView(current)[1] == TrackedOf(open);
    assert Changed(previous, current[0]);
  }

  // ---- Minimality ------------------------------------------------------------------------

  function RowIds(rows: seq<RVM>): set<U32> { set r | r in rows :: r.id }

  lemma {:induction false} AddedIds(previous: map<U32, RVM>, current: seq<RVM>, now: int, id: U32)
    ensures id in RowIds(AddedRows(previous, current, now)) <==> id in Ids(current) && !Live(previous, id)
    decreases |current|
  {
    if current != [] {
      var front, r := current[..|current| - 1], current[|current| - 1];
      AddedIds(previous, front, now, id);
      assert current == front + [r];
      if !Live(previous, r.id) { RowIdsSnoc(AddedRows(previous, front, now), AddedRow(r, now)); }
    }
  }

  lemma RowIdsSnoc(rows: seq<RVM>, r: RVM)
    ensures RowIds(rows + [r]) == RowIds(rows) + {r.id}
  {
  }

  lemma {:induction false} UpdatedIds(previous: map<U32, RVM>, current: seq<RVM>, now: int)
    ensures RowIds(UpdatedRows(previous, current, now)) == ChangedView(previous, current).Keys
    decreases |current|
  {
    if current != [] {
      var front, r := current[..|current| - 1], current[|current| - 1];
      UpdatedIds(previous, front, now);
      if Changed(previous, r) { RowIdsSnoc(UpdatedRows(previous, front, now), UpdatedRow(previous[r.id], r, now)); }
    }
  }

  lemma RemovedRowIds(previous: map<U32, RVM>, order: seq<U32>, now: int)
    requires KeysMatch(previous) && forall id | id in order :: id in previous
    ensures RowIds(RemovedRows(previous, order, now)) == Visited(order)
  {
    var rows := RemovedRows(previous, order, now);
    forall id | id in order ensures id in RowIds(rows) {
      var i :| 0 <= i < |order| && order[i] == id;
      assert rows[i] in rows;
    }
  }

  /** Minimality: a machine gets a row exactly when its tracked view changed. */
  lemma RowsIffViewChanged(previous: map<U32, RVM>, current: seq<RVM>, now: int, order: seq<U32>, id: U32)
    requires KeysMatch(previous) && Enumerates(order, RemovedIds(previous, current))
    requires NoLostReversal(previous, current)
    ensures id in RowIds(Rows(DiffBy(previous, current, now, order)))
            <==> Entry(LiveView(previous), id) != Entry(CurrentView(current), id)
  {
    var d := DiffBy(previous, current, now, order);
    assert RowIds(Rows(d)) == RowIds(d.added) + RowIds(d.updated) + RowIds(d.removed);
    AddedIds(previous, current, now, id);
    UpdatedIds(previous, current, now);
    RemovedRowIds(previous, order, now);
    CurrentViewKeys(current);
    ChangedViewMeaning(previous, current, id);
    if i :| 0 <= i < |current| && current[i].id == id && Changed(previous, current[i]) {
      assert Entry(CurrentView(current), id) != Some(TrackedOf(previous[id]));
    }
  }

  /** Diffing a state against what it already knows yields nothing. */
  lemma NothingToReport(previous: map<U32, RVM>, current: seq<RVM>, now: int, order: seq<U32>)
    requires KeysMatch(previous) && Enumerates(order, RemovedIds(previous, current)) && DistinctIds(current)
    requires CurrentView(current) == LiveView(previous)
    ensures DiffBy(previous, current, now, order) == DiffResult([], [], [], [])
  {
    var d := DiffBy(previous, current, now, order);
    DistinctIdsLoseNothing(previous, current);
    if Rows(d) != [] {
      var r := Rows(d)[0];
      assert r.id in RowIds(Rows(d));
      RowsIffViewChanged(previous, current, now, order, r.id);
      assert false;
    }
    assert |Rows(d)| == |d.added| + |d.updated| + |d.removed|;
    EventCount(previous, current, now);
  }

  // ---- Events ----------------------------------------------------------------------------

  lemma {:induction false} EventCount(previous: map<U32, RVM>, current: seq<RVM>, now: int)
    ensures |CurrentEvents(previous, current, now)| ==
            |AddedRows(previous, current, now)| + |UpdatedRows(previous, current, now)|
    decreases |current|
  {
    if current != [] { EventCount(previous, current[..|current| - 1], now); }
  }

  /** `e` is the event for a machine whose view goes from `before` to `after`. */
  predicate Describes(e: Event, before: Option<Tracked>, after: Option<Tracked>) {
    match (before, after)
    case (None, Some(a)) => e.kind.MachineAdded? && e.previousStatus == "" && e.currentStatus == a.status
    case (Some(b), None) => e.kind.MachineRemoved? && e.previousStatus == b.status && e.currentStatus == "DELETED"
    case (Some(b), Some(a)) =>
      && b != a && e.previousStatus == b.status && e.currentStatus == a.status
      && e.kind == (if b.status != a.status then StatusChanged else MetadataUpdated)
    case (None, None) => false
  }

  ghost predicate DistinctRowIds(rows: seq<RVM>) { forall i, j | 0 <= i < j < |rows| :: rows[i].id != rows[j].id }

  ghost predicate DistinctEventIds(es: seq<Event>) { forall i, j | 0 <= i < j < |es| :: es[i].id != es[j].id }

  lemma {:induction false} CurrentEventsDescribe(previous: map<U32, RVM>, current: seq<RVM>, now: int)
    requires DistinctIds(current)
    ensures DistinctEventIds(CurrentEvents(previous, current, now))
    ensures forall e | e in CurrentEvents(previous, current, now) ::
              e.id in Ids(current) && Describes(e, Entry(LiveView(previous), e.id), Entry(CurrentView(current), e.id))
    decreases |current|
  {
    if current != [] {
      var front, r := current[..|current| - 1], current[|current| - 1];
      CurrentEventsDescribe(previous, front, now);
      assert r.id !in Ids(front);
      assert current == front + [r];
      forall e | e in CurrentEvents(previous, current, now)
        ensures e.id in Ids(current) && Describes(e, Entry(LiveView(previous), e.id), Entry(CurrentView(current), e.id))
      {
        if e in CurrentEvents(previous, front, now) {
          assert e.id != r.id;
        }
      }
    }
  }

  lemma {:induction false} AddedRowsDistinct(previous: map<U32, RVM>, current: seq<RVM>, now: int)
    requires DistinctIds(current)
    ensures DistinctRowIds(AddedRows(previous, current, now))
    decreases |current|
  {
    if current != [] {
      var front, r := current[..|current| - 1], current[|current| - 1];
      AddedRowsDistinct(previous, front, now);
      AddedIds(previous, front, now, r.id);
      OneMoreDistinct(AddedRows(previous, front, now), AddedRow(r, now));
    }
  }

  lemma {:induction false} UpdatedRowsDistinct(previous: map<U32, RVM>, current: seq<RVM>, now: int)
    requires DistinctIds(current)
    ensures DistinctRowIds(UpdatedRows(previous, current, now))
    decreases |current|
  {
    if current != [] {
      var front, r := current[..|current| - 1], current[|current| - 1];
      UpdatedRowsDistinct(previous, front, now);
      UpdatedIds(previous, front, now);
      ChangedViewMeaning(previous, front, r.id);
      if Changed(previous, r) {
        OneMoreDistinct(UpdatedRows(previous, front, now), UpdatedRow(previous[r.id], r, now));
      }
    }
  }

  lemma OneMoreDistinct(rows: seq<RVM>, r: RVM)
    requires DistinctRowIds(rows)
    ensures r.id !in RowIds(rows) ==> DistinctRowIds(rows + [r])
  {
    if r.id !in RowIds(rows) {
      forall i | 0 <= i < |rows| ensures rows[i].id != r.id { assert rows[i].id in RowIds(rows); }
    }
  }

  lemma ConcatDistinct(a: seq<RVM>, b: seq<RVM>)
    requires DistinctRowIds(a) && DistinctRowIds(b) && RowIds(a) !! RowIds(b)
    ensures DistinctRowIds(a + b)
  {
    forall i, j | 0 <= i < |a| && 0 <= j < |b| ensures a[i].id != b[j].id {
      assert a[i].id in RowIds(a) && b[j].id in RowIds(b);
    }
  }

  /** A machine occurs in at most one of the three lists, once. */
  lemma ListsAreDisjoint(previous: map<U32, RVM>, current: seq<RVM>, now: int, order: seq<U32>)
    requires KeysMatch(previous) && Enumerates(order, RemovedIds(previous, current)) && DistinctIds(current)
    ensures DistinctRowIds(Rows(DiffBy(previous, current, now, order)))
  {
    var d := DiffBy(previous, current, now, order);
    AddedRowsDistinct(previous, current, now);
    UpdatedRowsDistinct(previous, current, now);
    UpdatedIds(previous, current, now);
    RemovedRowIds(previous, order, now);
    CurrentViewKeys(current);
    forall id: U32
      ensures id in RowIds(d.added) ==> !Live(previous, id) && id in Ids(current)
      ensures id in RowIds(d.updated) ==> Live(previous, id) && id in Ids(current)
      ensures id in RowIds(d.removed) ==> Live(previous, id) && id !in Ids(current)
    {
      AddedIds(previous, current, now, id);
      ChangedViewMeaning(previous, current, id);
    }
    forall i, j | 0 <= i < j < |d.removed| ensures d.removed[i].id != d.removed[j].id {
      assert order[i] in order && order[j] in order;
    }
    ConcatDistinct(d.added, d.updated);
    assert RowIds(d.added + d.updated) == RowIds(d.added) + RowIds(d.updated);
    ConcatDistinct(d.added + d.updated, d.removed);
  }

  /**
   With distinct ids, the three lists and the events each mention a machine at most once,
   there is one event per row, for the same machines, and each event describes the change.
   */
  lemma EventsDescribeChanges(previous: map<U32, RVM>, current: seq<RVM>, now: int, order: seq<U32>)
    requires KeysMatch(previous) && Enumerates(order, RemovedIds(previous, current)) && DistinctIds(current)
    ensures var d := DiffBy(previous, current, now, order);
            && DistinctRowIds(Rows(d)) && DistinctEventIds(d.events) && |d.events| == |Rows(d)|
            && (forall id :: (exists e :: e in d.events && e.id == id) <==> id in RowIds(Rows(d)))
            && forall e | e in d.events ::
                Describes(e, Entry(LiveView(previous), e.id), Entry(CurrentView(current), e.id))
  {
    var d := DiffBy(previous, current, now, order);
    ListsAreDisjoint(previous, current, now, order);
    CurrentEventsDescribe(previous, current, now);
    EventCount(previous, current, now);
    AllEventsDescribe(previous, current, now, order);
    EventIdsAreRowIds(previous, current, now, order);
  }

  lemma AllEventsDescribe(previous: map<U32, RVM>, current: seq<RVM>, now: int, order: seq<U32>)
    requires KeysMatch(previous) && Enumerates(order, RemovedIds(previous, current)) && DistinctIds(current)
    ensures var d := DiffBy(previous, current, now, order);
            && DistinctEventIds(d.events)
            && forall e | e in d.events ::
                Describes(e, Entry(LiveView(previous), e.id), Entry(CurrentView(current), e.id))
  {
    var d, es := DiffBy(previous, current, now, order), CurrentEvents(previous, current, now);
    CurrentEventsDescribe(previous, current, now);
    CurrentViewKeys(current);
    forall i, j | 0 <= i < j < |d.events| ensures d.events[i].id != d.events[j].id {
      if i < |es| { assert es[i] in es; }
      if |es| <= j { assert order[j - |es|] in order; }
      if |es| <= i { assert order[i - |es|] in order; }
    }
    forall e | e in d.events
      ensures Describes(e, Entry(LiveView(previous), e.id), Entry(CurrentView(current), e.id))
    {
      if e !in es {
        var i :| 0 <= i < |order| && e == RemovedEvents(previous, order, now)[i];
        assert order[i] in order;
      }
    }
  }

  lemma {:induction false} CurrentEventIds(previous: map<U32, RVM>, current: seq<RVM>, now: int, id: U32)
    ensures (exists e :: e in CurrentEvents(previous, current, now) && e.id == id) <==>
            id in RowIds(AddedRows(previous, current, now)) || id in RowIds(UpdatedRows(previous, current, now))
    decreases |current|
  {
    if current != [] {
      var front, r := current[..|current| - 1], current[|current| - 1];
      CurrentEventIds(previous, front, now, id);
      var es := CurrentEvents(previous, front, now);
      if !Live(previous, r.id) {
        RowIdsSnoc(AddedRows(previous, front, now), AddedRow(r, now));
        assert CurrentEvents(previous, current, now)[|es|] == AddedEvent(r, now);
      } else if Changed(previous, r) {
        RowIdsSnoc(UpdatedRows(previous, front, now), UpdatedRow(previous[r.id], r, now));
        assert CurrentEvents(previous, current, now)[|es|] == UpdatedEvent(previous[r.id], r, now);
      }
      if e :| e in es && e.id == id { assert e in CurrentEvents(previous, current, now); }
    }
  }

  lemma EventIdsAreRowIds(previous: map<U32, RVM>, current: seq<RVM>, now: int, order: seq<U32>)
    requires KeysMatch(previous) && Enumerates(order, RemovedIds(previous, current))
    ensures var d := DiffBy(previous, current, now, order);
            forall id :: (exists e :: e in d.events && e.id == id) <==> id in RowIds(Rows(d))
  {
    var d := DiffBy(previous, current, now, order);
    var es, gone := CurrentEvents(previous, current, now), RemovedEvents(previous, order, now);
    RemovedRowIds(previous, order, now);
    assert RowIds(Rows(d)) == RowIds(d.added) + RowIds(d.updated) + RowIds(d.removed);
    forall id: U32 ensures (exists e :: e in d.events && e.id == id) <==> id in RowIds(Rows(d)) {
      CurrentEventIds(previous, current, now, id);
      if id in order {
        var i :| 0 <= i < |order| && order[i] == id;
        assert gone[i].id == id && gone[i] in d.events;
      }
      if e :| e in gone && e.id == id {
        var i :| 0 <= i < |gone| && gone[i] == e;
        assert order[i] in order;
      }
      if e :| e in es && e.id == id { assert e in d.events; }
    }
  }
}
