/**
 The columns and the order of the rows and events of a poll: each is the reported record's,
 or the remembered one's, field by field.
 */
module DiffColumns {
  import opened Prelude
  import opened Diff
  import opened DiffLaws
  import LR = LocationRuns

  /** The machine's own columns, everything but times and the deletion mark. */
  predicate SameMachine(a: RVM, b: RVM) {
    && a.id == b.id && a.serial == b.serial && a.supplier == b.supplier
    && a.location == b.location && a.address == b.address && a.status == b.status && a.details == b.details
  }

  /** A machine that is remembered and not marked deleted. */
  predicate Present(previous: map<U32, RVM>, id: U32) { id in previous && previous[id].isDeleted != 1 }

  /** What makes a reported machine an update: another status, location name or address. */
  predicate Differs(a: RVM, b: RVM) { a.status != b.status || a.location != b.location || a.address != b.address }

  /** An added row: a record of a machine that was not present, with the poll's time in both time columns. */
  ghost predicate IsAddedRow(previous: map<U32, RVM>, current: seq<RVM>, now: int, row: RVM) {
    exists r :: r in current && !Present(previous, r.id) && SameMachine(row, r)
                && row.firstSeen == now && row.updated == now && row.isDeleted == 0
  }

  /** An updated row: a record that differs from the present machine, whose first-seen time it copies. */
  ghost predicate IsUpdatedRow(previous: map<U32, RVM>, current: seq<RVM>, now: int, row: RVM) {
    exists r :: r in current && Present(previous, r.id) && Differs(previous[r.id], r) && SameMachine(row, r)
                && row.firstSeen == previous[r.id].firstSeen && row.updated == now && row.isDeleted == 0
  }

  /** A removed row: the remembered record, marked deleted at the poll's time. */
  ghost predicate IsRemovedRow(previous: map<U32, RVM>, now: int, row: RVM) {
    exists id :: id in previous && Present(previous, id) && SameMachine(row, previous[id])
                 && row.firstSeen == previous[id].firstSeen && row.updated == now && row.isDeleted == 1
  }

  lemma {:induction false} CurrentRows(previous: map<U32, RVM>, current: seq<RVM>, now: int)
    ensures forall row | row in AddedRows(previous, current, now) :: IsAddedRow(previous, current, now, row)
    ensures forall row | row in UpdatedRows(previous, current, now) :: IsUpdatedRow(previous, current, now, row)
    decreases |current|
  {
    if current != [] {
      var front, last := current[..|current| - 1], current[|current| - 1];
      CurrentRows(previous, front, now);
      assert forall r | r in front :: r in current;
      forall row | row in AddedRows(previous, current, now) ensures IsAddedRow(previous, current, now, row) {
        if row in AddedRows(previous, front, now) { assert IsAddedRow(previous, front, now, row); }
        else { assert last in current && SameMachine(row, last); }
      }
      forall row | row in UpdatedRows(previous, current, now) ensures IsUpdatedRow(previous, current, now, row) {
        if row in UpdatedRows(previous, front, now) { assert IsUpdatedRow(previous, front, now, row); }
        else { assert last in current && SameMachine(row, last); }
      }
    }
  }

  /** Every row of a diff is one of the three, in the list of that name. */
  lemma RowColumns(previous: map<U32, RVM>, current: seq<RVM>, now: int, order: seq<U32>)
    requires KeysMatch(previous) && Enumerates(order, RemovedIds(previous, current))
    ensures var d := DiffBy(previous, current, now, order);
            && (forall row | row in d.added :: IsAddedRow(previous, current, now, row))
            && (forall row | row in d.updated :: IsUpdatedRow(previous, current, now, row))
            && (forall row | row in d.removed :: IsRemovedRow(previous, now, row))
  {
    CurrentRows(previous, current, now);
    var d := DiffBy(previous, current, now, order);
    forall row | row in d.removed ensures IsRemovedRow(previous, now, row) {
      var i :| 0 <= i < |d.removed| && d.removed[i] == row;
      assert order[i] in order && SameMachine(row, previous[order[i]]);
    }
  }

  /**
   Which list a reported machine is in: added iff it was not present; updated iff it was and
   its status, location name or address differ; and a machine that is not reported is removed
   iff it was present.
   */
  lemma ListOf(previous: map<U32, RVM>, current: seq<RVM>, now: int, order: seq<U32>, r: RVM)
    requires KeysMatch(previous) && Enumerates(order, RemovedIds(previous, current)) && DistinctIds(current)
    requires r in current
    ensures var d := DiffBy(previous, current, now, order);
            && (r.id in RowIds(d.added) <==> !Present(previous, r.id))
            && (r.id in RowIds(d.updated) <==> Present(previous, r.id) && Differs(previous[r.id], r))
            && r.id !in RowIds(d.removed)
  {
    AddedIds(previous, current, now, r.id);
    UpdatedIds(previous, current, now);
    ChangedViewMeaning(previous, current, r.id);
    RemovedRowIds(previous, order, now);
    assert r.id in Ids(current);
    var i :| 0 <= i < |current| && current[i] == r;
    forall j | 0 <= j < |current| && current[j].id == r.id ensures j == i {}
  }

  lemma RemovedIff(previous: map<U32, RVM>, current: seq<RVM>, now: int, order: seq<U32>, id: U32)
    requires KeysMatch(previous) && Enumerates(order, RemovedIds(previous, current))
    requires forall r | r in current :: r.id != id
    ensures id in RowIds(DiffBy(previous, current, now, order).removed) <==> Present(previous, id)
  {
    RemovedRowIds(previous, order, now);
    assert id !in Ids(current);
    assert id in Visited(order) <==> id in RemovedIds(previous, current);
  }

  /** The event of a row, field by field; the deleted machine's new status is DELETED. */
  ghost predicate IsEventOf(e: Event, machine: RVM, kind: EventKind, was: string, becomes: string, now: int) {
    && e.id == machine.id && e.serial == machine.serial && e.supplier == machine.supplier
    && e.kind == kind && e.previousStatus == was && e.currentStatus == becomes && e.recordedAt == now
  }

  ghost predicate IsCurrentEvent(previous: map<U32, RVM>, current: seq<RVM>, now: int, e: Event) {
    exists r :: r in current &&
      if !Present(previous, r.id) then IsEventOf(e, r, MachineAdded, "", r.status, now)
      else
        && Differs(previous[r.id], r)
        && IsEventOf(e, r, if previous[r.id].status != r.status then StatusChanged else MetadataUpdated,
                     previous[r.id].status, r.status, now)
  }

  lemma {:induction false} CurrentEventColumns(previous: map<U32, RVM>, current: seq<RVM>, now: int)
    ensures forall e | e in CurrentEvents(previous, current, now) :: IsCurrentEvent(previous, current, now, e)
    decreases |current|
  {
    if current != [] {
      var front, last := current[..|current| - 1], current[|current| - 1];
      CurrentEventColumns(previous, front, now);
      assert forall r | r in front :: r in current;
      forall e | e in CurrentEvents(previous, current, now) ensures IsCurrentEvent(previous, current, now, e) {
        if e in CurrentEvents(previous, front, now) { assert IsCurrentEvent(previous, front, now, e); }
        else { assert last in current; }
      }
    }
  }

  /** Every event of a diff carries the columns of its machine, as reported or, if removed, as remembered. */
  lemma EventColumns(previous: map<U32, RVM>, current: seq<RVM>, now: int, order: seq<U32>, e: Event)
    requires KeysMatch(previous) && Enumerates(order, RemovedIds(previous, current))
    requires e in DiffBy(previous, current, now, order).events
    ensures IsCurrentEvent(previous, current, now, e) ||
            exists id :: id in previous && Present(previous, id) &&
              IsEventOf(e, previous[id], MachineRemoved, previous[id].status, "DELETED", now)
  {
    CurrentEventColumns(previous, current, now);
    if e !in CurrentEvents(previous, current, now) {
      var i :| 0 <= i < |order| && e == RemovedEvents(previous, order, now)[i];
      assert order[i] in order;
    }
  }

  // ---- Order -----------------------------------------------------------------------------

  /** `ids` are those of the machines of the response at the positions `at`, from front to back. */
  ghost predicate InResponseOrder(ids: seq<U32>, current: seq<RVM>, at: seq<nat>) {
    && |at| == |ids| && (forall i, j | 0 <= i < j < |at| :: at[i] < at[j])
    && forall i | 0 <= i < |at| :: at[i] < |current| && current[at[i]].id == ids[i]
  }

  function RowIdList(rows: seq<RVM>): seq<U32> { seq(|rows|, i requires 0 <= i < |rows| => rows[i].id) }

  function EventIdList(es: seq<Event>): seq<U32> { seq(|es|, i requires 0 <= i < |es| => es[i].id) }

  lemma OneLater(ids: seq<U32>, front: seq<RVM>, r: RVM, at: seq<nat>)
    requires InResponseOrder(ids, front, at)
    ensures InResponseOrder(ids, front + [r], at)
    ensures InResponseOrder(ids + [r.id], front + [r], at + [|front|])
  {
  }

  lemma {:induction false} CurrentOrder(previous: map<U32, RVM>, current: seq<RVM>, now: int)
    returns (a: seq<nat>, u: seq<nat>, e: seq<nat>)
    ensures InResponseOrder(RowIdList(AddedRows(previous, current, now)), current, a)
    ensures InResponseOrder(RowIdList(UpdatedRows(previous, current, now)), current, u)
    ensures InResponseOrder(EventIdList(CurrentEvents(previous, current, now)), current, e)
    decreases |current|
  {
    if current == [] {
      a, u, e := [], [], [];
    } else {
      var front, r := current[..|current| - 1], current[|current| - 1];
      a, u, e := CurrentOrder(previous, front, now);
      assert current == front + [r];
      var added, updated := AddedRows(previous, front, now), UpdatedRows(previous, front, now);
      var es := CurrentEvents(previous, front, now);
      OneLater(RowIdList(added), front, r, a);
      OneLater(RowIdList(updated), front, r, u);
      OneLater(EventIdList(es), front, r, e);
      assert RowIdList(added + [AddedRow(r, now)]) == RowIdList(added) + [r.id];
      if !Live(previous, r.id) {
        assert EventIdList(es + [AddedEvent(r, now)]) == EventIdList(es) + [r.id];
        a, e := a + [|front|], e + [|front|];
      } else if Changed(previous, r) {
        var prev := previous[r.id];
        assert RowIdList(updated + [UpdatedRow(prev, r, now)]) == RowIdList(updated) + [r.id];
        assert EventIdList(es + [UpdatedEvent(prev, r, now)]) == EventIdList(es) + [r.id];
        u, e := u + [|front|], e + [|front|];
      }
    }
  }

  /**
   Added and updated rows, and their events, come in the order of the response; the events of
   removed machines come last, in the order of the removed rows.
   */
  lemma DiffOrder(previous: map<U32, RVM>, current: seq<RVM>, now: int, order: seq<U32>)
    returns (a: seq<nat>, u: seq<nat>, e: seq<nat>)
    requires KeysMatch(previous) && Enumerates(order, RemovedIds(previous, current))
    ensures var d := DiffBy(previous, current, now, order);
            && InResponseOrder(RowIdList(d.added), current, a) && InResponseOrder(RowIdList(d.updated), current, u)
            && |d.events| == |e| + |d.removed|
            && InResponseOrder(EventIdList(d.events[..|e|]), current, e)
            && EventIdList(d.events[|e|..]) == RowIdList(d.removed)
            && forall i | |e| <= i < |d.events| :: d.events[i].kind.MachineRemoved?
  {
    a, u, e := CurrentOrder(previous, current, now);
    var d := DiffBy(previous, current, now, order);
    assert d.events[..|e|] == CurrentEvents(previous, current, now);
    assert d.events[|e|..] == RemovedEvents(previous, order, now);
  }

  // ---- Memory and the table --------------------------------------------------------------

  /** Memory after a poll has each reported machine as the response has it, and no other. */
  lemma {:induction false} MemoryIsResponse(locations: seq<LR.Location>, i: nat)
    requires DistinctIds(LR.DecodeAll(locations)) && i < |locations|
    ensures var l, m := locations[i], LR.ById(LR.DecodeAll(locations));
            && l.id in m && m[l.id].isDeleted == 0
            && m[l.id].id == l.id && m[l.id].serial == l.serial && m[l.id].supplier == l.supplier
            && m[l.id].location == l.location && m[l.id].address == l.address
            && m[l.id].status == l.status && m[l.id].details == l.details
    decreases |locations|
  {
    var front, current := locations[..|locations| - 1], LR.DecodeAll(locations);
    assert current[..|current| - 1] == LR.DecodeAll(front);
    if i < |front| {
      assert current[i].id != current[|front|].id;
      MemoryIsResponse(front, i);
    }
  }

  /** A restart loads a machine iff its newest stored row is not marked deleted, and then that row. */
  lemma LoadedIsNewest(table: seq<RVM>, id: U32)
    ensures id in LR.Loaded(table) ==>
              && LR.Loaded(table)[id] in table && LR.Loaded(table)[id].id == id && LR.Loaded(table)[id].isDeleted == 0
              && forall r | r in table && r.id == id :: r.updated <= LR.Loaded(table)[id].updated
    ensures id !in LR.Loaded(table) ==>
              (forall r | r in table :: r.id != id)
              || exists r :: r in table && r.id == id && r.isDeleted != 0
                             && forall s | s in table && s.id == id :: s.updated <= r.updated
  {
    LR.FinalMeaning(table, id);
    if id in LR.Final(table) && id !in LR.Loaded(table) { assert LR.Final(table)[id] in table; }
  }
}
