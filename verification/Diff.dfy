/** Comparing the remembered machines with a fresh location response. */
module Diff {
  import opened Prelude

  /** One machine; `details` stands for the columns that are carried along unread. */
  datatype RVM = RVM(id: U32, serial: string, supplier: string, location: string, address: string,
                     status: string, details: string, firstSeen: int, updated: int, isDeleted: U8)

  datatype EventKind = MachineAdded | MachineRemoved | StatusChanged | MetadataUpdated

  datatype Event = Event(id: U32, serial: string, supplier: string, kind: EventKind,
                         previousStatus: string, currentStatus: string, recordedAt: int)

  datatype DiffResult = DiffResult(added: seq<RVM>, updated: seq<RVM>, removed: seq<RVM>, events: seq<Event>)

  /** The fields whose change is an update. */
  datatype Tracked = Tracked(status: string, location: string, address: string)

  function TrackedOf(r: RVM): Tracked { Tracked(r.status, r.location, r.address) }

  predicate Live(previous: map<U32, RVM>, id: U32) { id in previous && previous[id].isDeleted != 1 }

  // ---- Rows and events, record by record -------------------------------------------------

  function AddedRow(r: RVM, now: int): RVM { r.(firstSeen := now, updated := now, isDeleted := 0) }

  function UpdatedRow(prev: RVM, r: RVM, now: int): RVM {
    r.(firstSeen := prev.firstSeen, updated := now, isDeleted := 0)
  }

  function RemovedRow(prev: RVM, now: int): RVM { prev.(updated := now, isDeleted := 1) }

  function AddedEvent(r: RVM, now: int): Event {
    Event(r.id, r.serial, r.supplier, MachineAdded, "", r.status, now)
  }

  function UpdatedEvent(prev: RVM, r: RVM, now: int): Event {
    Event(r.id, r.serial, r.supplier, if prev.status != r.status then StatusChanged else MetadataUpdated,
          prev.status, r.status, now)
  }

  function RemovedEvent(prev: RVM, now: int): Event {
    Event(prev.id, prev.serial, prev.supplier, MachineRemoved, prev.status, "DELETED", now)
  }

  predicate Changed(previous: map<U32, RVM>, r: RVM) {
    Live(previous, r.id) && TrackedOf(previous[r.id]) != TrackedOf(r)
  }

  // ---- Specification: the lists as functions of the response ------------------------------

  function AddedRows(previous: map<U32, RVM>, current: seq<RVM>, now: int): seq<RVM> {
    if current == [] then []
    else
      var r := current[|current| - 1];
      AddedRows(previous, current[..|current| - 1], now) +
      if Live(previous, r.id) then [] else [AddedRow(r, now)]
  }

  function UpdatedRows(previous: map<U32, RVM>, current: seq<RVM>, now: int): seq<RVM> {
    if current == [] then []
    else
      var r := current[|current| - 1];
      UpdatedRows(previous, current[..|current| - 1], now) +
      if Changed(previous, r) then [UpdatedRow(previous[r.id], r, now)] else []
  }

  function CurrentEvents(previous: map<U32, RVM>, current: seq<RVM>, now: int): seq<Event> {
    if current == [] then []
    else
      var r := current[|current| - 1];
      CurrentEvents(previous, current[..|current| - 1], now) +
      if !Live(previous, r.id) then [AddedEvent(r, now)]
      else if Changed(previous, r) then [UpdatedEvent(previous[r.id], r, now)]
      else []
  }

  function Ids(current: seq<RVM>): set<U32> { set r | r in current :: r.id }

  function RemovedIds(previous: map<U32, RVM>, current: seq<RVM>): set<U32> {
    set id | id in previous && Live(previous, id) && id !in Ids(current)
  }

  /** `order` visits each member of `ids` once; Go's map iteration picks any such order. */
  ghost predicate Enumerates(order: seq<U32>, ids: set<U32>) {
    && (forall i, j | 0 <= i < j < |order| :: order[i] != order[j])
    && (forall id :: id in order <==> id in ids)
  }

  function Visited(order: seq<U32>): set<U32> { set id | id in order }

  function RemovedRows(previous: map<U32, RVM>, order: seq<U32>, now: int): seq<RVM>
    requires forall id | id in order :: id in previous
  {
    seq(|order|, i requires 0 <= i < |order| => RemovedRow(previous[order[i]], now))
  }

  function RemovedEvents(previous: map<U32, RVM>, order: seq<U32>, now: int): seq<Event>
    requires forall id | id in order :: id in previous
  {
    seq(|order|, i requires 0 <= i < |order| => RemovedEvent(previous[order[i]], now))
  }

  /** The result, given the order in which the vanished machines were visited. */
  function DiffBy(previous: map<U32, RVM>, current: seq<RVM>, now: int, order: seq<U32>): DiffResult
    requires forall id | id in order :: id in previous
  {
    DiffResult(AddedRows(previous, current, now),
               UpdatedRows(previous, current, now),
               RemovedRows(previous, order, now),
               CurrentEvents(previous, current, now) + RemovedEvents(previous, order, now))
  }

  // ---- The two loops ---------------------------------------------------------------------

  /** The loop over the response. */
  method DiffCurrent(previous: map<U32, RVM>, current: seq<RVM>, now: int)
    returns (currentMap: map<U32, RVM>, added: seq<RVM>, updated: seq<RVM>, events: seq<Event>)
    ensures currentMap.Keys == Ids(current)
    ensures added == AddedRows(previous, current, now) && updated == UpdatedRows(previous, current, now)
    ensures events == CurrentEvents(previous, current, now)
  {
    currentMap, added, updated, events := map[], [], [], [];
    for i := 0 to |current|
      invariant currentMap.Keys == Ids(current[..i])
      invariant added == AddedRows(previous, current[..i], now)
      invariant updated == UpdatedRows(previous, current[..i], now)
      invariant events == CurrentEvents(previous, current[..i], now)
    {
      var rvm := current[i];
      assert current[..i + 1][..i] == current[..i] && current[..i + 1][i] == rvm;
      assert Ids(current[..i + 1]) == Ids(current[..i]) + {rvm.id};
      currentMap := currentMap[rvm.id := rvm];
      if rvm.id !in previous || previous[rvm.id].isDeleted == 1 {
        added := added + [rvm.(firstSeen := now, updated := now, isDeleted := 0)];
        events := events + [Event(rvm.id, rvm.serial, rvm.supplier, MachineAdded, "", rvm.status, now)];
      } else {
        var prev := previous[rvm.id];
        var row := rvm.(firstSeen := prev.firstSeen, updated := now, isDeleted := 0);
        if prev.status != rvm.status {
          events := events + [Event(rvm.id, rvm.serial, rvm.supplier, StatusChanged, prev.status, rvm.status, now)];
          updated := updated + [row];
        } else if prev.location != rvm.location || prev.address != rvm.address {
          events := events + [Event(rvm.id, rvm.serial, rvm.supplier, MetadataUpdated, prev.status, rvm.status, now)];
          updated := updated + [row];
        }
      }
    }
    assert current[..|current|] == current;
  }

  /** The loop over what was remembered, in the order the map happens to yield. */
  method DiffRemoved(previous: map<U32, RVM>, currentMap: map<U32, RVM>, now: int, ghost gone: set<U32>)
    returns (removed: seq<RVM>, events: seq<Event>, order: seq<U32>)
    requires gone == set id | id in previous && Live(previous, id) && id !in currentMap
    ensures Enumerates(order, gone)
    ensures removed == RemovedRows(previous, order, now) && events == RemovedEvents(previous, order, now)
  {
    removed, events, order := [], [], [];
    var todo := previous.Keys;
    while todo != {}
      invariant todo <= previous.Keys
      invariant forall i, j | 0 <= i < j < |order| :: order[i] != order[j]
      invariant forall id :: id in order <==> id in gone && id !in todo
      invariant removed == RemovedRows(previous, order, now)
      invariant events == RemovedEvents(previous, order, now)
      decreases todo
    {
      var prevID :| prevID in todo;
      todo := todo - {prevID};
      var prev := previous[prevID];
      if prev.isDeleted != 1 && prevID !in currentMap {
        order := order + [prevID];
        removed := removed + [prev.(isDeleted := 1, updated := now)];
        events := events + [Event(prev.id, prev.serial, prev.supplier, MachineRemoved, prev.status, "DELETED", now)];
      }
    }
  }

  /** `order` is the order in which the second loop happened to meet the vanished machines. */
  method DiffState(previous: map<U32, RVM>, current: seq<RVM>, now: int)
    returns (result: DiffResult, order: seq<U32>)
    ensures Enumerates(order, RemovedIds(previous, current))
    ensures result == DiffBy(previous, current, now, order)
  {
    var currentMap, added, updated, currentEvents := DiffCurrent(previous, current, now);
    var removed, removedEvents;
    removed, removedEvents, order := DiffRemoved(previous, currentMap, now, RemovedIds(previous, current));
    result := DiffResult(added, updated, removed, currentEvents + removedEvents);
  }
}
