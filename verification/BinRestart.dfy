/** What a restart makes of the stored bin snapshots: the last counts and the fill gauges. */
module BinRestart {
  import opened Prelude
  import opened Bins

  // ---- The table `rvm_bin_snapshots` -----------------------------------------------------

  function MergeBin(m: map<BinKey, Bin>, b: Bin): map<BinKey, Bin> {
    if KeyOf(b) in m && m[KeyOf(b)].polledAt > b.polledAt then m else m[KeyOf(b) := b]
  }

  /** Per key the snapshot with the largest `polled_at`. */
  function Latest(snapshots: seq<Bin>): map<BinKey, Bin> {
    if snapshots == [] then map[] else MergeBin(Latest(snapshots[..|snapshots| - 1]), snapshots[|snapshots| - 1])
  }

  function Snapshots(items: seq<Item>): seq<Bin> {
    seq(|items|, i requires 0 <= i < |items| => items[i].bin)
  }

  /** Poll times strictly increase per key. */
  ghost predicate Increasing(items: seq<Item>) {
    forall i, j | 0 <= i < j < |items| && KeyOf(items[i].bin) == KeyOf(items[j].bin) ::
      items[i].bin.polledAt < items[j].bin.polledAt
  }

  ghost predicate SameSnapshots(stored: seq<Bin>, items: seq<Item>) {
    forall b :: b in stored <==> b in Snapshots(items)
  }

  lemma {:induction false} LatestMeaning(t: seq<Bin>, k: BinKey)
    ensures k in Latest(t) ==> Latest(t)[k] in t && KeyOf(Latest(t)[k]) == k
    ensures forall b | b in t && KeyOf(b) == k :: k in Latest(t) && b.polledAt <= Latest(t)[k].polledAt
    decreases |t|
  {
    if t != [] {
      LatestMeaning(t[..|t| - 1], k);
      assert t == t[..|t| - 1] + [t[|t| - 1]];
    }
  }

  /** Number `i` is the last item of its key. */
  ghost predicate LastOf(items: seq<Item>, k: BinKey, i: int) {
    && 0 <= i < |items| && KeyOf(items[i].bin) == k
    && forall j | i < j < |items| :: KeyOf(items[j].bin) != k
  }

  /** The fold remembers, per key, the count of the last item. */
  lemma {:induction false} FoldRemembersLast(g: Ledger, items: seq<Item>, k: BinKey)
    ensures (forall i | 0 <= i < |items| :: KeyOf(items[i].bin) != k) ==>
              Previous(Fold(g, items).last, k) == Previous(g.last, k)
    ensures forall i | LastOf(items, k, i) :: Previous(Fold(g, items).last, k) == Some(items[i].bin.count)
    decreases |items|
  {
    if items != [] {
      var rest := items[1..];
      assert forall j | 0 <= j < |rest| :: rest[j] == items[j + 1];
      FoldRemembersLast(Record(g, items[0]), rest, k);
      forall i | LastOf(items, k, i) ensures Previous(Fold(g, items).last, k) == Some(items[i].bin.count) {
        if i == 0 {
          assert forall j | 0 <= j < |rest| :: KeyOf(rest[j].bin) != k;
        } else {
          assert rest[i - 1] == items[i] && LastOf(rest, k, i - 1);
        }
      }
    }
  }

  lemma {:induction false} LastIndex(items: seq<Item>, k: BinKey, i: nat) returns (n: nat)
    requires i < |items| && KeyOf(items[i].bin) == k
    ensures i <= n && LastOf(items, k, n)
    decreases |items| - i
  {
    n := i;
    if j :| i < j < |items| && KeyOf(items[j].bin) == k { n := LastIndex(items, k, j); }
  }

  /** The count that a restart loads for a key. */
  function LoadedCount(stored: seq<Bin>, k: BinKey): Option<U32> {
    if k in Latest(stored) then Some(Latest(stored)[k].count) else None
  }

  /**
   Bin restart equivalence: if all snapshots of a history are stored, in any order and any
   number of times, a restart loads for every key exactly the count the tracker remembered.
   */
  lemma RestartLoadsLastCounts(items: seq<Item>, stored: seq<Bin>, k: BinKey)
    requires Increasing(items) && SameSnapshots(stored, items)
    ensures LoadedCount(stored, k) == Previous(Fold(Ledger(map[], map[], map[]), items).last, k)
  {
    FoldRemembersLast(Ledger(map[], map[], map[]), items, k);
    if k in Latest(stored) {
      var n := LatestIsLast(items, stored, k);
    } else {
      LatestMeaning(stored, k);
      forall i | 0 <= i < |items| ensures KeyOf(items[i].bin) != k { assert Snapshots(items)[i] in stored; }
    }
  }

  /** With increasing poll times the snapshot kept for a key is that of its last item. */
  lemma LatestIsLast(items: seq<Item>, stored: seq<Bin>, k: BinKey) returns (n: nat)
    requires Increasing(items) && SameSnapshots(stored, items) && k in Latest(stored)
    ensures LastOf(items, k, n) && items[n].bin == Latest(stored)[k]
  {
    LatestMeaning(stored, k);
    var j :| 0 <= j < |items| && Snapshots(items)[j] == Latest(stored)[k];
    n := LastIndex(items, k, j);
    assert Snapshots(items)[n] in stored;
    assert j == n;
  }

  /** So every later increment is the one an uninterrupted tracker would have counted. */
  lemma LaterIncrementsUnchanged(items: seq<Item>, stored: seq<Bin>, loaded: map<BinKey, U32>, later: seq<Item>,
                                 base: map<Label, int>)
    requires Increasing(items) && SameSnapshots(stored, items)
    requires forall k :: Previous(loaded, k) == LoadedCount(stored, k)
    ensures var last := Fold(Ledger(map[], map[], map[]), items).last;
            Fold(Ledger(loaded, base, map[]), later) == Fold(Ledger(last, base, map[]), later)
  {
    var last := Fold(Ledger(map[], map[], map[]), items).last;
    forall k: BinKey ensures Previous(loaded, k) == Previous(last, k) {
      RestartLoadsLastCounts(items, stored, k);
    }
    SameMap(loaded, last);
  }

  lemma SameMap(a: map<BinKey, U32>, b: map<BinKey, U32>)
    requires forall k :: Previous(a, k) == Previous(b, k)
    ensures a == b
  {
    forall k: BinKey ensures k in a <==> k in b { assert Previous(a, k) == Previous(b, k); }
    forall k | k in a ensures a[k] == b[k] { assert Previous(a, k) == Previous(b, k); }
  }

  // ---- Gauges ----------------------------------------------------------------------------

  /** The supplier under which a loaded snapshot is shown. */
  function LoadedSupplier(suppliers: map<U32, string>, id: U32): string {
    if id in suppliers && suppliers[id] != "" then suppliers[id] else "UNKNOWN"
  }

  function LoadedLabel(b: Bin, suppliers: map<U32, string>): Label {
    Label(Named(b.compartment), LoadedSupplier(suppliers, b.id))
  }

  /** Gauges of loaded snapshots. */
  function LoadedGauge(m: map<Label, int>, list: seq<Bin>, suppliers: map<U32, string>): map<Label, int> {
    if list == [] then m
    else
      var b := list[|list| - 1];
      Plus(LoadedGauge(m, list[..|list| - 1], suppliers), LoadedLabel(b, suppliers), InBin(b))
  }

  lemma {:induction false} FoldSnoc(g: Ledger, items: seq<Item>, x: Item)
    ensures Fold(g, items + [x]) == Record(Fold(g, items), x)
  {
    FoldConcat(g, items, [x]);
    assert [x][1..] == [];
  }

  /** The restarted tracker knows the item's machine under the supplier the poll stamped on it. */
  predicate SupplierKnown(i: Item, suppliers: map<U32, string>) {
    Named(i.supplier) == if i.bin.id in suppliers then Named(suppliers[i.bin.id]) else "UNKNOWN"
  }

  lemma SameLabelIff(i: Item, suppliers: map<U32, string>)
    ensures LoadedLabel(i.bin, suppliers) == LabelOf(i) <==> SupplierKnown(i, suppliers)
  {
  }

  lemma OneMoreGauge(g: Ledger, front: seq<Item>, x: Item, suppliers: map<U32, string>)
    requires LoadedGauge(map[], Snapshots(front), suppliers) == Cycle(g, front).gauge && SupplierKnown(x, suppliers)
    ensures LoadedGauge(map[], Snapshots(front + [x]), suppliers) == Cycle(g, front + [x]).gauge
  {
    FoldSnoc(g.(gauge := map[]), front, x);
    SameLabelIff(x, suppliers);
    assert Snapshots(front + [x]) == Snapshots(front) + [x.bin];
    assert (Snapshots(front) + [x.bin])[..|front|] == Snapshots(front);
  }

  /** Loading and polling the same records give the same gauges when suppliers are known alike. */
  lemma {:induction false} SameGauges(g: Ledger, items: seq<Item>, suppliers: map<U32, string>)
    requires forall i | 0 <= i < |items| :: SupplierKnown(items[i], suppliers)
    ensures LoadedGauge(map[], Snapshots(items), suppliers) == Cycle(g, items).gauge
    decreases |items|
  {
    if items != [] {
      var n := |items| - 1;
      SameGauges(g, items[..n], suppliers);
      assert items == items[..n] + [items[n]];
      OneMoreGauge(g, items[..n], items[n], suppliers);
    }
  }

  lemma GaugeSnoc(m: map<Label, int>, list: seq<Bin>, b: Bin, suppliers: map<U32, string>)
    ensures LoadedGauge(m, list + [b], suppliers) ==
              Plus(LoadedGauge(m, list, suppliers), LoadedLabel(b, suppliers), InBin(b))
  {
    assert (list + [b])[..|list|] == list;
  }

  lemma {:induction false} GaugeMoveLast(m: map<Label, int>, before: seq<Bin>, x: Bin, after: seq<Bin>,
                                         suppliers: map<U32, string>)
    ensures LoadedGauge(m, before + [x] + after, suppliers) ==
            Plus(LoadedGauge(m, before + after, suppliers), LoadedLabel(x, suppliers), InBin(x))
    decreases |after|
  {
    if after == [] {
      assert before + [x] + after == before + [x] && before + after == before;
      GaugeSnoc(m, before, x, suppliers);
    } else {
      var front, y := after[..|after| - 1], after[|after| - 1];
      assert before + [x] + after == (before + [x] + front) + [y] && before + after == (before + front) + [y];
      GaugeSnoc(m, before + [x] + front, y, suppliers);
      GaugeSnoc(m, before + front, y, suppliers);
      GaugeMoveLast(m, before, x, front, suppliers);
      PlusCommutes(LoadedGauge(m, before + front, suppliers), LoadedLabel(x, suppliers), InBin(x),
                   LoadedLabel(y, suppliers), InBin(y));
    }
  }

  /** A member of a list, and the rest of it. */
  lemma TakeOut(b: seq<Bin>, x: Bin) returns (before: seq<Bin>, after: seq<Bin>)
    requires x in b
    ensures b == before + [x] + after && multiset(before + after) == multiset(b) - multiset{x}
  {
    var k :| 0 <= k < |b| && b[k] == x;
    before, after := b[..k], b[k + 1..];
    assert b == before + [x] + after;
    assert multiset(b) == multiset(before) + multiset{x} + multiset(after);
  }

  /** The order in which the database returns snapshots does not matter. */
  lemma {:induction false} GaugeIgnoresOrder(m: map<Label, int>, a: seq<Bin>, b: seq<Bin>, suppliers: map<U32, string>)
    requires multiset(a) == multiset(b)
    ensures LoadedGauge(m, a, suppliers) == LoadedGauge(m, b, suppliers)
    decreases |a|
  {
    if a == [] {
      assert |b| == |multiset(b)| == 0;
    } else {
      var front, x := a[..|a| - 1], a[|a| - 1];
      assert a == front + [x];
      assert x in multiset(a);
      var before, after := TakeOut(b, x);
      assert multiset(front) == multiset(a) - multiset{x};
      GaugeIgnoresOrder(m, front, before + after, suppliers);
      GaugeMoveLast(m, before, x, after, suppliers);
    }
  }
}
