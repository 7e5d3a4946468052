/**
 What the metrics show, in plain sums over the scraped bins and the remembered machines:
 which number goes under which label.
 */
module GaugeLaws {
  import opened Prelude
  import opened Bins
  import opened BinRestart
  import Diff
  import DL = DiffLaws
  import MG = MachineGauge

  // ---- Labels ----------------------------------------------------------------------------

  /** A label part is the text itself, and UNKNOWN for an empty one. */
  predicate Shows(part: string, text: string) { part == if text == "" then "UNKNOWN" else text }

  /** The item belongs under the label: compartment by compartment type, supplier by supplier. */
  predicate Under(i: Item, l: Label) { Shows(l.compartment, i.bin.compartment) && Shows(l.supplier, i.supplier) }

  lemma UnderIsLabel(i: Item, l: Label)
    ensures Under(i, l) <==> LabelOf(i) == l
  {
  }

  // ---- The fill gauge --------------------------------------------------------------------

  /** Counts in the bins with a capacity, under a label. */
  function PhysicalCounts(items: seq<Item>, l: Label): int {
    if items == [] then 0
    else
      var i := items[0];
      (if i.bin.capacity > 0 && Under(i, l) then i.bin.count else 0) + PhysicalCounts(items[1..], l)
  }

  /** Fill percentages of the bins without one, under a label. */
  function Percentages(items: seq<Item>, l: Label): int {
    if items == [] then 0
    else
      var i := items[0];
      (if i.bin.capacity == 0 && Under(i, l) then i.bin.threshold else 0) + Percentages(items[1..], l)
  }

  lemma {:induction false} FoldShows(g: Ledger, items: seq<Item>, l: Label)
    ensures Amount(Fold(g, items).gauge, l) ==
            Amount(g.gauge, l) + PhysicalCounts(items, l) + 10 * Percentages(items, l)
    ensures l in Fold(g, items).gauge <==> l in g.gauge || exists i :: i in items && Under(i, l)
    decreases |items|
  {
    if items != [] {
      FoldShows(Record(g, items[0]), items[1..], l);
      UnderIsLabel(items[0], l);
      assert forall i :: i in items <==> i == items[0] || i in items[1..];
    }
  }

  /**
   After a cycle the fill gauge shows, under each label that some scraped bin has and under no
   other, the counts of the bins with a capacity plus ten times the percentages of the others.
   */
  lemma FillGaugeShows(g: Ledger, items: seq<Item>, l: Label)
    ensures Amount(Cycle(g, items).gauge, l) == PhysicalCounts(items, l) + 10 * Percentages(items, l)
    ensures l in Cycle(g, items).gauge <==> exists i :: i in items && Under(i, l)
  {
    FoldShows(g.(gauge := map[]), items, l);
  }

  /** So the percentage of a bin with a capacity, and the count of one without, do not matter. */
  lemma OtherColumnIgnored(g: Ledger, before: seq<Item>, i: Item, after: seq<Item>, count: U32, threshold: U8, l: Label)
    ensures var other := if i.bin.capacity > 0 then i.bin.(threshold := threshold) else i.bin.(count := count);
            Amount(Cycle(g, before + [i] + after).gauge, l) ==
            Amount(Cycle(g, before + [i.(bin := other)] + after).gauge, l)
  {
    var other := if i.bin.capacity > 0 then i.bin.(threshold := threshold) else i.bin.(count := count);
    FillGaugeShows(g, before + [i] + after, l);
    FillGaugeShows(g, before + [i.(bin := other)] + after, l);
    SumsSplit(before, i, after, l);
    SumsSplit(before, i.(bin := other), after, l);
  }

  lemma {:induction false} SumsSplit(before: seq<Item>, i: Item, after: seq<Item>, l: Label)
    ensures PhysicalCounts(before + [i] + after, l) ==
            PhysicalCounts(before, l) + PhysicalCounts(after, l)
            + if i.bin.capacity > 0 && Under(i, l) then i.bin.count else 0
    ensures Percentages(before + [i] + after, l) ==
            Percentages(before, l) + Percentages(after, l)
            + if i.bin.capacity == 0 && Under(i, l) then i.bin.threshold else 0
    decreases |before|
  {
    var all := before + [i] + after;
    if before == [] {
      assert all[1..] == after;
    } else {
      assert all[0] == before[0] && all[1..] == before[1..] + [i] + after;
      SumsSplit(before[1..], i, after, l);
    }
  }

  /** The items that loaded snapshots stand for: with the supplier of the remembered machine, if it has one. */
  function AsItems(list: seq<Bin>, suppliers: map<U32, string>): (items: seq<Item>)
    ensures |items| == |list|
  {
    seq(|list|, k requires 0 <= k < |list| =>
      Item(list[k], if list[k].id in suppliers then suppliers[list[k].id] else ""))
  }

  /** The start-up gauge shows the same sums over the loaded snapshots. */
  lemma LoadedGaugeShows(list: seq<Bin>, suppliers: map<U32, string>, l: Label)
    ensures var items := AsItems(list, suppliers);
            && Amount(LoadedGauge(map[], list, suppliers), l) == PhysicalCounts(items, l) + 10 * Percentages(items, l)
            && (l in LoadedGauge(map[], list, suppliers) <==> exists i :: i in items && Under(i, l))
  {
    var items, g := AsItems(list, suppliers), Ledger(map[], map[], map[]);
    assert Snapshots(items) == list;
    SameGauges(g, items, suppliers);
    FillGaugeShows(g, items, l);
  }

  // ---- The ingestion counter -------------------------------------------------------------

  /** The increments of a list of items, each against the count before it, under a label. */
  function RunningIncrements(last: map<BinKey, U32>, items: seq<Item>, l: Label): int
    decreases |items|
  {
    if items == [] then 0
    else
      var b := items[0].bin;
      var k := BinKey(b.id, b.compartment);
      var more := if k in last && Under(items[0], l) then Delta(Some(last[k]), b.capacity, b.count) else 0;
      more + RunningIncrements(last[k := b.count], items[1..], l)
  }

  /** The counter under a label grows by the increments of its bins; a bin's first reading adds nothing. */
  lemma {:induction false} CounterShows(g: Ledger, items: seq<Item>, l: Label)
    ensures Amount(Fold(g, items).ingested, l) == Amount(g.ingested, l) + RunningIncrements(g.last, items, l)
    decreases |items|
  {
    if items != [] {
      CounterShows(Record(g, items[0]), items[1..], l);
      UnderIsLabel(items[0], l);
    }
  }

  /** One increment, in figures. */
  lemma IncrementCases(prev: U32, capacity: U32, count: U32)
    ensures count > prev + 200 ==> Delta(Some(prev), capacity, count) == 0
    ensures prev < count <= prev + 200 ==>
              Delta(Some(prev), capacity, count) == if capacity == 0 && prev == 0 then 0 else count - prev
    ensures count == prev ==> Delta(Some(prev), capacity, count) == 0
    ensures count < prev ==>
              Delta(Some(prev), capacity, count) ==
              if capacity > 0 && prev >= 50 && 2 * count <= prev && count <= 200 then count else 0
  {
  }

  // ---- The machine gauge -----------------------------------------------------------------

  /** The machine counts under the label: its own status and supplier. */
  predicate MachineUnder(r: Diff.RVM, l: MG.Label) { r.status == l.status && r.supplier == l.supplier }

  function MachinesUnder(records: seq<Diff.RVM>, l: MG.Label): set<Diff.RVM> {
    set r | r in records && MachineUnder(r, l)
  }

  /** Under each status and supplier, with the given third label, the number of machines that have them. */
  lemma MachineGaugeShows(records: seq<Diff.RVM>, color: string, l: MG.Label)
    requires DL.DistinctIds(records)
    ensures l.color == color ==> MG.CountAt(MG.GaugeOf(records, color), l) == |MachinesUnder(records, l)|
    ensures l in MG.GaugeOf(records, color) <==> l.color == color && MachinesUnder(records, l) != {}
  {
    MG.GaugeCountsMachines(records, color, l);
    if l.color == color {
      assert MachinesUnder(records, l) == MG.Labelled(records, color, l);
    } else {
      assert MG.Labelled(records, color, l) == {};
    }
  }
}
