/**
 The fold of a bin poll cycle: per-bin last counts, the ingestion counter and the
 fill gauges. Nested Go maps keyed by compartment and supplier are maps keyed by `Label`.
 */
module Bins {
  import opened Prelude

  datatype BinKey = BinKey(id: U32, compartment: string)

  /** One bin of a status response, with the machine and poll time the worker stamps on it. */
  datatype Bin = Bin(id: U32, compartment: string, capacity: U32, count: U32, threshold: U8, polledAt: int)

  datatype Item = Item(bin: Bin, supplier: string)

  datatype Label = Label(compartment: string, supplier: string)

  function KeyOf(b: Bin): BinKey { BinKey(b.id, b.compartment) }

  function Named(s: string): string { if s == "" then "UNKNOWN" else s }

  function LabelOf(i: Item): Label { Label(Named(i.bin.compartment), Named(i.supplier)) }

  /** Zero-capacity machines report a fill percentage instead of a count. */
  function InBin(b: Bin): int { if b.capacity > 0 then b.count else b.threshold * 10 }

  const MAX_STEP: int := 200
  const EMPTYING_FLOOR: int := 50

  /** Containers counted for one reading, given the reading before it. */
  function Delta(prev: Option<U32>, capacity: U32, count: U32): (d: U32)
    ensures d <= 200
  {
    if prev.None? then 0
    else if capacity == 0 then
      if prev.value > 0 && count >= prev.value && count - prev.value <= MAX_STEP then count - prev.value else 0
    else if count > prev.value then
      if count - prev.value <= MAX_STEP then count - prev.value else 0
    else if count == prev.value then 0
    else if prev.value >= EMPTYING_FLOOR && count <= prev.value / 2 && count <= MAX_STEP then count
    else 0
  }

  /** `lastBinCounts`, the ingestion counter and the gauges of the cycle under way. */
  datatype Ledger = Ledger(last: map<BinKey, U32>, ingested: map<Label, int>, gauge: map<Label, int>)

  function Amount(m: map<Label, int>, l: Label): int { if l in m then m[l] else 0 }

  function Plus(m: map<Label, int>, l: Label, n: int): map<Label, int> { m[l := Amount(m, l) + n] }

  function Previous(last: map<BinKey, U32>, k: BinKey): Option<U32> { if k in last then Some(last[k]) else None }

  function Record(g: Ledger, i: Item): Ledger {
    var k := KeyOf(i.bin);
    Ledger(g.last[k := i.bin.count],
           Plus(g.ingested, LabelOf(i), Delta(Previous(g.last, k), i.bin.capacity, i.bin.count)),
           Plus(g.gauge, LabelOf(i), InBin(i.bin)))
  }

  function Fold(g: Ledger, items: seq<Item>): Ledger
    decreases |items|
  {
    if items == [] then g else Fold(Record(g, items[0]), items[1..])
  }

  /** A poll cycle starts its gauges afresh. */
  function Cycle(g: Ledger, items: seq<Item>): Ledger { Fold(g.(gauge := map[]), items) }

  lemma {:induction false} FoldConcat(g: Ledger, a: seq<Item>, b: seq<Item>)
    ensures Fold(g, a + b) == Fold(Fold(g, a), b)
    decreases |a|
  {
    if a == [] {
      assert a + b == b;
    } else {
      assert (a + b)[1..] == a[1..] + b;
      FoldConcat(Record(g, a[0]), a[1..], b);
    }
  }

  // ---- Items of different machines commute -----------------------------------------------

  /** The items of one machine, in order. */
  function Of(items: seq<Item>, id: U32): seq<Item> {
    if items == [] then []
    else (if items[0].bin.id == id then [items[0]] else []) + Of(items[1..], id)
  }

  lemma {:induction false} OfConcat(a: seq<Item>, b: seq<Item>, id: U32)
    ensures Of(a + b, id) == Of(a, id) + Of(b, id)
    decreases |a|
  {
    if a == [] {
      assert a + b == b;
    } else {
      assert (a + b)[0] == a[0] && (a + b)[1..] == a[1..] + b;
      OfConcat(a[1..], b, id);
      var head := if a[0].bin.id == id then [a[0]] else [];
      assert head + (Of(a[1..], id) + Of(b, id)) == head + Of(a[1..], id) + Of(b, id);
    }
  }

  lemma PlusCommutes(m: map<Label, int>, k: Label, x: int, l: Label, y: int)
    ensures Plus(Plus(m, k, x), l, y) == Plus(Plus(m, l, y), k, x)
  {
  }

  lemma Commute(g: Ledger, a: Item, b: Item)
    requires a.bin.id != b.bin.id
    ensures Record(Record(g, a), b) == Record(Record(g, b), a)
  {
    var k, l := KeyOf(a.bin), KeyOf(b.bin);
    assert k != l;
    assert g.last[k := a.bin.count][l := b.bin.count] == g.last[l := b.bin.count][k := a.bin.count];
    PlusCommutes(g.ingested, LabelOf(a), Delta(Previous(g.last, k), a.bin.capacity, a.bin.count),
                 LabelOf(b), Delta(Previous(g.last, l), b.bin.capacity, b.bin.count));
    PlusCommutes(g.gauge, LabelOf(a), InBin(a.bin), LabelOf(b), InBin(b.bin));
  }

  /** An item may be recorded before items of other machines. */
  lemma {:induction false} RecordFirst(g: Ledger, before: seq<Item>, x: Item)
    requires Of(before, x.bin.id) == []
    ensures Fold(g, before + [x]) == Fold(Record(g, x), before)
    decreases |before|
  {
    if before == [] {
      assert before + [x] == [x] && [x][1..] == [];
    } else {
      assert (before + [x])[1..] == before[1..] + [x];
      RecordFirst(Record(g, before[0]), before[1..], x);
      Commute(g, x, before[0]);
    }
  }

  /** If a machine has items, they start with its first item, which follows items of others. */
  lemma {:induction false} SplitAtFirst(items: seq<Item>, id: U32) returns (before: seq<Item>, after: seq<Item>)
    requires Of(items, id) != []
    ensures items == before + [Of(items, id)[0]] + after && Of(before, id) == []
    ensures Of(items, id)[0].bin.id == id
    decreases |items|
  {
    if items[0].bin.id == id {
      before, after := [], items[1..];
    } else {
      before, after := SplitAtFirst(items[1..], id);
      before := [items[0]] + before;
      assert before[1..] + [Of(items, id)[0]] + after == items[1..];
    }
  }

  ghost predicate SameStreams(a: seq<Item>, b: seq<Item>) { forall id: U32 :: Of(a, id) == Of(b, id) }

  /** Taking the first item of one machine away from both sides keeps the streams equal. */
  lemma DropFirst(a: seq<Item>, before: seq<Item>, x: Item, after: seq<Item>, id: U32)
    requires a != [] && a[0] == x && Of(before, x.bin.id) == [] && Of(a, id) == Of(before + [x] + after, id)
    ensures Of(a[1..], id) == Of(before + after, id)
  {
    OfConcat(before + [x], after, id);
    OfConcat(before, [x], id);
    OfConcat(before, after, id);
    assert Of([x], id) == if x.bin.id == id then [x] else [] by { assert [x][1..] == []; }
    if x.bin.id == id {
      assert Of(a, id)[1..] == Of(a[1..], id);
      assert Of(before + [x] + after, id)[1..] == Of(after, id);
      assert Of(before, id) + Of(after, id) == Of(after, id);
    } else {
      assert Of(before, id) + [] == Of(before, id);
    }
  }

  lemma HeadIsOf(items: seq<Item>)
    requires items != []
    ensures Of(items, items[0].bin.id) != []
  {
  }

  /**
   The fold depends only on each machine's own sequence of items: however the items of
   different machines are interleaved, the last counts, the counter and the gauges agree.
   */
  lemma {:induction false} FoldIgnoresInterleaving(g: Ledger, a: seq<Item>, b: seq<Item>)
    requires SameStreams(a, b)
    ensures Fold(g, a) == Fold(g, b)
    decreases |a|
  {
    if a == [] {
      if b != [] {
        HeadIsOf(b);
        assert false;
      }
    } else {
      var x := a[0];
      assert Of(a, x.bin.id) == Of(b, x.bin.id);
      var before, after := SplitAtFirst(b, x.bin.id);
      forall id: U32 ensures Of(a[1..], id) == Of(before + after, id) {
        assert Of(a, id) == Of(b, id);
        DropFirst(a, before, x, after, id);
      }
      FoldIgnoresInterleaving(Record(g, x), a[1..], before + after);
      FoldConcat(Record(g, x), before, after);
      RecordFirst(g, before, x);
      FoldConcat(g, before + [x], after);
    }
  }
}
