/** What the ingestion counter makes of readings that are not exact, or not of one bin. */
module SensorLaws {
  import opened Prelude
  import opened Bins

  // ---- Any sequence of readings ----------------------------------------------------------

  /** What is counted for a bin over a sequence of readings, after the first. */
  function Counted(capacity: U32, rs: seq<U32>): int {
    if |rs| < 2 then 0
    else Counted(capacity, rs[..|rs| - 1]) + Delta(Some(rs[|rs| - 2]), capacity, rs[|rs| - 1])
  }

  /** All falls between readings. */
  function Falls(rs: seq<U32>): nat {
    if |rs| < 2 then 0
    else
      var p, n := rs[|rs| - 2], rs[|rs| - 1];
      Falls(rs[..|rs| - 1]) + if n < p then p - n else 0
  }

  /** A fall that the code takes for an emptying; what is in the bin afterwards is counted. */
  predicate TakenForEmptying(capacity: U32, p: U32, n: U32) {
    capacity > 0 && n < p && p >= 50 && n <= p / 2 && n <= 200
  }

  /** A rise that is not counted: more than the sanity cap, or an odometer that showed zero. */
  predicate Skipped(capacity: U32, p: U32, n: U32) { n > p && (n - p > 200 || (capacity == 0 && p == 0)) }

  /** What is counted on falls. */
  function Refills(capacity: U32, rs: seq<U32>): nat {
    if |rs| < 2 then 0
    else
      var p, n := rs[|rs| - 2], rs[|rs| - 1];
      Refills(capacity, rs[..|rs| - 1]) + if TakenForEmptying(capacity, p, n) then n else 0
  }

  /** The rises that are not counted. */
  function Missed(capacity: U32, rs: seq<U32>): nat {
    if |rs| < 2 then 0
    else
      var p, n := rs[|rs| - 2], rs[|rs| - 1];
      Missed(capacity, rs[..|rs| - 1]) + if Skipped(capacity, p, n) then n - p else 0
  }

  /**
   Any sequence of readings: what is counted is the net change, plus the falls and what is
   left after those taken for emptyings, less the skipped rises. So it exceeds the net change
   exactly when the former outweigh the latter.
   */
  lemma {:induction false} CountedLaw(capacity: U32, rs: seq<U32>)
    requires rs != []
    ensures Counted(capacity, rs) == rs[|rs| - 1] - rs[0] + Falls(rs) + Refills(capacity, rs) - Missed(capacity, rs)
    ensures rs[0] + Counted(capacity, rs) <= rs[|rs| - 1] <==>
              Falls(rs) + Refills(capacity, rs) <= Missed(capacity, rs)
    decreases |rs|
  {
    if |rs| > 1 { CountedLaw(capacity, rs[..|rs| - 1]); }
  }

  ghost predicate RisesAreCounted(capacity: U32, rs: seq<U32>) {
    forall i | 0 <= i < |rs| - 1 :: !Skipped(capacity, rs[i], rs[i + 1])
  }

  ghost predicate NoFallIsEmptying(capacity: U32, rs: seq<U32>) {
    forall i | 0 <= i < |rs| - 1 :: !TakenForEmptying(capacity, rs[i], rs[i + 1])
  }

  ghost predicate NeverFalls(rs: seq<U32>) { forall i | 0 <= i < |rs| - 1 :: rs[i] <= rs[i + 1] }

  lemma {:induction false} NothingMissed(capacity: U32, rs: seq<U32>)
    requires RisesAreCounted(capacity, rs)
    ensures Missed(capacity, rs) == 0
    decreases |rs|
  {
    if |rs| > 1 {
      NothingMissed(capacity, rs[..|rs| - 1]);
      assert !Skipped(capacity, rs[|rs| - 2], rs[|rs| - 1]);
    }
  }

  lemma {:induction false} NothingRefilled(capacity: U32, rs: seq<U32>)
    requires NoFallIsEmptying(capacity, rs)
    ensures Refills(capacity, rs) == 0
    decreases |rs|
  {
    if |rs| > 1 {
      NothingRefilled(capacity, rs[..|rs| - 1]);
      assert !TakenForEmptying(capacity, rs[|rs| - 2], rs[|rs| - 1]);
    }
  }

  lemma {:induction false} FallsMeaning(rs: seq<U32>)
    ensures Falls(rs) == 0 <==> NeverFalls(rs)
    decreases |rs|
  {
    if |rs| > 1 {
      var front := rs[..|rs| - 1];
      FallsMeaning(front);
      assert NeverFalls(rs) <==> NeverFalls(front) && rs[|rs| - 2] <= rs[|rs| - 1] by {
        assert forall i | 0 <= i < |front| :: front[i] == rs[i];
      }
    }
  }

  lemma {:induction false} NoFallNoRefill(capacity: U32, rs: seq<U32>)
    requires NeverFalls(rs)
    ensures Refills(capacity, rs) == 0
    decreases |rs|
  {
    if |rs| > 1 { NoFallNoRefill(capacity, rs[..|rs| - 1]); }
  }

  /** If every rise is counted, a sensor makes the counter exceed the net change exactly when it dips. */
  lemma {:induction false} OverCountsIffItDips(capacity: U32, rs: seq<U32>)
    requires rs != [] && RisesAreCounted(capacity, rs)
    ensures Counted(capacity, rs) == rs[|rs| - 1] - rs[0] + Falls(rs) + Refills(capacity, rs)
    ensures rs[0] + Counted(capacity, rs) <= rs[|rs| - 1] <==> NeverFalls(rs)
  {
    CountedLaw(capacity, rs);
    NothingMissed(capacity, rs);
    FallsMeaning(rs);
    if NeverFalls(rs) { NoFallNoRefill(capacity, rs); }
  }

  /** If no dip is taken for an emptying either, the excess is the sum of the dips. */
  lemma {:induction false} DipsAreCounted(capacity: U32, rs: seq<U32>)
    requires rs != [] && RisesAreCounted(capacity, rs) && NoFallIsEmptying(capacity, rs)
    ensures Counted(capacity, rs) == rs[|rs| - 1] - rs[0] + Falls(rs)
  {
    OverCountsIffItDips(capacity, rs);
    NothingRefilled(capacity, rs);
  }

  lemma CountedThree(capacity: U32, a: U32, b: U32, c: U32)
    ensures Counted(capacity, [a, b, c]) == Delta(Some(a), capacity, b) + Delta(Some(b), capacity, c)
  {
    var rs: seq<U32> := [a, b, c];
    var front := rs[..2];
    assert front[..1] == [a];
    assert Counted(capacity, front) == Counted(capacity, [a]) + Delta(Some(a), capacity, b);
    assert Counted(capacity, rs) == Counted(capacity, front) + Delta(Some(b), capacity, c);
  }

  /**
   Readings without deposits: a dip from 450 to 448 and back counts two containers, and one
   from 120 to 55 and back, which looks like an emptying, counts 120.
   */
  lemma DipsCountWithoutDeposits(capacity: U32)
    requires capacity > 0
    ensures Counted(capacity, [450, 448, 450]) == 2 && Counted(capacity, [120, 55, 120]) == 120
  {
    CountedThree(capacity, 450, 448, 450);
    CountedThree(capacity, 120, 55, 120);
  }

  // ---- Two bins of one compartment type --------------------------------------------------

  ghost predicate DistinctKeys(items: seq<Item>) {
    forall i, j | 0 <= i < j < |items| :: KeyOf(items[i].bin) != KeyOf(items[j].bin)
  }

  /** Increments of a response against the counts before it, by label. */
  function Increments(last: map<BinKey, U32>, items: seq<Item>, l: Label): int {
    if items == [] then 0
    else
      var x := items[0];
      (if LabelOf(x) == l then Delta(Previous(last, KeyOf(x.bin)), x.bin.capacity, x.bin.count) else 0)
      + Increments(last, items[1..], l)
  }

  /** Counts of other keys do not matter. */
  lemma {:induction false} OtherKey(last: map<BinKey, U32>, items: seq<Item>, l: Label, k: BinKey, n: U32)
    requires forall i | 0 <= i < |items| :: KeyOf(items[i].bin) != k
    ensures Increments(last[k := n], items, l) == Increments(last, items, l)
    decreases |items|
  {
    if items != [] { OtherKey(last, items[1..], l, k, n); }
  }

  /**
   If the bins of a response have distinct machines or compartment types, a cycle compares
   each reading with the same bin's reading in the cycle before, in whatever order.
   */
  lemma {:induction false} DistinctBinsCountApart(g: Ledger, items: seq<Item>, l: Label)
    requires DistinctKeys(items)
    ensures Amount(Fold(g, items).ingested, l) == Amount(g.ingested, l) + Increments(g.last, items, l)
    ensures forall i | 0 <= i < |items| ::
              Previous(Fold(g, items).last, KeyOf(items[i].bin)) == Some(items[i].bin.count)
    ensures forall k | (forall i | 0 <= i < |items| :: KeyOf(items[i].bin) != k) ::
              Previous(Fold(g, items).last, k) == Previous(g.last, k)
    decreases |items|
  {
    if items != [] {
      var x, rest := items[0], items[1..];
      assert forall i | 0 <= i < |rest| :: rest[i] == items[i + 1];
      DistinctBinsCountApart(Record(g, x), rest, l);
      OtherKey(g.last, rest, l, KeyOf(x.bin), x.bin.count);
      forall i | 0 <= i < |items|
        ensures Previous(Fold(g, items).last, KeyOf(items[i].bin)) == Some(items[i].bin.count)
      {
        if i > 0 { assert rest[i - 1] == items[i]; }
      }
    }
  }

  lemma {:induction false} OwnCountAddsNothing(last: map<BinKey, U32>, items: seq<Item>, l: Label)
    requires forall i | 0 <= i < |items| :: Previous(last, KeyOf(items[i].bin)) == Some(items[i].bin.count)
    ensures Increments(last, items, l) == 0
    decreases |items|
  {
    if items != [] { OwnCountAddsNothing(last, items[1..], l); }
  }

  /** So bins that report the same counts again add nothing. */
  lemma UnchangedBinsCountNothing(g: Ledger, items: seq<Item>, l: Label)
    requires DistinctKeys(items)
    ensures Amount(Cycle(Cycle(g, items), items).ingested, l) == Amount(Cycle(g, items).ingested, l)
  {
    var h := Cycle(g, items);
    DistinctBinsCountApart(g.(gauge := map[]), items, l);
    DistinctBinsCountApart(h.(gauge := map[]), items, l);
    OwnCountAddsNothing(h.last, items, l);
  }

  /** All the bins are of one machine and compartment type. */
  ghost predicate Share(items: seq<Item>) {
    forall i | 0 <= i < |items| :: KeyOf(items[i].bin) == KeyOf(items[0].bin) && items[i].supplier == items[0].supplier
  }

  /** The increment of `x` when the reading before it was that of `before`. */
  function Step(before: Item, x: Item): U32 { Delta(Some(before.bin.count), x.bin.capacity, x.bin.count) }

  /** Increments from each bin to the next. */
  function Chain(items: seq<Item>): nat {
    if |items| < 2 then 0 else Step(items[0], items[1]) + Chain(items[1..])
  }

  /** Bins of one type are compared with the bin before them, not with themselves. */
  lemma {:induction false} SharedBinsChain(g: Ledger, items: seq<Item>)
    requires items != [] && Share(items)
    ensures var x := items[0];
            var first := Delta(Previous(g.last, KeyOf(x.bin)), x.bin.capacity, x.bin.count);
            && Previous(Fold(g, items).last, KeyOf(x.bin)) == Some(items[|items| - 1].bin.count)
            && Amount(Fold(g, items).ingested, LabelOf(x)) == Amount(g.ingested, LabelOf(x)) + first + Chain(items)
    decreases |items|
  {
    var x, rest := items[0], items[1..];
    if rest != [] {
      assert rest[0] == items[1] && forall i | 0 <= i < |rest| :: rest[i] == items[i + 1];
      SharedBinsChain(Record(g, x), rest);
    }
  }

  /** What a repeated response adds, although nothing changed: the increments around the cycle of counts. */
  lemma SharedCompartmentAdds(g: Ledger, items: seq<Item>)
    requires items != [] && Share(items)
    ensures var l := LabelOf(items[0]);
            Amount(Cycle(Cycle(g, items), items).ingested, l) ==
            Amount(Cycle(g, items).ingested, l) + Step(items[|items| - 1], items[0]) + Chain(items)
  {
    var h := Cycle(g, items);
    SharedBinsChain(g.(gauge := map[]), items);
    SharedBinsChain(h.(gauge := map[]), items);
  }

  /** Going from one count to another adds nothing: equal, a skipped rise, or a fall that is to zero or no emptying. */
  predicate Quiet(capacity: U32, p: U32, n: U32) {
    n == p || Skipped(capacity, p, n) || (n < p && (!TakenForEmptying(capacity, p, n) || n == 0))
  }

  /** The same from item `i` to the next. */
  predicate QuietAt(items: seq<Item>, i: int)
    requires 0 <= i < |items| - 1
  {
    Quiet(items[i + 1].bin.capacity, items[i].bin.count, items[i + 1].bin.count)
  }

  lemma QuietMeaning(before: Item, x: Item)
    ensures Step(before, x) == 0 <==> Quiet(x.bin.capacity, before.bin.count, x.bin.count)
  {
  }

  lemma {:induction false} ChainMeaning(items: seq<Item>)
    ensures Chain(items) == 0 <==> forall i | 0 <= i < |items| - 1 :: QuietAt(items, i)
    decreases |items|
  {
    if |items| > 1 {
      var rest := items[1..];
      ChainMeaning(rest);
      QuietMeaning(items[0], items[1]);
      forall i | 0 <= i < |rest| - 1 ensures QuietAt(rest, i) == QuietAt(items, i + 1) {}
      if Chain(items) != 0 && QuietAt(items, 0) {
        var i :| 0 <= i < |rest| - 1 && !QuietAt(rest, i);
        assert !QuietAt(items, i + 1);
      }
      if Chain(items) == 0 {
        forall i | 0 <= i < |items| - 1 ensures QuietAt(items, i) {
          if i > 0 { assert QuietAt(rest, i - 1); }
        }
      }
    }
  }

  /**
   Exactly when unchanged bins of one compartment type, however many and of whatever capacity,
   add nothing in a cycle: going around their counts in the order of the response, no step is
   a counted rise, or a fall taken for an emptying that leaves something in the bin.
   */
  lemma SharedCompartmentCountsNothingIff(g: Ledger, items: seq<Item>)
    requires items != [] && Share(items)
    ensures var l, last := LabelOf(items[0]), items[|items| - 1];
            Amount(Cycle(Cycle(g, items), items).ingested, l) == Amount(Cycle(g, items).ingested, l) <==>
            && Quiet(items[0].bin.capacity, last.bin.count, items[0].bin.count)
            && forall i | 0 <= i < |items| - 1 :: QuietAt(items, i)
  {
    SharedCompartmentAdds(g, items);
    QuietMeaning(items[|items| - 1], items[0]);
    ChainMeaning(items);
  }

  /** Constant counts of 100 and 150 make the counter reach 100 in two cycles without a deposit. */
  lemma SharedCompartmentOverCounts(id: U32, compartment: string, supplier: string, at: int)
    ensures var x := Item(Bin(id, compartment, 500, 100, 0, at), supplier);
            var y := Item(Bin(id, compartment, 500, 150, 0, at), supplier);
            Amount(Cycle(Cycle(Ledger(map[], map[], map[]), [x, y]), [x, y]).ingested, LabelOf(x)) == 100
  {
    var x := Item(Bin(id, compartment, 500, 100, 0, at), supplier);
    var y := Item(Bin(id, compartment, 500, 150, 0, at), supplier);
    var g := Ledger(map[], map[], map[]);
    SharedBinsChain(g, [x, y]);
    SharedCompartmentAdds(g, [x, y]);
    assert [x, y][1..] == [y];
    assert Chain([x, y]) == Step(x, y) + Chain([y]);
  }
}
