/**
 The ingestion counter against the truth: bins that take deposits and are emptied at any
 time, read now and then by exact sensors, through restarts that load stored snapshots.
 A machine has one bin of each compartment type; `SensorLaws` shows why.
 */
module BinRuns {
  import opened Prelude
  import opened Bins
  import opened BinRestart

  /**
   One bin. `present` is what is in it, `odometer` its lifetime count, `deposited` all true
   deposits of the run, `since` and `emptied` what happened after the last reading,
   `counted` what the tracker has counted for it, `baseline` the deposits made before its
   first reading.
   */
  datatype Truth = Truth(capacity: U32, present: nat, odometer: nat, deposited: nat, since: nat, emptied: bool,
                         counted: nat, read: bool, baseline: nat)

  /** Zero-capacity machines report their odometer, the others what is in the bin. */
  function Reading(t: Truth): nat { if t.capacity == 0 then t.odometer else t.present }

  /** `sent` holds the snapshot of every reading, whether or not it reached the table. */
  datatype World = World(bins: map<BinKey, Truth>, ledger: Ledger, sent: seq<Bin>)

  datatype Event =
    | Deposit(k: BinKey, n: nat)
    | Empty(k: BinKey)
    | Read(k: BinKey, threshold: U8, polledAt: int)
    | Restart(table: seq<Bin>)

  /** A machine keeps its supplier during a run. */
  type Suppliers = U32 -> string

  function LabelFor(k: BinKey, suppliers: Suppliers): Label { Label(Named(k.compartment), Named(suppliers(k.id))) }

  /**
   A count is readable as long as it fits its uint32, poll times increase per key, and a
   table holds snapshots that were sent: any of them, in any order, any number of times.
   */
  ghost predicate Enabled(w: World, e: Event) {
    match e
    case Deposit(k, _) => k in w.bins
    case Empty(k) => k in w.bins
    case Read(k, _, polledAt) =>
      && k in w.bins && Reading(w.bins[k]) < 0x1_0000_0000
      && forall b | b in w.sent && KeyOf(b) == k :: b.polledAt < polledAt
    case Restart(table) => forall b | b in table :: b in w.sent
  }

  function SnapshotAt(w: World, e: Event): Bin
    requires e.Read? && e.k in w.bins && Reading(w.bins[e.k]) < 0x1_0000_0000
  {
    Bin(e.k.id, e.k.compartment, w.bins[e.k].capacity, Reading(w.bins[e.k]), e.threshold, e.polledAt)
  }

  /** The last counts that a restart loads from a table. */
  function LoadedCounts(table: seq<Bin>): map<BinKey, U32> {
    map k | k in Latest(table) :: Latest(table)[k].count
  }

  /** A restart forgets the last counts and loads those of the table; the counter goes on. */
  function Apply(w: World, e: Event, suppliers: Suppliers): World
    requires Enabled(w, e)
  {
    match e
    case Deposit(k, n) =>
      var t := w.bins[k];
      w.(bins := w.bins[k := t.(present := t.present + n, odometer := t.odometer + n,
                                deposited := t.deposited + n, since := t.since + n)])
    case Empty(k) => w.(bins := w.bins[k := w.bins[k].(present := 0, emptied := true)])
    case Read(k, _, _) =>
      var t, b := w.bins[k], SnapshotAt(w, e);
      var d := Delta(Previous(w.ledger.last, k), t.capacity, b.count);
      World(w.bins[k := t.(since := 0, emptied := false, counted := t.counted + d,
                           read := true, baseline := if t.read then t.baseline else t.deposited)],
            Record(w.ledger, Item(b, suppliers(k.id))), w.sent + [b])
    case Restart(table) => w.(ledger := w.ledger.(last := LoadedCounts(table)))
  }

  ghost predicate Reaches(w: World, es: seq<Event>, v: World, suppliers: Suppliers)
    decreases |es|
  {
    if es == [] then w == v
    else Enabled(w, es[0]) && Reaches(Apply(w, es[0], suppliers), es[1..], v, suppliers)
  }

  predicate Init(w: World) {
    && w.ledger.last == map[] && w.ledger.ingested == map[] && w.sent == []
    && forall k | k in w.bins ::
         var t := w.bins[k];
         t.deposited == 0 && t.since == 0 && !t.emptied && t.counted == 0 && !t.read && t.baseline == 0
  }

  // ---- One reading -----------------------------------------------------------------------

  /** How a reading to come relates to the reading before. */
  predicate Tracks(t: Truth, last: nat) {
    if t.capacity == 0 then t.odometer == last + t.since
    else if t.emptied then t.present <= t.since
    else t.present == last + t.since
  }

  /** A single reading never counts more than was deposited since the one before. */
  lemma ReadingNeverOverCounts(t: Truth, last: U32)
    requires Tracks(t, last) && Reading(t) < 0x1_0000_0000
    ensures Delta(Some(last), t.capacity, Reading(t)) <= t.since
  {
  }

  /** Exactly when a reading with no emptying before it counts every deposit. */
  lemma ReadingExactIff(t: Truth, last: U32)
    requires Tracks(t, last) && !t.emptied && Reading(t) < 0x1_0000_0000
    ensures Delta(Some(last), t.capacity, Reading(t)) == t.since <==>
            t.since == 0 || (t.since <= 200 && (t.capacity > 0 || last > 0))
  {
  }

  /** The tracker compares reading `r` with a loaded count `a`, the last reading having been `b`. */
  predicate Harmless(t: Truth, b: U32, a: U32, r: nat) {
    if t.capacity == 0 then a == 0 || a >= b || r - a > 200
    else
      || t.emptied
      || (&& (r > a ==> a >= b || r - a > 200)
          && (r < a && a >= 50 && r <= a / 2 && r <= 200 ==> b == 0))
  }

  /** Exactly when a reading does not over-count although the tracker loaded another count than the last. */
  lemma StaleCountIff(t: Truth, b: U32, a: U32)
    requires Tracks(t, b) && Reading(t) < 0x1_0000_0000
    ensures Delta(Some(a), t.capacity, Reading(t)) <= t.since <==> Harmless(t, b, a, Reading(t))
  {
  }

  /** A restart that loads an older count `a` instead of `b` counts the `b - a` between them twice. */
  lemma StaleHydrationCountsTwice(capacity: U32, a: U32, b: U32, c: U32)
    requires capacity > 0 && a <= b <= c <= a + 200
    ensures Delta(Some(a), capacity, b) + Delta(Some(a), capacity, c) == (c - a) + (b - a)
  {
  }

  // ---- What is sent, stored and loaded ---------------------------------------------------

  ghost predicate NoTies(bins: seq<Bin>) {
    forall b, c | b in bins && c in bins && KeyOf(b) == KeyOf(c) && b.polledAt == c.polledAt :: b == c
  }

  /** A newer snapshot becomes its key's latest. */
  lemma LatestSnoc(sent: seq<Bin>, b: Bin)
    requires forall c | c in sent && KeyOf(c) == KeyOf(b) :: c.polledAt < b.polledAt
    ensures Latest(sent + [b]) == Latest(sent)[KeyOf(b) := b]
  {
    LatestMeaning(sent, KeyOf(b));
    assert (sent + [b])[..|sent|] == sent;
  }

  /** Order and repetition of the stored snapshots do not matter. */
  lemma LatestIgnoresOrder(t: seq<Bin>, u: seq<Bin>)
    requires NoTies(u) && forall b :: b in t <==> b in u
    ensures Latest(t) == Latest(u)
  {
    forall k: BinKey
      ensures k in Latest(t) <==> k in Latest(u)
      ensures k in Latest(t) && k in Latest(u) ==> Latest(t)[k] == Latest(u)[k]
    {
      LatestMeaning(t, k);
      LatestMeaning(u, k);
    }
  }

  /** The restart finds the last count of every key it finds at all. */
  ghost predicate Current(w: World, table: seq<Bin>) {
    forall k | k in Latest(table) :: k in Latest(w.sent) && Latest(table)[k].count == Latest(w.sent)[k].count
  }

  /** A table that has all snapshots, in any order and any number of times, is current. */
  lemma CompleteTableIsCurrent(w: World, table: seq<Bin>)
    requires NoTies(w.sent) && forall b :: b in table <==> b in w.sent
    ensures Current(w, table) && LoadedCounts(table) == LoadedCounts(w.sent)
  {
    LatestIgnoresOrder(table, w.sent);
  }

  // ---- Whole runs ------------------------------------------------------------------------

  /** Nothing is over-counted, and the next reading of a bin relates to its last one. */
  ghost predicate BinInv(w: World, k: BinKey)
    requires k in w.bins
  {
    var t := w.bins[k];
    && t.counted + t.since <= t.deposited
    && (t.read <==> k in Latest(w.sent))
    && (k in Latest(w.sent) ==> Tracks(t, Latest(w.sent)[k].count))
  }

  ghost predicate SoundInv(w: World) {
    NoTies(w.sent) && forall k | k in w.bins :: BinInv(w, k)
  }

  /** The reading counts no more than was deposited since the bin's last one. */
  ghost predicate Safe(w: World, e: Event) {
    e.Read? && e.k in w.bins && e.k in w.ledger.last ==>
      && e.k in Latest(w.sent)
      && Harmless(w.bins[e.k], Latest(w.sent)[e.k].count, w.ledger.last[e.k], Reading(w.bins[e.k]))
  }

  ghost predicate SafeRun(w: World, es: seq<Event>, v: World, suppliers: Suppliers)
    decreases |es|
  {
    if es == [] then w == v
    else Enabled(w, es[0]) && Safe(w, es[0]) && SafeRun(Apply(w, es[0], suppliers), es[1..], v, suppliers)
  }

  lemma SoundRead(w: World, e: Event, suppliers: Suppliers)
    requires SoundInv(w) && Enabled(w, e) && Safe(w, e) && e.Read?
    ensures SoundInv(Apply(w, e, suppliers))
  {
    var v, b := Apply(w, e, suppliers), SnapshotAt(w, e);
    LatestSnoc(w.sent, b);
    forall k | k in v.bins ensures BinInv(v, k) {
      assert BinInv(w, k);
      if e.k == k && k in w.ledger.last { StaleCountIff(w.bins[k], Latest(w.sent)[k].count, w.ledger.last[k]); }
    }
  }

  lemma SoundStep(w: World, e: Event, suppliers: Suppliers)
    requires SoundInv(w) && Enabled(w, e) && Safe(w, e)
    ensures SoundInv(Apply(w, e, suppliers))
  {
    if e.Read? {
      SoundRead(w, e, suppliers);
    } else {
      forall k | k in w.bins ensures BinInv(Apply(w, e, suppliers), k) { assert BinInv(w, k); }
    }
  }

  /** Totals over the bins that share a label. */
  function Total(keys: seq<BinKey>, l: Label, suppliers: Suppliers, amount: BinKey -> int): int {
    if keys == [] then 0
    else (if LabelFor(keys[0], suppliers) == l then amount(keys[0]) else 0) + Total(keys[1..], l, suppliers, amount)
  }

  function CountedOf(bins: map<BinKey, Truth>): BinKey -> int { k => if k in bins then bins[k].counted else 0 }

  function DepositedOf(bins: map<BinKey, Truth>): BinKey -> int { k => if k in bins then bins[k].deposited else 0 }

  /** Deposits between a bin's first and last readings. */
  function ObservedOf(bins: map<BinKey, Truth>): BinKey -> int {
    k => if k in bins && bins[k].read then bins[k].deposited - bins[k].since - bins[k].baseline else 0
  }

  lemma {:induction false} TotalLe(keys: seq<BinKey>, l: Label, suppliers: Suppliers, f: BinKey -> int,
                                   g: BinKey -> int)
    requires forall k | k in keys :: f(k) <= g(k)
    ensures Total(keys, l, suppliers, f) <= Total(keys, l, suppliers, g)
    decreases |keys|
  {
    if keys != [] {
      assert keys[0] in keys;
      forall k | k in keys[1..] ensures f(k) <= g(k) { assert k in keys; }
      TotalLe(keys[1..], l, suppliers, f, g);
    }
  }

  /** Raising the amount of one key raises its label's total. */
  lemma {:induction false} TotalAfter(keys: seq<BinKey>, l: Label, suppliers: Suppliers, f: BinKey -> int,
                                      g: BinKey -> int, x: BinKey, d: int)
    requires forall i, j | 0 <= i < j < |keys| :: keys[i] != keys[j]
    requires forall k | k in keys :: g(k) == f(k) + if k == x then d else 0
    ensures Total(keys, l, suppliers, g) ==
            Total(keys, l, suppliers, f) + if x in keys && LabelFor(x, suppliers) == l then d else 0
    decreases |keys|
  {
    if keys != [] {
      assert keys[0] in keys;
      forall k | k in keys[1..] ensures g(k) == f(k) + if k == x then d else 0 { assert k in keys; }
      TotalAfter(keys[1..], l, suppliers, f, g, x, d);
      assert x in keys <==> x == keys[0] || x in keys[1..];
    }
  }

  /** `keys` lists every bin once. */
  ghost predicate Lists(keys: seq<BinKey>, bins: map<BinKey, Truth>) {
    && (forall i, j | 0 <= i < j < |keys| :: keys[i] != keys[j])
    && forall k :: k in keys <==> k in bins
  }

  /** The counter under each label is the sum of what was counted for its bins. */
  ghost predicate LabelInv(w: World, keys: seq<BinKey>, suppliers: Suppliers) {
    Lists(keys, w.bins) && forall l :: Amount(w.ledger.ingested, l) == Total(keys, l, suppliers, CountedOf(w.bins))
  }

  /** What an event adds to the count of a bin. */
  ghost function Added(w: World, e: Event): int
    requires Enabled(w, e)
  {
    if e.Read? then Delta(Previous(w.ledger.last, e.k), w.bins[e.k].capacity, Reading(w.bins[e.k])) else 0
  }

  lemma CountedAfter(w: World, e: Event, suppliers: Suppliers, k: BinKey)
    requires Enabled(w, e)
    ensures CountedOf(Apply(w, e, suppliers).bins)(k) ==
            CountedOf(w.bins)(k) + if e.Read? && k == e.k then Added(w, e) else 0
  {
  }

  lemma IngestedAfter(w: World, e: Event, suppliers: Suppliers, l: Label)
    requires Enabled(w, e)
    ensures Amount(Apply(w, e, suppliers).ledger.ingested, l) ==
            Amount(w.ledger.ingested, l) + if e.Read? && l == LabelFor(e.k, suppliers) then Added(w, e) else 0
  {
    if e.Read? { assert LabelOf(Item(SnapshotAt(w, e), suppliers(e.k.id))) == LabelFor(e.k, suppliers); }
  }

  lemma LabelStep(w: World, e: Event, keys: seq<BinKey>, suppliers: Suppliers)
    requires LabelInv(w, keys, suppliers) && Enabled(w, e)
    ensures LabelInv(Apply(w, e, suppliers), keys, suppliers)
  {
    var v := Apply(w, e, suppliers);
    var x := if e.Restart? then BinKey(0, "") else e.k;
    var d := Added(w, e);
    forall l ensures Amount(v.ledger.ingested, l) == Total(keys, l, suppliers, CountedOf(v.bins)) {
      forall k | k in keys ensures CountedOf(v.bins)(k) == CountedOf(w.bins)(k) + if k == x then d else 0 {
        CountedAfter(w, e, suppliers, k);
      }
      TotalAfter(keys, l, suppliers, CountedOf(w.bins), CountedOf(v.bins), x, d);
      IngestedAfter(w, e, suppliers, l);
    }
  }

  lemma {:induction false} TotalZero(keys: seq<BinKey>, l: Label, suppliers: Suppliers, f: BinKey -> int)
    requires forall k | k in keys :: f(k) == 0
    ensures Total(keys, l, suppliers, f) == 0
    decreases |keys|
  {
    if keys != [] {
      assert keys[0] in keys;
      forall k | k in keys[1..] ensures f(k) == 0 { assert k in keys; }
      TotalZero(keys[1..], l, suppliers, f);
    }
  }

  lemma InitialInv(w: World, keys: seq<BinKey>, suppliers: Suppliers)
    requires Init(w) && Lists(keys, w.bins)
    ensures SoundInv(w) && LabelInv(w, keys, suppliers)
  {
    forall l ensures Total(keys, l, suppliers, CountedOf(w.bins)) == 0 {
      TotalZero(keys, l, suppliers, CountedOf(w.bins));
    }
  }

  lemma {:induction false} SafeRunIsSound(w: World, es: seq<Event>, v: World, keys: seq<BinKey>, suppliers: Suppliers)
    requires SoundInv(w) && LabelInv(w, keys, suppliers) && SafeRun(w, es, v, suppliers)
    ensures SoundInv(v) && LabelInv(v, keys, suppliers)
    decreases |es|
  {
    if es != [] {
      SoundStep(w, es[0], suppliers);
      LabelStep(w, es[0], keys, suppliers);
      SafeRunIsSound(Apply(w, es[0], suppliers), es[1..], v, keys, suppliers);
    }
  }

  /**
   Never over-counts, whatever restarts load: if each reading meets the exact condition of
   `StaleCountIff`, the counter under a label is at most the true deposits of its bins.
   */
  lemma SafeRunsNeverOverCount(w0: World, es: seq<Event>, w: World, keys: seq<BinKey>, suppliers: Suppliers, l: Label)
    requires Init(w0) && Lists(keys, w0.bins) && SafeRun(w0, es, w, suppliers)
    ensures Amount(w.ledger.ingested, l) <= Total(keys, l, suppliers, DepositedOf(w.bins))
  {
    InitialInv(w0, keys, suppliers);
    SafeRunIsSound(w0, es, w, keys, suppliers);
    forall k | k in keys ensures CountedOf(w.bins)(k) <= DepositedOf(w.bins)(k) { assert BinInv(w, k); }
    TotalLe(keys, l, suppliers, CountedOf(w.bins), DepositedOf(w.bins));
  }

  // ---- Restarts that load the last counts ------------------------------------------------

  /** Every restart of the run finds the last count of every key it finds at all. */
  ghost predicate CurrentRun(w: World, es: seq<Event>, v: World, suppliers: Suppliers)
    decreases |es|
  {
    if es == [] then w == v
    else
      && Enabled(w, es[0]) && (es[0].Restart? ==> Current(w, es[0].table))
      && CurrentRun(Apply(w, es[0], suppliers), es[1..], v, suppliers)
  }

  /** What is remembered of a key is its latest snapshot's count: the two sides of a restart agree. */
  ghost predicate MemoryInv(w: World) {
    forall k | k in w.ledger.last :: k in Latest(w.sent) && w.ledger.last[k] == Latest(w.sent)[k].count
  }

  lemma MemoryStep(w: World, e: Event, suppliers: Suppliers)
    requires MemoryInv(w) && Enabled(w, e) && (e.Restart? ==> Current(w, e.table))
    ensures MemoryInv(Apply(w, e, suppliers))
  {
    if e.Read? { LatestSnoc(w.sent, SnapshotAt(w, e)); }
  }

  lemma MemoryMakesSafe(w: World, e: Event)
    requires SoundInv(w) && MemoryInv(w) && Enabled(w, e)
    ensures Safe(w, e)
  {
    if e.Read? && e.k in w.ledger.last { assert BinInv(w, e.k); }
  }

  lemma {:induction false} CurrentRunKeeps(w: World, es: seq<Event>, v: World, suppliers: Suppliers)
    requires SoundInv(w) && MemoryInv(w) && CurrentRun(w, es, v, suppliers)
    ensures SoundInv(v) && MemoryInv(v)
    decreases |es|
  {
    if es != [] {
      MemoryMakesSafe(w, es[0]);
      SoundStep(w, es[0], suppliers);
      MemoryStep(w, es[0], suppliers);
      CurrentRunKeeps(Apply(w, es[0], suppliers), es[1..], v, suppliers);
    }
  }

  lemma {:induction false} CurrentRunIsSafe(w: World, es: seq<Event>, v: World, suppliers: Suppliers)
    requires SoundInv(w) && MemoryInv(w) && CurrentRun(w, es, v, suppliers)
    ensures SafeRun(w, es, v, suppliers)
    decreases |es|
  {
    if es != [] {
      MemoryMakesSafe(w, es[0]);
      SoundStep(w, es[0], suppliers);
      MemoryStep(w, es[0], suppliers);
      CurrentRunIsSafe(Apply(w, es[0], suppliers), es[1..], v, suppliers);
    }
  }

  /**
   Never over-counts: over any run of deposits, emptyings, readings and restarts whose
   tables lack no key's last snapshot, or lack the key altogether, the counter under a
   label is at most the true deposits into the bins of that label.
   */
  lemma NeverOverCounts(w0: World, es: seq<Event>, w: World, keys: seq<BinKey>, suppliers: Suppliers, l: Label)
    requires Init(w0) && Lists(keys, w0.bins) && CurrentRun(w0, es, w, suppliers)
    ensures Amount(w.ledger.ingested, l) <= Total(keys, l, suppliers, DepositedOf(w.bins))
  {
    InitialInv(w0, keys, suppliers);
    CurrentRunIsSafe(w0, es, w, suppliers);
    SafeRunsNeverOverCount(w0, es, w, keys, suppliers, l);
  }

  // ---- When it counts everything ---------------------------------------------------------

  /** Readings come often enough, no bin is emptied between them, and restarts find every snapshot. */
  ghost predicate Gentle(w: World, e: Event) {
    match e
    case Read(k, _, _) =>
      k in w.bins && k in w.ledger.last ==>
        var t := w.bins[k];
        !t.emptied && (t.since == 0 || (t.since <= 200 && (t.capacity > 0 || w.ledger.last[k] > 0)))
    case Restart(table) => forall b :: b in table <==> b in w.sent
    case _ => true
  }

  ghost predicate GentleRun(w: World, es: seq<Event>, v: World, suppliers: Suppliers)
    decreases |es|
  {
    if es == [] then w == v
    else Enabled(w, es[0]) && Gentle(w, es[0]) && GentleRun(Apply(w, es[0], suppliers), es[1..], v, suppliers)
  }

  /** Memory is the latest snapshots, and every deposit between readings has been counted. */
  ghost predicate ExactInv(w: World) {
    && w.ledger.last == LoadedCounts(w.sent)
    && forall k | k in w.bins ::
         var t := w.bins[k];
         if t.read then t.counted + t.baseline + t.since == t.deposited else t.counted == 0
  }

  lemma ExactRead(w: World, e: Event, suppliers: Suppliers)
    requires SoundInv(w) && ExactInv(w) && Enabled(w, e) && Gentle(w, e) && e.Read?
    ensures ExactInv(Apply(w, e, suppliers))
  {
    LatestSnoc(w.sent, SnapshotAt(w, e));
    assert BinInv(w, e.k);
    if e.k in w.ledger.last { ReadingExactIff(w.bins[e.k], w.ledger.last[e.k]); }
  }

  lemma ExactStep(w: World, e: Event, suppliers: Suppliers)
    requires SoundInv(w) && ExactInv(w) && Enabled(w, e) && Gentle(w, e)
    ensures ExactInv(Apply(w, e, suppliers))
  {
    match e
    case Read(_, _, _) => ExactRead(w, e, suppliers);
    case Restart(table) => CompleteTableIsCurrent(w, table);
    case _ =>
  }

  lemma {:induction false} ExactRun(w: World, es: seq<Event>, v: World, keys: seq<BinKey>, suppliers: Suppliers)
    requires SoundInv(w) && ExactInv(w) && LabelInv(w, keys, suppliers) && GentleRun(w, es, v, suppliers)
    ensures ExactInv(v) && LabelInv(v, keys, suppliers)
    decreases |es|
  {
    if es != [] {
      MemoryMakesSafe(w, es[0]);
      SoundStep(w, es[0], suppliers);
      ExactStep(w, es[0], suppliers);
      LabelStep(w, es[0], keys, suppliers);
      ExactRun(Apply(w, es[0], suppliers), es[1..], v, keys, suppliers);
    }
  }

  /**
   On gentle runs the counter under a label is exactly the deposits made into its bins
   between their first and last readings, restarts or not.
   */
  lemma CountsEverything(w0: World, es: seq<Event>, w: World, keys: seq<BinKey>, suppliers: Suppliers, l: Label)
    requires Init(w0) && Lists(keys, w0.bins) && GentleRun(w0, es, w, suppliers)
    ensures Amount(w.ledger.ingested, l) == Total(keys, l, suppliers, ObservedOf(w.bins))
  {
    InitialInv(w0, keys, suppliers);
    ExactRun(w0, es, w, keys, suppliers);
    TotalLe(keys, l, suppliers, CountedOf(w.bins), ObservedOf(w.bins));
    TotalLe(keys, l, suppliers, ObservedOf(w.bins), CountedOf(w.bins));
  }
}
