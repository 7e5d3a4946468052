/**
 A clean shutdown: the batch buffer hands everything to the tables, so the next start loads
 the tables that the runs of both pollers assume.
 */
module Shutdown {
  import opened Prelude
  import BS = BatchStreams
  import BT = BatchTheorems
  import Diff
  import DL = DiffLaws
  import LR = LocationRuns
  import Bins
  import BR = BinRestart
  import BinRuns

  // ---- What a buffer delivers ------------------------------------------------------------

  /** The rows that a run offers to a table, in order. */
  function OffersMade<T>(es: seq<BS.Event<T>>, t: BS.Table): seq<T> {
    if es == [] then []
    else
      (if es[0].Offer? && es[0].table == t then [es[0].row] else []) + OffersMade(es[1..], t)
  }

  ghost predicate Silent<T>(es: seq<BS.Event<T>>, t: BS.Table) {
    forall i | 0 <= i < |es| :: !(es[i].Offer? && es[i].table == t)
  }

  /** Unless an offer is refused, what has been accepted is what has been offered. */
  lemma {:induction false} AcceptedIsOffered<T>(b: BS.Buffer<T>, es: seq<BS.Event<T>>, c: BS.Buffer<T>, t: BS.Table)
    requires BS.Reaches(b, es, c)
    ensures BS.Get(b.streams, t).refused <= BS.Get(c.streams, t).refused
    ensures BS.Get(c.streams, t).refused == BS.Get(b.streams, t).refused ==>
              BS.Get(c.streams, t).accepted == BS.Get(b.streams, t).accepted + OffersMade(es, t)
    decreases |es|
  {
    var x := BS.Get(b.streams, t);
    if es == [] {
      assert x.accepted + [] == x.accepted;
    } else {
      var b1 := BS.Apply(b, es[0]);
      AcceptedIsOffered(b1, es[1..], c, t);
      OneOffer(b, es[0], t);
      var head := if es[0].Offer? && es[0].table == t then [es[0].row] else [];
      assert x.accepted + head + OffersMade(es[1..], t) == x.accepted + (head + OffersMade(es[1..], t));
    }
  }

  lemma OneOffer<T>(b: BS.Buffer<T>, e: BS.Event<T>, t: BS.Table)
    requires BS.Enabled(b, e)
    ensures var x, y := BS.Get(b.streams, t), BS.Get(BS.Apply(b, e).streams, t);
            && x.refused <= y.refused
            && (y.refused == x.refused ==>
                  y.accepted == x.accepted + if e.Offer? && e.table == t then [e.row] else [])
  {
  }

  lemma {:induction false} NothingOfferedNothingAccepted<T>(b: BS.Buffer<T>, es: seq<BS.Event<T>>, c: BS.Buffer<T>,
                                                            t: BS.Table)
    requires BS.Reaches(b, es, c) && Silent(es, t)
    ensures BS.Get(c.streams, t).accepted == BS.Get(b.streams, t).accepted
    ensures b.halt.Some? ==> c.halt == b.halt
    decreases |es|
  {
    if es != [] {
      var rest := es[1..];
      assert forall i | 0 <= i < |rest| :: rest[i] == es[i + 1];
      NothingOfferedNothingAccepted(BS.Apply(b, es[0]), rest, c, t);
    }
  }

  /**
   A clean stop for table `t`: a fresh buffer runs, Stop is called, nothing more is offered to
   the table, and when the worker is gone no offer has been refused and the last insert has
   left nothing pending.
   */
  ghost predicate CleanStop<T>(b0: BS.Buffer<T>, es: seq<BS.Event<T>>, b1: BS.Buffer<T>, fs: seq<BS.Event<T>>,
                               b: BS.Buffer<T>, t: BS.Table) {
    && BS.Init(b0) && b0.hasSink
    && BS.Reaches(b0, es, b1) && b1.halt.None? && BS.Reaches(BS.Apply(b1, BS.CallStop), fs, b) && Silent(fs, t)
    && b.phase.Exited? && BS.Get(b.streams, t).refused == [] && BS.Get(b.streams, t).pending == []
  }

  /** It has delivered every row ever offered, in order. */
  lemma CleanStopDeliversAll<T>(b0: BS.Buffer<T>, es: seq<BS.Event<T>>, b1: BS.Buffer<T>, fs: seq<BS.Event<T>>,
                                b: BS.Buffer<T>, t: BS.Table)
    requires CleanStop(b0, es, b1, fs, b, t)
    ensures BS.Get(b.streams, t).delivered == OffersMade(es, t)
  {
    var e: BS.Event<T> := BS.CallStop;
    var b2 := BS.Apply(b1, e);
    BS.OneEvent(b1, e);
    BS.RunThen(b0, es, b1, [e], b2);
    BS.RunThen(b0, es + [e], b2, fs, b);
    BT.InitialInv(b0);
    BT.InvRun(b0, es + [e] + fs, b);
    AcceptedIsOffered(b0, es, b1, t);
    AcceptedIsOffered(b2, fs, b, t);
    NothingOfferedNothingAccepted(b2, fs, b, t);
    BT.StopComplete(b0, es + [e] + fs, b, t);
    BT.NothingLostOrReordered(b0, es + [e] + fs, b, t);
    MarkIsAll(b1, t);
  }

  lemma MarkIsAll<T>(b: BS.Buffer<T>, t: BS.Table)
    ensures BS.MarkOf(BS.MarksOf(b.streams), t) == |BS.Get(b.streams, t).accepted|
  {
  }

  // ---- What the next start loads ---------------------------------------------------------

  /** The rows of all three tables share the buffer. */
  datatype Row = OfMachine(machine: Diff.RVM) | OfEvent(event: Diff.Event) | OfBin(bin: Bins.Bin)

  function Machines(rows: seq<Diff.RVM>): seq<Row> {
    seq(|rows|, i requires 0 <= i < |rows| => OfMachine(rows[i]))
  }

  function Snapshots(bins: seq<Bins.Bin>): seq<Row> { seq(|bins|, i requires 0 <= i < |bins| => OfBin(bins[i])) }

  /** The table after a buffer's deliveries: they come after what was stored before. */
  ghost predicate MachineTable(stored: seq<Diff.RVM>, delivered: seq<Row>, table: seq<Diff.RVM>) {
    exists more :: delivered == Machines(more) && table == stored + more
  }

  ghost predicate BinTable(stored: seq<Bins.Bin>, delivered: seq<Row>, table: seq<Bins.Bin>) {
    exists more :: delivered == Snapshots(more) && table == stored + more
  }

  lemma MachinesInjective(a: seq<Diff.RVM>, b: seq<Diff.RVM>)
    requires Machines(a) == Machines(b)
    ensures a == b
  {
    assert |Machines(a)| == |Machines(b)|;
    forall i | 0 <= i < |a| ensures a[i] == b[i] { assert Machines(a)[i] == Machines(b)[i]; }
  }

  lemma SnapshotsInjective(a: seq<Bins.Bin>, b: seq<Bins.Bin>)
    requires Snapshots(a) == Snapshots(b)
    ensures a == b
  {
    assert |Snapshots(a)| == |Snapshots(b)|;
    forall i | 0 <= i < |a| ensures a[i] == b[i] { assert Snapshots(a)[i] == Snapshots(b)[i]; }
  }

  /**
   The machine table across a real shutdown: a process starts on a table with all rows so
   far, its polls offer their rows to its buffer, and the buffer stops cleanly. Then the table
   it leaves is one that the run semantics lets the next process start on, and it agrees with
   the memory that the process had.
   */
  lemma CleanStopKeepsMachines(s0: LR.Tracker, before: seq<LR.Step>, steps: seq<LR.Step>, added: seq<Diff.RVM>,
                               b0: BS.Buffer<Row>, es: seq<BS.Event<Row>>, b1: BS.Buffer<Row>, fs: seq<BS.Event<Row>>,
                               b: BS.Buffer<Row>, stored: seq<Diff.RVM>, table: seq<Diff.RVM>)
    requires LR.Fresh(s0) && LR.ValidRun(s0, before)
    requires var s := LR.Run(s0, before);
             && LR.ValidRun(s, steps) && LR.SameRows(stored, s.rows)
             && LR.Run(s, steps).rows == s.rows + added
    requires CleanStop(b0, es, b1, fs, b, BS.RVMs) && OffersMade(es, BS.RVMs) == Machines(added)
    requires MachineTable(stored, b.streams.rvms.delivered, table)
    ensures var t := LR.Run(LR.Run(s0, before), steps);
            && LR.ValidStep(t, LR.Restarted(table))
            && DL.LiveView(LR.Loaded(table)) == DL.LiveView(t.active)
  {
    var s := LR.Run(s0, before);
    CleanStopDeliversAll(b0, es, b1, fs, b, BS.RVMs);
    assert BS.Get(b.streams, BS.RVMs).delivered == Machines(added);
    var more :| b.streams.rvms.delivered == Machines(more) && table == stored + more;
    MachinesInjective(more, added);
    LR.FreshInv(s0);
    LR.RunKeepsInv(s0, before);
    LR.RunKeepsInv(s, steps);
    LR.RestartKeepsInv(LR.Run(s, steps), table);
  }

  /** The snapshot table likewise: the next start loads every bin's last count. */
  lemma CleanStopKeepsCounts(w0: BinRuns.World, before: seq<BinRuns.Event>, w: BinRuns.World,
                             after: seq<BinRuns.Event>, v: BinRuns.World, suppliers: BinRuns.Suppliers,
                             added: seq<Bins.Bin>,
                             b0: BS.Buffer<Row>, es: seq<BS.Event<Row>>, b1: BS.Buffer<Row>, fs: seq<BS.Event<Row>>,
                             b: BS.Buffer<Row>, stored: seq<Bins.Bin>, table: seq<Bins.Bin>)
    requires BinRuns.Init(w0) && BinRuns.CurrentRun(w0, before, w, suppliers)
    requires BinRuns.CurrentRun(w, after, v, suppliers) && v.sent == w.sent + added
    requires forall x :: x in stored <==> x in w.sent
    requires CleanStop(b0, es, b1, fs, b, BS.Bins) && OffersMade(es, BS.Bins) == Snapshots(added)
    requires BinTable(stored, b.streams.bins.delivered, table)
    ensures BinRuns.Enabled(v, BinRuns.Restart(table)) && BinRuns.Current(v, table)
    ensures var loaded := BinRuns.LoadedCounts(table);
            forall k | k in v.ledger.last :: k in loaded && loaded[k] == v.ledger.last[k]
  {
    CleanStopDeliversAll(b0, es, b1, fs, b, BS.Bins);
    assert BS.Get(b.streams, BS.Bins).delivered == Snapshots(added);
    var more :| b.streams.bins.delivered == Snapshots(more) && table == stored + more;
    SnapshotsInjective(more, added);
    assert forall x :: x in table <==> x in v.sent;
    BinRuns.CurrentRunKeeps(w0, before, w, suppliers);
    BinRuns.CurrentRunKeeps(w, after, v, suppliers);
    BinRuns.CompleteTableIsCurrent(v, table);
  }
}
