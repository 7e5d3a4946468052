/** The `rvm_total` gauge: machines per status and supplier. */
module MachineGauge {
  import opened Prelude
  import opened Diff
  import opened DiffLaws

  /** A poll leaves `color` empty; start-up says "Default". */
  datatype Label = Label(status: string, supplier: string, color: string)

  function LabelOf(r: RVM, color: string): Label { Label(r.status, r.supplier, color) }

  function CountAt(m: map<Label, int>, l: Label): int { if l in m then m[l] else 0 }

  /** One more machine. */
  function Counted(m: map<Label, int>, l: Label): map<Label, int> { m[l := CountAt(m, l) + 1] }

  /** The gauge over a list of machines. */
  function GaugeOf(records: seq<RVM>, color: string): map<Label, int> {
    if records == [] then map[]
    else Counted(GaugeOf(records[..|records| - 1], color), LabelOf(records[|records| - 1], color))
  }

  function Labelled(records: seq<RVM>, color: string, l: Label): set<RVM> {
    set r | r in records && LabelOf(r, color) == l
  }

  lemma OneMoreLabelled(front: seq<RVM>, r: RVM, color: string, l: Label)
    requires DistinctIds(front + [r])
    ensures r !in Labelled(front, color, l)
    ensures Labelled(front + [r], color, l) == Labelled(front, color, l) + if LabelOf(r, color) == l then {r} else {}
  {
    forall i | 0 <= i < |front| ensures front[i] != r {
      assert (front + [r])[i] == front[i] && (front + [r])[|front|] == r;
    }
  }

  /** Each label shows how many different machines have it, and no other label is shown. */
  lemma {:induction false} GaugeCountsMachines(records: seq<RVM>, color: string, l: Label)
    requires DistinctIds(records)
    ensures CountAt(GaugeOf(records, color), l) == |Labelled(records, color, l)|
    ensures l in GaugeOf(records, color) <==> Labelled(records, color, l) != {}
    decreases |records|
  {
    if records != [] {
      var front, r := records[..|records| - 1], records[|records| - 1];
      GaugeCountsMachines(front, color, l);
      assert records == front + [r];
      OneMoreLabelled(front, r, color, l);
    }
  }

  /** The order of the machines does not matter. */
  lemma GaugeIgnoresOrder(a: seq<RVM>, b: seq<RVM>, color: string)
    requires DistinctIds(a) && DistinctIds(b) && forall r :: r in a <==> r in b
    ensures GaugeOf(a, color) == GaugeOf(b, color)
  {
    var ga, gb := GaugeOf(a, color), GaugeOf(b, color);
    forall l: Label
      ensures l in ga <==> l in gb
      ensures l in ga && l in gb ==> ga[l] == gb[l]
    {
      GaugeCountsMachines(a, color, l);
      GaugeCountsMachines(b, color, l);
      assert Labelled(a, color, l) == Labelled(b, color, l);
    }
  }

  /** The records of a map in the order in which it is visited. */
  function InOrder(m: map<U32, RVM>, order: seq<U32>): seq<RVM>
    requires forall id | id in order :: id in m
  {
    seq(|order|, i requires 0 <= i < |order| => m[order[i]])
  }
}
