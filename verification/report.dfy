/** What the views derive from the analysis: the colour band of each
    utilization bar, the status column that marks the bottleneck, and the
    rows of the generated report. */
module Report {
  import opened Steps
  import opened Analysis

  /** The utilization traffic light: red is critical, amber a warning (drawn
      orange in the chart and yellow beside the metric), green normal. */
  datatype Band = Red | Amber | Green

  function BandOf(u: real): (b: Band)
    ensures b == Red <==> u >= 90.0
    ensures b == Amber <==> 70.0 <= u < 90.0
    ensures b == Green <==> u < 70.0
  {
    if u >= 90.0 then Red else if u >= 70.0 then Amber else Green
  }

  function Severity(b: Band): nat {
    match b
    case Green => 0
    case Amber => 1
    case Red => 2
  }

  /** A higher utilization never gets a milder band. */
  lemma BandMonotone(u: real, v: real)
    requires u <= v
    ensures Severity(BandOf(u)) <= Severity(BandOf(v))
  {
  }

  /** The red band in terms of capacities: a step is red exactly when its
      capacity is at most 10/9 of the system throughput. */
  lemma RedByCapacity(throughput: real, capacity: real)
    requires throughput > 0.0 && capacity > 0.0
    ensures BandOf(Utilization(throughput, capacity)) == Red <==> 9.0 * capacity <= 10.0 * throughput
  {
    var q := throughput / capacity;
    assert Utilization(throughput, capacity) == q * 100.0;
    RatioThreshold(q, 0.9, throughput, capacity);
  }

  /** The green band in terms of capacities: a step is green exactly when
      its capacity exceeds 10/7 of the system throughput. */
  lemma GreenByCapacity(throughput: real, capacity: real)
    requires throughput > 0.0 && capacity > 0.0
    ensures BandOf(Utilization(throughput, capacity)) == Green <==> 10.0 * throughput < 7.0 * capacity
  {
    var q := throughput / capacity;
    assert Utilization(throughput, capacity) == q * 100.0;
    RatioThreshold(q, 0.7, throughput, capacity);
  }

  /** With q * c == t and c positive, q reaches x exactly when t reaches x * c. */
  lemma RatioThreshold(q: real, x: real, t: real, c: real)
    requires c > 0.0 && q * c == t
    ensures x <= q <==> x * c <= t
  {
    if x <= q {
      MulLe(x, q, c);
    } else {
      MulLt(q, x, c);
    }
  }

  lemma MulLe(x: real, y: real, c: real)
    requires c > 0.0 && x <= y
    ensures x * c <= y * c
  {
  }

  lemma MulLt(x: real, y: real, c: real)
    requires c > 0.0 && x < y
    ensures x * c < y * c
  {
  }

  /** The bottleneck's bar is always red, and its utilization is 100. */
  lemma BottleneckIsRed(steps: seq<Step>)
    requires |steps| > 0 && PositiveCapacities(steps)
    ensures Utilizations(steps)[Bottleneck(steps).value] == 100.0
    ensures BandOf(Utilizations(steps)[Bottleneck(steps).value]) == Red
  {
  }

  /** The status column of the step table and the report. */
  datatype Status = Marked | Normal

  function StatusColumn(steps: seq<Step>): (col: seq<Status>)
    ensures |col| == |steps|
    ensures forall i :: 0 <= i < |col| ==> (col[i] == Marked <==> IsFirstMin(Capacities(steps), i))
  {
    if |steps| == 0 then []
    else
      var b := Bottleneck(steps).value;
      var col := seq(|steps|, i requires 0 <= i < |steps| => if i == b then Marked else Normal);
      forall i | 0 <= i < |col| && IsFirstMin(Capacities(steps), i)
        ensures i == b
      {
        FirstMinUnique(Capacities(steps), i, b);
      }
      col
  }

  function CountMarked(col: seq<Status>): nat {
    if |col| == 0 then 0 else (if col[0] == Marked then 1 else 0) + CountMarked(col[1..])
  }

  lemma {:induction false} CountNone(col: seq<Status>)
    requires forall i :: 0 <= i < |col| ==> col[i] == Normal
    ensures CountMarked(col) == 0
  {
    if |col| > 0 {
      CountNone(col[1..]);
    }
  }

  lemma {:induction false} CountSingle(col: seq<Status>, b: int)
    requires 0 <= b < |col|
    requires forall i :: 0 <= i < |col| ==> (col[i] == Marked <==> i == b)
    ensures CountMarked(col) == 1
  {
    if b == 0 {
      CountNone(col[1..]);
    } else {
      CountSingle(col[1..], b - 1);
    }
  }

  /** A non-empty table marks exactly one step as the bottleneck. */
  lemma ExactlyOneMarked(steps: seq<Step>)
    requires |steps| > 0
    ensures CountMarked(StatusColumn(steps)) == 1
  {
    var col := StatusColumn(steps);
    var b := Bottleneck(steps).value;
    forall i | 0 <= i < |col|
      ensures col[i] == Marked <==> i == b
    {
      if col[i] == Marked {
        FirstMinUnique(Capacities(steps), i, b);
      }
    }
    CountSingle(col, b);
  }

  /** One row of the report's step table. */
  datatype Row = Row(name: string, resources: int, duration: real, capacity: real,
                     utilization: real, status: Status)

  /** The report's step table: one row per step, in list order. */
  function ReportRows(steps: seq<Step>): (rows: seq<Row>)
    requires |steps| > 0 && PositiveCapacities(steps)
    ensures |rows| == |steps|
    ensures forall i :: 0 <= i < |rows| ==>
              && rows[i].name == steps[i].name && rows[i].resources == steps[i].resources
              && rows[i].duration == steps[i].duration && rows[i].capacity == steps[i].capacity
    ensures forall i :: 0 <= i < |rows| ==> rows[i].utilization == Utilizations(steps)[i]
    ensures forall i :: 0 <= i < |rows| ==> 0.0 < rows[i].utilization <= 100.0
    ensures forall i :: 0 <= i < |rows| ==> (rows[i].status == Marked <==> i == Bottleneck(steps).value)
    ensures forall i :: 0 <= i < |rows| && rows[i].status == Marked ==>
              rows[i].utilization == 100.0 && BandOf(rows[i].utilization) == Red
  {
    var u := Utilizations(steps);
    var col := StatusColumn(steps);
    var b := Bottleneck(steps).value;
    forall i | 0 <= i < |col| && col[i] == Marked
      ensures i == b
    {
      FirstMinUnique(Capacities(steps), i, b);
    }
    seq(|steps|, i requires 0 <= i < |steps| =>
      Row(steps[i].name, steps[i].resources, steps[i].duration, steps[i].capacity, u[i], col[i]))
  }
}
