/** The derived metrics the analysis, visualisation and report tabs recompute
    from the step list on every render: the bottleneck, system throughput,
    per-step utilization, cycle time, the two improvement projections and
    the secondary bottleneck. Quantities are exact reals; rounding is left to
    the display. */
module Analysis {
  import opened Steps

  /** Why a derived metric has no value. The tabs show a prompt to add steps
      instead of computing on an empty list. */
  datatype Error = EmptyModel | InsufficientSteps

  datatype Result<T> = Ok(value: T) | Err(error: Error)

  /** The capacity column of the step table. */
  function Capacities(steps: seq<Step>): (caps: seq<real>)
    ensures |caps| == |steps|
    ensures forall i :: 0 <= i < |steps| ==> caps[i] == steps[i].capacity
  {
    seq(|steps|, i requires 0 <= i < |steps| => steps[i].capacity)
  }

  /** `b` is the position `idxmin` reports: a minimum, strictly below every
      earlier entry, so the first of several tied minima. */
  ghost predicate IsFirstMin(caps: seq<real>, b: int) {
    && 0 <= b < |caps|
    && (forall i :: 0 <= i < |caps| ==> caps[b] <= caps[i])
    && (forall i :: 0 <= i < b ==> caps[b] < caps[i])
  }

  /** At most one position is the first minimum. */
  lemma FirstMinUnique(caps: seq<real>, b1: int, b2: int)
    requires IsFirstMin(caps, b1) && IsFirstMin(caps, b2)
    ensures b1 == b2
  {
    assert caps[b1] <= caps[b2] && caps[b2] <= caps[b1];
  }

  /** Stable argmin of a non-empty column. */
  function FirstMinIndex(caps: seq<real>): (b: nat)
    requires |caps| > 0
    ensures IsFirstMin(caps, b)
    decreases |caps|
  {
    if |caps| == 1 then 0
    else
      var k := FirstMinIndex(caps[..|caps| - 1]);
      if caps[|caps| - 1] < caps[k] then |caps| - 1 else k
  }

  /** The bottleneck step: the first step of minimum capacity. */
  function Bottleneck(steps: seq<Step>): (r: Result<nat>)
    ensures r.Err? <==> |steps| == 0
    ensures r.Err? ==> r.error == EmptyModel
    ensures r.Ok? ==> IsFirstMin(Capacities(steps), r.value)
  {
    if |steps| == 0 then Err(EmptyModel) else Ok(FirstMinIndex(Capacities(steps)))
  }

  /** System throughput: the lowest capacity of any step, units per minute. */
  function Throughput(steps: seq<Step>): (r: Result<real>)
    ensures r.Err? <==> |steps| == 0
    ensures r.Err? ==> r.error == EmptyModel
    ensures r.Ok? ==> forall i :: 0 <= i < |steps| ==> r.value <= steps[i].capacity
    ensures r.Ok? ==> exists i :: 0 <= i < |steps| && steps[i].capacity == r.value
  {
    match Bottleneck(steps)
    case Err(e) => Err(e)
    case Ok(b) => Ok(steps[b].capacity)
  }

  lemma ThroughputIsBottleneckCapacity(steps: seq<Step>)
    requires |steps| > 0
    ensures Throughput(steps).value == steps[Bottleneck(steps).value].capacity
  {
  }

  /** Hourly throughput as the metrics and the report show it. */
  function HourlyThroughput(throughput: real): (perHour: real)
    ensures throughput > 0.0 ==> perHour > throughput
    ensures perHour / 60.0 == throughput
  {
    throughput * 60.0
  }

  /** Utilization of a step, in percent of its capacity used at the system
      throughput. */
  function Utilization(throughput: real, capacity: real): (u: real)
    requires capacity > 0.0
    ensures u * capacity == 100.0 * throughput
    ensures throughput > 0.0 ==> u > 0.0
  {
    throughput / capacity * 100.0
  }

  lemma UtilizationBounds(throughput: real, capacity: real)
    requires 0.0 < throughput <= capacity
    ensures 0.0 < Utilization(throughput, capacity) <= 100.0
    ensures Utilization(throughput, capacity) == 100.0 <==> capacity == throughput
  {
    var q := throughput / capacity;
    assert q * capacity == throughput;
    assert 0.0 < q <= 1.0;
    if q == 1.0 {
      assert capacity == throughput;
    }
  }

  /** Utilization falls as capacity rises. */
  lemma UtilizationAntitone(throughput: real, c1: real, c2: real)
    requires 0.0 < throughput && 0.0 < c1 <= c2
    ensures Utilization(throughput, c2) <= Utilization(throughput, c1)
  {
    var q1 := throughput / c1;
    var q2 := throughput / c2;
    assert q1 * c1 == throughput && q2 * c2 == throughput;
    assert q2 * c1 <= q2 * c2 == q1 * c1;
    assert q2 <= q1;
  }

  /** The utilization column, one entry per step in list order. */
  function Utilizations(steps: seq<Step>): (u: seq<real>)
    requires |steps| > 0 && PositiveCapacities(steps)
    ensures |u| == |steps|
    ensures forall i :: 0 <= i < |u| ==> u[i] == Utilization(Throughput(steps).value, steps[i].capacity)
    ensures forall i :: 0 <= i < |u| ==> 0.0 < u[i] <= 100.0
    ensures forall i :: 0 <= i < |u| ==> (u[i] == 100.0 <==> steps[i].capacity == Throughput(steps).value)
    ensures u[Bottleneck(steps).value] == 100.0
    ensures forall i, j :: 0 <= i < |u| && 0 <= j < |u| && steps[i].capacity <= steps[j].capacity ==> u[j] <= u[i]
  {
    var t := Throughput(steps).value;
    var u := seq(|steps|, i requires 0 <= i < |steps| => Utilization(t, steps[i].capacity));
    forall i | 0 <= i < |steps|
      ensures 0.0 < u[i] <= 100.0
      ensures u[i] == 100.0 <==> steps[i].capacity == t
    {
      UtilizationBounds(t, steps[i].capacity);
    }
    forall i, j | 0 <= i < |u| && 0 <= j < |u| && steps[i].capacity <= steps[j].capacity
      ensures u[j] <= u[i]
    {
      UtilizationAntitone(t, steps[i].capacity, steps[j].capacity);
    }
    u
  }

  function Sum(xs: seq<real>): real
  {
    if |xs| == 0 then 0.0 else xs[0] + Sum(xs[1..])
  }

  lemma {:induction false} SumBounds(xs: seq<real>, hi: real)
    requires forall i :: 0 <= i < |xs| ==> 0.0 < xs[i] <= hi
    ensures |xs| > 0 ==> 0.0 < Sum(xs)
    ensures Sum(xs) <= hi * |xs| as real
  {
    if |xs| > 0 {
      SumBounds(xs[1..], hi);
    }
  }

  /** The mean of the utilization column. */
  function AverageUtilization(steps: seq<Step>): (avg: real)
    requires |steps| > 0 && PositiveCapacities(steps)
    ensures avg * |steps| as real == Sum(Utilizations(steps))
    ensures 0.0 < avg <= 100.0
  {
    var u := Utilizations(steps);
    var n := |steps| as real;
    SumBounds(u, 100.0);
    MeanBounds(Sum(u), n, 100.0);
    Sum(u) / n
  }

  /** A total in (0, n * hi] spread over n >= 1 entries has a mean in (0, hi]. */
  lemma MeanBounds(total: real, n: real, hi: real)
    requires n >= 1.0 && 0.0 < total <= hi * n
    ensures total / n * n == total
    ensures 0.0 < total / n <= hi
  {
  }

  /** Cycle time in minutes per unit; an infinite cycle time when nothing flows. */
  datatype CycleTime = PerUnit(minutes: real) | Unbounded

  function CycleTimeOf(throughput: real): (c: CycleTime)
    ensures c.Unbounded? <==> throughput <= 0.0
    ensures c.PerUnit? ==> c.minutes > 0.0 && c.minutes * throughput == 1.0
  {
    if throughput > 0.0 then PerUnit(1.0 / throughput) else Unbounded
  }

  /** Maximum output per hour read back from a cycle time; an infinite cycle
      time gives no output. */
  function MaxHourlyOutput(c: CycleTime): (perHour: real)
    requires c.PerUnit? ==> c.minutes != 0.0
    ensures c.Unbounded? ==> perHour == 0.0
    ensures c.PerUnit? ==> perHour * c.minutes == 60.0
  {
    match c
    case Unbounded => 0.0
    case PerUnit(m) => 1.0 / m * 60.0
  }

  /** Going through the cycle time and back gives the hourly throughput the
      throughput metric shows. */
  lemma MaxOutputIsHourlyThroughput(throughput: real)
    requires throughput > 0.0
    ensures MaxHourlyOutput(CycleTimeOf(throughput)) == HourlyThroughput(throughput)
  {
  }

  /** What-if: one more resource at the step. */
  function AddResourceProjection(s: Step): (c: real)
    requires s.duration > 0.0
    ensures c > s.resources as real / s.duration
    ensures c - s.resources as real / s.duration == 1.0 / s.duration
  {
    (s.resources + 1) as real / s.duration
  }

  /** What-if: processing time cut by 20 percent. */
  function ReduceTimeProjection(s: Step): (c: real)
    requires s.duration > 0.0
    ensures c == 1.25 * (s.resources as real / s.duration)
    ensures s.resources >= 1 ==> c > s.resources as real / s.duration
  {
    var c := s.resources as real / (s.duration * 0.8);
    assert c * (s.duration * 0.8) == s.resources as real;
    c
  }

  /** When the bottleneck's stored capacity is the computed one, both
      projections raise its capacity above the current system throughput. */
  lemma ProjectionsExceedThroughput(steps: seq<Step>)
    requires ValidSteps(steps) && |steps| > 0
    requires ConsistentCapacity(steps[Bottleneck(steps).value])
    ensures AddResourceProjection(steps[Bottleneck(steps).value]) > Throughput(steps).value
    ensures ReduceTimeProjection(steps[Bottleneck(steps).value]) > Throughput(steps).value
  {
  }

  /** `j` is a position that sorting the capacity column ascending can put
      second: some other step is no larger, and no two other steps are both
      strictly smaller. Ties leave several such positions. */
  ghost predicate CanBeSecondAfterSort(caps: seq<real>, j: int) {
    && 0 <= j < |caps|
    && (exists k :: 0 <= k < |caps| && k != j && caps[k] <= caps[j])
    && (forall i, i' :: 0 <= i < i' < |caps| && i != j && i' != j ==> !(caps[i] < caps[j] && caps[i'] < caps[j]))
  }

  /** `p` lists every position once, in ascending order of capacity: one
      possible outcome of sorting the column, whatever the tie-breaking. */
  ghost predicate SortsByCapacity(caps: seq<real>, p: seq<int>) {
    && |p| == |caps|
    && (forall k :: 0 <= k < |p| ==> 0 <= p[k] < |caps|)
    && (forall k, k' :: 0 <= k < k' < |p| ==> p[k] != p[k'])
    && (forall i :: 0 <= i < |caps| ==> i in p)
    && (forall k, k' :: 0 <= k <= k' < |p| ==> caps[p[k]] <= caps[p[k']])
  }

  /** Whatever order a sort leaves tied capacities in, its second entry
      satisfies CanBeSecondAfterSort. */
  lemma SortedSecondIsCandidate(caps: seq<real>, p: seq<int>)
    requires |caps| >= 2 && SortsByCapacity(caps, p)
    ensures CanBeSecondAfterSort(caps, p[1])
  {
    var j := p[1];
    assert p[0] != j && caps[p[0]] <= caps[j];
    forall i, i' | 0 <= i < i' < |caps| && i != j && i' != j
      ensures !(caps[i] < caps[j] && caps[i'] < caps[j])
    {
      assert i in p && i' in p;
      var m :| 0 <= m < |p| && p[m] == i;
      var m' :| 0 <= m' < |p| && p[m'] == i';
      if m >= 2 {
        assert caps[p[1]] <= caps[p[m]];
      } else {
        assert m' >= 2;
        assert caps[p[1]] <= caps[p[m']];
      }
    }
  }

  /** All candidates for the secondary bottleneck have the same capacity, so
      the tie-breaking of the sort never changes the capacity reported. */
  lemma CandidatesShareCapacity(caps: seq<real>, j1: int, j2: int)
    requires CanBeSecondAfterSort(caps, j1) && CanBeSecondAfterSort(caps, j2)
    ensures caps[j1] == caps[j2]
  {
  }

  /** The "next bottleneck" panel: the step that sorting by capacity puts
      second. The choice among ties is the one a stable sort makes: the first
      minimum among all steps but the bottleneck. */
  function SecondaryBottleneck(steps: seq<Step>): (r: Result<nat>)
    ensures r.Err? <==> |steps| < 2
    ensures r.Err? ==> r.error == InsufficientSteps
    ensures r.Ok? ==> CanBeSecondAfterSort(Capacities(steps), r.value)
    ensures r.Ok? ==> steps[r.value].capacity >= Throughput(steps).value
    ensures r.Ok? ==> r.value != Bottleneck(steps).value
  {
    if |steps| < 2 then Err(InsufficientSteps)
    else
      var caps := Capacities(steps);
      var b := FirstMinIndex(caps);
      var rest := caps[..b] + caps[b + 1..];
      var k := FirstMinIndex(rest);
      var j := if k < b then k else k + 1;
      assert caps[j] == rest[k];
      forall i | 0 <= i < |caps| && i != b
        ensures caps[j] <= caps[i]
      {
        if i < b { assert rest[i] == caps[i]; } else { assert rest[i - 1] == caps[i]; }
      }
      assert caps[b] <= caps[j];
      Ok(j)
  }

  /** The secondary bottleneck's capacity is the one any sort of the column
      puts second. */
  lemma SecondaryMatchesAnySort(steps: seq<Step>, p: seq<int>)
    requires |steps| >= 2 && SortsByCapacity(Capacities(steps), p)
    ensures steps[SecondaryBottleneck(steps).value].capacity == steps[p[1]].capacity
  {
    var caps := Capacities(steps);
    SortedSecondIsCandidate(caps, p);
    CandidatesShareCapacity(caps, SecondaryBottleneck(steps).value, p[1]);
  }
}
