/** The two quick-start presets and what the analysis says about them. */
module Templates {
  import opened Steps
  import opened Analysis

  /** The manufacturing line. Welding and Testing store the rounded capacity
      0.67, not the 2/3 their resources and durations give. */
  function Manufacturing(): (r: seq<Step>)
    ensures |r| == 5 && ValidSteps(r)
  {
    [ Step("Cutting", 2.0, 2, 1.0),
      Step("Welding", 3.0, 2, 0.67),
      Step("Assembly", 4.0, 3, 0.75),
      Step("Testing", 1.5, 1, 0.67),
      Step("Packaging", 1.0, 2, 2.0) ]
  }

  /** The food-service line. */
  function Service(): (r: seq<Step>)
    ensures |r| == 5 && ValidSteps(r)
  {
    [ Step("Order Taking", 1.0, 2, 2.0),
      Step("Food Preparation", 10.0, 3, 0.3),
      Step("Cooking", 8.0, 4, 0.5),
      Step("Quality Check", 0.5, 1, 2.0),
      Step("Delivery", 2.0, 5, 2.5) ]
  }

  /** Welding ties Testing for the lowest capacity and wins as the earlier
      step; the line runs at 0.67 units per minute. */
  lemma ManufacturingBottleneckIsWelding()
    ensures Bottleneck(Manufacturing()) == Ok(1)
    ensures Manufacturing()[1].name == "Welding"
    ensures Manufacturing()[1].capacity == Manufacturing()[3].capacity
    ensures Throughput(Manufacturing()) == Ok(0.67)
  {
    var caps := Capacities(Manufacturing());
    assert IsFirstMin(caps, 1);
    FirstMinUnique(caps, 1, Bottleneck(Manufacturing()).value);
  }

  /** Food Preparation is the unique slowest step at 0.3 units per minute. */
  lemma ServiceBottleneckIsFoodPreparation()
    ensures Bottleneck(Service()) == Ok(1)
    ensures Service()[1].name == "Food Preparation"
    ensures Throughput(Service()) == Ok(0.3)
  {
    var caps := Capacities(Service());
    assert IsFirstMin(caps, 1);
    FirstMinUnique(caps, 1, Bottleneck(Service()).value);
  }

  /** In the manufacturing preset every sort of the capacities puts a 0.67
      step second, tied with the primary; the model's stable pick is Testing. */
  lemma ManufacturingSecondaryIsTesting()
    ensures forall p :: SortsByCapacity(Capacities(Manufacturing()), p) ==> Manufacturing()[p[1]].capacity == 0.67
    ensures SecondaryBottleneck(Manufacturing()) == Ok(3)
    ensures Manufacturing()[3].name == "Testing"
  {
    ManufacturingBottleneckIsWelding();
    var j := SecondaryBottleneck(Manufacturing()).value;
    var caps := Capacities(Manufacturing());
    assert CanBeSecondAfterSort(caps, j);
    assert CanBeSecondAfterSort(caps, 3) by {
      assert caps[1] <= caps[3];
    }
    CandidatesShareCapacity(caps, j, 3);
    forall p | SortsByCapacity(caps, p)
      ensures Manufacturing()[p[1]].capacity == 0.67
    {
      SecondaryMatchesAnySort(Manufacturing(), p);
    }
  }

  /** A sort that breaks the Welding/Testing tie the other way puts Welding,
      the primary bottleneck itself, second. */
  lemma UnstableSortCanPutWeldingSecond()
    ensures SortsByCapacity(Capacities(Manufacturing()), [3, 1, 2, 0, 4])
    ensures Manufacturing()[[3, 1, 2, 0, 4][1]].name == "Welding"
  {
  }

  /** Every service step stores the capacity the form would compute. */
  lemma ServiceCapacitiesConsistent()
    ensures forall i :: 0 <= i < |Service()| ==> ConsistentCapacity(Service()[i])
  {
  }

  /** The manufacturing preset stores exact capacities except for the two
      rounded 0.67 entries. */
  lemma ManufacturingCapacitiesRounded()
    ensures ConsistentCapacity(Manufacturing()[0]) && ConsistentCapacity(Manufacturing()[2])
            && ConsistentCapacity(Manufacturing()[4])
    ensures !ConsistentCapacity(Manufacturing()[1]) && !ConsistentCapacity(Manufacturing()[3])
    ensures Manufacturing()[1].resources as real / Manufacturing()[1].duration == 2.0 / 3.0
  {
  }

  /** One more welder lifts Welding to 1.0 units per minute; a 20 percent
      faster weld gives 5/6. Both exceed the 0.67 throughput, although
      Welding's stored capacity is not its computed one. */
  lemma WeldingProjections()
    ensures AddResourceProjection(Manufacturing()[1]) == 1.0
    ensures ReduceTimeProjection(Manufacturing()[1]) == 5.0 / 6.0
    ensures AddResourceProjection(Manufacturing()[1]) > Throughput(Manufacturing()).value
    ensures ReduceTimeProjection(Manufacturing()[1]) > Throughput(Manufacturing()).value
  {
    ManufacturingBottleneckIsWelding();
  }
}
