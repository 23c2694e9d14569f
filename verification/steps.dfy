/** The ordered list of process steps the analyzer works on, and the edits the
    input tab makes to it: add a step, remove steps by name, clear the list.
    The list is an immutable value; every edit returns the new list. */
module Steps {

  /** One process step: minutes per unit, number of parallel resources, and
      units per minute. `capacity` is stored rather than derived: steps added
      through the form get resources / duration, while the built-in templates
      carry rounded literals. */
  datatype Step = Step(name: string, duration: real, resources: int, capacity: real)

  /** What the input form guarantees of every step it creates (a non-empty
      name, at least 0.1 minutes, at least one resource) and what the analysis
      relies on (a positive capacity). */
  predicate ValidStep(s: Step) {
    s.name != "" && s.duration >= 0.1 && s.resources >= 1 && s.capacity > 0.0
  }

  predicate ValidSteps(steps: seq<Step>) {
    forall i :: 0 <= i < |steps| ==> ValidStep(steps[i])
  }

  /** Every stored capacity is positive: all the bottleneck arithmetic needs. */
  predicate PositiveCapacities(steps: seq<Step>) {
    forall i :: 0 <= i < |steps| ==> steps[i].capacity > 0.0
  }

  /** The stored capacity is the one the form computes, resources / duration. */
  predicate ConsistentCapacity(s: Step) {
    s.duration > 0.0 && s.capacity == s.resources as real / s.duration
  }

  lemma ValidStepsHavePositiveCapacities(steps: seq<Step>)
    requires ValidSteps(steps)
    ensures PositiveCapacities(steps)
  {
  }

  /** The "Add Step" button: an empty name is silently ignored; otherwise one
      step is appended whose capacity is resources / duration. The form's
      widgets enforce the bounds on duration and resources. */
  function AddStep(steps: seq<Step>, name: string, duration: real, resources: int): (r: seq<Step>)
    requires duration >= 0.1 && resources >= 1
    ensures name == "" ==> r == steps
    ensures name != "" ==> |r| == |steps| + 1 && r[..|steps|] == steps
    ensures name != "" ==> r[|steps|].name == name && r[|steps|].duration == duration
                           && r[|steps|].resources == resources && ConsistentCapacity(r[|steps|])
    ensures ValidSteps(steps) ==> ValidSteps(r)
  {
    if name == "" then steps
    else
      var s := Step(name, duration, resources, resources as real / duration);
      assert s.capacity > 0.0 by { PositiveRatio(resources as real, duration); }
      steps + [s]
  }

  lemma PositiveRatio(a: real, b: real)
    requires a > 0.0 && b > 0.0
    ensures a / b > 0.0
  {
  }

  /** The "Remove Selected Step" button: keeps, in order, every step whose
      name differs from the selected one (so all steps sharing that name go). */
  function RemoveByName(steps: seq<Step>, name: string): (r: seq<Step>)
    ensures |r| <= |steps|
    ensures forall i :: 0 <= i < |r| ==> r[i].name != name
    ensures forall s :: s in r <==> s in steps && s.name != name
    ensures (forall i :: 0 <= i < |steps| ==> steps[i].name != name) ==> r == steps
    ensures ValidSteps(steps) ==> ValidSteps(r)
  {
    if |steps| == 0 then []
    else
      var rest := RemoveByName(steps[1..], name);
      assert forall s :: s in steps <==> s == steps[0] || s in steps[1..];
      if steps[0].name == name then rest else [steps[0]] + rest
  }

  /** The "Clear All Steps" button. */
  function Clear(): (r: seq<Step>)
    ensures |r| == 0
  {
    []
  }

  /** Removing a name twice removes nothing more. */
  lemma {:induction false} RemoveIdempotent(steps: seq<Step>, name: string)
    ensures RemoveByName(RemoveByName(steps, name), name) == RemoveByName(steps, name)
  {
  }

  /** Removal works piecewise: removing from a concatenation is the
      concatenation of the removals. With the one-step cases below this pins
      the result down to "the kept steps, in their original order". */
  lemma {:induction false} RemoveDistributes(a: seq<Step>, b: seq<Step>, name: string)
    ensures RemoveByName(a + b, name) == RemoveByName(a, name) + RemoveByName(b, name)
    decreases |a|
  {
    if |a| == 0 {
      assert a + b == b;
    } else {
      assert (a + b)[1..] == a[1..] + b;
      RemoveDistributes(a[1..], b, name);
    }
  }

  lemma RemoveSingle(s: Step, name: string)
    ensures s.name == name ==> RemoveByName([s], name) == []
    ensures s.name != name ==> RemoveByName([s], name) == [s]
  {
    assert [s][1..] == [];
  }

  /** Adding a step and then removing its name is the same as removing the
      name right away. */
  lemma RemoveUndoesAdd(steps: seq<Step>, name: string, duration: real, resources: int)
    requires duration >= 0.1 && resources >= 1
    ensures RemoveByName(AddStep(steps, name, duration, resources), name) == RemoveByName(steps, name)
  {
    if name != "" {
      var s := Step(name, duration, resources, resources as real / duration);
      RemoveDistributes(steps, [s], name);
      RemoveSingle(s, name);
    }
  }

  /** Removing one name and adding a step with another name commute. */
  lemma RemoveCommutesWithOtherAdd(steps: seq<Step>, removed: string, name: string, duration: real, resources: int)
    requires duration >= 0.1 && resources >= 1
    requires name != removed
    ensures RemoveByName(AddStep(steps, name, duration, resources), removed)
         == AddStep(RemoveByName(steps, removed), name, duration, resources)
  {
    if name != "" {
      var s := Step(name, duration, resources, resources as real / duration);
      RemoveDistributes(steps, [s], removed);
      RemoveSingle(s, removed);
    }
  }
}
