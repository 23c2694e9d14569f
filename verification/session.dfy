/** The input tab as a command interpreter over an explicitly passed step
    list: the session starts with no steps and every button press maps the
    current list to the next one. */
module Session {
  import opened Steps
  import Analysis
  import Templates

  datatype Preset = ManufacturingPreset | ServicePreset

  /** The buttons that edit the list. The form's widgets bound the duration
      and resource count of an Add. */
  datatype Command =
    | Add(name: string, duration: real, resources: int)
    | Remove(name: string)
    | ClearAll
    | Load(preset: Preset)

  predicate ValidCommand(c: Command) {
    c.Add? ==> c.duration >= 0.1 && c.resources >= 1
  }

  function TemplateOf(p: Preset): seq<Step> {
    match p
    case ManufacturingPreset => Templates.Manufacturing()
    case ServicePreset => Templates.Service()
  }

  /** One button press. Loading a preset discards whatever was there. */
  function Apply(steps: seq<Step>, c: Command): (r: seq<Step>)
    requires ValidCommand(c)
    ensures ValidSteps(steps) ==> ValidSteps(r)
    ensures c.Load? ==> |r| == 5 && ValidSteps(r)
    ensures c.ClearAll? ==> |r| == 0
  {
    match c
    case Add(name, duration, resources) => AddStep(steps, name, duration, resources)
    case Remove(name) => RemoveByName(steps, name)
    case ClearAll => Clear()
    case Load(p) => TemplateOf(p)
  }

  /** The step list after a session's commands, starting from no steps. Every
      list a session can reach satisfies ValidSteps, so the analysis always
      sees positive capacities. */
  function Run(cmds: seq<Command>): (r: seq<Step>)
    requires forall i :: 0 <= i < |cmds| ==> ValidCommand(cmds[i])
    ensures ValidSteps(r)
    decreases |cmds|
  {
    if |cmds| == 0 then []
    else Apply(Run(cmds[..|cmds| - 1]), cmds[|cmds| - 1])
  }

  /** Every derived metric of a reachable non-empty list is defined: the
      utilization column exists and lies in (0, 100]. */
  lemma ReachableListsAnalyzable(cmds: seq<Command>)
    requires forall i :: 0 <= i < |cmds| ==> ValidCommand(cmds[i])
    ensures PositiveCapacities(Run(cmds))
    ensures |Run(cmds)| > 0 ==>
              forall i :: 0 <= i < |Run(cmds)| ==> 0.0 < Analysis.Utilizations(Run(cmds))[i] <= 100.0
  {
    ValidStepsHavePositiveCapacities(Run(cmds));
  }

  /** After Clear All every derived metric reports an empty model. */
  lemma ClearThenQueryFails(steps: seq<Step>)
    ensures Analysis.Bottleneck(Apply(steps, ClearAll)) == Analysis.Err(Analysis.EmptyModel)
    ensures Analysis.Throughput(Apply(steps, ClearAll)) == Analysis.Err(Analysis.EmptyModel)
    ensures Analysis.SecondaryBottleneck(Apply(steps, ClearAll)) == Analysis.Err(Analysis.InsufficientSteps)
  {
  }

  /** Loading a preset ignores the current list. */
  lemma LoadReplaces(s1: seq<Step>, s2: seq<Step>, p: Preset)
    ensures Apply(s1, Load(p)) == Apply(s2, Load(p)) == TemplateOf(p)
  {
  }
}
