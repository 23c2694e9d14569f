# Process bottleneck analyzer — Dafny model

The analyzer is an interactive calculator for a single-stage process flow. The
user keeps an ordered list of process steps. Each step has a name, a processing
time in minutes per unit, a number of parallel resources, and a capacity in
units per minute. The analyzer finds the bottleneck, which is the first step of
lowest capacity. From it the analyzer derives:

- the system throughput and hourly output;
- each step's utilization and its red, amber or green band;
- the cycle time;
- two what-if projections for the bottleneck: one more resource, or 20% less
  processing time;
- the secondary bottleneck;
- a report table that marks exactly one step as the bottleneck.

The model extracts this logic from the user interface and writes it as pure
functions over an immutable `seq<Step>` with exact `real` arithmetic:

- `steps.dfy` (module `Steps`): the step record and the list edits, which are
  add, remove by name and clear.
- `analysis.dfy` (module `Analysis`): bottleneck, throughput, utilization,
  average utilization, cycle time, what-if projections and the secondary
  bottleneck. Errors are a `Result` value: `EmptyModel` for an empty list and
  `InsufficientSteps` for a secondary-bottleneck query on fewer than two steps.
- `report.dfy` (module `Report`): utilization bands, the bottleneck status
  column and the report's per-step rows.
- `templates.dfy` (module `Templates`): the manufacturing and service presets,
  and what the analysis says about each.
- `session.dfy` (module `Session`): the input tab's buttons as commands applied
  to an explicitly passed list, starting from no steps.

Capacity is a stored field. Steps created by Add store `resources / duration`.
The manufacturing preset stores the rounded literal `0.67` for Welding and
Testing, whose exact capacity is 2/3. `ConsistentCapacity` says when the two
agree.

Points worth knowing about the code:

- Remove by name drops every step with that name.
- Utilization is at most 100% for every step, because throughput is the minimum
  capacity.
- The manufacturing preset stores `0.67` for Welding and Testing.
- The secondary bottleneck comes from pandas' default sort, which is not
  guaranteed to be stable.

## Model

| member | source | states |
|---|---|---|
| Steps.AddStep | bottleneck_analyzer.py:102-109 | An empty name leaves the list unchanged. Otherwise exactly one step is appended at the end with the given name, duration and resources and capacity `resources / duration`; earlier steps are untouched. Valid lists stay valid. |
| Steps.RemoveByName | bottleneck_analyzer.py:173-175 | No step of the result has the removed name. A step is in the result iff it was in the list under another name. The result is never longer than the list. If the name is absent, the list is unchanged. Valid lists stay valid. |
| Steps.RemoveIdempotent | bottleneck_analyzer.py:174-175 | Removing the same name a second time changes nothing. |
| Steps.RemoveDistributes | bottleneck_analyzer.py:174-175 | Removing from a concatenation equals concatenating the removals. So the kept steps keep their original order. |
| Steps.RemoveUndoesAdd | bottleneck_analyzer.py:174-175 | Adding a step and then removing its name equals removing the name from the original list. |
| Steps.RemoveCommutesWithOtherAdd | bottleneck_analyzer.py:174-175 | Removing one name and adding a step with a different name can be done in either order. |
| Steps.Clear | bottleneck_analyzer.py:114-115 | Clear All leaves no steps. |
| Analysis.FirstMinIndex | bottleneck_analyzer.py:154 | For a non-empty capacity column, the index it returns (pandas `idxmin`) has capacity at most every entry's and strictly below every earlier entry's. |
| Analysis.FirstMinUnique | bottleneck_analyzer.py:154 | At most one position satisfies the first-minimum property. So the bottleneck is fully determined. |
| Analysis.Bottleneck | bottleneck_analyzer.py:186-188 | An empty list is the `EmptyModel` error. Otherwise the result is the first index of minimum capacity. |
| Analysis.Throughput | bottleneck_analyzer.py:187-189 | An empty list is the `EmptyModel` error. Otherwise throughput is at most every step's capacity and equals some step's capacity. |
| Analysis.ThroughputIsBottleneckCapacity | bottleneck_analyzer.py:188-189 | Throughput is the bottleneck step's capacity. |
| Analysis.HourlyThroughput | bottleneck_analyzer.py:208 | Hourly throughput divided by 60 is the per-minute throughput, and it exceeds a positive throughput. |
| Analysis.Utilization | bottleneck_analyzer.py:192 | Utilization times capacity is 100 times the throughput, so it is `throughput / capacity * 100`. It is positive for a positive throughput. |
| Analysis.UtilizationBounds | bottleneck_analyzer.py:192 | If 0 < throughput <= capacity, utilization lies in (0, 100] and equals 100 exactly when the capacity equals the throughput. |
| Analysis.UtilizationAntitone | bottleneck_analyzer.py:192 | A larger capacity never has a higher utilization. |
| Analysis.Utilizations | bottleneck_analyzer.py:191-192 | There is one entry per step, in list order. Entry i is step i's utilization at the system throughput, `throughput / capacity * 100`. Every entry lies in (0, 100]. An entry is 100 iff that step's capacity equals the throughput. The bottleneck's entry is 100. Entries fall as capacities rise. |
| Analysis.SumBounds | bottleneck_analyzer.py:212 | A sum of n values, each in (0, hi], lies in (0, n * hi]. |
| Analysis.AverageUtilization | bottleneck_analyzer.py:212 | The mean times the number of steps is the sum of the utilization column. The mean of a non-empty list lies in (0, 100]. |
| Analysis.MeanBounds | bottleneck_analyzer.py:212 | A total in (0, n * hi] over n >= 1 entries gives a mean in (0, hi], and the mean times n is the total. |
| Analysis.CycleTimeOf | bottleneck_analyzer.py:220 | Cycle time is infinite exactly when throughput is not positive. Otherwise it is positive and cycle time times throughput is 1. |
| Analysis.MaxHourlyOutput | bottleneck_analyzer.py:224 | Infinite cycle time gives no output. Otherwise output times cycle time is 60. |
| Analysis.MaxOutputIsHourlyThroughput | bottleneck_analyzer.py:224 | For positive throughput, the max output read back from the cycle time equals hourly throughput (`throughput * 60`). |
| Analysis.AddResourceProjection | bottleneck_analyzer.py:266 | One more resource gives a capacity strictly above `resources / duration`, larger by exactly `1 / duration`. |
| Analysis.ReduceTimeProjection | bottleneck_analyzer.py:267 | A 20% shorter processing time gives exactly 1.25 times `resources / duration`. With at least one resource this is strictly more. |
| Analysis.ProjectionsExceedThroughput | bottleneck_analyzer.py:266-267 | Take a valid list whose bottleneck stores its computed capacity. Either projection applied to the bottleneck gives more than the current throughput. |
| Analysis.SortedSecondIsCandidate | bottleneck_analyzer.py:273-275 | Take any permutation that orders the capacities ascending, with any tie-breaking. Its second entry has another step no larger than it, and at most one step strictly smaller. |
| Analysis.CandidatesShareCapacity | bottleneck_analyzer.py:273-275 | All positions a sort can put second have the same capacity. |
| Analysis.SecondaryBottleneck | bottleneck_analyzer.py:273-275 | It exists iff there are at least two steps; otherwise the result is `InsufficientSteps`. The chosen step is one a sort can put second. Its capacity is at least the throughput, which allows a tie with the primary. It is never the primary bottleneck itself. |
| Analysis.SecondaryMatchesAnySort | bottleneck_analyzer.py:273-275 | For any ascending sort of the capacities, the secondary's capacity equals the capacity of that sort's second entry. |
| Report.BandOf | bottleneck_analyzer.py:336-342 | Red iff utilization >= 90. Amber iff 70 <= utilization < 90. Green iff utilization < 70. |
| Report.BandMonotone | bottleneck_analyzer.py:251 | A higher utilization never gets a milder band. |
| Report.RedByCapacity | bottleneck_analyzer.py:337-338 | A step is red iff its capacity is at most 10/9 of the throughput. |
| Report.GreenByCapacity | bottleneck_analyzer.py:341-342 | A step is green iff its capacity exceeds 10/7 of the throughput. |
| Report.BottleneckIsRed | bottleneck_analyzer.py:251 | The bottleneck's utilization is exactly 100, and its band is red. |
| Report.StatusColumn | bottleneck_analyzer.py:155-156 | There is one status per step. A step is marked BOTTLENECK iff it is the first step of minimum capacity. |
| Report.ExactlyOneMarked | bottleneck_analyzer.py:155-156 | A non-empty step table marks exactly one step. |
| Report.ReportRows | bottleneck_analyzer.py:467-469 | There is one row per step, in list order, with that step's name, resources, duration and capacity. Its utilization is that step's entry of the utilization column, so it lies in (0, 100]. Exactly the bottleneck row has the BOTTLENECK status, and that row's utilization is 100 and red. |
| Templates.Manufacturing | bottleneck_analyzer.py:122-128 | The preset has five steps, and every step is valid. |
| Templates.Service | bottleneck_analyzer.py:133-139 | The preset has five steps, and every step is valid. |
| Templates.ManufacturingBottleneckIsWelding | bottleneck_analyzer.py:124-126 | The bottleneck is Welding (index 1). It ties Testing at 0.67 and wins as the earlier step. Throughput is 0.67. |
| Templates.ServiceBottleneckIsFoodPreparation | bottleneck_analyzer.py:135 | The bottleneck is Food Preparation (index 1), and throughput is 0.3. |
| Templates.ManufacturingSecondaryIsTesting | bottleneck_analyzer.py:273-275 | Every ascending sort of the manufacturing capacities puts a 0.67 step second, tied with the primary. The model's stable pick is Testing. |
| Templates.UnstableSortCanPutWeldingSecond | bottleneck_analyzer.py:273-275 | The order Testing, Welding, Assembly, Cutting, Packaging sorts the manufacturing capacities ascending and puts Welding, the primary bottleneck itself, second. |
| Templates.ServiceCapacitiesConsistent | bottleneck_analyzer.py:134-138 | Every service step stores capacity `resources / duration`. |
| Templates.ManufacturingCapacitiesRounded | bottleneck_analyzer.py:123-127 | Cutting, Assembly and Packaging store exact capacities. Welding and Testing store 0.67, while their exact capacity is 2/3. |
| Templates.WeldingProjections | bottleneck_analyzer.py:266-267 | On Welding, one more resource gives 1.0, and a 20% time cut gives 5/6. Both exceed the 0.67 throughput, although Welding's stored capacity is not its computed one. |
| Session.Apply | bottleneck_analyzer.py:102-141 | Every button press keeps a valid list valid. Loading a preset gives five valid steps. Clear All gives none. |
| Session.Run | bottleneck_analyzer.py:46-47 | Every list a session reaches from the empty start is valid. |
| Session.ReachableListsAnalyzable | bottleneck_analyzer.py:183-192 | Every reachable list has positive capacities. When such a list is non-empty, every utilization lies in (0, 100]. |
| Session.ClearThenQueryFails | bottleneck_analyzer.py:115 | After Clear All, the bottleneck and throughput queries are `EmptyModel` errors, and the secondary-bottleneck query is `InsufficientSteps`. |
| Session.LoadReplaces | bottleneck_analyzer.py:122-139 | Loading a preset gives the preset whatever the list held before. |

## Left out

- Streamlit page setup, CSS, tabs, forms, `st.rerun`, and the session-state
  global are user-interface plumbing. The step list is an explicit value. The
  unused `resources` session entry is not modelled.
- The Plotly capacity and utilization charts, the flow diagram and the two pie
  charts are presentation over library calls. Only the band colours of the
  utilization chart are modelled.
- The report's markdown prose and the CSV and markdown downloads are text
  templating and file I/O. Only the per-step rows and the single BOTTLENECK
  status are modelled.
- Number formatting (`:.3f`, `:.1f`) and the DataFrame `.round(...)` calls are
  display rounding. The model keeps exact values.
- Report.BandOf: it bands the exact utilization. The source bands the value
  after rounding to one decimal, so a utilization in [89.95, 90) or
  [69.95, 70) falls in the next band up there and not here.
- Analysis.AverageUtilization: it averages exact utilizations. The source
  averages the one-decimal rounded values, so the two means can differ by up
  to 0.05.
- The minimum and maximum shown beside the average utilization are not
  modelled separately. The maximum is 100, as Analysis.Utilizations states.
- Float arithmetic is modelled by exact `real` arithmetic, so binary
  representation error is not modelled.
- Analysis.SecondaryBottleneck: among tied steps it picks the one a stable sort
  would. The source's default pandas sort may pick another tied step,
  possibly the primary bottleneck itself. Only the properties every sort
  shares are claimed for the source. These are Analysis.SortedSecondIsCandidate
  and Analysis.SecondaryMatchesAnySort.
- The removal selector only offers names already in the list. Steps.RemoveByName
  accepts any name; an absent one leaves the list unchanged.
- Analysis.ProjectionsExceedThroughput: it requires the bottleneck to store its
  computed capacity. With an arbitrary stored capacity the projections need
  not exceed throughput. The manufacturing preset, whose bottleneck stores
  0.67 against 2/3, is covered separately by Templates.WeldingProjections.
- Steps.AddStep: its requires clause is the bounds the input widgets enforce
  (duration at least 0.1, at least one resource). It does not model input
  outside them.
