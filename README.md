# Sched_HW in Dafny

Sched_HW is a scheduling homework built on Google OR-Tools' CP-SAT solver. It
has two problems.

- **Job shop.** An order text file lists machines, tools, parts, tasks,
  task-machine alternatives, jobs and orders. `parse_orders.py` turns it into
  `JobScheduler` instances. `job_scheduler.py` compiles each instance into a
  CP-SAT model, level by level (`max_constraint` 0 to 7):
  - 1: at most one machine per task;
  - 2: no overlap on a machine;
  - 3: task order inside a job;
  - 4: all-or-nothing job completion;
  - 5 and 6: tool and part reservoirs, only when parts are in use;
  - 7: costs in the objective.

  The solver's answer is then decoded into a schedule: job name ↦ list of
  (machine, start, duration).
- **Greenhouse.** `greenhouse_scheduler.py` declares one Boolean per
  (behavior, time chunk). It dispatches the constraint builders by level,
  solves, and writes a schedule file with `HH:MM-HH:MM` labels.

`autograder.py` grades both problems:
- it checks a job-shop solution's shape;
- it pins the solution into a fresh reference model and calls it correct when the pinned model's solution is accepted and the student's objective equals the reference objective; a schedule decoded from any solution of the model, with the reference objective, is graded correct by any search that is sound (a reported solution satisfies the model) and complete (it reports a solution whenever one exists);
- for the greenhouse, it pins every (behavior, chunk) Boolean of a reference model to a student's schedule and scores a run by whether a solution was expected.

The Dafny project models these four files.

- `cp_sat.dfy` (`CpSat`): a CP-SAT model as a value, meaning declarations, constraints and an optional objective. It gives the meaning of each constraint kind under an integer assignment. The kinds are linear sums with enforcement literals, optional intervals, no-overlap and reservoirs with active literals. The solver is a parameter: a function from a model to a status and an assignment. `SoundSolver` says that a reported solution satisfies the model; `CompleteSolver` says that a solution is reported whenever the model has one.
- `domain.dfy` (`Domain`): the instance entities as datatypes, plus the key and prefix used to name variables.
- `job_spec.dfy` (`JobSpec`): the specification functions. They give the declarations and constraints each builder must add, the model at each level (`ModelAt`), and the decoded schedule (`Decode`).
- `job_scheduler.dfy` (`JobScheduling`): the class `JobScheduler`. Its fields (`model`, `starts`, `ends`, `scheduleds`, `intervals`) are updated by its methods. Each builder is a loop proved against `JobSpec`.
- `job_properties.dfy` (`JobProperties`): what an assignment that satisfies `ModelAt` means for the schedule, and how the levels nest.
- `parse_orders.dfy` (`ParseOrders`): line reading, attribute parsing, task-machine attachment, the sorted collections, and the construction of an order.
- `autograder.dfy` (`Autograder`): the grading logic.
- `greenhouse.dfy` (`Greenhouse`): the class `GreenhouseScheduler`, the horizon, the variable table and the schedule lines.
- `dicts.dfy`, `strings.dfy`, `seqs.dfy`, `wrappers.dfy`: the Python dictionaries, the string operations and the generic sequence facts the rest uses.

A Python dict in insertion order is a sequence of (key, value) pairs, and
assigning to a key keeps that key's position. A raised exception is an `Err`
of a `Result`.

## Model

| member | source | states |
|---|---|---|
| Domain.MakeKey | job_scheduler.py:97-98 | the key of an alternative is the (job, task, machine) name triple |
| Domain.PrefixSplits | job_scheduler.py:103-104 | when no name contains '-', splitting the `job-task-machine` prefix at '-' gives back the three names |
| Domain.PrefixDeterminesKey | job_scheduler.py:103-104 | when no name contains '-', two alternatives with the same variable-name prefix have the same key, so variable names never clash |
| JobScheduling.JobScheduler.constructor | job_scheduler.py:66-77 | stores the name, deadline, jobs, tasks, machines, parts, tools and both flags; the empty model (standing for `None`) and no variable tables |
| JobScheduling.JobScheduler.CreateModel | job_scheduler.py:108-118 | from a fresh model, the model afterwards is exactly `ModelAt(instance, level)`: the variables, then each constraint family whose level is reached (tools and parts only with `use_parts`), then the objective |
| JobScheduling.JobScheduler.CreateTaskLevelConstraints | job_scheduler.py:111-113 | adds the task, machine and ordering constraints for the levels reached and nothing else |
| JobScheduling.JobScheduler.CreateJobLevelConstraints | job_scheduler.py:114 | from level 4 on, adds one `started` Boolean per job and the completion constraints |
| JobScheduling.JobScheduler.CreateResourceConstraints | job_scheduler.py:115-117 | adds the tool reservoirs from level 5 and the part reservoirs from level 6, only when parts are in use |
| JobScheduling.JobScheduler.CreateJobTaskVariables | job_scheduler.py:126-149 | declares the cost in [0, 1000000], then start and end in [1, deadline], a Boolean and an optional interval for every alternative in job, task and machine order; afterwards the tables hold exactly those keys |
| JobScheduling.AltVariables | job_scheduler.py:137-149 | one alternative adds its three variables and its interval to the model and to the tables |
| JobScheduling.TaskVariables | job_scheduler.py:136-149 | the variables of every machine alternative of one task, in order |
| JobScheduling.JobVariables | job_scheduler.py:135-149 | the variables of every task of one job, in order |
| JobSpec.TablesOfCovered | job_scheduler.py:126-149 | the tables built for the instance are consistent and hold a key for every (job, task, machine) alternative |
| JobScheduling.JobScheduler.CreateTaskConstraints | job_scheduler.py:153-162 | adds `sum(scheduled) <= 1` for every task of every job, in order |
| JobScheduling.TaskFlagsOf | job_scheduler.py:158-161 | collects the Booleans of a task's alternatives in machine-list order |
| JobScheduling.AddJobTaskConstraints | job_scheduler.py:155-162 | adds one at-most-one constraint per task of a job |
| JobProperties.AtMostOneHolds | job_scheduler.py:153-162 | in every satisfying assignment from level 1 on, at most one alternative of each task is chosen |
| JobScheduling.JobScheduler.CreateMachineConstraints | job_scheduler.py:168-181 | adds one no-overlap constraint per machine over that machine's intervals, skipping machines with none |
| JobScheduling.MachineIntervals | job_scheduler.py:172-178 | gathers the intervals of every alternative on the machine, in job, task and machine order |
| JobScheduling.JobMachineIntervals | job_scheduler.py:174-178 | the same for the tasks of one job |
| JobScheduling.TaskMachineIntervals | job_scheduler.py:176-178 | the same for the alternatives of one task |
| JobProperties.MachineIvsEmpty | job_scheduler.py:172-181 | a machine's interval list is empty exactly when no alternative uses it, so the constraint is skipped exactly then |
| JobProperties.NoOverlapMeaning | job_scheduler.py:181 | two chosen alternatives in one no-overlap constraint do not overlap in time |
| JobProperties.NoOverlapHolds | job_scheduler.py:168-181 | in every satisfying assignment from level 2 on, two chosen alternatives on the same listed machine end before the other starts |
| JobScheduling.JobScheduler.CreateTaskOrderingConstraints | job_scheduler.py:189-198 | adds the ordering constraints of every job |
| JobScheduling.AddOrderingConstraints | job_scheduler.py:191-198 | for each job, consecutive task pair and pair of their alternatives, adds `end1 <= start2` enforced by both Booleans |
| JobScheduling.AddJobOrderingConstraints | job_scheduler.py:193-198 | the same for the consecutive pairs of one job |
| JobScheduling.AddPrecedencePair | job_scheduler.py:194-198 | the same for every pair of alternatives of two consecutive tasks |
| JobScheduling.AddPrecedenceRow | job_scheduler.py:195-198 | the same for one alternative of the first task against every alternative of the second |
| JobScheduling.PrecedenceOf | job_scheduler.py:196-198 | builds the enforced constraint `end(key1) <= start(key2)` from the tables |
| JobSpec.Consecutive | job_scheduler.py:193 | `zip(tasks, tasks[1:])`: one pair per adjacent pair of tasks |
| JobProperties.ShortJobUnordered | job_scheduler.py:193 | a job with fewer than two tasks adds no ordering constraint |
| JobProperties.PrecPairCount | job_scheduler.py:194-198 | two consecutive tasks add one constraint per pair of their alternatives |
| JobProperties.PrecedenceMeaning | job_scheduler.py:198 | when both alternatives are chosen, the first ends no later than the second starts |
| JobProperties.PrecedenceHolds | job_scheduler.py:189-198 | in every satisfying assignment from level 3 on, chosen alternatives of consecutive tasks are in order |
| JobScheduling.JobScheduler.CreateTaskCompletionConstraints | job_scheduler.py:207-225 | declares a `started` Boolean per job and adds, per task, `sum == 1` if started and `sum == 0` otherwise |
| JobScheduling.AddJobCompletionConstraints | job_scheduler.py:211-225 | the same for one job |
| JobProperties.StartedDecides | job_scheduler.py:217-225 | from level 4 on, a task has exactly one chosen alternative when its job is started and none otherwise |
| JobProperties.TaskSumsForce | job_scheduler.py:224-225 | in any model holding the two enforced sums, the chosen count of the task follows the `started` Boolean |
| JobProperties.AllOrNothing | job_scheduler.py:207-225 | from level 4 on, either every task of a job is chosen once or none is |
| JobScheduling.JobScheduler.CreateToolsConstraints | job_scheduler.py:233-266 | adds the tool reservoirs |
| JobScheduling.AddToolConstraints | job_scheduler.py:236-266 | adds, per tool with at least one event, one reservoir in [0, num] over that tool's events |
| JobScheduling.ToolReservoirLists | job_scheduler.py:237-257 | builds three aligned lists, times, changes and actives, that are exactly the tool's events |
| JobScheduling.AppendJobToolEvents | job_scheduler.py:242-257 | appends the events of every task of one job that needs the tool |
| JobScheduling.AppendTaskToolEvents | job_scheduler.py:245-257 | appends, for every alternative of the task, the tool's count of (start +1, end -1) pairs |
| JobScheduling.AppendToolPairs | job_scheduler.py:250-257 | appends `count` pairs of +1 at the start and -1 at the end, each active with the Boolean |
| JobScheduling.PushEvent | job_scheduler.py:251-257 | appending to the three lists appends one event, and they stay aligned |
| JobScheduling.ToolStep | job_scheduler.py:259-266 | a reservoir is added exactly when the lists are not empty |
| JobProperties.ToolPairsShape | job_scheduler.py:250-257 | `count` pairs are 2·count events on the key whose changes sum to 0 |
| JobProperties.ToolEventsShape | job_scheduler.py:241-257 | every tool event is +1 at a start or -1 at the matching end under the same Boolean, and the changes sum to 0 |
| JobProperties.ToolConsOnlyReservoirs | job_scheduler.py:236-266 | every tool constraint is the reservoir of a listed tool that has events |
| JobProperties.ReservoirMeaning | job_scheduler.py:260-266 | at the time of any active event, the reservoir level lies within its bounds |
| JobProperties.ToolLevelsBounded | job_scheduler.py:233-266 | from level 5 on with parts in use, at every active tool event no more than `num` copies are in use |
| JobScheduling.JobScheduler.CreatePartsConstraints | job_scheduler.py:277-312 | adds the part reservoirs |
| JobScheduling.AddPartConstraints | job_scheduler.py:280-312 | adds, per part with at least one event, one reservoir in [0, quantity] |
| JobScheduling.PartReservoirLists | job_scheduler.py:281-303 | builds three aligned lists that are exactly the part's events |
| JobScheduling.AppendJobPartEvents | job_scheduler.py:286-303 | appends the part events of every task of one job |
| JobScheduling.AppendTaskPartEvents | job_scheduler.py:287-303 | a task consuming the part adds its consumptions, and a parts task producing it adds its productions, in that order |
| JobScheduling.AppendTaskConsumes | job_scheduler.py:290-296 | per alternative, `count` events of +1 at the start |
| JobScheduling.AppendConsumes | job_scheduler.py:293-296 | `count` events of +1 at the start, active with the Boolean |
| JobScheduling.AppendTaskProduces | job_scheduler.py:298-303 | per alternative, one event of -quantity at the end |
| JobScheduling.PartStep | job_scheduler.py:305-312 | a part reservoir is added exactly when the lists are not empty |
| JobProperties.ConsumesShape | job_scheduler.py:293-296 | `count` identical +1 start events |
| JobProperties.ProduceEventsOfTmsShape | job_scheduler.py:298-303 | one guarded -quantity end event per alternative |
| JobProperties.PartLevelsBounded | job_scheduler.py:277-312 | from level 6 on with parts in use, at every active part event the level lies in [0, quantity] |
| JobProperties.ResourcesNeedParts | job_scheduler.py:115-117 | without `use_parts` no resource constraint is added, so levels 5 and 6 build exactly the level-4 model and every higher level differs from it only in the objective equation; with it, from level 6 on, both tool and part reservoirs are added |
| JobProperties.LevelMonotone | job_scheduler.py:108-118 | the model at a level is contained in the model at the next level (except 6 to 7 with costs, where the objective equation changes) |
| JobProperties.LevelSatisfies | job_scheduler.py:108-118 | an assignment satisfying a higher level satisfies every lower one, within the same objective equation |
| JobScheduling.JobScheduler.AddValues | job_scheduler.py:318-327 | declares `value` in [0, 1000000] and adds `value == sum(tm.value * scheduled)` over all alternatives |
| JobScheduling.AppendJobValues | job_scheduler.py:322-326 | appends the value terms of one job's alternatives in order |
| JobScheduling.AppendTaskValues | job_scheduler.py:324-326 | appends `tm.value * scheduled` for each alternative of a task |
| JobProperties.ValueConsMeaning | job_scheduler.py:327 | under the value constraint, `value` is the total value of the chosen alternatives |
| JobScheduling.JobScheduler.AddCosts | job_scheduler.py:332-335 | adds nothing to the model |
| JobScheduling.JobScheduler.AddOptimization | job_scheduler.py:337-346 | declares `objective` and `value`, adds the value equation, then `objective == value - cost` with costs in use and `add_costs`, else `objective == value`; maximises `objective` |
| JobProperties.ObjectiveConsMeaning | job_scheduler.py:341-345 | the objective equation gives value minus cost or value |
| JobProperties.ObjectiveMeaning | job_scheduler.py:337-346 | in every satisfying assignment, the objective is the chosen value, less the cost from level 7 on when costs are in use |
| JobScheduling.JobScheduler.Solve | job_scheduler.py:354-372 | infeasible gives no solution; otherwise the solution is `Decode(jobs, values)` |
| JobScheduling.JobEntriesOf | job_scheduler.py:362-369 | the (machine, start, duration) entries of a job's chosen alternatives, in task and machine order |
| JobScheduling.AppendTaskEntries | job_scheduler.py:363-369 | appends the entries of a task's chosen alternatives |
| JobScheduling.AltEntry | job_scheduler.py:365-369 | one entry when the Boolean is nonzero, none otherwise |
| JobProperties.EntriesOfEmpty | job_scheduler.py:362-370 | a job's entry list is empty exactly when none of its alternatives is chosen |
| JobProperties.EntriesOfMember | job_scheduler.py:366-369 | every chosen alternative gives an entry |
| JobProperties.EntriesOfOnly | job_scheduler.py:366-369 | every entry comes from a chosen alternative |
| JobProperties.DecodeKeys | job_scheduler.py:360-372 | with distinct job names, the solution's keys are the names of the jobs with a chosen alternative, in job order |
| JobProperties.DecodeGet | job_scheduler.py:370-371 | with distinct job names, a job maps to its entries when it has any and is absent otherwise |
| JobProperties.DecodeAbsent | job_scheduler.py:370-371 | a name that is no job's name is absent from the solution |
| ParseOrders.GetByName | parse_orders.py:3-6 | the first object with the name, or none when no object has it |
| ParseOrders.FindParam | parse_orders.py:32-36 | the first allowable parameter with the name, a bare name being a string parameter, or none |
| ParseOrders.ParseList | parse_orders.py:39-40 | an empty string gives none; otherwise pieces without commas whose comma join is the string |
| Strings.JoinSplit | parse_orders.py:40 | joining the pieces of a split gives back the string |
| Strings.SplitJoin | parse_orders.py:40 | splitting a join of separator-free pieces gives back the pieces |
| ParseOrders.FieldWithoutValue | parse_orders.py:20-21 | a parameter given without a value is converted from "True" (so a string parameter is "True" and a Boolean one is true); one with a value is converted from the value |
| ParseOrders.FillParams | parse_orders.py:15-23 | the loop over the fields equals the specification of filling the attributes, stopping at the first error |
| ParseOrders.FirstMissing | parse_orders.py:24-28 | finds the first required parameter that is absent |
| ParseOrders.MissingIndex | parse_orders.py:24-28 | the index of the first absent required parameter, or -1 when all are present |
| ParseOrders.ParseAttrs | parse_orders.py:14-29 | the result equals the specification `Attributes` |
| ParseOrders.AttributesMeaning | parse_orders.py:14-29 | on success, every field converted, every required parameter is present, the keys are exactly the field names, and each key holds its last field's value |
| ParseOrders.AttributesSucceed | parse_orders.py:14-29 | when every field converts and the required parameters are present, parsing succeeds |
| ParseOrders.UnknownParameterRaises | parse_orders.py:22-23 | a field whose name is not allowable makes parsing fail |
| ParseOrders.MissingParameterRaises | parse_orders.py:24-28 | a required parameter that no field names makes parsing fail |
| ParseOrders.Fields | parse_orders.py:149 | one field list per ';'-separated piece of the line with spaces removed, none of them empty |
| ParseOrders.FieldsMeaning | parse_orders.py:149 | the ';' pieces rejoin to the line without spaces; each piece's ':' parts rejoin to it and contain no space, ';' or ':' |
| ParseOrders.ReadLine | parse_orders.py:147-158 | one line's effect on the item dictionaries equals the specification `ParseLine` |
| ParseOrders.ReadLines | parse_orders.py:143-158 | starting from an empty dictionary per item type, the loop equals `ParseLines`, stopping at the first error |
| ParseOrders.CommentIgnored | parse_orders.py:147 | text after '#' has no effect |
| ParseOrders.BlankLineSkipped | parse_orders.py:147-148 | a line of blanks and newlines, with or without a comment, changes nothing |
| ParseOrders.UnknownItemRaises | parse_orders.py:152-158 | an item type not in the parameter table raises "Unknown item" |
| ParseOrders.LineRecord | parse_orders.py:150-156 | a parsed line stores the parsed attributes under its type and name, and every other entry is unchanged |
| Dicts.Put | parse_orders.py:156 | after `d[k] = v`, `k` maps to `v` and every other key keeps its value |
| Dicts.PutKeys | parse_orders.py:156 | a new key is appended at the end and an existing key keeps its place; distinct keys stay distinct |
| ParseOrders.ProcessTaskMachines | parse_orders.py:42-48 | attaches every task-machine record to its task, failing on a missing table, task or malformed name |
| ParseOrders.AddTaskMachineAppends | parse_orders.py:44-48 | one record appends (machine, duration, value) to its own task's list and leaves every other task's list alone |
| ParseOrders.AddTaskMachinesAppend | parse_orders.py:43-48 | each task's list grows by exactly its records' triples, in record order |
| ParseOrders.CollectTasks | parse_orders.py:50-55 | a strictly sorted list holding exactly the union of the jobs' task lists |
| ParseOrders.CollectTaskResources | parse_orders.py:57-69 | a strictly sorted list holding exactly the union of the tasks' part (or tool) lists, a missing list counting as empty |
| ParseOrders.CollectNames | parse_orders.py:50-69 | the shared loop: a sorted list of the union, or the lookup error of the first failing name |
| ParseOrders.CollectedMeaning | parse_orders.py:51-53 | the union holds exactly the names some listed record refers to |
| ParseOrders.SortedList | parse_orders.py:54 | `list(set)` then `sort()`: strictly increasing in Python's string order, with the same elements as the set |
| Strings.InsertSorted | parse_orders.py:54 | inserting keeps the list strictly sorted and adds exactly the element |
| ParseOrders.MachinesOf | parse_orders.py:73-74 | one machine per (name, energy) pair, in order |
| ParseOrders.PartsOf | parse_orders.py:75-76 | one part per (name, quantity, cost) triple, in order |
| ParseOrders.ToolsOf | parse_orders.py:77 | one tool per (name, num) pair, in order |
| ParseOrders.ResolveAll | parse_orders.py:84-88 | resolves every name, in order, or fails when one is unknown |
| ParseOrders.TaskMachinesFor | parse_orders.py:89-91 | one task machine per (machine, duration, value), carrying the resolved machine, or failure when a machine is unknown |
| ParseOrders.TaskOfMeaning | parse_orders.py:79-91 | a task entry builds exactly when its made part, tools, parts and machines resolve; the task is a parts task exactly when the entry has more than four fields, and it carries the named tools, parts and machines |
| ParseOrders.TasksOf | parse_orders.py:78-92 | one task per entry, in order |
| ParseOrders.BuildTasks | parse_orders.py:78-92 | the loop equals `TasksOf` |
| ParseOrders.JobsOf | parse_orders.py:93-94 | one job per (name, task names), whose tasks are the named tasks in order, or failure when one is unknown |
| ParseOrders.CreateOrder | parse_orders.py:71-96 | builds a fresh scheduler from the resolved machines, parts, tools, tasks and jobs exactly when every name resolves |
| Autograder.EntriesOk | autograder.py:145-147 | every entry names a listed machine, starts at 0 or later, and lasts at least 1 |
| Autograder.CheckSolutionSyntax | autograder.py:142-148 | true exactly when every job name is listed and every entry is valid |
| Autograder.DecodedSyntaxOk | autograder.py:142-148 | the decoding of any satisfying assignment passes the syntax check, when every alternative uses a listed machine and lasts at least 1 |
| Autograder.JSTest.constructor | autograder.py:59-64 | copies the name and cost flag, has no solution, and leaves the order's model equal to `ModelAt` at the level |
| Autograder.JSTest.Solve | autograder.py:66-92 | solved exactly when the answer is not infeasible, not empty and well formed; then it records the solution, objective, and value and cost when costs are in use |
| Autograder.SolvedAccepted | autograder.py:72-80 | with a sound solver that reports a solution, the test is solved exactly when some job is scheduled, and the stored objective is value minus cost when costs count |
| Autograder.ForceJob | autograder.py:115-120 | pins the i-th entry's Boolean, start and end under (job, i-th task, machine), failing on a missing key or an entry beyond the tasks |
| Autograder.ForceNamedJob | autograder.py:114-120 | looks the job up by name and forces its entries, failing on an unknown job |
| Autograder.ForceAll | autograder.py:113-120 | forces every job of the solution in order, and fails as soon as one job fails |
| Autograder.ForceSolution | autograder.py:111-120 | adds exactly the forcing constraints to the reference model, keeping its variables and objective |
| Autograder.ForceEntriesMeaning | autograder.py:115-120 | forcing succeeds exactly when every entry has a task and its three variables, and it is satisfied exactly when every entry is pinned |
| Autograder.ForcingSome | autograder.py:113-124 | forcing the solution succeeds exactly when forcing every job succeeds |
| Autograder.ForcingSatisfied | autograder.py:113-120 | the forcing constraints hold exactly when every job's pins hold |
| Autograder.IsScheduleCorrect | autograder.py:99-140 | correct exactly when forcing succeeds, the forced reference model is solved with an accepted answer, and the objective equals the reference's (`GradedCorrect`) |
| Autograder.AllChosen | job_scheduler.py:207-225 | from level 4 on, every task of a job with an entry is chosen exactly once |
| Autograder.JobEntriesIndexed | autograder.py:115-116 | when each task has one entry, the job's i-th entry is its i-th task's entry |
| Autograder.TaskEntryPinned | autograder.py:115-120 | a chosen task's single entry is found under its key, and the assignment satisfies its pins |
| Autograder.JobForced | autograder.py:114-120 | from level 4 on, a scheduled job's own entries force successfully and the assignment satisfies them |
| Autograder.ReferenceScheduleForced | autograder.py:113-120 | from level 4 on with distinct job names, the decoded schedule of any satisfying assignment can be forced, and the assignment satisfies it |
| Autograder.ForcedKeepsOptimum | autograder.py:110-134 | an optimal assignment stays feasible and optimal in the model forced with its own schedule, so the forced model has the reference optimum |
| Autograder.ReferenceScheduleGraded | autograder.py:110-134 | from level 4 on with distinct job names, listed machines and positive durations, a non-empty schedule decoded from any satisfying assignment whose objective equals the reference objective meets `GradedCorrect` under a sound and complete search: forcing does not raise, the forced model is solved, and its solution is non-empty and passes the syntax check |
| Autograder.RegisteredOk | autograder.py:181-187 | loading succeeds exactly when the order names are distinct |
| Autograder.RegisteredContents | autograder.py:181-187 | on success, the dictionary maps each order's name to the order, in order |
| Autograder.RegisteredErr | autograder.py:184-185 | on failure, the error names an order that occurs twice |
| Autograder.AddOrders | autograder.py:181-187 | the loop equals `Registered` |
| Autograder.IsOn | autograder.py:247-251 | true exactly when some (start, end) interval contains the chunk after floor division by the chunk length |
| Autograder.IsOnLabels | autograder.py:247-251 | for the half-hour intervals a schedule file lists, a chunk is on exactly when it was written |
| Autograder.ChunkPinsSatisfied | autograder.py:243-245 | pinning a behavior's chunks succeeds when its variables exist, and holds exactly when each chunk's Boolean equals `isOn` |
| Autograder.StudentPinsMeaning | autograder.py:239-245 | pinning succeeds exactly when every behavior has a schedule entry, and holds exactly when every behavior follows its schedule |
| Autograder.PinBehavior | autograder.py:243-245 | adds one pin per chunk of one behavior |
| Autograder.PinAll | autograder.py:241-245 | adds the pins of every behavior in order, and fails on the first missing schedule entry |
| Autograder.CreateStudentConstraints | autograder.py:239-245 | adds exactly the student pins to the reference model, keeping its variables and objective |
| Autograder.OwnScheduleConsistent | autograder.py:239-251 | a schedule written from an assignment's own active chunks pins to constraints that assignment satisfies |
| Autograder.GreenhouseScore | autograder.py:265-276 | 1 exactly when a non-empty solution was found and one was expected, or none was found and none was expected, and 0 otherwise |
| Autograder.EmptyScheduleIsNoSolution | autograder.py:265 | for either expectation, an empty schedule scores exactly as no solution at all |
| Greenhouse.FloorDiv | greenhouse_scheduler.py:25 | Python's `//`, rounding toward minus infinity |
| Greenhouse.Horizon | greenhouse_scheduler.py:25 | the number of whole chunks in a day of 1440 minutes |
| Greenhouse.WholeDayHorizon | greenhouse_scheduler.py:25 | for every chunk length dividing the day, the horizon's chunks cover the 1440 minutes exactly |
| Greenhouse.GreenhouseScheduler.constructor | greenhouse_scheduler.py:21-27 | stores the arguments and the horizon, and builds the model at `max_constraint` |
| Greenhouse.GreenhouseScheduler.CreateModel | greenhouse_scheduler.py:38-45 | a fresh model holding one Boolean per (behavior, chunk), after running the builders of levels 1 to `level` in order |
| Greenhouse.DispatchCumulative | greenhouse_scheduler.py:42-45 | builder k runs exactly when 1 <= k <= 4 and k <= level, so a higher level runs a superset |
| Greenhouse.GreenhouseScheduler.CreateVariables | greenhouse_scheduler.py:29-36 | appends the Booleans in behavior order, then chunk order, and makes the table map each (behavior, chunk) to its variable |
| Greenhouse.ActiveDeclsMeaning | greenhouse_scheduler.py:32-36 | |behaviors| × horizon declarations, exactly the 0/1 Booleans of listed behaviors and chunks in range, and distinct for distinct behaviors |
| Greenhouse.VarTableMeaning | greenhouse_scheduler.py:31-36 | the table's keys are exactly the (behavior, chunk) pairs in range, each mapped to its own variable |
| Greenhouse.GreenhouseScheduler.CreateDurationConstraints | greenhouse_scheduler.py:55-60 | the builder of level 1 runs |
| Greenhouse.GreenhouseScheduler.CreateMutualExclusiveConstraints | greenhouse_scheduler.py:78-82 | the builder of level 2 runs |
| Greenhouse.GreenhouseScheduler.CreateNightConstraints | greenhouse_scheduler.py:86-91 | the builder of level 3 runs |
| Greenhouse.GreenhouseScheduler.CreateSpacingConstraints | greenhouse_scheduler.py:100-105 | the builder of level 4 runs |
| Greenhouse.GreenhouseScheduler.Solve | greenhouse_scheduler.py:108-149 | infeasible gives none and writes nothing; otherwise it gives the (behavior index, chunk) pairs of the active Booleans and, when a file is set, writes their lines |
| Greenhouse.ActiveChunksMeaning | greenhouse_scheduler.py:128-129 | a behavior's chunks are exactly those in range whose Boolean is positive, in increasing order |
| Greenhouse.AssignedMeaning | greenhouse_scheduler.py:125-130 | the assigned pairs are exactly the (behavior index, chunk) pairs whose Boolean is positive |
| Greenhouse.ChunkStep | greenhouse_scheduler.py:128-139 | one chunk extends the chunk list, the pairs and the written lines exactly when its Boolean is positive |
| Greenhouse.BehaviorStep | greenhouse_scheduler.py:125-142 | one behavior appends its pairs and, when saving, its lines followed by a blank line |
| Greenhouse.ScheduleLinesLength | greenhouse_scheduler.py:125-141 | the file has one line per active chunk plus one blank line per behavior |
| Greenhouse.LabelClock | greenhouse_scheduler.py:134-139 | the `HH:MM` label of chunk t reads back as 30·t minutes |
| Greenhouse.DayLabels | greenhouse_scheduler.py:134-139 | over a half-hour day, the labels of chunk boundaries are strictly increasing clock times within 24 hours, and only the last boundary reads the full 24 hours |

## Left out

- The CP-SAT search. The solver is a parameter. Where a lemma needs it, its soundness is assumed (`SoundSolver`: a reported solution satisfies the model). For Autograder.ReferenceScheduleGraded only, its completeness is assumed as well (`CompleteSolver`: a model with a satisfying assignment is never reported infeasible). Without completeness, that lemma could not rule out an INCORRECT verdict for a correct schedule, because the search could report the forced model infeasible.
- The statuses `Unknown` and `ModelInvalid` are treated like a solution (not infeasible), as the source's `!= INFEASIBLE` tests do. Nothing is proved about their assignments.
- The `add_costs` body and the four greenhouse constraint builders are empty in the source. They add nothing here. The cost variable is therefore unconstrained from level 7 on, and the greenhouse builders only record which of them ran.
- JobScheduling.JobScheduler.CreateMachineConstraints: the source's objects are modelled as values, so machines are compared by name and figures rather than by identity (`Machine` defines no equality). A machine listed twice in an order therefore gets a second, identical no-overlap constraint here, where the source finds no interval bound to the second object and adds nothing for it. The solutions are the same; the constraint list is not.
- Variables are symbolic (start, end or Boolean of a key, a job's `started`, `cost`, `value`, `objective`). CP-SAT creates a fresh variable for each call instead. When two alternatives share a key, or two jobs share a name, the source's dictionaries keep only the last variable, and earlier ones become orphans. Here they share one variable.
- JobScheduling.JobScheduler.CreateModel: the source re-creates `CpModel()`. Here the model is reset to the empty model, and all variable tables are rebuilt.
- JobProperties.LevelMonotone: excludes the step from 6 to 7 with costs in use, because the objective equation changes there.
- Autograder.ReferenceScheduleForced and Autograder.ForcedKeepsOptimum: proved only from level 4 on. Below level 4, a job may have fewer entries than tasks, and the source pairs the idx-th entry with the idx-th task, so a reference schedule can be misattributed.
- Values read from the solver: `int(...)` of a value is the value, and every Boolean is read as 0 or 1 from its domain.
- Autograder.IsScheduleCorrect: the reference scheduler is built as the modelled JobScheduler. The source builds it from the class loaded with the reference solutions (autograder.py:104, 198), which is assumed to compile the same model.
- `visualize_solution.py`, plotting, `greenhouse_scheduler_ref.py`, `dill` loading of reference solutions, `argparse`, the test lists and point totals of the autograder driver, and all printing are not part of this model.
- `process_order` and `process_orders` (parse_orders.py:98-127) are not modelled. Their helpers `collect_tasks`, `collect_parts`, `collect_tools` and `create_order` are.
- File I/O. The order file is a sequence of lines. The schedule file is the sequence of lines `solve` writes. `sched.readSchedule` belongs to a module that is not part of this model, so `createStudentConstraints` takes the schedule dictionary as a parameter.
- `int()` on a parameter string is a parameter `toInt` that may fail. A failure is an error, as a `ValueError` would be.
- ParseOrders.CreateOrder: every name that `get` cannot resolve is an error when the order is built. The source fails at once only for an unknown machine (job_scheduler.py:54) or an unknown task of a job (its alternatives are read when the variables are created). An unknown tool, part or made part is stored as `None`. It is only read by the tool and parts constraints (job_scheduler.py:243, 287, 298), which run only with parts in use, from level 5 or 6 on. So the model rejects some orders the source accepts. An example is a made part that no task consumes, so it is missing from the collected parts.
- ParseOrders.ResolveAll: an unknown name is an error here. The source's `get` returns `None` for it, which fails only where the object is later read (see CreateOrder above).
- ParseOrders.TaskOf: fails on an unknown made part, tool or part. The source builds the task with `None` in that place (see CreateOrder above).
- ParseOrders.TaskOfMeaning: states the stricter behaviour of TaskOf, so a task that the source builds with a `None` tool, part or made part has no counterpart here.
- Greenhouse.GreenhouseScheduler.Solve: the assigned dictionary's float key `(i, i, t/2.)` becomes the pair (i, t). The verbose output and the optimal-length message are left out.
- Greenhouse.LabelClock and Autograder.IsOnLabels: stated for 30-minute chunks only. The label code divides by 2 whatever the chunk length is.
- Greenhouse.FloorDiv, Greenhouse.Horizon and Autograder.IsOn: require a nonzero chunk length, where Python would raise `ZeroDivisionError`.
