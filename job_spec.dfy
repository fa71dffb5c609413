/**
 * What the job-shop constraint compiler emits, as functions of the problem
 * instance. Each constraint family is the sequence of constraints the
 * corresponding builder appends, in the builder's loop order: over jobs, then
 * their tasks, then each task's machine alternatives. The builders in
 * `JobScheduling` are proved to append exactly these sequences.
 */
module JobSpec {
  import opened Wrappers
  import opened Dicts
  import opened CpSat
  import opened Domain

  /** The model's variables, named by what they stand for. */
  datatype Var =
    | Start(key: Key)
    | End(key: Key)
    | Scheduled(key: Key)
    | Started(job: string)
    | Cost
    | Value
    | Objective

  /** Upper bound of the cost, value and objective variables. */
  const Bound := 1000000

  /** The data a `JobScheduler` is built from. */
  datatype Instance = Instance(
    deadline: int, jobs: seq<Job>, machines: seq<Machine>, parts: seq<Part>, tools: seq<Tool>,
    useCosts: bool, useParts: bool)

  /** One (job, task, machine alternative) triple. */
  datatype Alt = Alt(job: Job, task: Task, tm: TaskMachine)

  function KeyOf(x: Alt): Key {
    MakeKey(x.job, x.task, x.tm.machine)
  }

  function IvOf(x: Alt): Interval<Var> {
    var k := KeyOf(x);
    Interval(Start(k), x.tm.duration, End(k), Scheduled(k))
  }

  // ---------------------------------------------------------------------
  // Enumeration of the alternatives in loop order

  function TmAlts(job: Job, task: Task, tms: seq<TaskMachine>): seq<Alt> {
    if tms == [] then [] else TmAlts(job, task, tms[..|tms| - 1]) + [Alt(job, task, tms[|tms| - 1])]
  }

  function TaskAlts(job: Job, ts: seq<Task>): seq<Alt> {
    if ts == [] then []
    else TaskAlts(job, ts[..|ts| - 1]) + TmAlts(job, ts[|ts| - 1], ts[|ts| - 1].taskMachines)
  }

  function Alts(js: seq<Job>): seq<Alt> {
    if js == [] then [] else Alts(js[..|js| - 1]) + TaskAlts(js[|js| - 1], js[|js| - 1].tasks)
  }

  lemma {:induction false} TmAltsMember(job: Job, task: Task, tms: seq<TaskMachine>, x: Alt)
    ensures x in TmAlts(job, task, tms) <==> x.job == job && x.task == task && x.tm in tms
  {
    if tms != [] {
      TmAltsMember(job, task, tms[..|tms| - 1], x);
      assert tms == tms[..|tms| - 1] + [tms[|tms| - 1]];
    }
  }

  lemma {:induction false} TaskAltsMember(job: Job, ts: seq<Task>, x: Alt)
    ensures x in TaskAlts(job, ts) <==> x.job == job && x.task in ts && x.tm in x.task.taskMachines
  {
    if ts != [] {
      TaskAltsMember(job, ts[..|ts| - 1], x);
      TmAltsMember(job, ts[|ts| - 1], ts[|ts| - 1].taskMachines, x);
      assert ts == ts[..|ts| - 1] + [ts[|ts| - 1]];
    }
  }

  /** The alternatives are exactly the triples the nested loops visit. */
  lemma {:induction false} AltsMember(js: seq<Job>, x: Alt)
    ensures x in Alts(js) <==> x.job in js && x.task in x.job.tasks && x.tm in x.task.taskMachines
  {
    if js != [] {
      AltsMember(js[..|js| - 1], x);
      TaskAltsMember(js[|js| - 1], js[|js| - 1].tasks, x);
      assert js == js[..|js| - 1] + [js[|js| - 1]];
    }
  }

  // ---------------------------------------------------------------------
  // Variables: create_job_task_variables

  function AltDecls(alts: seq<Alt>, deadline: int): seq<Decl<Var>> {
    if alts == [] then []
    else
      var k := KeyOf(alts[|alts| - 1]);
      AltDecls(alts[..|alts| - 1], deadline) + [Decl(Start(k), 1, deadline), Decl(End(k), 1, deadline), Decl(Scheduled(k), 0, 1)]
  }

  function IntervalCons(alts: seq<Alt>): seq<Constraint<Var>> {
    if alts == [] then [] else IntervalCons(alts[..|alts| - 1]) + [IntervalOf(IvOf(alts[|alts| - 1]))]
  }

  lemma {:induction false} AltDeclsAppend(a: seq<Alt>, b: seq<Alt>, deadline: int)
    ensures AltDecls(a + b, deadline) == AltDecls(a, deadline) + AltDecls(b, deadline)
  {
    if b != [] {
      AltDeclsAppend(a, b[..|b| - 1], deadline);
      assert (a + b)[..|a + b| - 1] == a + b[..|b| - 1];
    } else {
      assert a + b == a;
    }
  }

  lemma {:induction false} IntervalConsAppend(a: seq<Alt>, b: seq<Alt>)
    ensures IntervalCons(a + b) == IntervalCons(a) + IntervalCons(b)
  {
    if b != [] {
      IntervalConsAppend(a, b[..|b| - 1]);
      assert (a + b)[..|a + b| - 1] == a + b[..|b| - 1];
    } else {
      assert a + b == a;
    }
  }

  /** The four dictionaries `starts`, `ends`, `scheduleds` and `intervals`. */
  datatype Tables = Tables(
    starts: map<Key, Var>, ends: map<Key, Var>, scheds: map<Key, Var>, ivs: map<Key, Interval<Var>>)

  const NoTables := Tables(map[], map[], map[], map[])

  /** The entries create_job_task_variables writes for one alternative; an existing key is overwritten. */
  function AddAlt(t: Tables, x: Alt): Tables {
    var k := KeyOf(x);
    Tables(t.starts[k := Start(k)], t.ends[k := End(k)], t.scheds[k := Scheduled(k)], t.ivs[k := IvOf(x)])
  }

  function TablesOver(t: Tables, alts: seq<Alt>): Tables {
    if alts == [] then t else AddAlt(TablesOver(t, alts[..|alts| - 1]), alts[|alts| - 1])
  }

  /** The tables after create_job_task_variables visits `alts`. */
  function TablesOf(alts: seq<Alt>): Tables {
    TablesOver(NoTables, alts)
  }

  lemma {:induction false} TablesOverAppend(t: Tables, a: seq<Alt>, b: seq<Alt>)
    ensures TablesOver(t, a + b) == TablesOver(TablesOver(t, a), b)
  {
    if b != [] {
      TablesOverAppend(t, a, b[..|b| - 1]);
      assert (a + b)[..|a + b| - 1] == a + b[..|b| - 1];
    } else {
      assert a + b == a;
    }
  }

  /** Each table maps a key to that key's own variable. */
  ghost predicate StartTable(m: map<Key, Var>) {
    forall k :: k in m ==> m[k] == Start(k)
  }

  ghost predicate EndTable(m: map<Key, Var>) {
    forall k :: k in m ==> m[k] == End(k)
  }

  ghost predicate SchedTable(m: map<Key, Var>) {
    forall k :: k in m ==> m[k] == Scheduled(k)
  }

  ghost predicate IvTable(m: map<Key, Interval<Var>>) {
    forall k :: k in m ==> m[k].start == Start(k) && m[k].end == End(k) && m[k].present == Scheduled(k)
  }

  ghost predicate Consistent(t: Tables) {
    StartTable(t.starts) && EndTable(t.ends) && SchedTable(t.scheds) && IvTable(t.ivs)
  }

  ghost predicate HasKey(t: Tables, k: Key) {
    k in t.starts && k in t.ends && k in t.scheds && k in t.ivs
  }

  /** Every alternative of the task can be looked up in `m`. */
  ghost predicate TaskKeysIn<T>(m: map<Key, T>, job: Job, task: Task) {
    forall l :: 0 <= l < |task.taskMachines| ==> MakeKey(job, task, task.taskMachines[l].machine) in m
  }

  ghost predicate JobKeysIn<T>(m: map<Key, T>, job: Job) {
    forall j :: 0 <= j < |job.tasks| ==> TaskKeysIn(m, job, job.tasks[j])
  }

  ghost predicate KeysIn<T>(m: map<Key, T>, js: seq<Job>) {
    forall i :: 0 <= i < |js| ==> JobKeysIn(m, js[i])
  }

  lemma {:induction false} TablesOverConsistent(t: Tables, alts: seq<Alt>)
    requires Consistent(t)
    ensures Consistent(TablesOver(t, alts))
  {
    if alts != [] {
      TablesOverConsistent(t, alts[..|alts| - 1]);
    }
  }

  /** Every visited alternative's key is in all four tables. */
  lemma {:induction false} TablesOverKeys(t: Tables, alts: seq<Alt>)
    ensures forall x :: x in alts ==> HasKey(TablesOver(t, alts), KeyOf(x))
  {
    if alts != [] {
      TablesOverKeys(t, alts[..|alts| - 1]);
      assert alts == alts[..|alts| - 1] + [alts[|alts| - 1]];
    }
  }

  /** After the variables are created every key of the instance can be looked up. */
  lemma TablesOfCovered(js: seq<Job>)
    ensures Consistent(TablesOf(Alts(js)))
    ensures var t := TablesOf(Alts(js));
      KeysIn(t.starts, js) && KeysIn(t.ends, js) && KeysIn(t.scheds, js) && KeysIn(t.ivs, js)
  {
    TablesOverConsistent(NoTables, Alts(js));
    TablesOverKeys(NoTables, Alts(js));
    forall i, j, l | 0 <= i < |js| && 0 <= j < |js[i].tasks| && 0 <= l < |js[i].tasks[j].taskMachines|
      ensures HasKey(TablesOf(Alts(js)), MakeKey(js[i], js[i].tasks[j], js[i].tasks[j].taskMachines[l].machine))
    {
      AltsMember(js, Alt(js[i], js[i].tasks[j], js[i].tasks[j].taskMachines[l]));
    }
  }

  // ---------------------------------------------------------------------
  // Level 1: create_task_constraints

  function SchedVars(alts: seq<Alt>): seq<Var>
  {
    if alts == [] then [] else SchedVars(alts[..|alts| - 1]) + [Scheduled(KeyOf(alts[|alts| - 1]))]
  }

  function TaskFlags(job: Job, task: Task): seq<Var> {
    SchedVars(TmAlts(job, task, task.taskMachines))
  }

  /** `sum(flags of the task's alternatives) <= 1` */
  function AtMostOne(job: Job, task: Task): Constraint<Var> {
    Linear(Ones(TaskFlags(job, task)), Le, [], 1, [])
  }

  function TaskConsOfJob(job: Job, ts: seq<Task>): seq<Constraint<Var>> {
    if ts == [] then [] else TaskConsOfJob(job, ts[..|ts| - 1]) + [AtMostOne(job, ts[|ts| - 1])]
  }

  function TaskCons(js: seq<Job>): seq<Constraint<Var>> {
    if js == [] then [] else TaskCons(js[..|js| - 1]) + TaskConsOfJob(js[|js| - 1], js[|js| - 1].tasks)
  }

  // ---------------------------------------------------------------------
  // Level 2: create_machine_constraints

  /** The intervals of the alternatives bound to machine `m`, looked up in `ivs`. */
  function MachineIvs(m: Machine, alts: seq<Alt>, ivs: map<Key, Interval<Var>>): seq<Interval<Var>>
    requires forall x :: x in alts ==> KeyOf(x) in ivs
  {
    if alts == [] then []
    else
      var x := alts[|alts| - 1];
      assert x in alts;
      MachineIvs(m, alts[..|alts| - 1], ivs) + (if x.tm.machine == m then [ivs[KeyOf(x)]] else [])
  }

  lemma {:induction false} MachineIvsAppend(m: Machine, a: seq<Alt>, b: seq<Alt>, ivs: map<Key, Interval<Var>>)
    requires forall x :: x in a + b ==> KeyOf(x) in ivs
    ensures MachineIvs(m, a + b, ivs) == MachineIvs(m, a, ivs) + MachineIvs(m, b, ivs)
  {
    if b != [] {
      MachineIvsAppend(m, a, b[..|b| - 1], ivs);
      assert (a + b)[..|a + b| - 1] == a + b[..|b| - 1];
    } else {
      assert a + b == a;
    }
  }

  function MachineConsOver(ms: seq<Machine>, alts: seq<Alt>, ivs: map<Key, Interval<Var>>): seq<Constraint<Var>>
    requires forall x :: x in alts ==> KeyOf(x) in ivs
  {
    if ms == [] then []
    else
      var ivl := MachineIvs(ms[|ms| - 1], alts, ivs);
      MachineConsOver(ms[..|ms| - 1], alts, ivs) + (if ivl != [] then [NoOverlap(ivl)] else [])
  }

  /** The intervals create_machine_constraints collects for machine `m` once the variables exist. */
  function MachineIvsOf(m: Machine, alts: seq<Alt>): seq<Interval<Var>> {
    TablesOverKeys(NoTables, alts);
    MachineIvs(m, alts, TablesOf(alts).ivs)
  }

  /** One no-overlap constraint per machine that some alternative uses, over the interval table. */
  function MachineCons(ms: seq<Machine>, js: seq<Job>): seq<Constraint<Var>> {
    var alts := Alts(js);
    TablesOverKeys(NoTables, alts);
    MachineConsOver(ms, alts, TablesOf(alts).ivs)
  }

  // ---------------------------------------------------------------------
  // Level 3: create_task_ordering_constraints

  /** `end(t1 on tm1) <= start(t2 on tm2)`, enforced when both are scheduled. */
  function Precedence(job: Job, t1: Task, tm1: TaskMachine, t2: Task, tm2: TaskMachine): Constraint<Var> {
    var k1 := MakeKey(job, t1, tm1.machine);
    var k2 := MakeKey(job, t2, tm2.machine);
    Linear([Term(1, End(k1))], Le, [Term(1, Start(k2))], 0, [Pos(Scheduled(k1)), Pos(Scheduled(k2))])
  }

  function PrecRow(job: Job, t1: Task, tm1: TaskMachine, t2: Task, tm2s: seq<TaskMachine>): seq<Constraint<Var>> {
    if tm2s == [] then []
    else PrecRow(job, t1, tm1, t2, tm2s[..|tm2s| - 1]) + [Precedence(job, t1, tm1, t2, tm2s[|tm2s| - 1])]
  }

  function PrecPair(job: Job, t1: Task, tm1s: seq<TaskMachine>, t2: Task): seq<Constraint<Var>> {
    if tm1s == [] then []
    else PrecPair(job, t1, tm1s[..|tm1s| - 1], t2) + PrecRow(job, t1, tm1s[|tm1s| - 1], t2, t2.taskMachines)
  }

  /** `zip(ts, ts[1:])` */
  function Consecutive(ts: seq<Task>): (r: seq<(Task, Task)>)
    ensures |r| == if |ts| < 2 then 0 else |ts| - 1
    ensures forall i :: 0 <= i < |r| ==> r[i] == (ts[i], ts[i + 1])
  {
    if |ts| < 2 then [] else seq(|ts| - 1, i requires 0 <= i < |ts| - 1 => (ts[i], ts[i + 1]))
  }

  function OrderConsOfPairs(job: Job, ps: seq<(Task, Task)>): seq<Constraint<Var>> {
    if ps == [] then []
    else
      var p := ps[|ps| - 1];
      OrderConsOfPairs(job, ps[..|ps| - 1]) + PrecPair(job, p.0, p.0.taskMachines, p.1)
  }

  function OrderCons(js: seq<Job>): seq<Constraint<Var>> {
    if js == [] then []
    else OrderCons(js[..|js| - 1]) + OrderConsOfPairs(js[|js| - 1], Consecutive(js[|js| - 1].tasks))
  }

  // ---------------------------------------------------------------------
  // Level 4: create_task_completion_constraints

  /** `sum(flags of the task's alternatives) == rhs`, enforced by `lit`. */
  function TaskSum(job: Job, task: Task, rhs: int, lit: Lit<Var>): Constraint<Var> {
    Linear(Ones(TaskFlags(job, task)), Eq, [], rhs, [lit])
  }

  function CompletionConsOfJob(job: Job, ts: seq<Task>): seq<Constraint<Var>> {
    if ts == [] then []
    else
      var t := ts[|ts| - 1];
      CompletionConsOfJob(job, ts[..|ts| - 1])
        + [TaskSum(job, t, 1, Pos(Started(job.name))), TaskSum(job, t, 0, Neg(Started(job.name)))]
  }

  function CompletionCons(js: seq<Job>): seq<Constraint<Var>> {
    if js == [] then [] else CompletionCons(js[..|js| - 1]) + CompletionConsOfJob(js[|js| - 1], js[|js| - 1].tasks)
  }

  function StartedDecls(js: seq<Job>): seq<Decl<Var>> {
    if js == [] then [] else StartedDecls(js[..|js| - 1]) + [Decl(Started(js[|js| - 1].name), 0, 1)]
  }

  // ---------------------------------------------------------------------
  // Levels 5 and 6: reservoirs

  /** One entry of the three aligned lists `times`, `level_changes`, `actives`. */
  datatype Event = Event(time: Var, change: int, active: Var)

  function Times(es: seq<Event>): (r: seq<Var>)
    ensures |r| == |es|
  {
    if es == [] then [] else Times(es[..|es| - 1]) + [es[|es| - 1].time]
  }

  function Changes(es: seq<Event>): (r: seq<int>)
    ensures |r| == |es|
  {
    if es == [] then [] else Changes(es[..|es| - 1]) + [es[|es| - 1].change]
  }

  function Actives(es: seq<Event>): (r: seq<Var>)
    ensures |r| == |es|
  {
    if es == [] then [] else Actives(es[..|es| - 1]) + [es[|es| - 1].active]
  }

  /** The three aligned lists a reservoir is built from hold the times, changes and flags of the events `es`, in order. */
  ghost predicate EventLists(times: seq<Var>, changes: seq<int>, actives: seq<Var>, es: seq<Event>) {
    times == Times(es) && changes == Changes(es) && actives == Actives(es)
  }

  lemma EventListsSnoc(es: seq<Event>, e: Event)
    ensures Times(es + [e]) == Times(es) + [e.time]
    ensures Changes(es + [e]) == Changes(es) + [e.change]
    ensures Actives(es + [e]) == Actives(es) + [e.active]
  {
    assert (es + [e])[..|es|] == es;
  }

  function ReservoirOf(es: seq<Event>, hi: int): Constraint<Var> {
    Reservoir(Times(es), Changes(es), Actives(es), 0, hi)
  }

  /** `c` copies of: take one unit at the start, give it back at the end. */
  function ToolPairs(k: Key, c: nat): seq<Event> {
    if c == 0 then []
    else ToolPairs(k, c - 1) + [Event(Start(k), 1, Scheduled(k)), Event(End(k), -1, Scheduled(k))]
  }

  function ToolEventsOfTms(job: Job, task: Task, tms: seq<TaskMachine>, c: nat): seq<Event> {
    if tms == [] then []
    else ToolEventsOfTms(job, task, tms[..|tms| - 1], c) + ToolPairs(MakeKey(job, task, tms[|tms| - 1].machine), c)
  }

  function ToolEventsOfTask(tool: Tool, job: Job, task: Task): seq<Event> {
    var names := ToolNames(task.tools);
    if tool.name in names then ToolEventsOfTms(job, task, task.taskMachines, Count(names, tool.name)) else []
  }

  function ToolEventsOfJob(tool: Tool, job: Job, ts: seq<Task>): seq<Event> {
    if ts == [] then [] else ToolEventsOfJob(tool, job, ts[..|ts| - 1]) + ToolEventsOfTask(tool, job, ts[|ts| - 1])
  }

  function ToolEvents(tool: Tool, js: seq<Job>): seq<Event> {
    if js == [] then [] else ToolEvents(tool, js[..|js| - 1]) + ToolEventsOfJob(tool, js[|js| - 1], js[|js| - 1].tasks)
  }

  function ToolCons(tools: seq<Tool>, js: seq<Job>): seq<Constraint<Var>> {
    if tools == [] then []
    else
      var tool := tools[|tools| - 1];
      var es := ToolEvents(tool, js);
      ToolCons(tools[..|tools| - 1], js) + (if es != [] then [ReservoirOf(es, tool.num)] else [])
  }

  /** `c` units of the part taken at the start. */
  function Consumes(k: Key, c: nat): seq<Event> {
    if c == 0 then [] else Consumes(k, c - 1) + [Event(Start(k), 1, Scheduled(k))]
  }

  function ConsumeEventsOfTms(job: Job, task: Task, tms: seq<TaskMachine>, c: nat): seq<Event> {
    if tms == [] then []
    else ConsumeEventsOfTms(job, task, tms[..|tms| - 1], c) + Consumes(MakeKey(job, task, tms[|tms| - 1].machine), c)
  }

  /** `quantity` units of the part given back at the end. */
  function ProduceEventsOfTms(job: Job, task: Task, tms: seq<TaskMachine>, quantity: int): seq<Event> {
    if tms == [] then []
    else
      var k := MakeKey(job, task, tms[|tms| - 1].machine);
      ProduceEventsOfTms(job, task, tms[..|tms| - 1], quantity) + [Event(End(k), -quantity, Scheduled(k))]
  }

  predicate Produces(task: Task, part: Part) {
    IsPartsTask(task) && part.name == task.producedPart.name
  }

  function PartEventsOfTask(part: Part, job: Job, task: Task): seq<Event> {
    var names := PartNames(task.parts);
    (if part.name in names then ConsumeEventsOfTms(job, task, task.taskMachines, Count(names, part.name)) else [])
    + (if Produces(task, part) then ProduceEventsOfTms(job, task, task.taskMachines, task.quantity) else [])
  }

  function PartEventsOfJob(part: Part, job: Job, ts: seq<Task>): seq<Event> {
    if ts == [] then [] else PartEventsOfJob(part, job, ts[..|ts| - 1]) + PartEventsOfTask(part, job, ts[|ts| - 1])
  }

  function PartEvents(part: Part, js: seq<Job>): seq<Event> {
    if js == [] then [] else PartEvents(part, js[..|js| - 1]) + PartEventsOfJob(part, js[|js| - 1], js[|js| - 1].tasks)
  }

  function PartCons(parts: seq<Part>, js: seq<Job>): seq<Constraint<Var>> {
    if parts == [] then []
    else
      var part := parts[|parts| - 1];
      var es := PartEvents(part, js);
      PartCons(parts[..|parts| - 1], js) + (if es != [] then [ReservoirOf(es, part.quantity)] else [])
  }

  // ---------------------------------------------------------------------
  // Objective: add_values, add_optimization

  function ValueTerms(alts: seq<Alt>): seq<Term<Var>> {
    if alts == [] then []
    else
      var x := alts[|alts| - 1];
      ValueTerms(alts[..|alts| - 1]) + [Term(x.tm.value, Scheduled(KeyOf(x)))]
  }

  lemma {:induction false} ValueTermsAppend(a: seq<Alt>, b: seq<Alt>)
    ensures ValueTerms(a + b) == ValueTerms(a) + ValueTerms(b)
  {
    if b != [] {
      ValueTermsAppend(a, b[..|b| - 1]);
      assert (a + b)[..|a + b| - 1] == a + b[..|b| - 1];
    } else {
      assert a + b == a;
    }
  }

  /** `value == sum(tm.value * flag)` */
  function ValueCons(alts: seq<Alt>): Constraint<Var> {
    Linear([Term(1, Value)], Eq, ValueTerms(alts), 0, [])
  }

  /** `objective == value - cost` when costs count, `objective == value` otherwise. */
  function ObjectiveCons(withCost: bool): Constraint<Var> {
    if withCost then Linear([Term(1, Objective)], Eq, [Term(1, Value), Term(-1, Cost)], 0, [])
    else Linear([Term(1, Objective)], Eq, [Term(1, Value)], 0, [])
  }

  // ---------------------------------------------------------------------
  // The whole model: create_model(level)

  function DeclsAt(inst: Instance, level: int): seq<Decl<Var>> {
    [Decl(Cost, 0, Bound)] + AltDecls(Alts(inst.jobs), inst.deadline)
    + (if level >= 4 then StartedDecls(inst.jobs) else [])
    + [Decl(Objective, 0, Bound), Decl(Value, 0, Bound)]
  }

  /** Levels 1 and 2: each task at most once, no overlap on a machine. */
  function TaskLevelCons(inst: Instance, level: int): seq<Constraint<Var>> {
    (if level >= 1 then TaskCons(inst.jobs) else [])
    + (if level >= 2 then MachineCons(inst.machines, inst.jobs) else [])
  }

  /** Levels 3 and 4: tasks in order, all of a job or nothing. */
  function JobLevelCons(inst: Instance, level: int): seq<Constraint<Var>> {
    (if level >= 3 then OrderCons(inst.jobs) else [])
    + (if level >= 4 then CompletionCons(inst.jobs) else [])
  }

  /** Levels 5 and 6, present only when parts are in use: tool and part reservoirs. */
  function ResourceCons(inst: Instance, level: int): seq<Constraint<Var>> {
    if inst.useParts then
      (if level >= 5 then ToolCons(inst.tools, inst.jobs) else [])
      + (if level >= 6 then PartCons(inst.parts, inst.jobs) else [])
    else []
  }

  function ConstraintsAt(inst: Instance, level: int): seq<Constraint<Var>> {
    IntervalCons(Alts(inst.jobs))
    + TaskLevelCons(inst, level) + JobLevelCons(inst, level) + ResourceCons(inst, level)
    + [ValueCons(Alts(inst.jobs)), ObjectiveCons(inst.useCosts && level >= 7)]
  }

  function ModelAt(inst: Instance, level: int): Model<Var> {
    Model(DeclsAt(inst, level), ConstraintsAt(inst, level), Some(Objective))
  }

  // ---------------------------------------------------------------------
  // Decoding: the loop of solve()

  /** `(machine name, start, duration)` */
  datatype Entry = Entry(machine: string, start: int, duration: int)

  /** job name -> its scheduled alternatives, in the order jobs were decoded */
  type Solution = Dict<string, seq<Entry>>

  function EntryOf(x: Alt, a: Var -> int): Entry {
    Entry(x.tm.machine.name, a(Start(KeyOf(x))), x.tm.duration)
  }

  /** The entries of the alternatives whose flag is set, in order. */
  function EntriesOf(alts: seq<Alt>, a: Var -> int): seq<Entry> {
    if alts == [] then []
    else
      var x := alts[|alts| - 1];
      EntriesOf(alts[..|alts| - 1], a) + (if a(Scheduled(KeyOf(x))) != 0 then [EntryOf(x, a)] else [])
  }

  lemma {:induction false} EntriesOfAppend(a: seq<Alt>, b: seq<Alt>, v: Var -> int)
    ensures EntriesOf(a + b, v) == EntriesOf(a, v) + EntriesOf(b, v)
  {
    if b != [] {
      EntriesOfAppend(a, b[..|b| - 1], v);
      assert (a + b)[..|a + b| - 1] == a + b[..|b| - 1];
    } else {
      assert a + b == a;
    }
  }

  function JobEntries(job: Job, a: Var -> int): seq<Entry> {
    EntriesOf(TaskAlts(job, job.tasks), a)
  }

  function Decode(js: seq<Job>, a: Var -> int): Solution {
    if js == [] then []
    else
      var job := js[|js| - 1];
      var es := JobEntries(job, a);
      var d := Decode(js[..|js| - 1], a);
      if |es| > 0 then Put(d, job.name, es) else d
  }

  // ---------------------------------------------------------------------
  // One step of each builder loop: the function over a one-longer prefix

  lemma TmAltsPrefix(job: Job, task: Task, tms: seq<TaskMachine>, l: int)
    requires 0 <= l < |tms|
    ensures TmAlts(job, task, tms[..l + 1]) == TmAlts(job, task, tms[..l]) + [Alt(job, task, tms[l])]
  {
    assert tms[..l + 1][..l] == tms[..l];
  }

  lemma TaskAltsPrefix(job: Job, ts: seq<Task>, j: int)
    requires 0 <= j < |ts|
    ensures TaskAlts(job, ts[..j + 1]) == TaskAlts(job, ts[..j]) + TmAlts(job, ts[j], ts[j].taskMachines)
  {
    assert ts[..j + 1][..j] == ts[..j];
  }

  lemma AltsPrefix(js: seq<Job>, i: int)
    requires 0 <= i < |js|
    ensures Alts(js[..i + 1]) == Alts(js[..i]) + TaskAlts(js[i], js[i].tasks)
  {
    assert js[..i + 1][..i] == js[..i];
  }

  lemma AltSnoc(t: Tables, alts: seq<Alt>, x: Alt, deadline: int)
    ensures TablesOver(t, alts + [x]) == AddAlt(TablesOver(t, alts), x)
    ensures AltDecls(alts + [x], deadline)
         == AltDecls(alts, deadline) + [Decl(Start(KeyOf(x)), 1, deadline), Decl(End(KeyOf(x)), 1, deadline), Decl(Scheduled(KeyOf(x)), 0, 1)]
    ensures IntervalCons(alts + [x]) == IntervalCons(alts) + [IntervalOf(IvOf(x))]
  {
    assert (alts + [x])[..|alts|] == alts;
  }

  lemma SchedVarsSnoc(alts: seq<Alt>, x: Alt)
    ensures SchedVars(alts + [x]) == SchedVars(alts) + [Scheduled(KeyOf(x))]
  {
    assert (alts + [x])[..|alts|] == alts;
  }

  lemma TaskConsOfJobPrefix(job: Job, ts: seq<Task>, j: int)
    requires 0 <= j < |ts|
    ensures TaskConsOfJob(job, ts[..j + 1]) == TaskConsOfJob(job, ts[..j]) + [AtMostOne(job, ts[j])]
  {
    assert ts[..j + 1][..j] == ts[..j];
  }

  lemma TaskConsPrefix(js: seq<Job>, i: int)
    requires 0 <= i < |js|
    ensures TaskCons(js[..i + 1]) == TaskCons(js[..i]) + TaskConsOfJob(js[i], js[i].tasks)
  {
    assert js[..i + 1][..i] == js[..i];
  }

  lemma MachineIvsSnoc(m: Machine, alts: seq<Alt>, x: Alt, ivs: map<Key, Interval<Var>>)
    requires forall y :: y in alts + [x] ==> KeyOf(y) in ivs
    ensures MachineIvs(m, alts + [x], ivs) == MachineIvs(m, alts, ivs) + (if x.tm.machine == m then [ivs[KeyOf(x)]] else [])
  {
    assert (alts + [x])[..|alts|] == alts;
  }

  lemma MachineConsPrefix(ms: seq<Machine>, k: int, alts: seq<Alt>, ivs: map<Key, Interval<Var>>)
    requires 0 <= k < |ms|
    requires forall x :: x in alts ==> KeyOf(x) in ivs
    ensures var ivl := MachineIvs(ms[k], alts, ivs);
      MachineConsOver(ms[..k + 1], alts, ivs) == MachineConsOver(ms[..k], alts, ivs) + (if ivl != [] then [NoOverlap(ivl)] else [])
  {
    assert ms[..k + 1][..k] == ms[..k];
  }

  lemma PrecRowPrefix(job: Job, t1: Task, tm1: TaskMachine, t2: Task, tm2s: seq<TaskMachine>, r: int)
    requires 0 <= r < |tm2s|
    ensures PrecRow(job, t1, tm1, t2, tm2s[..r + 1]) == PrecRow(job, t1, tm1, t2, tm2s[..r]) + [Precedence(job, t1, tm1, t2, tm2s[r])]
  {
    assert tm2s[..r + 1][..r] == tm2s[..r];
  }

  /** One more precedence in a row extends the model built so far by that constraint. */
  lemma PrecRowStep(m2: Model<Var>, m1: Model<Var>, m0: Model<Var>, job: Job, t1: Task, tm1: TaskMachine, t2: Task, tm2s: seq<TaskMachine>, r: int)
    requires 0 <= r < |tm2s|
    requires Extends(m1, m0, [], PrecRow(job, t1, tm1, t2, tm2s[..r]))
    requires m2 == Add(m1, Precedence(job, t1, tm1, t2, tm2s[r]))
    ensures Extends(m2, m0, [], PrecRow(job, t1, tm1, t2, tm2s[..r + 1]))
  {
    PrecRowPrefix(job, t1, tm1, t2, tm2s, r);
    ExtendsTrans(m2, m1, m0, [], PrecRow(job, t1, tm1, t2, tm2s[..r]), [], [Precedence(job, t1, tm1, t2, tm2s[r])]);
  }

  lemma PrecPairPrefix(job: Job, t1: Task, tm1s: seq<TaskMachine>, t2: Task, q: int)
    requires 0 <= q < |tm1s|
    ensures PrecPair(job, t1, tm1s[..q + 1], t2) == PrecPair(job, t1, tm1s[..q], t2) + PrecRow(job, t1, tm1s[q], t2, t2.taskMachines)
  {
    assert tm1s[..q + 1][..q] == tm1s[..q];
  }

  lemma OrderConsOfPairsPrefix(job: Job, ps: seq<(Task, Task)>, p: int)
    requires 0 <= p < |ps|
    ensures OrderConsOfPairs(job, ps[..p + 1]) == OrderConsOfPairs(job, ps[..p]) + PrecPair(job, ps[p].0, ps[p].0.taskMachines, ps[p].1)
  {
    assert ps[..p + 1][..p] == ps[..p];
  }

  lemma OrderConsPrefix(js: seq<Job>, i: int)
    requires 0 <= i < |js|
    ensures OrderCons(js[..i + 1]) == OrderCons(js[..i]) + OrderConsOfPairs(js[i], Consecutive(js[i].tasks))
  {
    assert js[..i + 1][..i] == js[..i];
  }

  lemma CompletionConsOfJobPrefix(job: Job, ts: seq<Task>, j: int)
    requires 0 <= j < |ts|
    ensures CompletionConsOfJob(job, ts[..j + 1])
         == CompletionConsOfJob(job, ts[..j]) + [TaskSum(job, ts[j], 1, Pos(Started(job.name))), TaskSum(job, ts[j], 0, Neg(Started(job.name)))]
  {
    assert ts[..j + 1][..j] == ts[..j];
  }

  lemma CompletionConsPrefix(js: seq<Job>, i: int)
    requires 0 <= i < |js|
    ensures CompletionCons(js[..i + 1]) == CompletionCons(js[..i]) + CompletionConsOfJob(js[i], js[i].tasks)
    ensures StartedDecls(js[..i + 1]) == StartedDecls(js[..i]) + [Decl(Started(js[i].name), 0, 1)]
  {
    assert js[..i + 1][..i] == js[..i];
  }

  lemma ToolEventsOfTmsPrefix(job: Job, task: Task, tms: seq<TaskMachine>, c: nat, l: int)
    requires 0 <= l < |tms|
    ensures ToolEventsOfTms(job, task, tms[..l + 1], c) == ToolEventsOfTms(job, task, tms[..l], c) + ToolPairs(MakeKey(job, task, tms[l].machine), c)
  {
    assert tms[..l + 1][..l] == tms[..l];
  }

  /** Appending one alternative's pairs extends the events of the alternatives so far. */
  lemma ToolTmsStep(es: seq<Event>, e1: seq<Event>, job: Job, task: Task, tms: seq<TaskMachine>, c: nat, l: int)
    requires 0 <= l < |tms|
    requires e1 == es + ToolEventsOfTms(job, task, tms[..l], c)
    ensures e1 + ToolPairs(MakeKey(job, task, tms[l].machine), c) == es + ToolEventsOfTms(job, task, tms[..l + 1], c)
  {
    ToolEventsOfTmsPrefix(job, task, tms, c, l);
    AppendAssoc(es, ToolEventsOfTms(job, task, tms[..l], c), ToolPairs(MakeKey(job, task, tms[l].machine), c));
  }

  lemma ToolEventsOfJobPrefix(tool: Tool, job: Job, ts: seq<Task>, j: int)
    requires 0 <= j < |ts|
    ensures ToolEventsOfJob(tool, job, ts[..j + 1]) == ToolEventsOfJob(tool, job, ts[..j]) + ToolEventsOfTask(tool, job, ts[j])
  {
    assert ts[..j + 1][..j] == ts[..j];
  }

  lemma ToolEventsPrefix(tool: Tool, js: seq<Job>, i: int)
    requires 0 <= i < |js|
    ensures ToolEvents(tool, js[..i + 1]) == ToolEvents(tool, js[..i]) + ToolEventsOfJob(tool, js[i], js[i].tasks)
  {
    assert js[..i + 1][..i] == js[..i];
  }

  lemma ToolConsPrefix(tools: seq<Tool>, k: int, js: seq<Job>)
    requires 0 <= k < |tools|
    ensures var es := ToolEvents(tools[k], js);
      ToolCons(tools[..k + 1], js) == ToolCons(tools[..k], js) + (if es != [] then [ReservoirOf(es, tools[k].num)] else [])
  {
    assert tools[..k + 1][..k] == tools[..k];
  }

  lemma ConsumeEventsOfTmsPrefix(job: Job, task: Task, tms: seq<TaskMachine>, c: nat, l: int)
    requires 0 <= l < |tms|
    ensures ConsumeEventsOfTms(job, task, tms[..l + 1], c) == ConsumeEventsOfTms(job, task, tms[..l], c) + Consumes(MakeKey(job, task, tms[l].machine), c)
  {
    assert tms[..l + 1][..l] == tms[..l];
  }

  lemma ProduceEventsOfTmsPrefix(job: Job, task: Task, tms: seq<TaskMachine>, q: int, l: int)
    requires 0 <= l < |tms|
    ensures var k := MakeKey(job, task, tms[l].machine);
      ProduceEventsOfTms(job, task, tms[..l + 1], q) == ProduceEventsOfTms(job, task, tms[..l], q) + [Event(End(k), -q, Scheduled(k))]
  {
    assert tms[..l + 1][..l] == tms[..l];
  }

  lemma PartEventsOfJobPrefix(part: Part, job: Job, ts: seq<Task>, j: int)
    requires 0 <= j < |ts|
    ensures PartEventsOfJob(part, job, ts[..j + 1]) == PartEventsOfJob(part, job, ts[..j]) + PartEventsOfTask(part, job, ts[j])
  {
    assert ts[..j + 1][..j] == ts[..j];
  }

  lemma PartEventsPrefix(part: Part, js: seq<Job>, i: int)
    requires 0 <= i < |js|
    ensures PartEvents(part, js[..i + 1]) == PartEvents(part, js[..i]) + PartEventsOfJob(part, js[i], js[i].tasks)
  {
    assert js[..i + 1][..i] == js[..i];
  }

  lemma PartConsPrefix(parts: seq<Part>, k: int, js: seq<Job>)
    requires 0 <= k < |parts|
    ensures var es := PartEvents(parts[k], js);
      PartCons(parts[..k + 1], js) == PartCons(parts[..k], js) + (if es != [] then [ReservoirOf(es, parts[k].quantity)] else [])
  {
    assert parts[..k + 1][..k] == parts[..k];
  }

  lemma ValueTermsSnoc(alts: seq<Alt>, x: Alt)
    ensures ValueTerms(alts + [x]) == ValueTerms(alts) + [Term(x.tm.value, Scheduled(KeyOf(x)))]
  {
    assert (alts + [x])[..|alts|] == alts;
  }

  lemma EntriesOfSnoc(alts: seq<Alt>, x: Alt, a: Var -> int)
    ensures EntriesOf(alts + [x], a) == EntriesOf(alts, a) + (if a(Scheduled(KeyOf(x))) != 0 then [EntryOf(x, a)] else [])
  {
    assert (alts + [x])[..|alts|] == alts;
  }

  /** One more task-machine of a task: its entry, if its flag is set, follows those of the earlier ones. */
  lemma TmEntriesStep(job: Job, task: Task, tms: seq<TaskMachine>, l: int, a: Var -> int)
    requires 0 <= l < |tms|
    ensures var x := Alt(job, task, tms[l]);
      EntriesOf(TmAlts(job, task, tms[..l + 1]), a)
        == EntriesOf(TmAlts(job, task, tms[..l]), a) + (if a(Scheduled(KeyOf(x))) != 0 then [EntryOf(x, a)] else [])
  {
    TmAltsPrefix(job, task, tms, l);
    EntriesOfSnoc(TmAlts(job, task, tms[..l]), Alt(job, task, tms[l]), a);
  }

  lemma DecodePrefix(js: seq<Job>, i: int, a: Var -> int)
    requires 0 <= i < |js|
    ensures var es := JobEntries(js[i], a);
      Decode(js[..i + 1], a) == if |es| > 0 then Put(Decode(js[..i], a), js[i].name, es) else Decode(js[..i], a)
  {
    assert js[..i + 1][..i] == js[..i];
  }
}
