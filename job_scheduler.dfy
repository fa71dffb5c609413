/**
 * The job-shop scheduler: an object that owns a constraint model and the
 * variable tables of every (job, task, machine) key, and whose builder methods
 * append to the model. Each builder is proved to append exactly the
 * constraint family `JobSpec` defines, so `CreateModel(level)` leaves
 * `JobSpec.ModelAt(Inst(), level)` behind and `Solve` returns
 * `JobSpec.Decode` of the solver's values.
 *
 * The builders' nested loops over jobs, tasks and machine alternatives are
 * split one loop per method: the outermost loop stays in the class, the
 * inner ones are the methods after it, which receive the tables they read
 * and the model or list they extend as values and return the extended one.
 */
module JobScheduling {
  import opened Wrappers
  import opened Dicts
  import opened CpSat
  import opened Seqs
  import opened Domain
  import opened JobSpec

  class JobScheduler {
    const name: string
    const deadline: int
    const jobs: seq<Job>
    const tasks: seq<Task>
    const machines: seq<Machine>
    const parts: seq<Part>
    const tools: seq<Tool>
    const useCosts: bool
    const useParts: bool

    var model: Model<Var>
    var starts: map<Key, Var>
    var ends: map<Key, Var>
    var scheduleds: map<Key, Var>
    var intervals: map<Key, Interval<Var>>

    /** The problem data the model is compiled from. */
    function Inst(): Instance {
      Instance(deadline, jobs, machines, parts, tools, useCosts, useParts)
    }

    function Tbl(): Tables
      reads this`starts, this`ends, this`scheduleds, this`intervals
    {
      Tables(starts, ends, scheduleds, intervals)
    }

    /** The variable tables are exactly those create_job_task_variables builds. */
    ghost predicate VarsCreated()
      reads this`starts, this`ends, this`scheduleds, this`intervals
    {
      Tbl() == TablesOf(Alts(jobs))
    }

    constructor (name: string, deadline: int, jobs: seq<Job>, tasks: seq<Task>, machines: seq<Machine>,
                 parts: seq<Part>, tools: seq<Tool>, useCosts: bool, useParts: bool)
      ensures this.name == name && this.deadline == deadline && this.jobs == jobs && this.tasks == tasks
      ensures this.machines == machines && this.parts == parts && this.tools == tools
      ensures this.useCosts == useCosts && this.useParts == useParts
      ensures model == EmptyModel()
      ensures Tbl() == NoTables
    {
      this.name, this.deadline, this.jobs, this.tasks := name, deadline, jobs, tasks;
      this.machines, this.parts, this.tools := machines, parts, tools;
      this.useCosts, this.useParts := useCosts, useParts;
      model := EmptyModel();
      starts, ends, scheduleds, intervals := map[], map[], map[], map[];
    }

    /** create_model(max_constraint): a fresh model with every family up to `level`. */
    method CreateModel(level: int)
      modifies this`model, this`starts, this`ends, this`scheduleds, this`intervals
      ensures VarsCreated()
      ensures model == ModelAt(Inst(), level)
    {
      model := EmptyModel();
      CreateJobTaskVariables();
      ghost var ds, cs := [Decl(Cost, 0, Bound)] + AltDecls(Alts(jobs), deadline), IntervalCons(Alts(jobs));
      ghost var m1 := model;
      CreateTaskLevelConstraints(level);
      ExtendsCons(model, m1, EmptyModel(), ds, cs, TaskLevelCons(Inst(), level));
      cs, m1 := cs + TaskLevelCons(Inst(), level), model;
      CreateJobLevelConstraints(level);
      ExtendsTrans(model, m1, EmptyModel(), ds, cs, if level >= 4 then StartedDecls(jobs) else [], JobLevelCons(Inst(), level));
      ds, cs, m1 := ds + (if level >= 4 then StartedDecls(jobs) else []), cs + JobLevelCons(Inst(), level), model;
      CreateResourceConstraints(level);
      ExtendsCons(model, m1, EmptyModel(), ds, cs, ResourceCons(Inst(), level));
      cs, m1 := cs + ResourceCons(Inst(), level), model;
      AddOptimization(level >= 7);
      ExtendsEmpty(m1, ds, cs);
    }

    /** The first two steps of create_model's chain: levels 1 and 2. */
    method CreateTaskLevelConstraints(level: int)
      requires VarsCreated()
      modifies this`model
      ensures Extends(model, old(model), [], TaskLevelCons(Inst(), level))
    {
      ghost var m0 := model;
      if level >= 1 { CreateTaskConstraints(); } else { ExtendsSelf(model); }
      ghost var m1 := model;
      if level >= 2 { CreateMachineConstraints(); } else { ExtendsSelf(model); }
      ExtendsCons(model, m1, m0, [], if level >= 1 then TaskCons(jobs) else [], if level >= 2 then MachineCons(machines, jobs) else []);
    }

    /** The next two steps of create_model's chain: levels 3 and 4. */
    method CreateJobLevelConstraints(level: int)
      requires VarsCreated()
      modifies this`model
      ensures Extends(model, old(model), if level >= 4 then StartedDecls(jobs) else [], JobLevelCons(Inst(), level))
    {
      ghost var m0 := model;
      if level >= 3 { CreateTaskOrderingConstraints(); } else { ExtendsSelf(model); }
      ghost var m1 := model;
      if level >= 4 { CreateTaskCompletionConstraints(); } else { ExtendsSelf(model); }
      ghost var ds := if level >= 4 then StartedDecls(jobs) else [];
      ExtendsTrans(model, m1, m0, [], if level >= 3 then OrderCons(jobs) else [], ds, if level >= 4 then CompletionCons(jobs) else []);
      assert [] + ds == ds;
    }

    /** The block of create_model guarded by `use_parts`: levels 5 and 6. */
    method CreateResourceConstraints(level: int)
      requires VarsCreated()
      modifies this`model
      ensures Extends(model, old(model), [], ResourceCons(Inst(), level))
    {
      ghost var m0 := model;
      if useParts {
        if level >= 5 { CreateToolsConstraints(); } else { ExtendsSelf(model); }
        ghost var m1 := model;
        if level >= 6 { CreatePartsConstraints(); } else { ExtendsSelf(model); }
        ExtendsCons(model, m1, m0, [], if level >= 5 then ToolCons(tools, jobs) else [], if level >= 6 then PartCons(parts, jobs) else []);
      } else {
        ExtendsSelf(model);
      }
    }

    /** create_job_task_variables: cost, then start, end, flag and optional interval per key. */
    method CreateJobTaskVariables()
      modifies this`model, this`starts, this`ends, this`scheduleds, this`intervals
      ensures VarsCreated()
      ensures Extends(model, old(model), [Decl(Cost, 0, Bound)] + AltDecls(Alts(jobs), deadline), IntervalCons(Alts(jobs)))
    {
      var t := NoTables;
      var m := NewVar(model, Cost, 0, Bound);
      ghost var m0 := m;
      for i := 0 to |jobs|
        invariant t == TablesOf(Alts(jobs[..i]))
        invariant Extends(m, m0, AltDecls(Alts(jobs[..i]), deadline), IntervalCons(Alts(jobs[..i])))
      {
        ghost var m1 := m;
        t, m := JobVariables(t, m, deadline, jobs[i]);
        ghost var done, more := Alts(jobs[..i]), TaskAlts(jobs[i], jobs[i].tasks);
        AltsPrefix(jobs, i);
        TablesOverAppend(NoTables, done, more);
        AltDeclsAppend(done, more, deadline);
        IntervalConsAppend(done, more);
        ExtendsTrans(m, m1, m0, AltDecls(done, deadline), IntervalCons(done), AltDecls(more, deadline), IntervalCons(more));
      }
      assert jobs[..|jobs|] == jobs;
      ExtendsTrans(m, m0, old(model), [Decl(Cost, 0, Bound)], [], AltDecls(Alts(jobs), deadline), IntervalCons(Alts(jobs)));
      starts, ends, scheduleds, intervals, model := t.starts, t.ends, t.scheds, t.ivs, m;
    }

    /** create_task_constraints: at most one alternative of each task is scheduled. */
    method CreateTaskConstraints()
      requires VarsCreated()
      modifies this`model
      ensures Extends(model, old(model), [], TaskCons(jobs))
    {
      var sched := scheduleds;
      TablesOfCovered(jobs);
      var m := model;
      for i := 0 to |jobs|
        invariant Extends(m, old(model), [], TaskCons(jobs[..i]))
      {
        ghost var m1 := m;
        m := AddJobTaskConstraints(sched, m, jobs[i]);
        TaskConsPrefix(jobs, i);
        ExtendsTrans(m, m1, old(model), [], TaskCons(jobs[..i]), [], TaskConsOfJob(jobs[i], jobs[i].tasks));
      }
      assert jobs[..|jobs|] == jobs;
      model := m;
    }

    /** create_machine_constraints: the intervals bound to one machine do not overlap. */
    method CreateMachineConstraints()
      requires VarsCreated()
      modifies this`model
      ensures Extends(model, old(model), [], MachineCons(machines, jobs))
    {
      var ivs := intervals;
      TablesOfCovered(jobs);
      TablesOverKeys(NoTables, Alts(jobs));
      var m := model;
      for k := 0 to |machines|
        invariant Extends(m, old(model), [], MachineConsOver(machines[..k], Alts(jobs), ivs))
      {
        ghost var m1 := m;
        var ivl := MachineIntervals(ivs, machines[k], jobs);
        if ivl != [] {
          ExtendsAdd(m, NoOverlap(ivl));
          m := Add(m, NoOverlap(ivl));
        } else {
          ExtendsSelf(m);
        }
        MachineConsPrefix(machines, k, Alts(jobs), ivs);
        ExtendsTrans(m, m1, old(model), [], MachineConsOver(machines[..k], Alts(jobs), ivs), [], if ivl != [] then [NoOverlap(ivl)] else []);
      }
      assert machines[..|machines|] == machines;
      model := m;
    }

    /** create_task_ordering_constraints: consecutive tasks of a job run in sequence. */
    method CreateTaskOrderingConstraints()
      requires VarsCreated()
      modifies this`model
      ensures Extends(model, old(model), [], OrderCons(jobs))
    {
      TablesOfCovered(jobs);
      model := AddOrderingConstraints(Tbl(), model, jobs);
    }

    /** create_task_completion_constraints: every task of a started job is scheduled once, none of an unstarted one. */
    method CreateTaskCompletionConstraints()
      requires VarsCreated()
      modifies this`model
      ensures Extends(model, old(model), StartedDecls(jobs), CompletionCons(jobs))
    {
      var sched := scheduleds;
      TablesOfCovered(jobs);
      var m := model;
      for i := 0 to |jobs|
        invariant Extends(m, old(model), StartedDecls(jobs[..i]), CompletionCons(jobs[..i]))
      {
        ghost var m1 := m;
        m := AddJobCompletionConstraints(sched, m, jobs[i]);
        CompletionConsPrefix(jobs, i);
        ExtendsTrans(m, m1, old(model), StartedDecls(jobs[..i]), CompletionCons(jobs[..i]),
                     [Decl(Started(jobs[i].name), 0, 1)], CompletionConsOfJob(jobs[i], jobs[i].tasks));
      }
      assert jobs[..|jobs|] == jobs;
      model := m;
    }

    /** create_tools_constraints: one reservoir per tool that some task needs. */
    method CreateToolsConstraints()
      requires VarsCreated()
      modifies this`model
      ensures Extends(model, old(model), [], ToolCons(tools, jobs))
    {
      TablesOfCovered(jobs);
      model := AddToolConstraints(Tbl(), model, tools, jobs);
    }

    /** create_parts_constraints: one reservoir per part that some task consumes or produces. */
    method CreatePartsConstraints()
      requires VarsCreated()
      modifies this`model
      ensures Extends(model, old(model), [], PartCons(parts, jobs))
    {
      TablesOfCovered(jobs);
      model := AddPartConstraints(Tbl(), model, parts, jobs);
    }

    /** add_values: `value` is the total value of the scheduled alternatives. */
    method AddValues()
      requires VarsCreated()
      modifies this`model
      ensures Extends(model, old(model), [Decl(Value, 0, Bound)], [ValueCons(Alts(jobs))])
    {
      var sched := scheduleds;
      TablesOfCovered(jobs);
      var m := NewVar(model, Value, 0, Bound);
      var values: seq<Term<Var>> := [];
      for i := 0 to |jobs|
        invariant values == ValueTerms(Alts(jobs[..i]))
      {
        values := AppendJobValues(sched, jobs[i], values);
        AltsPrefix(jobs, i);
        ValueTermsAppend(Alts(jobs[..i]), TaskAlts(jobs[i], jobs[i].tasks));
      }
      assert jobs[..|jobs|] == jobs;
      model := Add(m, Linear([Term(1, Value)], Eq, values, 0, []));
    }

    /**
     * add_optimization(add_costs): maximise `objective`, which is `value - cost`
     * when costs are in use and requested, `value` otherwise. add_costs adds
     * nothing, so `cost` stays free within its domain.
     */
    method AddOptimization(addCosts: bool)
      requires VarsCreated()
      modifies this`model
      ensures model.decls == old(model).decls + [Decl(Objective, 0, Bound), Decl(Value, 0, Bound)]
      ensures model.constraints == old(model).constraints + [ValueCons(Alts(jobs)), ObjectiveCons(useCosts && addCosts)]
      ensures model.objective == Some(Objective)
    {
      model := NewVar(model, Objective, 0, Bound);
      AddValues();
      if useCosts && addCosts {
        AddCosts();
        model := Add(model, Linear([Term(1, Objective)], Eq, [Term(1, Value), Term(-1, Cost)], 0, []));
      } else {
        model := Add(model, Linear([Term(1, Objective)], Eq, [Term(1, Value)], 0, []));
      }
      model := model.(objective := Some(Objective));
    }

    /** add_costs: its body is empty, so the model is left as it is. */
    method AddCosts()
      modifies this`model
      ensures model == old(model)
    {
    }

    /**
     * solve(): no schedule when the search reports infeasibility; otherwise
     * every job with a scheduled alternative is mapped to its entries.
     */
    method Solve(solver: Model<Var> -> SolveResult<Var>) returns (solution: Option<Solution>, result: SolveResult<Var>)
      requires VarsCreated()
      ensures result == solver(model)
      ensures result.status == Infeasible ==> solution == None
      ensures result.status != Infeasible ==> solution == Some(Decode(jobs, result.values))
    {
      result := solver(model);
      if result.status == Infeasible {
        return None, result;
      }
      var st, sched := starts, scheduleds;
      TablesOfCovered(jobs);
      var sol: Solution := [];
      for i := 0 to |jobs|
        invariant sol == Decode(jobs[..i], result.values)
      {
        var schedMachines := JobEntriesOf(st, sched, result.values, jobs[i]);
        if |schedMachines| > 0 {
          sol := Put(sol, jobs[i].name, schedMachines);
        }
        DecodePrefix(jobs, i, result.values);
      }
      assert jobs[..|jobs|] == jobs;
      return Some(sol), result;
    }
  }

  // -----------------------------------------------------------------------
  // create_job_task_variables

  /** The body of create_job_task_variables for one alternative. */
  method AltVariables(t: Tables, m: Model<Var>, deadline: int, job: Job, task: Task, tm: TaskMachine)
    returns (t': Tables, m': Model<Var>)
    ensures var x := Alt(job, task, tm); var k := KeyOf(x);
      && t' == AddAlt(t, x)
      && Extends(m', m, [Decl(Start(k), 1, deadline), Decl(End(k), 1, deadline), Decl(Scheduled(k), 0, 1)], [IntervalOf(IvOf(x))])
  {
    var key := MakeKey(job, task, tm.machine);
    var starts := t.starts[key := Start(key)];
    m' := NewVar(m, Start(key), 1, deadline);
    var ends := t.ends[key := End(key)];
    m' := NewVar(m', End(key), 1, deadline);
    var scheduleds := t.scheds[key := Scheduled(key)];
    m' := NewVar(m', Scheduled(key), 0, 1);
    var intervals := t.ivs[key := Interval(starts[key], tm.duration, ends[key], scheduleds[key])];
    m' := Add(m', IntervalOf(intervals[key]));
    t' := Tables(starts, ends, scheduleds, intervals);
  }

  /** The innermost loop of create_job_task_variables, over one task's machine alternatives. */
  method TaskVariables(t: Tables, m: Model<Var>, deadline: int, job: Job, task: Task) returns (t': Tables, m': Model<Var>)
    ensures t' == TablesOver(t, TmAlts(job, task, task.taskMachines))
    ensures Extends(m', m, AltDecls(TmAlts(job, task, task.taskMachines), deadline), IntervalCons(TmAlts(job, task, task.taskMachines)))
  {
    var tms := task.taskMachines;
    t', m' := t, m;
    for l := 0 to |tms|
      invariant t' == TablesOver(t, TmAlts(job, task, tms[..l]))
      invariant Extends(m', m, AltDecls(TmAlts(job, task, tms[..l]), deadline), IntervalCons(TmAlts(job, task, tms[..l])))
    {
      ghost var m1 := m';
      ghost var done, x := TmAlts(job, task, tms[..l]), Alt(job, task, tms[l]);
      t', m' := AltVariables(t', m', deadline, job, task, tms[l]);
      TmAltsPrefix(job, task, tms, l);
      AltSnoc(t, done, x, deadline);
      ExtendsTrans(m', m1, m, AltDecls(done, deadline), IntervalCons(done),
                   [Decl(Start(KeyOf(x)), 1, deadline), Decl(End(KeyOf(x)), 1, deadline), Decl(Scheduled(KeyOf(x)), 0, 1)], [IntervalOf(IvOf(x))]);
    }
    assert tms[..|tms|] == tms;
  }

  /** The loop of create_job_task_variables over one job's tasks. */
  method JobVariables(t: Tables, m: Model<Var>, deadline: int, job: Job) returns (t': Tables, m': Model<Var>)
    ensures t' == TablesOver(t, TaskAlts(job, job.tasks))
    ensures Extends(m', m, AltDecls(TaskAlts(job, job.tasks), deadline), IntervalCons(TaskAlts(job, job.tasks)))
  {
    var ts := job.tasks;
    t', m' := t, m;
    for j := 0 to |ts|
      invariant t' == TablesOver(t, TaskAlts(job, ts[..j]))
      invariant Extends(m', m, AltDecls(TaskAlts(job, ts[..j]), deadline), IntervalCons(TaskAlts(job, ts[..j])))
    {
      ghost var m1 := m';
      t', m' := TaskVariables(t', m', deadline, job, ts[j]);
      ghost var done, more := TaskAlts(job, ts[..j]), TmAlts(job, ts[j], ts[j].taskMachines);
      TaskAltsPrefix(job, ts, j);
      TablesOverAppend(t, done, more);
      AltDeclsAppend(done, more, deadline);
      IntervalConsAppend(done, more);
      ExtendsTrans(m', m1, m, AltDecls(done, deadline), IntervalCons(done), AltDecls(more, deadline), IntervalCons(more));
    }
    assert ts[..|ts|] == ts;
  }

  // -----------------------------------------------------------------------
  // create_task_constraints

  /** `[self.scheduleds[key] for tm in task.task_machines]` */
  method TaskFlagsOf(sched: map<Key, Var>, job: Job, task: Task) returns (flags: seq<Var>)
    requires SchedTable(sched) && TaskKeysIn(sched, job, task)
    ensures flags == TaskFlags(job, task)
  {
    var tms := task.taskMachines;
    flags := [];
    for l := 0 to |tms|
      invariant flags == SchedVars(TmAlts(job, task, tms[..l]))
    {
      flags := flags + [sched[MakeKey(job, task, tms[l].machine)]];
      TmAltsPrefix(job, task, tms, l);
      SchedVarsSnoc(TmAlts(job, task, tms[..l]), Alt(job, task, tms[l]));
    }
    assert tms[..|tms|] == tms;
  }

  /** The loop of create_task_constraints over one job's tasks. */
  method AddJobTaskConstraints(sched: map<Key, Var>, m: Model<Var>, job: Job) returns (m': Model<Var>)
    requires SchedTable(sched) && JobKeysIn(sched, job)
    ensures Extends(m', m, [], TaskConsOfJob(job, job.tasks))
  {
    var ts := job.tasks;
    m' := m;
    for j := 0 to |ts|
      invariant Extends(m', m, [], TaskConsOfJob(job, ts[..j]))
    {
      var flags := TaskFlagsOf(sched, job, ts[j]);
      ghost var m1 := m';
      m' := Add(m', Linear(Ones(flags), Le, [], 1, []));
      TaskConsOfJobPrefix(job, ts, j);
      ExtendsTrans(m', m1, m, [], TaskConsOfJob(job, ts[..j]), [], [AtMostOne(job, ts[j])]);
    }
    assert ts[..|ts|] == ts;
  }

  // -----------------------------------------------------------------------
  // create_machine_constraints

  /** The innermost `for tm in task.task_machines if tm.machine == machine` of the comprehension. */
  method TaskMachineIntervals(ivs: map<Key, Interval<Var>>, machine: Machine, job: Job, task: Task)
    returns (ivl: seq<Interval<Var>>)
    requires TaskKeysIn(ivs, job, task)
    ensures forall x :: x in TmAlts(job, task, task.taskMachines) ==> KeyOf(x) in ivs
    ensures ivl == MachineIvs(machine, TmAlts(job, task, task.taskMachines), ivs)
  {
    var tms := task.taskMachines;
    ivl := [];
    for l := 0 to |tms|
      invariant forall x :: x in TmAlts(job, task, tms[..l]) ==> KeyOf(x) in ivs
      invariant ivl == MachineIvs(machine, TmAlts(job, task, tms[..l]), ivs)
    {
      if tms[l].machine == machine {
        ivl := ivl + [ivs[MakeKey(job, task, machine)]];
      }
      TmAltsPrefix(job, task, tms, l);
      MachineIvsSnoc(machine, TmAlts(job, task, tms[..l]), Alt(job, task, tms[l]), ivs);
    }
    assert tms[..|tms|] == tms;
  }

  /** The comprehension's `for task in job.tasks`. */
  method JobMachineIntervals(ivs: map<Key, Interval<Var>>, machine: Machine, job: Job) returns (ivl: seq<Interval<Var>>)
    requires JobKeysIn(ivs, job)
    ensures forall x :: x in TaskAlts(job, job.tasks) ==> KeyOf(x) in ivs
    ensures ivl == MachineIvs(machine, TaskAlts(job, job.tasks), ivs)
  {
    var ts := job.tasks;
    ivl := [];
    for j := 0 to |ts|
      invariant forall x :: x in TaskAlts(job, ts[..j]) ==> KeyOf(x) in ivs
      invariant ivl == MachineIvs(machine, TaskAlts(job, ts[..j]), ivs)
    {
      var more := TaskMachineIntervals(ivs, machine, job, ts[j]);
      TaskAltsPrefix(job, ts, j);
      MachineIvsAppend(machine, TaskAlts(job, ts[..j]), TmAlts(job, ts[j], ts[j].taskMachines), ivs);
      ivl := ivl + more;
    }
    assert ts[..|ts|] == ts;
  }

  /** The intervals create_machine_constraints collects for one machine. */
  method MachineIntervals(ivs: map<Key, Interval<Var>>, machine: Machine, jobs: seq<Job>) returns (ivl: seq<Interval<Var>>)
    requires KeysIn(ivs, jobs)
    ensures forall x :: x in Alts(jobs) ==> KeyOf(x) in ivs
    ensures ivl == MachineIvs(machine, Alts(jobs), ivs)
  {
    ivl := [];
    for i := 0 to |jobs|
      invariant forall x :: x in Alts(jobs[..i]) ==> KeyOf(x) in ivs
      invariant ivl == MachineIvs(machine, Alts(jobs[..i]), ivs)
    {
      var more := JobMachineIntervals(ivs, machine, jobs[i]);
      AltsPrefix(jobs, i);
      MachineIvsAppend(machine, Alts(jobs[..i]), TaskAlts(jobs[i], jobs[i].tasks), ivs);
      ivl := ivl + more;
    }
    assert jobs[..|jobs|] == jobs;
  }

  // -----------------------------------------------------------------------
  // create_task_ordering_constraints

  /** The precedence constraint between two alternatives, built from the variable tables. */
  method PrecedenceOf(t: Tables, job: Job, t1: Task, tm1: TaskMachine, t2: Task, tm2: TaskMachine) returns (c: Constraint<Var>)
    requires StartTable(t.starts) && EndTable(t.ends) && SchedTable(t.scheds)
    requires MakeKey(job, t1, tm1.machine) in t.ends && MakeKey(job, t1, tm1.machine) in t.scheds
    requires MakeKey(job, t2, tm2.machine) in t.starts && MakeKey(job, t2, tm2.machine) in t.scheds
    ensures c == Precedence(job, t1, tm1, t2, tm2)
  {
    var key1, key2 := MakeKey(job, t1, tm1.machine), MakeKey(job, t2, tm2.machine);
    c := Linear([Term(1, t.ends[key1])], Le, [Term(1, t.starts[key2])], 0, [Pos(t.scheds[key1]), Pos(t.scheds[key2])]);
  }

  method AddPrecedenceRow(t: Tables, m: Model<Var>, job: Job, t1: Task, tm1: TaskMachine, t2: Task) returns (m': Model<Var>)
    requires StartTable(t.starts) && EndTable(t.ends) && SchedTable(t.scheds)
    requires MakeKey(job, t1, tm1.machine) in t.ends && MakeKey(job, t1, tm1.machine) in t.scheds
    requires TaskKeysIn(t.starts, job, t2) && TaskKeysIn(t.scheds, job, t2)
    ensures Extends(m', m, [], PrecRow(job, t1, tm1, t2, t2.taskMachines))
  {
    var tm2s := t2.taskMachines;
    m' := m;
    for r := 0 to |tm2s|
      invariant Extends(m', m, [], PrecRow(job, t1, tm1, t2, tm2s[..r]))
    {
      ghost var m1 := m';
      var c := PrecedenceOf(t, job, t1, tm1, t2, tm2s[r]);
      m' := Add(m', c);
      PrecRowStep(m', m1, m, job, t1, tm1, t2, tm2s, r);
    }
    assert tm2s[..|tm2s|] == tm2s;
  }

  /** The loop over `tm1`, for one pair of consecutive tasks. */
  method AddPrecedencePair(t: Tables, m: Model<Var>, job: Job, t1: Task, t2: Task) returns (m': Model<Var>)
    requires StartTable(t.starts) && EndTable(t.ends) && SchedTable(t.scheds)
    requires TaskKeysIn(t.ends, job, t1) && TaskKeysIn(t.scheds, job, t1)
    requires TaskKeysIn(t.starts, job, t2) && TaskKeysIn(t.scheds, job, t2)
    ensures Extends(m', m, [], PrecPair(job, t1, t1.taskMachines, t2))
  {
    var tm1s := t1.taskMachines;
    m' := m;
    for q := 0 to |tm1s|
      invariant Extends(m', m, [], PrecPair(job, t1, tm1s[..q], t2))
    {
      ghost var m1 := m';
      m' := AddPrecedenceRow(t, m', job, t1, tm1s[q], t2);
      PrecPairPrefix(job, t1, tm1s, t2, q);
      ExtendsTrans(m', m1, m, [], PrecPair(job, t1, tm1s[..q], t2), [], PrecRow(job, t1, tm1s[q], t2, t2.taskMachines));
    }
    assert tm1s[..|tm1s|] == tm1s;
  }

  /** The loop over `zip(job.tasks, job.tasks[1:])`. */
  method AddJobOrderingConstraints(t: Tables, m: Model<Var>, job: Job) returns (m': Model<Var>)
    requires StartTable(t.starts) && EndTable(t.ends) && SchedTable(t.scheds)
    requires JobKeysIn(t.starts, job) && JobKeysIn(t.ends, job) && JobKeysIn(t.scheds, job)
    ensures Extends(m', m, [], OrderConsOfPairs(job, Consecutive(job.tasks)))
  {
    var ps := Consecutive(job.tasks);
    m' := m;
    for p := 0 to |ps|
      invariant Extends(m', m, [], OrderConsOfPairs(job, ps[..p]))
    {
      ghost var m1 := m';
      m' := AddPrecedencePair(t, m', job, ps[p].0, ps[p].1);
      OrderConsOfPairsPrefix(job, ps, p);
      ExtendsTrans(m', m1, m, [], OrderConsOfPairs(job, ps[..p]), [], PrecPair(job, ps[p].0, ps[p].0.taskMachines, ps[p].1));
    }
    assert ps[..|ps|] == ps;
  }

  /** The loop of create_task_ordering_constraints over the jobs. */
  method AddOrderingConstraints(t: Tables, m: Model<Var>, jobs: seq<Job>) returns (m': Model<Var>)
    requires StartTable(t.starts) && EndTable(t.ends) && SchedTable(t.scheds)
    requires KeysIn(t.starts, jobs) && KeysIn(t.ends, jobs) && KeysIn(t.scheds, jobs)
    ensures Extends(m', m, [], OrderCons(jobs))
  {
    m' := m;
    for i := 0 to |jobs|
      invariant Extends(m', m, [], OrderCons(jobs[..i]))
    {
      ghost var m1 := m';
      m' := AddJobOrderingConstraints(t, m', jobs[i]);
      OrderConsPrefix(jobs, i);
      ExtendsTrans(m', m1, m, [], OrderCons(jobs[..i]), [], OrderConsOfPairs(jobs[i], Consecutive(jobs[i].tasks)));
    }
    assert jobs[..|jobs|] == jobs;
  }

  // -----------------------------------------------------------------------
  // create_task_completion_constraints

  /** The body of create_task_completion_constraints for one job. */
  method AddJobCompletionConstraints(sched: map<Key, Var>, m: Model<Var>, job: Job) returns (m': Model<Var>)
    requires SchedTable(sched) && JobKeysIn(sched, job)
    ensures Extends(m', m, [Decl(Started(job.name), 0, 1)], CompletionConsOfJob(job, job.tasks))
  {
    var ts := job.tasks;
    var started := Started(job.name);
    m' := NewVar(m, started, 0, 1);
    ghost var m1 := m';
    for j := 0 to |ts|
      invariant Extends(m', m1, [], CompletionConsOfJob(job, ts[..j]))
    {
      ghost var m2 := m';
      var flags := TaskFlagsOf(sched, job, ts[j]);
      m' := Add(m', Linear(Ones(flags), Eq, [], 1, [Pos(started)]));
      m' := Add(m', Linear(Ones(flags), Eq, [], 0, [Neg(started)]));
      CompletionConsOfJobPrefix(job, ts, j);
      ExtendsTrans(m', m2, m1, [], CompletionConsOfJob(job, ts[..j]),
                   [], [TaskSum(job, ts[j], 1, Pos(started)), TaskSum(job, ts[j], 0, Neg(started))]);
    }
    assert ts[..|ts|] == ts;
    ExtendsTrans(m', m1, m, [Decl(started, 0, 1)], [], [], CompletionConsOfJob(job, ts));
  }

  // -----------------------------------------------------------------------
  // create_tools_constraints

  /** One `append` to each of the three aligned lists. */
  method PushEvent(times: seq<Var>, changes: seq<int>, actives: seq<Var>, ghost es: seq<Event>, e: Event)
    returns (times': seq<Var>, changes': seq<int>, actives': seq<Var>, ghost es': seq<Event>)
    requires EventLists(times, changes, actives, es)
    ensures es' == es + [e]
    ensures EventLists(times', changes', actives', es')
  {
    EventListsSnoc(es, e);
    times', changes', actives', es' := times + [e.time], changes + [e.change], actives + [e.active], es + [e];
  }

  /** `for i in range(tool_count)`: one unit taken at the start and given back at the end. */
  method AppendToolPairs(t: Tables, key: Key, count: nat,
                         times: seq<Var>, changes: seq<int>, actives: seq<Var>, ghost es: seq<Event>)
    returns (times': seq<Var>, changes': seq<int>, actives': seq<Var>, ghost es': seq<Event>)
    requires StartTable(t.starts) && EndTable(t.ends) && SchedTable(t.scheds)
    requires key in t.starts && key in t.ends && key in t.scheds
    requires EventLists(times, changes, actives, es)
    ensures es' == es + ToolPairs(key, count)
    ensures EventLists(times', changes', actives', es')
  {
    times', changes', actives', es' := times, changes, actives, es;
    for r := 0 to count
      invariant es' == es + ToolPairs(key, r)
      invariant EventLists(times', changes', actives', es')
    {
      ghost var e0 := es';
      times', changes', actives', es' := PushEvent(times', changes', actives', es', Event(t.starts[key], 1, t.scheds[key]));
      times', changes', actives', es' := PushEvent(times', changes', actives', es', Event(t.ends[key], -1, t.scheds[key]));
      assert ToolPairs(key, r + 1) == ToolPairs(key, r) + [Event(Start(key), 1, Scheduled(key)), Event(End(key), -1, Scheduled(key))];
      AppendAssoc(es, ToolPairs(key, r), [Event(Start(key), 1, Scheduled(key)), Event(End(key), -1, Scheduled(key))]);
      AppendAssoc(e0, [Event(Start(key), 1, Scheduled(key))], [Event(End(key), -1, Scheduled(key))]);
    }
  }

  /** The loop over `task.task_machines` for a task that needs the tool `count` times. */
  method AppendTaskToolEvents(t: Tables, job: Job, task: Task, count: nat,
                              times: seq<Var>, changes: seq<int>, actives: seq<Var>, ghost es: seq<Event>)
    returns (times': seq<Var>, changes': seq<int>, actives': seq<Var>, ghost es': seq<Event>)
    requires StartTable(t.starts) && EndTable(t.ends) && SchedTable(t.scheds)
    requires TaskKeysIn(t.starts, job, task) && TaskKeysIn(t.ends, job, task) && TaskKeysIn(t.scheds, job, task)
    requires EventLists(times, changes, actives, es)
    ensures es' == es + ToolEventsOfTms(job, task, task.taskMachines, count)
    ensures EventLists(times', changes', actives', es')
  {
    var tms := task.taskMachines;
    times', changes', actives', es' := times, changes, actives, es;
    for l := 0 to |tms|
      invariant es' == es + ToolEventsOfTms(job, task, tms[..l], count)
      invariant EventLists(times', changes', actives', es')
    {
      ToolTmsStep(es, es', job, task, tms, count, l);
      times', changes', actives', es' := AppendToolPairs(t, MakeKey(job, task, tms[l].machine), count, times', changes', actives', es');
    }
    assert tms[..|tms|] == tms;
  }

  /** The loop over one job's tasks: `tool_count` pairs per alternative of a task that needs the tool. */
  method AppendJobToolEvents(t: Tables, tool: Tool, job: Job,
                             times: seq<Var>, changes: seq<int>, actives: seq<Var>, ghost es: seq<Event>)
    returns (times': seq<Var>, changes': seq<int>, actives': seq<Var>, ghost es': seq<Event>)
    requires StartTable(t.starts) && EndTable(t.ends) && SchedTable(t.scheds)
    requires JobKeysIn(t.starts, job) && JobKeysIn(t.ends, job) && JobKeysIn(t.scheds, job)
    requires EventLists(times, changes, actives, es)
    ensures es' == es + ToolEventsOfJob(tool, job, job.tasks)
    ensures EventLists(times', changes', actives', es')
  {
    var ts := job.tasks;
    times', changes', actives', es' := times, changes, actives, es;
    for j := 0 to |ts|
      invariant es' == es + ToolEventsOfJob(tool, job, ts[..j])
      invariant EventLists(times', changes', actives', es')
    {
      var task := ts[j];
      ghost var e1 := es';
      var required := ToolNames(task.tools);
      if tool.name in required {
        var count := Count(required, tool.name);
        times', changes', actives', es' := AppendTaskToolEvents(t, job, task, count, times', changes', actives', es');
      }
      ToolEventsOfJobPrefix(tool, job, ts, j);
      AppendAssoc(es, ToolEventsOfJob(tool, job, ts[..j]), ToolEventsOfTask(tool, job, task));
    }
    assert ts[..|ts|] == ts;
  }

  /** The three aligned lists create_tools_constraints collects for one tool. */
  method ToolReservoirLists(t: Tables, tool: Tool, jobs: seq<Job>) returns (times: seq<Var>, changes: seq<int>, actives: seq<Var>)
    requires StartTable(t.starts) && EndTable(t.ends) && SchedTable(t.scheds)
    requires KeysIn(t.starts, jobs) && KeysIn(t.ends, jobs) && KeysIn(t.scheds, jobs)
    ensures EventLists(times, changes, actives, ToolEvents(tool, jobs))
  {
    times, changes, actives := [], [], [];
    ghost var es: seq<Event> := [];
    for i := 0 to |jobs|
      invariant es == ToolEvents(tool, jobs[..i])
      invariant EventLists(times, changes, actives, es)
    {
      times, changes, actives, es := AppendJobToolEvents(t, tool, jobs[i], times, changes, actives, es);
      ToolEventsPrefix(tool, jobs, i);
    }
    assert jobs[..|jobs|] == jobs;
  }

  // -----------------------------------------------------------------------
  // create_parts_constraints

  /** `for i in range(part_count)`: one unit taken at the start. */
  method AppendConsumes(t: Tables, key: Key, count: nat,
                        times: seq<Var>, changes: seq<int>, actives: seq<Var>, ghost es: seq<Event>)
    returns (times': seq<Var>, changes': seq<int>, actives': seq<Var>, ghost es': seq<Event>)
    requires StartTable(t.starts) && SchedTable(t.scheds)
    requires key in t.starts && key in t.scheds
    requires EventLists(times, changes, actives, es)
    ensures es' == es + Consumes(key, count)
    ensures EventLists(times', changes', actives', es')
  {
    times', changes', actives', es' := times, changes, actives, es;
    for r := 0 to count
      invariant es' == es + Consumes(key, r)
      invariant EventLists(times', changes', actives', es')
    {
      times', changes', actives', es' := PushEvent(times', changes', actives', es', Event(t.starts[key], 1, t.scheds[key]));
      AppendAssoc(es, Consumes(key, r), [Event(Start(key), 1, Scheduled(key))]);
    }
  }

  /** The consuming loop over `task.task_machines` for a task that needs the part `count` times. */
  method AppendTaskConsumes(t: Tables, job: Job, task: Task, count: nat,
                            times: seq<Var>, changes: seq<int>, actives: seq<Var>, ghost es: seq<Event>)
    returns (times': seq<Var>, changes': seq<int>, actives': seq<Var>, ghost es': seq<Event>)
    requires StartTable(t.starts) && SchedTable(t.scheds)
    requires TaskKeysIn(t.starts, job, task) && TaskKeysIn(t.scheds, job, task)
    requires EventLists(times, changes, actives, es)
    ensures es' == es + ConsumeEventsOfTms(job, task, task.taskMachines, count)
    ensures EventLists(times', changes', actives', es')
  {
    var tms := task.taskMachines;
    times', changes', actives', es' := times, changes, actives, es;
    for l := 0 to |tms|
      invariant es' == es + ConsumeEventsOfTms(job, task, tms[..l], count)
      invariant EventLists(times', changes', actives', es')
    {
      times', changes', actives', es' := AppendConsumes(t, MakeKey(job, task, tms[l].machine), count, times', changes', actives', es');
      ConsumeEventsOfTmsPrefix(job, task, tms, count, l);
      AppendAssoc(es, ConsumeEventsOfTms(job, task, tms[..l], count), Consumes(MakeKey(job, task, tms[l].machine), count));
    }
    assert tms[..|tms|] == tms;
  }

  /** The producing loop over `task.task_machines`: `quantity` units given back at the end. */
  method AppendTaskProduces(t: Tables, job: Job, task: Task, quantity: int,
                            times: seq<Var>, changes: seq<int>, actives: seq<Var>, ghost es: seq<Event>)
    returns (times': seq<Var>, changes': seq<int>, actives': seq<Var>, ghost es': seq<Event>)
    requires EndTable(t.ends) && SchedTable(t.scheds)
    requires TaskKeysIn(t.ends, job, task) && TaskKeysIn(t.scheds, job, task)
    requires EventLists(times, changes, actives, es)
    ensures es' == es + ProduceEventsOfTms(job, task, task.taskMachines, quantity)
    ensures EventLists(times', changes', actives', es')
  {
    var tms := task.taskMachines;
    times', changes', actives', es' := times, changes, actives, es;
    for l := 0 to |tms|
      invariant es' == es + ProduceEventsOfTms(job, task, tms[..l], quantity)
      invariant EventLists(times', changes', actives', es')
    {
      var key := MakeKey(job, task, tms[l].machine);
      var e := Event(t.ends[key], -quantity, t.scheds[key]);
      times', changes', actives', es' := PushEvent(times', changes', actives', es', e);
      ProduceEventsOfTmsPrefix(job, task, tms, quantity, l);
      AppendAssoc(es, ProduceEventsOfTms(job, task, tms[..l], quantity), [e]);
    }
    assert tms[..|tms|] == tms;
  }

  /** The body of the loop over one job's tasks: consumption for each required unit, then production. */
  method AppendTaskPartEvents(t: Tables, part: Part, job: Job, task: Task,
                              times: seq<Var>, changes: seq<int>, actives: seq<Var>, ghost es: seq<Event>)
    returns (times': seq<Var>, changes': seq<int>, actives': seq<Var>, ghost es': seq<Event>)
    requires StartTable(t.starts) && EndTable(t.ends) && SchedTable(t.scheds)
    requires TaskKeysIn(t.starts, job, task) && TaskKeysIn(t.ends, job, task) && TaskKeysIn(t.scheds, job, task)
    requires EventLists(times, changes, actives, es)
    ensures es' == es + PartEventsOfTask(part, job, task)
    ensures EventLists(times', changes', actives', es')
  {
    var required := PartNames(task.parts);
    ghost var consumed := if part.name in required then ConsumeEventsOfTms(job, task, task.taskMachines, Count(required, part.name)) else [];
    ghost var produced := if Produces(task, part) then ProduceEventsOfTms(job, task, task.taskMachines, task.quantity) else [];
    if part.name in required {
      var count := Count(required, part.name);
      times', changes', actives', es' := AppendTaskConsumes(t, job, task, count, times, changes, actives, es);
    } else {
      times', changes', actives', es' := times, changes, actives, es;
      AppendNil(es);
    }
    ghost var e1 := es';
    assert e1 == es + consumed;
    if IsPartsTask(task) && part.name == task.producedPart.name {
      times', changes', actives', es' := AppendTaskProduces(t, job, task, task.quantity, times', changes', actives', es');
    } else {
      AppendNil(e1);
    }
    assert es' == e1 + produced;
    AppendAssoc(es, consumed, produced);
  }

  /** The loop over one job's tasks. */
  method AppendJobPartEvents(t: Tables, part: Part, job: Job,
                             times: seq<Var>, changes: seq<int>, actives: seq<Var>, ghost es: seq<Event>)
    returns (times': seq<Var>, changes': seq<int>, actives': seq<Var>, ghost es': seq<Event>)
    requires StartTable(t.starts) && EndTable(t.ends) && SchedTable(t.scheds)
    requires JobKeysIn(t.starts, job) && JobKeysIn(t.ends, job) && JobKeysIn(t.scheds, job)
    requires EventLists(times, changes, actives, es)
    ensures es' == es + PartEventsOfJob(part, job, job.tasks)
    ensures EventLists(times', changes', actives', es')
  {
    var ts := job.tasks;
    times', changes', actives', es' := times, changes, actives, es;
    for j := 0 to |ts|
      invariant es' == es + PartEventsOfJob(part, job, ts[..j])
      invariant EventLists(times', changes', actives', es')
    {
      times', changes', actives', es' := AppendTaskPartEvents(t, part, job, ts[j], times', changes', actives', es');
      PartEventsOfJobPrefix(part, job, ts, j);
      AppendAssoc(es, PartEventsOfJob(part, job, ts[..j]), PartEventsOfTask(part, job, ts[j]));
    }
    assert ts[..|ts|] == ts;
  }

  /** The three aligned lists create_parts_constraints collects for one part. */
  method PartReservoirLists(t: Tables, part: Part, jobs: seq<Job>) returns (times: seq<Var>, changes: seq<int>, actives: seq<Var>)
    requires StartTable(t.starts) && EndTable(t.ends) && SchedTable(t.scheds)
    requires KeysIn(t.starts, jobs) && KeysIn(t.ends, jobs) && KeysIn(t.scheds, jobs)
    ensures EventLists(times, changes, actives, PartEvents(part, jobs))
  {
    times, changes, actives := [], [], [];
    ghost var es: seq<Event> := [];
    for i := 0 to |jobs|
      invariant es == PartEvents(part, jobs[..i])
      invariant EventLists(times, changes, actives, es)
    {
      times, changes, actives, es := AppendJobPartEvents(t, part, jobs[i], times, changes, actives, es);
      PartEventsPrefix(part, jobs, i);
    }
    assert jobs[..|jobs|] == jobs;
  }

  // -----------------------------------------------------------------------
  // the reservoirs of create_tools_constraints and create_parts_constraints

  /** The loop of create_tools_constraints over the tools. */
  method AddToolConstraints(t: Tables, m0: Model<Var>, tools: seq<Tool>, jobs: seq<Job>) returns (m: Model<Var>)
    requires StartTable(t.starts) && EndTable(t.ends) && SchedTable(t.scheds)
    requires KeysIn(t.starts, jobs) && KeysIn(t.ends, jobs) && KeysIn(t.scheds, jobs)
    ensures Extends(m, m0, [], ToolCons(tools, jobs))
  {
    m := m0;
    ExtendsSelf(m0);
    for k := 0 to |tools|
      invariant Extends(m, m0, [], ToolCons(tools[..k], jobs))
    {
      var times, changes, actives := ToolReservoirLists(t, tools[k], jobs);
      ToolStep(m, m0, tools, k, jobs, times, changes, actives);
      if |times| > 0 && |changes| > 0 && |actives| > 0 {
        m := Add(m, Reservoir(times, changes, actives, 0, tools[k].num));
      }
    }
    assert tools[..|tools|] == tools;
  }

  /** One tool of create_tools_constraints: its reservoir is added when it has events. */
  lemma ToolStep(m: Model<Var>, m0: Model<Var>, tools: seq<Tool>, k: int, jobs: seq<Job>,
                 times: seq<Var>, changes: seq<int>, actives: seq<Var>)
    requires 0 <= k < |tools| && Extends(m, m0, [], ToolCons(tools[..k], jobs))
    requires EventLists(times, changes, actives, ToolEvents(tools[k], jobs))
    ensures Extends(if |times| > 0 && |changes| > 0 && |actives| > 0 then Add(m, Reservoir(times, changes, actives, 0, tools[k].num)) else m,
                    m0, [], ToolCons(tools[..k + 1], jobs))
  {
    var es := ToolEvents(tools[k], jobs);
    ToolConsPrefix(tools, k, jobs);
    if es != [] {
      ExtendsAdd(m, ReservoirOf(es, tools[k].num));
      ExtendsTrans(Add(m, ReservoirOf(es, tools[k].num)), m, m0, [], ToolCons(tools[..k], jobs), [], [ReservoirOf(es, tools[k].num)]);
    } else {
      assert ToolCons(tools[..k], jobs) + [] == ToolCons(tools[..k], jobs);
    }
  }

  /** The loop of create_parts_constraints over the parts. */
  method AddPartConstraints(t: Tables, m0: Model<Var>, parts: seq<Part>, jobs: seq<Job>) returns (m: Model<Var>)
    requires StartTable(t.starts) && EndTable(t.ends) && SchedTable(t.scheds)
    requires KeysIn(t.starts, jobs) && KeysIn(t.ends, jobs) && KeysIn(t.scheds, jobs)
    ensures Extends(m, m0, [], PartCons(parts, jobs))
  {
    m := m0;
    ExtendsSelf(m0);
    for k := 0 to |parts|
      invariant Extends(m, m0, [], PartCons(parts[..k], jobs))
    {
      var times, changes, actives := PartReservoirLists(t, parts[k], jobs);
      PartStep(m, m0, parts, k, jobs, times, changes, actives);
      if |times| > 0 && |changes| > 0 && |actives| > 0 {
        m := Add(m, Reservoir(times, changes, actives, 0, parts[k].quantity));
      }
    }
    assert parts[..|parts|] == parts;
  }

  /** One part of create_parts_constraints: its reservoir is added when it has events. */
  lemma PartStep(m: Model<Var>, m0: Model<Var>, parts: seq<Part>, k: int, jobs: seq<Job>,
                 times: seq<Var>, changes: seq<int>, actives: seq<Var>)
    requires 0 <= k < |parts| && Extends(m, m0, [], PartCons(parts[..k], jobs))
    requires EventLists(times, changes, actives, PartEvents(parts[k], jobs))
    ensures Extends(if |times| > 0 && |changes| > 0 && |actives| > 0 then Add(m, Reservoir(times, changes, actives, 0, parts[k].quantity)) else m,
                    m0, [], PartCons(parts[..k + 1], jobs))
  {
    var es := PartEvents(parts[k], jobs);
    PartConsPrefix(parts, k, jobs);
    if es != [] {
      ExtendsAdd(m, ReservoirOf(es, parts[k].quantity));
      ExtendsTrans(Add(m, ReservoirOf(es, parts[k].quantity)), m, m0, [], PartCons(parts[..k], jobs), [], [ReservoirOf(es, parts[k].quantity)]);
    } else {
      assert PartCons(parts[..k], jobs) + [] == PartCons(parts[..k], jobs);
    }
  }

  // -----------------------------------------------------------------------
  // add_values

  /** The innermost loop of add_values: `tm.value * sched` per alternative of the task. */
  method AppendTaskValues(sched: map<Key, Var>, job: Job, task: Task, values: seq<Term<Var>>) returns (values': seq<Term<Var>>)
    requires SchedTable(sched) && TaskKeysIn(sched, job, task)
    ensures values' == values + ValueTerms(TmAlts(job, task, task.taskMachines))
  {
    var tms := task.taskMachines;
    values' := values;
    for l := 0 to |tms|
      invariant values' == values + ValueTerms(TmAlts(job, task, tms[..l]))
    {
      values' := values' + [Term(tms[l].value, sched[MakeKey(job, task, tms[l].machine)])];
      TmAltsPrefix(job, task, tms, l);
      ValueTermsSnoc(TmAlts(job, task, tms[..l]), Alt(job, task, tms[l]));
      AppendAssoc(values, ValueTerms(TmAlts(job, task, tms[..l])), [Term(tms[l].value, sched[MakeKey(job, task, tms[l].machine)])]);
    }
    assert tms[..|tms|] == tms;
  }

  /** The loop of add_values over one job's tasks. */
  method AppendJobValues(sched: map<Key, Var>, job: Job, values: seq<Term<Var>>) returns (values': seq<Term<Var>>)
    requires SchedTable(sched) && JobKeysIn(sched, job)
    ensures values' == values + ValueTerms(TaskAlts(job, job.tasks))
  {
    var ts := job.tasks;
    values' := values;
    for j := 0 to |ts|
      invariant values' == values + ValueTerms(TaskAlts(job, ts[..j]))
    {
      values' := AppendTaskValues(sched, job, ts[j], values');
      TaskAltsPrefix(job, ts, j);
      ValueTermsAppend(TaskAlts(job, ts[..j]), TmAlts(job, ts[j], ts[j].taskMachines));
      AppendAssoc(values, ValueTerms(TaskAlts(job, ts[..j])), ValueTerms(TmAlts(job, ts[j], ts[j].taskMachines)));
    }
    assert ts[..|ts|] == ts;
  }

  // -----------------------------------------------------------------------
  // solve

  /** The entry solve records for one alternative, if its flag is set. */
  method AltEntry(starts: map<Key, Var>, sched: map<Key, Var>, value: Var -> int, job: Job, task: Task, tm: TaskMachine)
    returns (es: seq<Entry>)
    requires StartTable(starts) && SchedTable(sched)
    requires MakeKey(job, task, tm.machine) in starts && MakeKey(job, task, tm.machine) in sched
    ensures var x := Alt(job, task, tm);
      es == if value(Scheduled(KeyOf(x))) != 0 then [EntryOf(x, value)] else []
  {
    var key := MakeKey(job, task, tm.machine);
    es := [];
    if value(sched[key]) != 0 {
      var start := value(starts[key]);
      es := [Entry(tm.machine.name, start, tm.duration)];
    }
  }

  /** The innermost loop of solve: an entry for each alternative of the task whose flag is set. */
  method AppendTaskEntries(starts: map<Key, Var>, sched: map<Key, Var>, value: Var -> int, job: Job, task: Task, entries: seq<Entry>)
    returns (entries': seq<Entry>)
    requires StartTable(starts) && SchedTable(sched)
    requires TaskKeysIn(starts, job, task) && TaskKeysIn(sched, job, task)
    ensures entries' == entries + EntriesOf(TmAlts(job, task, task.taskMachines), value)
  {
    var tms := task.taskMachines;
    entries' := entries;
    for l := 0 to |tms|
      invariant entries' == entries + EntriesOf(TmAlts(job, task, tms[..l]), value)
    {
      var more := AltEntry(starts, sched, value, job, task, tms[l]);
      TmEntriesStep(job, task, tms, l, value);
      AppendAssoc(entries, EntriesOf(TmAlts(job, task, tms[..l]), value), more);
      entries' := entries' + more;
    }
    assert tms[..|tms|] == tms;
  }

  /** `sched_machines` of one job. */
  method JobEntriesOf(starts: map<Key, Var>, sched: map<Key, Var>, value: Var -> int, job: Job) returns (entries: seq<Entry>)
    requires StartTable(starts) && SchedTable(sched)
    requires JobKeysIn(starts, job) && JobKeysIn(sched, job)
    ensures entries == JobEntries(job, value)
  {
    var ts := job.tasks;
    entries := [];
    for j := 0 to |ts|
      invariant entries == EntriesOf(TaskAlts(job, ts[..j]), value)
    {
      entries := AppendTaskEntries(starts, sched, value, job, ts[j], entries);
      TaskAltsPrefix(job, ts, j);
      EntriesOfAppend(TaskAlts(job, ts[..j]), TmAlts(job, ts[j], ts[j].taskMachines), value);
    }
    assert ts[..|ts|] == ts;
  }
}
