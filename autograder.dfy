/**
 * The grading logic. A candidate job-shop schedule is checked for shape,
 * then pinned into a fresh reference model: for the idx-th entry
 * (machine, start, duration) of job `j`, the alternative keyed by
 * (j, tasks[idx].name, machine) is forced on, its start to `start` and its
 * end to `start + duration`. The candidate is correct when the pinned model
 * is still solved and its objective agrees with the stored reference. The
 * greenhouse side pins every (behavior, chunk) Boolean of a reference model
 * to the candidate's schedule and scores a run by whether a solution was
 * expected.
 */
module Autograder {
  import opened Wrappers
  import opened Seqs
  import opened Dicts
  import opened Domain
  import opened CpSat
  import opened JobSpec
  import opened JobProperties
  import opened JobScheduling
  import ParseOrders
  import Greenhouse

  // ---------------------------------------------------------------------
  // check_solution_syntax

  predicate JobListed(name: string, jobs: seq<Job>) {
    exists j :: 0 <= j < |jobs| && jobs[j].name == name
  }

  predicate MachineListed(name: string, machines: seq<Machine>) {
    exists m :: 0 <= m < |machines| && machines[m].name == name
  }

  /** A well-formed entry: a known machine, a start that is not negative, a positive duration. */
  predicate EntryValid(e: Entry, machines: seq<Machine>) {
    MachineListed(e.machine, machines) && e.start >= 0 && e.duration >= 1
  }

  function EntriesOk(es: seq<Entry>, machines: seq<Machine>): (r: bool)
    ensures r <==> forall k :: 0 <= k < |es| ==> EntryValid(es[k], machines)
  {
    if es == [] then true
    else
      var e, init := es[|es| - 1], es[..|es| - 1];
      AllSnoc(es, init, x => EntryValid(x, machines));
      EntriesOk(init, machines)
      && ParseOrders.GetByName(e.machine, machines, MachineName).Some? && e.start >= 0 && e.duration >= 1
  }

  /** One job of a candidate: a known job name, and every entry well formed. */
  predicate PairValid(p: (string, seq<Entry>), jobs: seq<Job>, machines: seq<Machine>) {
    JobListed(p.0, jobs) && forall k :: 0 <= k < |p.1| ==> EntryValid(p.1[k], machines)
  }

  /** check_solution_syntax: every job name is known and every entry is well formed. */
  function CheckSolutionSyntax(sol: Solution, jobs: seq<Job>, machines: seq<Machine>): (r: bool)
    ensures r <==> forall i :: 0 <= i < |sol| ==>
                      && JobListed(sol[i].0, jobs)
                      && forall k :: 0 <= k < |sol[i].1| ==> EntryValid(sol[i].1[k], machines)
  {
    if sol == [] then true
    else
      var p, init := sol[|sol| - 1], sol[..|sol| - 1];
      AllSnoc(sol, init, q => PairValid(q, jobs, machines));
      CheckSolutionSyntax(init, jobs, machines)
      && ParseOrders.GetByName(p.0, jobs, JobName).Some? && EntriesOk(p.1, machines)
  }

  /** Every pair of a decoded solution is a job's name with that job's non-empty entries. */
  lemma {:induction false} DecodePairs(js: seq<Job>, a: Var -> int)
    ensures forall p :: p in Decode(js, a) ==>
              exists job :: job in js && JobEntries(job, a) != [] && p == (job.name, JobEntries(job, a))
  {
    if js != [] {
      var init, last := js[..|js| - 1], js[|js| - 1];
      DecodePairs(init, a);
      var es := JobEntries(last, a);
      if |es| > 0 {
        PutPairs(Decode(init, a), last.name, es);
      }
      forall p | p in Decode(js, a)
        ensures exists job :: job in js && JobEntries(job, a) != [] && p == (job.name, JobEntries(job, a))
      {
        if |es| > 0 && p == (last.name, es) {
          assert last in js;
        } else {
          assert p in Decode(init, a);
          var job :| job in init && JobEntries(job, a) != [] && p == (job.name, JobEntries(job, a));
          var i :| 0 <= i < |init| && init[i] == job;
          assert js[i] == job;
        }
      }
    }
  }

  /**
   * The schedule the scheduler decodes from any assignment satisfying its
   * model passes the syntax check, provided every machine alternative uses a
   * listed machine and takes at least one time unit.
   */
  lemma DecodedSyntaxOk(inst: Instance, level: int, a: Var -> int)
    requires Satisfies(a, ModelAt(inst, level))
    requires forall x :: x in Alts(inst.jobs) ==> x.tm.duration >= 1 && MachineListed(x.tm.machine.name, inst.machines)
    ensures CheckSolutionSyntax(Decode(inst.jobs, a), inst.jobs, inst.machines)
  {
    var sol := Decode(inst.jobs, a);
    DecodePairs(inst.jobs, a);
    forall i | 0 <= i < |sol|
      ensures JobListed(sol[i].0, inst.jobs) && forall k :: 0 <= k < |sol[i].1| ==> EntryValid(sol[i].1[k], inst.machines)
    {
      assert sol[i] in sol;
      var job :| job in inst.jobs && JobEntries(job, a) != [] && sol[i] == (job.name, JobEntries(job, a));
      var j :| 0 <= j < |inst.jobs| && inst.jobs[j] == job;
      forall k | 0 <= k < |sol[i].1| ensures EntryValid(sol[i].1[k], inst.machines) {
        var e := sol[i].1[k];
        EntriesOfOnly(TaskAlts(job, job.tasks), a, e);
        var x :| x in TaskAlts(job, job.tasks) && a(Scheduled(KeyOf(x))) != 0 && e == EntryOf(x, a);
        TaskAltsMember(job, job.tasks, x);
        AltsMember(inst.jobs, x);
        JobProperties.AltVariables(inst, level, a, x);
      }
    }
  }

  // ---------------------------------------------------------------------
  // JS_Test

  /** JS_Solution: the schedule with the objective, value and cost read from the solver. */
  datatype JSSolution = JSSolution(name: string, solution: Solution, useCosts: bool, objective: int, value: int, cost: int)

  /** JS_Test.solve's classification: not infeasible, not empty and syntactically valid. */
  predicate Accepted(r: SolveResult<Var>, jobs: seq<Job>, machines: seq<Machine>) {
    var sol := Decode(jobs, r.values);
    r.status != Infeasible && sol != [] && CheckSolutionSyntax(sol, jobs, machines)
  }

  /** What JS_Test.solve stores: value and cost are read only when costs are in use. */
  function SolutionRecord(name: string, sol: Solution, useCosts: bool, a: Var -> int): JSSolution {
    JSSolution(name, sol, useCosts, a(Objective), if useCosts then a(Value) else 0, if useCosts then a(Cost) else 0)
  }

  /**
   * A sound search that reports a solution of a model built at any level is
   * accepted when at least one job is scheduled, every alternative uses a
   * listed machine and takes at least one time unit; the stored objective is
   * then the value, less the cost from level 7 on when costs are in use.
   */
  lemma SolvedAccepted(inst: Instance, level: int, solver: Model<Var> -> SolveResult<Var>)
    requires SoundSolver(solver) && Solved(solver(ModelAt(inst, level)).status)
    requires forall x :: x in Alts(inst.jobs) ==> x.tm.duration >= 1 && MachineListed(x.tm.machine.name, inst.machines)
    ensures var a := solver(ModelAt(inst, level)).values;
      && (Accepted(solver(ModelAt(inst, level)), inst.jobs, inst.machines) <==> Decode(inst.jobs, a) != [])
      && a(Objective) == a(Value) - if inst.useCosts && level >= 7 then a(Cost) else 0
  {
    var a := solver(ModelAt(inst, level)).values;
    DecodedSyntaxOk(inst, level, a);
    ObjectiveMeaning(inst, level, a);
  }

  class JSTest {
    const name: string
    const useCosts: bool
    const order: JobScheduler
    var solution: Option<JSSolution>

    /** `JS_Test(order, max_constraint)`: builds the order's model at the given level. */
    constructor (order: JobScheduler, maxConstraint: int)
      modifies order
      ensures this.order == order && name == order.name && useCosts == order.useCosts && solution == None
      ensures order.VarsCreated() && order.model == ModelAt(order.Inst(), maxConstraint)
    {
      name := order.name;
      useCosts := order.useCosts;
      solution := None;
      this.order := order;
      new;
      order.CreateModel(maxConstraint);
    }

    /** JS_Test.solve: reports whether the order's solution is accepted, and records it if so. */
    method Solve(solver: Model<Var> -> SolveResult<Var>) returns (isSolved: bool)
      requires order.VarsCreated()
      modifies this`solution
      ensures var r := solver(order.model);
        && (isSolved <==> Accepted(r, order.jobs, order.machines))
        && (isSolved ==> solution == Some(SolutionRecord(name, Decode(order.jobs, r.values), order.useCosts, r.values)))
        && (!isSolved ==> solution == old(solution))
    {
      var sol, r := order.Solve(solver);
      isSolved := false;
      if sol == None {
      } else if |sol.value| == 0 {
      } else if !CheckSolutionSyntax(sol.value, order.jobs, order.machines) {
      } else {
        isSolved := true;
      }
      if isSolved {
        var objective := r.values(Objective);
        var uc := order.useCosts;
        var value, cost;
        if uc {
          value, cost := r.values(Value), r.values(Cost);
        } else {
          value, cost := 0, 0;
        }
        solution := Some(JSSolution(name, sol.value, uc, objective, value, cost));
      }
    }
  }

  // ---------------------------------------------------------------------
  // is_schedule_correct: the forcing constraints

  predicate Pinnable(t: Tables, k: Key) {
    k in t.scheds && k in t.starts && k in t.ends
  }

  /** The key the idx-th entry of a job is looked up under: `(jname, tasks[idx].name, machine)`. */
  function PinKey(jname: string, tasks: seq<Task>, idx: int, e: Entry): Key
    requires 0 <= idx < |tasks|
  {
    (jname, tasks[idx].name, e.machine)
  }

  /** The three constraints added for one entry: flag on, start and end pinned. */
  function Pins(t: Tables, k: Key, e: Entry): seq<Constraint<Var>>
    requires Pinnable(t, k)
  {
    [Pin(t.scheds[k], 1), Pin(t.starts[k], e.start), Pin(t.ends[k], e.start + e.duration)]
  }

  /** `b` schedules key `k` at the entry's start, ending after its duration. */
  predicate Pinned(b: Var -> int, t: Tables, k: Key, e: Entry)
    requires Pinnable(t, k)
  {
    b(t.scheds[k]) == 1 && b(t.starts[k]) == e.start && b(t.ends[k]) == e.start + e.duration
  }

  /** The constraints for a job's entries; None when an entry has no task or its key is missing. */
  function ForceEntries(jname: string, tasks: seq<Task>, es: seq<Entry>, t: Tables): Option<seq<Constraint<Var>>> {
    if es == [] then Some([])
    else
      var r := ForceEntries(jname, tasks, es[..|es| - 1], t);
      var idx := |es| - 1;
      if r.None? || idx >= |tasks| then None
      else
        var k := PinKey(jname, tasks, idx, es[idx]);
        if Pinnable(t, k) then Some(r.value + Pins(t, k, es[idx])) else None
  }

  /** The constraints for one job of the candidate; None when the job name is unknown. */
  function JobForce(p: (string, seq<Entry>), jobs: seq<Job>, t: Tables): Option<seq<Constraint<Var>>> {
    var job := ParseOrders.GetByName(p.0, jobs, JobName);
    if job.None? then None else ForceEntries(p.0, job.value.tasks, p.1, t)
  }

  /** The forcing loop over the whole candidate; None when it would raise. */
  function Forcing(sol: Solution, jobs: seq<Job>, t: Tables): Option<seq<Constraint<Var>>> {
    if sol == [] then Some([])
    else
      var r := Forcing(sol[..|sol| - 1], jobs, t);
      var f := JobForce(sol[|sol| - 1], jobs, t);
      if r.None? || f.None? then None else Some(r.value + f.value)
  }

  lemma PinsMeaning(b: Var -> int, t: Tables, k: Key, e: Entry)
    requires Pinnable(t, k)
    ensures SatisfiesAll(b, Pins(t, k, e)) <==> Pinned(b, t, k, e)
  {
    PinMeaning(b, t.scheds[k], 1);
    PinMeaning(b, t.starts[k], e.start);
    PinMeaning(b, t.ends[k], e.start + e.duration);
    var ps := Pins(t, k, e);
    assert ps[0] == Pin(t.scheds[k], 1) && ps[1] == Pin(t.starts[k], e.start) && ps[2] == Pin(t.ends[k], e.start + e.duration);
  }

  /**
   * Forcing a job succeeds exactly when it has no more entries than tasks and
   * every entry's key exists; an assignment then meets the added constraints
   * exactly when it pins every entry.
   */
  lemma {:induction false} ForceEntriesMeaning(b: Var -> int, jname: string, tasks: seq<Task>, es: seq<Entry>, t: Tables)
    ensures ForceEntries(jname, tasks, es, t).Some? <==>
              |es| <= |tasks| && forall idx :: 0 <= idx < |es| ==> Pinnable(t, PinKey(jname, tasks, idx, es[idx]))
    ensures ForceEntries(jname, tasks, es, t).Some? ==>
              (SatisfiesAll(b, ForceEntries(jname, tasks, es, t).value) <==>
               forall idx :: 0 <= idx < |es| ==> Pinned(b, t, PinKey(jname, tasks, idx, es[idx]), es[idx]))
  {
    if es != [] {
      var init, n := es[..|es| - 1], |es| - 1;
      ForceEntriesMeaning(b, jname, tasks, init, t);
      assert forall idx :: 0 <= idx < n ==> init[idx] == es[idx];
      if ForceEntries(jname, tasks, es, t).Some? {
        var k := PinKey(jname, tasks, n, es[n]);
        SatisfiesAllAppend(b, ForceEntries(jname, tasks, init, t).value, Pins(t, k, es[n]));
        PinsMeaning(b, t, k, es[n]);
      }
    }
  }

  /** The forcing loop succeeds exactly when every job of the candidate can be forced. */
  lemma {:induction false} ForcingSome(sol: Solution, jobs: seq<Job>, t: Tables)
    ensures Forcing(sol, jobs, t).Some? <==> forall i :: 0 <= i < |sol| ==> JobForce(sol[i], jobs, t).Some?
  {
    if sol != [] {
      var init, n := sol[..|sol| - 1], |sol| - 1;
      ForcingSome(init, jobs, t);
      AllSnoc(sol, init, p => JobForce(p, jobs, t).Some?);
    }
  }

  /** Job `p` of the candidate can be forced, and `b` meets its forcing constraints. */
  ghost predicate JobMet(b: Var -> int, p: (string, seq<Entry>), jobs: seq<Job>, t: Tables) {
    JobForce(p, jobs, t).Some? && SatisfiesAll(b, JobForce(p, jobs, t).value)
  }

  /** An assignment meets the constraints of the whole forcing loop exactly when it meets each job's. */
  lemma {:induction false} ForcingSatisfied(b: Var -> int, sol: Solution, jobs: seq<Job>, t: Tables)
    requires Forcing(sol, jobs, t).Some?
    ensures SatisfiesAll(b, Forcing(sol, jobs, t).value) <==> forall i :: 0 <= i < |sol| ==> JobMet(b, sol[i], jobs, t)
  {
    if sol != [] {
      var init, n := sol[..|sol| - 1], |sol| - 1;
      var r, f := Forcing(init, jobs, t), JobForce(sol[n], jobs, t);
      assert r.Some? && f.Some? && Forcing(sol, jobs, t).value == r.value + f.value;
      ForcingSatisfied(b, init, jobs, t);
      SatisfiesAllAppend(b, r.value, f.value);
      AllSnoc(sol, init, p => JobMet(b, p, jobs, t));
    }
  }

  lemma {:induction false} ForceEntriesNoneSticks(jname: string, tasks: seq<Task>, es: seq<Entry>, n: int, t: Tables)
    requires 0 <= n <= |es| && ForceEntries(jname, tasks, es[..n], t).None?
    ensures ForceEntries(jname, tasks, es, t).None?
    decreases |es| - n
  {
    if n < |es| {
      assert es[..n + 1][..n] == es[..n];
      ForceEntriesNoneSticks(jname, tasks, es, n + 1, t);
    } else {
      assert es[..n] == es;
    }
  }

  lemma {:induction false} ForcingNoneSticks(sol: Solution, n: int, jobs: seq<Job>, t: Tables)
    requires 0 <= n <= |sol| && Forcing(sol[..n], jobs, t).None?
    ensures Forcing(sol, jobs, t).None?
    decreases |sol| - n
  {
    if n < |sol| {
      assert sol[..n + 1][..n] == sol[..n];
      ForcingNoneSticks(sol, n + 1, jobs, t);
    } else {
      assert sol[..n] == sol;
    }
  }

  /** The inner loop of the forcing: one job's entries, one after the other. */
  method ForceJob(t: Tables, m: Model<Var>, jname: string, tasks: seq<Task>, es: seq<Entry>)
    returns (ok: bool, m': Model<Var>)
    ensures ok == ForceEntries(jname, tasks, es, t).Some?
    ensures m'.decls == m.decls && m'.objective == m.objective
    ensures ok ==> m'.constraints == m.constraints + ForceEntries(jname, tasks, es, t).value
  {
    m' := m;
    for idx := 0 to |es|
      invariant ForceEntries(jname, tasks, es[..idx], t).Some?
      invariant m' == m.(constraints := m.constraints + ForceEntries(jname, tasks, es[..idx], t).value)
    {
      assert es[..idx + 1][..idx] == es[..idx] && es[..idx + 1][idx] == es[idx];
      ghost var cs := ForceEntries(jname, tasks, es[..idx], t).value;
      if idx >= |tasks| {
        ForceEntriesNoneSticks(jname, tasks, es, idx + 1, t);
        return false, m';
      }
      var e := es[idx];
      var key := (jname, tasks[idx].name, e.machine);
      if key !in t.scheds {
        ForceEntriesNoneSticks(jname, tasks, es, idx + 1, t);
        return false, m';
      }
      m' := Add(m', Pin(t.scheds[key], 1));
      if key !in t.starts {
        ForceEntriesNoneSticks(jname, tasks, es, idx + 1, t);
        return false, m';
      }
      m' := Add(m', Pin(t.starts[key], e.start));
      if key !in t.ends {
        ForceEntriesNoneSticks(jname, tasks, es, idx + 1, t);
        return false, m';
      }
      m' := Add(m', Pin(t.ends[key], e.start + e.duration));
      assert m.constraints + cs + [Pin(t.scheds[key], 1)] + [Pin(t.starts[key], e.start)] + [Pin(t.ends[key], e.start + e.duration)]
          == m.constraints + (cs + Pins(t, key, e));
    }
    assert es[..|es|] == es;
    ok := true;
  }

  /** `m` is `m0` with the forcing constraints of the first `i` jobs of the candidate added. */
  ghost predicate ForcedPrefix(t: Tables, m0: Model<Var>, m: Model<Var>, sol: Solution, jobs: seq<Job>, i: int)
    requires 0 <= i <= |sol|
  {
    && Forcing(sol[..i], jobs, t).Some?
    && m.decls == m0.decls && m.objective == m0.objective
    && m.constraints == m0.constraints + Forcing(sol[..i], jobs, t).value
  }

  /** Forcing job `i` into the model extends the forced prefix by one job. */
  lemma ForcedPrefixStep(t: Tables, m0: Model<Var>, m: Model<Var>, m': Model<Var>, sol: Solution, jobs: seq<Job>, i: int)
    requires 0 <= i < |sol| && ForcedPrefix(t, m0, m, sol, jobs, i) && JobForce(sol[i], jobs, t).Some?
    requires m'.decls == m.decls && m'.objective == m.objective
    requires m'.constraints == m.constraints + JobForce(sol[i], jobs, t).value
    ensures ForcedPrefix(t, m0, m', sol, jobs, i + 1)
  {
    assert sol[..i + 1][..i] == sol[..i] && sol[..i + 1][i] == sol[i];
    var cs, f := Forcing(sol[..i], jobs, t).value, JobForce(sol[i], jobs, t).value;
    assert m0.constraints + cs + f == m0.constraints + (cs + f);
  }

  /** A job that cannot be forced makes the whole forcing loop raise. */
  lemma ForcedPrefixRaises(sol: Solution, jobs: seq<Job>, t: Tables, i: int)
    requires 0 <= i < |sol| && JobForce(sol[i], jobs, t).None?
    ensures Forcing(sol, jobs, t).None?
  {
    assert sol[..i + 1][..i] == sol[..i] && sol[..i + 1][i] == sol[i];
    ForcingNoneSticks(sol, i + 1, jobs, t);
  }

  /** One iteration of the forcing loop: the job is looked up by name, then its entries are forced. */
  method ForceNamedJob(t: Tables, m: Model<Var>, p: (string, seq<Entry>), jobs: seq<Job>) returns (ok: bool, m': Model<Var>)
    ensures ok == JobForce(p, jobs, t).Some?
    ensures m'.decls == m.decls && m'.objective == m.objective
    ensures ok ==> m'.constraints == m.constraints + JobForce(p, jobs, t).value
  {
    var job := ParseOrders.GetByName(p.0, jobs, JobName);
    if job.None? {
      return false, m;
    }
    ok, m' := ForceJob(t, m, p.0, job.value.tasks, p.1);
  }

  /** The forcing loop of is_schedule_correct over the model `m0`. */
  method ForceAll(t: Tables, m0: Model<Var>, sol: Solution, jobs: seq<Job>) returns (ok: bool, m: Model<Var>)
    ensures ok == Forcing(sol, jobs, t).Some?
    ensures m.decls == m0.decls && m.objective == m0.objective
    ensures ok ==> m.constraints == m0.constraints + Forcing(sol, jobs, t).value
  {
    m := m0;
    assert sol[..0] == [];
    for i := 0 to |sol|
      invariant ForcedPrefix(t, m0, m, sol, jobs, i)
    {
      var okJob, m' := ForceNamedJob(t, m, sol[i], jobs);
      if !okJob {
        ForcedPrefixRaises(sol, jobs, t, i);
        return false, m';
      }
      ForcedPrefixStep(t, m0, m, m', sol, jobs, i);
      m := m';
    }
    assert sol[..|sol|] == sol;
    ok := true;
  }

  /** The forcing loop of is_schedule_correct, adding to the reference model in place. */
  method ForceSolution(refOrder: JobScheduler, sol: Solution, jobs: seq<Job>) returns (ok: bool)
    modifies refOrder`model
    ensures ok == Forcing(sol, jobs, refOrder.Tbl()).Some?
    ensures refOrder.model.decls == old(refOrder.model).decls && refOrder.model.objective == old(refOrder.model).objective
    ensures ok ==> refOrder.model.constraints == old(refOrder.model).constraints + Forcing(sol, jobs, refOrder.Tbl()).value
  {
    ok, refOrder.model := ForceAll(refOrder.Tbl(), refOrder.model, sol, jobs);
  }

  /** The reference model at `level` with the forcing constraints `cs` added. */
  function ForcedModel(inst: Instance, level: int, cs: seq<Constraint<Var>>): Model<Var> {
    var m := ModelAt(inst, level);
    m.(constraints := m.constraints + cs)
  }

  /**
   * `is_schedule_correct`'s verdict: the forcing does not raise, the forced
   * model's solution is accepted, and the candidate's objective equals the
   * reference objective.
   */
  ghost predicate GradedCorrect(inst: Instance, level: int, sol: Solution, objective: int, refObjective: int,
                                solver: Model<Var> -> SolveResult<Var>) {
    var f := Forcing(sol, inst.jobs, TablesOf(Alts(inst.jobs)));
    && f.Some?
    && Accepted(solver(ForcedModel(inst, level, f.value)), inst.jobs, inst.machines)
    && objective == refObjective
  }

  /**
   * is_schedule_correct: a fresh reference scheduler with the test's data, the
   * candidate forced into its model, and CORRECT exactly when the forcing did
   * not raise, the forced model's solution is accepted and the candidate's
   * objective equals the reference objective.
   */
  method IsScheduleCorrect(test: JSTest, refsol: JSSolution, maxConstraint: int, solver: Model<Var> -> SolveResult<Var>)
    returns (correct: bool)
    requires test.solution.Some?
    ensures correct <==> GradedCorrect(test.order.Inst(), maxConstraint, test.solution.value.solution,
                                       test.solution.value.objective, refsol.objective, solver)
  {
    var o := test.order;
    var sol := test.solution.value.solution;
    var refOrder := new JobScheduler(o.name, o.deadline, o.jobs, o.tasks, o.machines, o.parts, o.tools, o.useCosts, o.useParts);
    var refTest := new JSTest(refOrder, maxConstraint);
    var ok := ForceSolution(refOrder, sol, o.jobs);
    var isSolved := false;
    if ok {
      isSolved := refTest.Solve(solver);
    }
    correct := isSolved && test.solution.value.objective == refsol.objective;
  }

  // ---------------------------------------------------------------------
  // The reference's own schedules survive the forcing

  /** Flags are 0 or 1 in any satisfying assignment. */
  lemma FlagsBinary(inst: Instance, level: int, a: Var -> int, job: Job, task: Task)
    requires Satisfies(a, ModelAt(inst, level)) && job in inst.jobs && task in job.tasks
    ensures forall x :: x in TmAlts(job, task, task.taskMachines) ==> 0 <= a(Scheduled(KeyOf(x))) <= 1
  {
    forall x | x in TmAlts(job, task, task.taskMachines) ensures 0 <= a(Scheduled(KeyOf(x))) <= 1 {
      TmAltsMember(job, task, task.taskMachines, x);
      AltsMember(inst.jobs, x);
      JobProperties.AltVariables(inst, level, a, x);
    }
  }

  /** With 0/1 flags, the decoder yields as many entries as the flags add up to. */
  lemma {:induction false} EntriesCount(alts: seq<Alt>, a: Var -> int)
    requires forall x :: x in alts ==> 0 <= a(Scheduled(KeyOf(x))) <= 1
    ensures |EntriesOf(alts, a)| == SumOf(a, SchedVars(alts))
  {
    if alts != [] {
      var init := alts[..|alts| - 1];
      forall x | x in init ensures x in alts {
        var i :| 0 <= i < |init| && init[i] == x;
        assert alts[i] == x;
      }
      EntriesCount(init, a);
      var vs := SchedVars(alts);
      assert vs[..|vs| - 1] == SchedVars(init);
      assert alts[|alts| - 1] in alts;
    }
  }

  /** From level 4 on, a job with a scheduled alternative has every task chosen once. */
  lemma AllChosen(inst: Instance, level: int, a: Var -> int, job: Job)
    requires level >= 4 && Satisfies(a, ModelAt(inst, level)) && job in inst.jobs && JobEntries(job, a) != []
    ensures forall task :: task in job.tasks ==> Chosen(a, job, task) == 1
  {
    var alts := TaskAlts(job, job.tasks);
    EntriesOfOnly(alts, a, JobEntries(job, a)[0]);
    var x :| x in alts && a(Scheduled(KeyOf(x))) != 0 && JobEntries(job, a)[0] == EntryOf(x, a);
    TaskAltsMember(job, job.tasks, x);
    TmAltsMember(job, x.task, x.task.taskMachines, x);
    var xs := TmAlts(job, x.task, x.task.taskMachines);
    FlagsBinary(inst, level, a, job, x.task);
    EntriesOfMember(xs, a, x);
    EntriesCount(xs, a);
    StartedDecides(inst, level, a, job, x.task);
    forall task | task in job.tasks ensures Chosen(a, job, task) == 1 {
      StartedDecides(inst, level, a, job, task);
    }
  }

  /** A task chosen once contributes exactly one entry, and that entry's key is pinned by the assignment. */
  lemma TaskEntryPinned(inst: Instance, level: int, a: Var -> int, job: Job, idx: int)
    requires Satisfies(a, ModelAt(inst, level)) && job in inst.jobs && 0 <= idx < |job.tasks|
    requires Chosen(a, job, job.tasks[idx]) == 1
    ensures var task := job.tasks[idx];
      var es := EntriesOf(TmAlts(job, task, task.taskMachines), a);
      var t := TablesOf(Alts(inst.jobs));
      && |es| == 1
      && Pinnable(t, PinKey(job.name, job.tasks, idx, es[0]))
      && Pinned(a, t, PinKey(job.name, job.tasks, idx, es[0]), es[0])
  {
    var task := job.tasks[idx];
    var alts := TmAlts(job, task, task.taskMachines);
    FlagsBinary(inst, level, a, job, task);
    EntriesCount(alts, a);
    var es := EntriesOf(alts, a);
    EntriesOfOnly(alts, a, es[0]);
    var x :| x in alts && a(Scheduled(KeyOf(x))) != 0 && es[0] == EntryOf(x, a);
    TmAltsMember(job, task, task.taskMachines, x);
    AltsMember(inst.jobs, x);
    JobProperties.AltVariables(inst, level, a, x);
    TablesOfCovered(inst.jobs);
    TablesOverKeys(NoTables, Alts(inst.jobs));
    assert KeyOf(x) == PinKey(job.name, job.tasks, idx, es[0]);
  }

  /** When every task contributes one entry, the idx-th entry of the job is its idx-th task's. */
  lemma {:induction false} JobEntriesIndexed(job: Job, ts: seq<Task>, a: Var -> int)
    requires forall i :: 0 <= i < |ts| ==> |EntriesOf(TmAlts(job, ts[i], ts[i].taskMachines), a)| == 1
    ensures |EntriesOf(TaskAlts(job, ts), a)| == |ts|
    ensures forall i :: 0 <= i < |ts| ==>
              EntriesOf(TaskAlts(job, ts), a)[i] == EntriesOf(TmAlts(job, ts[i], ts[i].taskMachines), a)[0]
  {
    if ts != [] {
      var init, last := ts[..|ts| - 1], ts[|ts| - 1];
      forall i | 0 <= i < |init| ensures |EntriesOf(TmAlts(job, init[i], init[i].taskMachines), a)| == 1 {
        assert init[i] == ts[i];
      }
      JobEntriesIndexed(job, init, a);
      var xs, ys := TaskAlts(job, init), TmAlts(job, last, last.taskMachines);
      assert TaskAlts(job, ts) == xs + ys;
      EntriesOfAppend(xs, ys, a);
      var front, back := EntriesOf(xs, a), EntriesOf(ys, a);
      assert |back| == 1 by { assert ts[|ts| - 1] == last; }
      forall i | 0 <= i < |ts| ensures (front + back)[i] == EntriesOf(TmAlts(job, ts[i], ts[i].taskMachines), a)[0] {
        if i < |init| {
          assert ts[i] == init[i];
        } else {
          assert ts[i] == last;
        }
      }
    }
  }

  /** From level 4 on, forcing a scheduled job's own entries succeeds and the assignment meets the result. */
  lemma JobForced(inst: Instance, level: int, a: Var -> int, job: Job)
    requires level >= 4 && Satisfies(a, ModelAt(inst, level)) && job in inst.jobs && JobEntries(job, a) != []
    ensures var f := ForceEntries(job.name, job.tasks, JobEntries(job, a), TablesOf(Alts(inst.jobs)));
      f.Some? && SatisfiesAll(a, f.value)
  {
    var ts, t, es := job.tasks, TablesOf(Alts(inst.jobs)), JobEntries(job, a);
    AllChosen(inst, level, a, job);
    forall i | 0 <= i < |ts|
      ensures var e := EntriesOf(TmAlts(job, ts[i], ts[i].taskMachines), a);
        |e| == 1 && Pinnable(t, PinKey(job.name, ts, i, e[0])) && Pinned(a, t, PinKey(job.name, ts, i, e[0]), e[0])
    {
      assert ts[i] in job.tasks;
      TaskEntryPinned(inst, level, a, job, i);
    }
    JobEntriesIndexed(job, ts, a);
    forall i | 0 <= i < |es| ensures Pinnable(t, PinKey(job.name, ts, i, es[i])) && Pinned(a, t, PinKey(job.name, ts, i, es[i]), es[i]) {
      assert es[i] == EntriesOf(TmAlts(job, ts[i], ts[i].taskMachines), a)[0];
    }
    ForceEntriesMeaning(a, job.name, ts, es, t);
  }

  /** With distinct job names, `get` finds each job under its own name. */
  lemma GetJobByName(js: seq<Job>, job: Job)
    requires UniqueNames(js) && job in js
    ensures ParseOrders.GetByName(job.name, js, JobName) == Some(job)
  {
    var q :| 0 <= q < |js| && js[q] == job;
    assert JobName(js[q]) == job.name;
    var r := ParseOrders.GetByName(job.name, js, JobName);
    var p :| 0 <= p < |js| && js[p] == r.value && JobName(js[p]) == job.name;
    if p < q {
      assert false;
    } else if q < p {
      assert false;
    }
  }

  /**
   * From level 4 on, with distinct job names, the schedule decoded from any
   * assignment satisfying the reference model can be forced back into that
   * model, and the same assignment meets every forcing constraint.
   */
  lemma ReferenceScheduleForced(inst: Instance, level: int, a: Var -> int)
    requires level >= 4 && Satisfies(a, ModelAt(inst, level)) && UniqueNames(inst.jobs)
    ensures var f := Forcing(Decode(inst.jobs, a), inst.jobs, TablesOf(Alts(inst.jobs)));
      f.Some? && SatisfiesAll(a, f.value)
  {
    var sol, t := Decode(inst.jobs, a), TablesOf(Alts(inst.jobs));
    DecodePairs(inst.jobs, a);
    forall i | 0 <= i < |sol| ensures JobMet(a, sol[i], inst.jobs, t) {
      assert sol[i] in sol;
      var job :| job in inst.jobs && JobEntries(job, a) != [] && sol[i] == (job.name, JobEntries(job, a));
      GetJobByName(inst.jobs, job);
      JobForced(inst, level, a, job);
    }
    ForcingSome(sol, inst.jobs, t);
    ForcingSatisfied(a, sol, inst.jobs, t);
  }

  /**
   * So an optimal reference assignment stays a solution of the forced model,
   * and stays optimal there: the forced model's optimum is the reference
   * optimum.
   */
  lemma ForcedKeepsOptimum(inst: Instance, level: int, a: Var -> int)
    requires level >= 4 && Satisfies(a, ModelAt(inst, level)) && UniqueNames(inst.jobs)
    requires forall b :: Satisfies(b, ModelAt(inst, level)) ==> b(Objective) <= a(Objective)
    ensures var f := Forcing(Decode(inst.jobs, a), inst.jobs, TablesOf(Alts(inst.jobs)));
      && f.Some?
      && Satisfies(a, ForcedModel(inst, level, f.value))
      && forall b :: Satisfies(b, ForcedModel(inst, level, f.value)) ==> b(Objective) <= a(Objective)
  {
    var f := Forcing(Decode(inst.jobs, a), inst.jobs, TablesOf(Alts(inst.jobs)));
    ReferenceScheduleForced(inst, level, a);
    AddAllSatisfies(a, ModelAt(inst, level), f.value);
    forall b | Satisfies(b, ForcedModel(inst, level, f.value)) ensures b(Objective) <= a(Objective) {
      AddAllSatisfies(b, ModelAt(inst, level), f.value);
    }
  }

  /** The key the forcing pins for a scheduled job's first entry is the key of one of that job's alternatives. */
  lemma FirstPinKey(inst: Instance, level: int, a: Var -> int, job: Job)
    requires level >= 4 && Satisfies(a, ModelAt(inst, level)) && job in inst.jobs && JobEntries(job, a) != []
    ensures exists x :: x in TaskAlts(job, job.tasks) && KeyOf(x) == PinKey(job.name, job.tasks, 0, JobEntries(job, a)[0])
  {
    var ts, es := job.tasks, JobEntries(job, a);
    AllChosen(inst, level, a, job);
    forall i | 0 <= i < |ts| ensures |EntriesOf(TmAlts(job, ts[i], ts[i].taskMachines), a)| == 1 {
      assert ts[i] in job.tasks;
      TaskEntryPinned(inst, level, a, job, i);
    }
    JobEntriesIndexed(job, ts, a);
    var xs := TmAlts(job, ts[0], ts[0].taskMachines);
    EntriesOfOnly(xs, a, es[0]);
    var x :| x in xs && a(Scheduled(KeyOf(x))) != 0 && es[0] == EntryOf(x, a);
    TmAltsMember(job, ts[0], ts[0].taskMachines, x);
    TaskAltsMember(job, ts, x);
    assert KeyOf(x) == PinKey(job.name, ts, 0, es[0]);
  }

  /**
   * From level 4 on, with distinct job names, a candidate decoded from any
   * assignment satisfying the model, whose stored objective equals the
   * reference objective, is graded correct by a sound and complete search:
   * the forcing does not raise, the assignment itself solves the forced
   * model so the search reports a solution, and that solution is non-empty
   * and passes the syntax check.
   */
  lemma ReferenceScheduleGraded(inst: Instance, level: int, a: Var -> int, refObjective: int,
                                solver: Model<Var> -> SolveResult<Var>)
    requires level >= 4 && Satisfies(a, ModelAt(inst, level)) && UniqueNames(inst.jobs)
    requires Decode(inst.jobs, a) != [] && a(Objective) == refObjective
    requires forall x :: x in Alts(inst.jobs) ==> x.tm.duration >= 1 && MachineListed(x.tm.machine.name, inst.machines)
    requires SoundSolver(solver) && CompleteSolver(solver)
    ensures GradedCorrect(inst, level, Decode(inst.jobs, a), a(Objective), refObjective, solver)
  {
    var sol, t := Decode(inst.jobs, a), TablesOf(Alts(inst.jobs));
    ReferenceScheduleForced(inst, level, a);
    var f := Forcing(sol, inst.jobs, t);
    AddAllSatisfies(a, ModelAt(inst, level), f.value);
    assert Solved(solver(ForcedModel(inst, level, f.value)).status);
    var b := solver(ForcedModel(inst, level, f.value)).values;
    AddAllSatisfies(b, ModelAt(inst, level), f.value);
    DecodedSyntaxOk(inst, level, b);
    // the first job of the candidate is pinned on, so `b` schedules it too
    DecodePairs(inst.jobs, a);
    assert sol[0] in sol;
    var job :| job in inst.jobs && JobEntries(job, a) != [] && sol[0] == (job.name, JobEntries(job, a));
    var es := JobEntries(job, a);
    ForcingSatisfied(b, sol, inst.jobs, t);
    assert JobMet(b, sol[0], inst.jobs, t);
    GetJobByName(inst.jobs, job);
    ForceEntriesMeaning(b, job.name, job.tasks, es, t);
    var k := PinKey(job.name, job.tasks, 0, es[0]);
    assert Pinned(b, t, k, es[0]);
    TablesOfCovered(inst.jobs);
    FirstPinKey(inst, level, a, job);
    var x :| x in TaskAlts(job, job.tasks) && KeyOf(x) == k;
    EntriesOfMember(TaskAlts(job, job.tasks), b, x);
    DecodeGet(inst.jobs, b, job);
  }

  // ---------------------------------------------------------------------
  // add_orders

  /** add_orders: each order under its name, or the first name seen twice. */
  function Registered(orders: seq<JobScheduler>): Result<Dict<string, JobScheduler>, string> {
    if orders == [] then Ok([])
    else
      var r := Registered(orders[..|orders| - 1]);
      var o := orders[|orders| - 1];
      if r.Err? then r
      else if Get(r.value, o.name).Some? then Err(o.name)
      else Ok(Put(r.value, o.name, o))
  }

  /** When loading succeeds, the dictionary lists every order under its own name, in order. */
  lemma {:induction false} RegisteredContents(orders: seq<JobScheduler>)
    requires Registered(orders).Ok?
    ensures var d := Registered(orders).value;
      |d| == |orders| && forall i :: 0 <= i < |orders| ==> d[i] == (orders[i].name, orders[i])
  {
    if orders != [] {
      var init, o, n := orders[..|orders| - 1], orders[|orders| - 1], |orders| - 1;
      var d := Registered(init).value;
      RegisteredContents(init);
      assert Get(d, o.name).None?;
      PutNew(d, o.name, o);
      assert Registered(orders) == Ok(d + [(o.name, o)]);
      MapSnoc(orders, init, d, (x: JobScheduler) => (x.name, x));
    }
  }

  /** Loading succeeds exactly when the order names are distinct. */
  lemma {:induction false} RegisteredOk(orders: seq<JobScheduler>)
    ensures Registered(orders).Ok? <==> forall i, j :: 0 <= i < j < |orders| ==> orders[i].name != orders[j].name
  {
    if orders != [] {
      var init, o, n := orders[..|orders| - 1], orders[|orders| - 1], |orders| - 1;
      RegisteredOk(init);
      var r := Registered(init);
      if r.Err? {
        var i, j :| 0 <= i < j < n && init[i].name == init[j].name;
        assert orders[i] == init[i] && orders[j] == init[j];
      } else {
        RegisteredContents(init);
        var d := r.value;
        var k := Find(d, o.name);
        if k >= 0 {
          assert orders[k] == init[k];
          assert orders[k].name == orders[n].name;
        } else {
          forall i, j | 0 <= i < j < |orders| ensures orders[i].name != orders[j].name {
            assert orders[i] == init[i];
            if j < n {
              assert orders[j] == init[j];
            } else {
              assert d[i].0 != o.name;
            }
          }
        }
      }
    }
  }

  /** When loading fails, the name it reports is shared by two orders. */
  lemma {:induction false} RegisteredErr(orders: seq<JobScheduler>)
    requires Registered(orders).Err?
    ensures exists i, j :: 0 <= i < j < |orders| && orders[i].name == orders[j].name == Registered(orders).error
  {
    var init, o, n := orders[..|orders| - 1], orders[|orders| - 1], |orders| - 1;
    var r := Registered(init);
    if r.Err? {
      RegisteredErr(init);
      var i, j :| 0 <= i < j < n && init[i].name == init[j].name == r.error;
      assert orders[i] == init[i] && orders[j] == init[j];
    } else {
      RegisteredContents(init);
      var k := Find(r.value, o.name);
      assert orders[k] == init[k];
      assert orders[k].name == orders[n].name == Registered(orders).error;
    }
  }

  lemma {:induction false} RegisteredErrSticks(orders: seq<JobScheduler>, n: int)
    requires 0 <= n <= |orders| && Registered(orders[..n]).Err?
    ensures Registered(orders) == Registered(orders[..n])
    decreases |orders| - n
  {
    if n < |orders| {
      assert orders[..n + 1][..n] == orders[..n];
      RegisteredErrSticks(orders, n + 1);
    } else {
      assert orders[..n] == orders;
    }
  }

  /** add_orders over the parsed orders. */
  method AddOrders(orders: seq<JobScheduler>) returns (r: Result<Dict<string, JobScheduler>, string>)
    ensures r == Registered(orders)
  {
    var d: Dict<string, JobScheduler> := [];
    for i := 0 to |orders|
      invariant Registered(orders[..i]) == Ok(d)
    {
      var o := orders[i];
      assert orders[..i + 1][..i] == orders[..i] && orders[..i + 1][i] == o;
      if Get(d, o.name).Some? {
        RegisteredErrSticks(orders, i + 1);
        return Err(o.name);
      }
      d := Put(d, o.name, o);
    }
    assert orders[..|orders|] == orders;
    return Ok(d);
  }

  // ---------------------------------------------------------------------
  // Greenhouse: isOn, createStudentConstraints, greenhouse_test

  /** isOn: some interval `(a, b)` of the behavior has `a // c <= t < b // c`. */
  function IsOn(times: seq<(int, int)>, t: int, c: int): (r: bool)
    requires c != 0
    ensures r <==> exists k :: 0 <= k < |times| && Greenhouse.FloorDiv(times[k].0, c) <= t < Greenhouse.FloorDiv(times[k].1, c)
  {
    if times == [] then false
    else
      (Greenhouse.FloorDiv(times[0].0, c) <= t < Greenhouse.FloorDiv(times[0].1, c)) || IsOn(times[1..], t, c)
  }

  /** The constraints pinning chunks `0 .. n-1` of behavior `b` to the candidate's times; None on a missing variable. */
  function ChunkPins(tbl: map<(string, int), Greenhouse.GVar>, b: string, times: seq<(int, int)>, n: int, c: int)
    : Option<seq<Constraint<Greenhouse.GVar>>>
    requires c != 0
    decreases n
  {
    if n <= 0 then Some([])
    else
      var r := ChunkPins(tbl, b, times, n - 1, c);
      if r.None? || (b, n - 1) !in tbl then None
      else Some(r.value + [Pin(tbl[(b, n - 1)], if IsOn(times, n - 1, c) then 1 else 0)])
  }

  /** createStudentConstraints: None when the schedule lacks a behavior or a variable is missing. */
  function StudentPins(bs: seq<string>, h: int, c: int, schedule: Dict<string, seq<(int, int)>>,
                       tbl: map<(string, int), Greenhouse.GVar>): Option<seq<Constraint<Greenhouse.GVar>>>
    requires c != 0
  {
    if bs == [] then Some([])
    else
      var r := StudentPins(bs[..|bs| - 1], h, c, schedule, tbl);
      var b := bs[|bs| - 1];
      var times := Get(schedule, b + "Behavior");
      if r.None? || times.None? then None
      else
        var cs := ChunkPins(tbl, b, times.value, h, c);
        if cs.None? then None else Some(r.value + cs.value)
  }

  /** Every (behavior, chunk) of `bs` below `h` has its own Boolean in `tbl`. */
  ghost predicate Covers(tbl: map<(string, int), Greenhouse.GVar>, bs: seq<string>, h: int) {
    forall i :: 0 <= i < |bs| ==> Greenhouse.ChunkCovers(tbl, bs[i], h)
  }

  lemma {:induction false} ChunkPinsSome(tbl: map<(string, int), Greenhouse.GVar>, b: string, times: seq<(int, int)>, n: int, c: int)
    requires c != 0 && Greenhouse.ChunkCovers(tbl, b, n)
    ensures ChunkPins(tbl, b, times, n, c).Some?
    decreases n
  {
    if n > 0 {
      ChunkPinsSome(tbl, b, times, n - 1, c);
    }
  }

  /** In `g`, behavior `b`'s Boolean in each chunk below `n` is isOn of `times`. */
  ghost predicate FollowsTimes(g: Greenhouse.GVar -> int, b: string, times: seq<(int, int)>, n: int, c: int)
    requires c != 0
  {
    forall t :: 0 <= t < n ==> g(Greenhouse.Active(b, t)) == if IsOn(times, t, c) then 1 else 0
  }

  /** The schedule lists behavior `b`, and `g` follows its times in every chunk below `h`. */
  ghost predicate FollowsSchedule(g: Greenhouse.GVar -> int, b: string, schedule: Dict<string, seq<(int, int)>>, h: int, c: int)
    requires c != 0
  {
    Get(schedule, b + "Behavior").Some? && FollowsTimes(g, b, Get(schedule, b + "Behavior").value, h, c)
  }

  /** With every variable present, an assignment meets one behavior's pins exactly when each chunk's Boolean is isOn. */
  lemma {:induction false} ChunkPinsSatisfied(g: Greenhouse.GVar -> int, tbl: map<(string, int), Greenhouse.GVar>,
                                              b: string, times: seq<(int, int)>, n: int, c: int)
    requires c != 0 && Greenhouse.ChunkCovers(tbl, b, n)
    ensures ChunkPins(tbl, b, times, n, c).Some?
    ensures SatisfiesAll(g, ChunkPins(tbl, b, times, n, c).value) <==> FollowsTimes(g, b, times, n, c)
    decreases n
  {
    ChunkPinsSome(tbl, b, times, n, c);
    if n > 0 {
      ChunkPinsSatisfied(g, tbl, b, times, n - 1, c);
      var v := if IsOn(times, n - 1, c) then 1 else 0;
      var x := tbl[(b, n - 1)];
      assert x == Greenhouse.Active(b, n - 1);
      var r := ChunkPins(tbl, b, times, n - 1, c).value;
      assert ChunkPins(tbl, b, times, n, c).value == r + [Pin(x, v)];
      SatisfiesAllAppend(g, r, [Pin(x, v)]);
      PinMeaning(g, x, v);
      assert [Pin(x, v)][0] == Pin(x, v);
      assert SatisfiesAll(g, [Pin(x, v)]) <==> SatisfiesConstraint(g, Pin(x, v));
      AllBelow(n, t => g(Greenhouse.Active(b, t)) == if IsOn(times, t, c) then 1 else 0);
    }
  }

  /**
   * The pinning succeeds exactly when the schedule lists every behavior, and
   * an assignment then meets it exactly when each behavior's Boolean in each
   * chunk equals isOn of the candidate's times.
   */
  lemma {:induction false} StudentPinsMeaning(g: Greenhouse.GVar -> int, bs: seq<string>, h: int, c: int,
                                              schedule: Dict<string, seq<(int, int)>>, tbl: map<(string, int), Greenhouse.GVar>)
    requires c != 0 && Covers(tbl, bs, h)
    ensures StudentPins(bs, h, c, schedule, tbl).Some? <==> forall i :: 0 <= i < |bs| ==> Get(schedule, bs[i] + "Behavior").Some?
    ensures StudentPins(bs, h, c, schedule, tbl).Some? ==>
              (SatisfiesAll(g, StudentPins(bs, h, c, schedule, tbl).value) <==>
               forall i :: 0 <= i < |bs| ==> FollowsSchedule(g, bs[i], schedule, h, c))
  {
    if bs != [] {
      var init, b := bs[..|bs| - 1], bs[|bs| - 1];
      assert Covers(tbl, init, h) by {
        forall i | 0 <= i < |init| ensures Greenhouse.ChunkCovers(tbl, init[i], h) {
          assert init[i] == bs[i];
        }
      }
      StudentPinsMeaning(g, init, h, c, schedule, tbl);
      AllSnoc(bs, init, x => Get(schedule, x + "Behavior").Some?);
      AllSnoc(bs, init, x => FollowsSchedule(g, x, schedule, h, c));
      var times := Get(schedule, b + "Behavior");
      if times.Some? {
        assert Greenhouse.ChunkCovers(tbl, bs[|bs| - 1], h);
        ChunkPinsSatisfied(g, tbl, b, times.value, h, c);
        if StudentPins(init, h, c, schedule, tbl).Some? {
          SatisfiesAllAppend(g, StudentPins(init, h, c, schedule, tbl).value, ChunkPins(tbl, b, times.value, h, c).value);
        }
      }
    }
  }

  /** The inner loop of createStudentConstraints for one behavior. */
  method PinBehavior(tbl: map<(string, int), Greenhouse.GVar>, m: Model<Greenhouse.GVar>, b: string,
                     times: seq<(int, int)>, h: int, c: int)
    returns (ok: bool, m': Model<Greenhouse.GVar>)
    requires c != 0
    ensures ok == ChunkPins(tbl, b, times, h, c).Some?
    ensures m'.decls == m.decls && m'.objective == m.objective
    ensures ok ==> m'.constraints == m.constraints + ChunkPins(tbl, b, times, h, c).value
  {
    m' := m;
    var t := 0;
    while t < h
      invariant 0 <= t && (h >= 0 ==> t <= h) && (h < 0 ==> t == 0)
      invariant ChunkPins(tbl, b, times, t, c).Some?
      invariant m' == m.(constraints := m.constraints + ChunkPins(tbl, b, times, t, c).value)
    {
      if (b, t) !in tbl {
        ChunkPinsNoneSticks(tbl, b, times, t + 1, h, c);
        return false, m';
      }
      ghost var cs := ChunkPins(tbl, b, times, t, c).value;
      var v := if IsOn(times, t, c) then 1 else 0;
      m' := Add(m', Pin(tbl[(b, t)], v));
      assert m.constraints + cs + [Pin(tbl[(b, t)], v)] == m.constraints + (cs + [Pin(tbl[(b, t)], v)]);
      t := t + 1;
    }
    if h < 0 {
      assert ChunkPins(tbl, b, times, h, c) == ChunkPins(tbl, b, times, t, c);
    }
    ok := true;
  }

  lemma {:induction false} ChunkPinsNoneSticks(tbl: map<(string, int), Greenhouse.GVar>, b: string, times: seq<(int, int)>,
                                               n: int, h: int, c: int)
    requires c != 0 && n <= h && ChunkPins(tbl, b, times, n, c).None?
    ensures ChunkPins(tbl, b, times, h, c).None?
    decreases h - n
  {
    if n < h {
      ChunkPinsNoneSticks(tbl, b, times, n + 1, h, c);
    }
  }

  lemma {:induction false} StudentPinsNoneSticks(bs: seq<string>, n: int, h: int, c: int,
                                                 schedule: Dict<string, seq<(int, int)>>, tbl: map<(string, int), Greenhouse.GVar>)
    requires c != 0 && 0 <= n <= |bs| && StudentPins(bs[..n], h, c, schedule, tbl).None?
    ensures StudentPins(bs, h, c, schedule, tbl).None?
    decreases |bs| - n
  {
    if n < |bs| {
      assert bs[..n + 1][..n] == bs[..n];
      StudentPinsNoneSticks(bs, n + 1, h, c, schedule, tbl);
    } else {
      assert bs[..n] == bs;
    }
  }

  /** `m` is `m0` with the pins of the first `i` behaviors of `bs` added. */
  ghost predicate PinnedPrefix(m0: Model<Greenhouse.GVar>, m: Model<Greenhouse.GVar>, bs: seq<string>, i: int, h: int, c: int,
                               schedule: Dict<string, seq<(int, int)>>, tbl: map<(string, int), Greenhouse.GVar>)
    requires c != 0 && 0 <= i <= |bs|
  {
    && StudentPins(bs[..i], h, c, schedule, tbl).Some?
    && m.decls == m0.decls && m.objective == m0.objective
    && m.constraints == m0.constraints + StudentPins(bs[..i], h, c, schedule, tbl).value
  }

  /** Pinning behavior `i` extends the pinned prefix by one behavior. */
  lemma PinnedPrefixStep(m0: Model<Greenhouse.GVar>, m: Model<Greenhouse.GVar>, m': Model<Greenhouse.GVar>, bs: seq<string>, i: int,
                         h: int, c: int, schedule: Dict<string, seq<(int, int)>>, tbl: map<(string, int), Greenhouse.GVar>,
                         times: seq<(int, int)>)
    requires c != 0 && 0 <= i < |bs| && PinnedPrefix(m0, m, bs, i, h, c, schedule, tbl)
    requires Get(schedule, bs[i] + "Behavior") == Some(times) && ChunkPins(tbl, bs[i], times, h, c).Some?
    requires m'.decls == m.decls && m'.objective == m.objective
    requires m'.constraints == m.constraints + ChunkPins(tbl, bs[i], times, h, c).value
    ensures PinnedPrefix(m0, m', bs, i + 1, h, c, schedule, tbl)
  {
    assert bs[..i + 1][..i] == bs[..i] && bs[..i + 1][i] == bs[i];
    var cs, ps := StudentPins(bs[..i], h, c, schedule, tbl).value, ChunkPins(tbl, bs[i], times, h, c).value;
    assert m0.constraints + cs + ps == m0.constraints + (cs + ps);
  }

  /** A behavior the schedule lacks, or whose pins fail, makes the whole pinning fail. */
  lemma PinnedPrefixFails(bs: seq<string>, i: int, h: int, c: int, schedule: Dict<string, seq<(int, int)>>,
                          tbl: map<(string, int), Greenhouse.GVar>)
    requires c != 0 && 0 <= i < |bs|
    requires Get(schedule, bs[i] + "Behavior").None? || ChunkPins(tbl, bs[i], Get(schedule, bs[i] + "Behavior").value, h, c).None?
    ensures StudentPins(bs, h, c, schedule, tbl).None?
  {
    assert bs[..i + 1][..i] == bs[..i] && bs[..i + 1][i] == bs[i];
    StudentPinsNoneSticks(bs, i + 1, h, c, schedule, tbl);
  }

  /** The loop of createStudentConstraints over the model `m0`. */
  method PinAll(m0: Model<Greenhouse.GVar>, bs: seq<string>, h: int, c: int, schedule: Dict<string, seq<(int, int)>>,
                tbl: map<(string, int), Greenhouse.GVar>) returns (ok: bool, m: Model<Greenhouse.GVar>)
    requires c != 0
    ensures ok == StudentPins(bs, h, c, schedule, tbl).Some?
    ensures m.decls == m0.decls && m.objective == m0.objective
    ensures ok ==> m.constraints == m0.constraints + StudentPins(bs, h, c, schedule, tbl).value
  {
    m := m0;
    assert bs[..0] == [];
    for i := 0 to |bs|
      invariant PinnedPrefix(m0, m, bs, i, h, c, schedule, tbl)
    {
      var behav := Get(schedule, bs[i] + "Behavior");
      if behav.None? {
        PinnedPrefixFails(bs, i, h, c, schedule, tbl);
        return false, m;
      }
      var okB, m' := PinBehavior(tbl, m, bs[i], behav.value, h, c);
      if !okB {
        PinnedPrefixFails(bs, i, h, c, schedule, tbl);
        return false, m';
      }
      PinnedPrefixStep(m0, m, m', bs, i, h, c, schedule, tbl, behav.value);
      m := m';
    }
    assert bs[..|bs|] == bs;
    ok := true;
  }

  /**
   * createStudentConstraints: the candidate's schedule (read from its file,
   * given here as behavior name + "Behavior" -> intervals in minutes) pins
   * every Boolean of the reference model; stops where `createStudentConstraints` raises.
   */
  method CreateStudentConstraints(problem: Greenhouse.GreenhouseScheduler, refsol: Greenhouse.GreenhouseScheduler,
                                  schedule: Dict<string, seq<(int, int)>>)
    returns (ok: bool)
    requires problem.minutesPerChunk != 0
    modifies refsol`model
    ensures var p := StudentPins(problem.Behaviors(), problem.horizon, problem.minutesPerChunk, schedule, refsol.allJobs);
      && ok == p.Some?
      && refsol.model.decls == old(refsol.model).decls && refsol.model.objective == old(refsol.model).objective
      && (ok ==> refsol.model.constraints == old(refsol.model).constraints + p.value)
  {
    ok, refsol.model := PinAll(refsol.model, problem.Behaviors(), problem.horizon, problem.minutesPerChunk, schedule, refsol.allJobs);
  }

  /** The minute intervals of the schedule-file lines of the chunks `ts`, read back through their labels. */
  function LabelTimes(ts: seq<nat>): seq<(int, int)> {
    if ts == [] then []
    else [(Greenhouse.ClockMinutes(Greenhouse.Label(ts[0])), Greenhouse.ClockMinutes(Greenhouse.Label(ts[0] + 1)))]
         + LabelTimes(ts[1..])
  }

  /** With half-hour chunks, isOn over the labels written for chunks `ts` holds exactly at those chunks. */
  lemma {:induction false} IsOnLabels(ts: seq<nat>, t: int)
    ensures IsOn(LabelTimes(ts), t, 30) <==> t in ts
  {
    if ts != [] {
      var k := ts[0];
      Greenhouse.LabelClock(k);
      Greenhouse.LabelClock(k + 1);
      var lt := LabelTimes(ts);
      assert lt[0] == (30 * k, 30 * (k + 1));
      assert Greenhouse.FloorDiv(30 * k, 30) == k;
      assert Greenhouse.FloorDiv(30 * (k + 1), 30) == k + 1;
      assert lt[1..] == LabelTimes(ts[1..]);
      IsOnLabels(ts[1..], t);
      assert t in ts <==> t == k || t in ts[1..];
    }
  }

  /**
   * A candidate's own schedule pins the reference model to the candidate's
   * values: when each behavior's times are the labels of its active chunks,
   * a 0/1 assignment meets every constraint createStudentConstraints adds.
   */
  lemma OwnScheduleConsistent(g: Greenhouse.GVar -> int, bs: seq<string>, h: int,
                              schedule: Dict<string, seq<(int, int)>>, tbl: map<(string, int), Greenhouse.GVar>)
    requires Covers(tbl, bs, h)
    requires forall b, t :: b in bs && 0 <= t < h ==> 0 <= g(Greenhouse.Active(b, t)) <= 1
    requires forall b :: b in bs ==> Get(schedule, b + "Behavior") == Some(LabelTimes(Greenhouse.ActiveChunks(g, b, h)))
    ensures StudentPins(bs, h, 30, schedule, tbl).Some?
    ensures SatisfiesAll(g, StudentPins(bs, h, 30, schedule, tbl).value)
  {
    StudentPinsMeaning(g, bs, h, 30, schedule, tbl);
    forall i | 0 <= i < |bs| ensures FollowsSchedule(g, bs[i], schedule, h, 30) {
      assert bs[i] in bs;
      Greenhouse.ActiveChunksMeaning(g, bs[i], h);
      forall t | 0 <= t < h
        ensures g(Greenhouse.Active(bs[i], t)) == if IsOn(Get(schedule, bs[i] + "Behavior").value, t, 30) then 1 else 0
      {
        IsOnLabels(Greenhouse.ActiveChunks(g, bs[i], h), t);
      }
    }
  }

  /** greenhouse_test: 1 when whether a (non-empty) solution was found matches the expectation. */
  function GreenhouseScore(found: Option<seq<(int, int)>>, shouldSucceed: bool): (score: int)
    ensures score == 0 || score == 1
    ensures score == 1 <==> (found.Some? && found.value != []) == shouldSucceed
  {
    if found.None? || found.value == [] then
      if shouldSucceed then 0 else 1
    else
      if shouldSucceed then 1 else 0
  }

  /** An empty dictionary is falsy: a solved model with no active chunk scores as "no solution", whatever the expectation. */
  lemma EmptyScheduleIsNoSolution(shouldSucceed: bool)
    ensures GreenhouseScore(Some([]), shouldSucceed) == GreenhouseScore(None, shouldSucceed)
  {
  }
}
