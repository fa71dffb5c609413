/**
 * What the model built by create_model(level) means for any assignment that
 * satisfies it: the domains and interval of every alternative, the gating of
 * the constraint families by level, at most one alternative per task, all of
 * a job or none of it, no overlap on a machine, task order within a job, the
 * shape of the reservoir event lists, the objective, and what the decoder of
 * solve() returns.
 */
module JobProperties {
  import opened Wrappers
  import opened Dicts
  import opened CpSat
  import opened Domain
  import opened JobSpec

  // ---------------------------------------------------------------------
  // Sequence helpers

  lemma InInit<T>(s: seq<T>, x: T)
    requires x in s && s != [] && x != s[|s| - 1]
    ensures x in s[..|s| - 1]
  {
    var i :| 0 <= i < |s| && s[i] == x;
    assert s[..|s| - 1][i] == x;
  }

  lemma LastIn<T>(s: seq<T>)
    requires s != []
    ensures s[|s| - 1] in s
  {
  }

  // ---------------------------------------------------------------------
  // Variables: start, end, flag and interval of every alternative

  /** The three declarations of an alternative are among those of any list that holds it. */
  lemma {:induction false} AltDeclsMember(alts: seq<Alt>, x: Alt, deadline: int)
    requires x in alts
    ensures var k := KeyOf(x);
      && Decl(Start(k), 1, deadline) in AltDecls(alts, deadline)
      && Decl(End(k), 1, deadline) in AltDecls(alts, deadline)
      && Decl(Scheduled(k), 0, 1) in AltDecls(alts, deadline)
  {
    if x != alts[|alts| - 1] {
      InInit(alts, x);
      AltDeclsMember(alts[..|alts| - 1], x, deadline);
    }
  }

  lemma {:induction false} IntervalConsMember(alts: seq<Alt>, x: Alt)
    requires x in alts
    ensures IntervalOf(IvOf(x)) in IntervalCons(alts)
  {
    if x != alts[|alts| - 1] {
      InInit(alts, x);
      IntervalConsMember(alts[..|alts| - 1], x);
    }
  }

  /**
   * At every level, each alternative's start and end lie in [1, deadline], its
   * flag is 0 or 1, and when the flag is set the end is the start plus the
   * alternative's duration.
   */
  lemma AltVariables(inst: Instance, level: int, a: Var -> int, x: Alt)
    requires Satisfies(a, ModelAt(inst, level)) && x in Alts(inst.jobs)
    ensures var k := KeyOf(x);
      && 1 <= a(Start(k)) <= inst.deadline && 1 <= a(End(k)) <= inst.deadline
      && 0 <= a(Scheduled(k)) <= 1
      && (a(Scheduled(k)) != 0 ==> a(End(k)) == a(Start(k)) + x.tm.duration)
  {
    var m := ModelAt(inst, level);
    var k := KeyOf(x);
    AltDeclsMember(Alts(inst.jobs), x, inst.deadline);
    DomainMember(a, m, Decl(Start(k), 1, inst.deadline));
    DomainMember(a, m, Decl(End(k), 1, inst.deadline));
    DomainMember(a, m, Decl(Scheduled(k), 0, 1));
    IntervalConsMember(Alts(inst.jobs), x);
    SatisfiesMember(a, m, IntervalOf(IvOf(x)));
  }

  // ---------------------------------------------------------------------
  // Level gating

  /**
   * Raising the level keeps every declaration and constraint, except that at
   * the step from 6 to 7 with costs in use the objective definition changes
   * from `value` to `value - cost`.
   */
  lemma LevelMonotone(inst: Instance, level: int)
    requires !(level == 6 && inst.useCosts)
    ensures Submodel(ModelAt(inst, level), ModelAt(inst, level + 1))
  {
    var m, m' := ModelAt(inst, level), ModelAt(inst, level + 1);
    forall d | d in m.decls ensures d in m'.decls {
    }
    forall c | c in m.constraints ensures c in m'.constraints {
      if c in TaskLevelCons(inst, level) {
        assert c in TaskLevelCons(inst, level + 1);
      } else if c in JobLevelCons(inst, level) {
        assert c in JobLevelCons(inst, level + 1);
      } else if c in ResourceCons(inst, level) {
        assert c in ResourceCons(inst, level + 1);
      }
    }
  }

  /** So an assignment that satisfies a higher level satisfies every lower one (within the same objective definition). */
  lemma {:induction false} LevelSatisfies(inst: Instance, lo: int, hi: int, a: Var -> int)
    requires lo <= hi && (hi <= 6 || lo >= 7 || !inst.useCosts)
    requires Satisfies(a, ModelAt(inst, hi))
    ensures Satisfies(a, ModelAt(inst, lo))
    decreases hi - lo
  {
    if lo < hi {
      LevelMonotone(inst, hi - 1);
      SubmodelSatisfies(a, ModelAt(inst, hi - 1), ModelAt(inst, hi));
      LevelSatisfies(inst, lo, hi - 1, a);
    }
  }

  /**
   * At levels 5 and 6 the reservoirs are present exactly when parts are in
   * use: without them, levels 5 and 6 build the very model of level 4, and
   * any level builds the same constraints as level 4 apart from the
   * objective equation.
   */
  lemma ResourcesNeedParts(inst: Instance, level: int)
    ensures !inst.useParts ==> ResourceCons(inst, level) == []
    ensures inst.useParts && level >= 6 ==> ResourceCons(inst, level) == ToolCons(inst.tools, inst.jobs) + PartCons(inst.parts, inst.jobs)
    ensures !inst.useParts && 4 <= level <= 6 ==> ModelAt(inst, level) == ModelAt(inst, 4)
    ensures !inst.useParts && level >= 4 ==>
              ConstraintsAt(inst, level)[..|ConstraintsAt(inst, level)| - 1] == ConstraintsAt(inst, 4)[..|ConstraintsAt(inst, 4)| - 1]
  {
    if !inst.useParts && level >= 4 {
      PartlessConstraints(inst, level);
      PartlessConstraints(inst, 4);
    }
  }

  /** Without parts in use, from level 4 on, the constraints are the level-4 ones up to the objective equation. */
  lemma PartlessConstraints(inst: Instance, level: int)
    requires !inst.useParts && level >= 4
    ensures ConstraintsAt(inst, level) ==
              IntervalCons(Alts(inst.jobs)) + TaskLevelCons(inst, 4) + JobLevelCons(inst, 4)
              + [ValueCons(Alts(inst.jobs)), ObjectiveCons(inst.useCosts && level >= 7)]
  {
    assert TaskLevelCons(inst, level) == TaskLevelCons(inst, 4) && JobLevelCons(inst, level) == JobLevelCons(inst, 4);
    assert ResourceCons(inst, level) == [];
  }

  // ---------------------------------------------------------------------
  // Level 1: at most one alternative per task

  lemma {:induction false} AtMostOneInJob(job: Job, ts: seq<Task>, task: Task)
    requires task in ts
    ensures AtMostOne(job, task) in TaskConsOfJob(job, ts)
  {
    if task != ts[|ts| - 1] {
      InInit(ts, task);
      AtMostOneInJob(job, ts[..|ts| - 1], task);
    }
  }

  lemma {:induction false} AtMostOneIn(js: seq<Job>, job: Job, task: Task)
    requires job in js && task in job.tasks
    ensures AtMostOne(job, task) in TaskCons(js)
  {
    if job == js[|js| - 1] {
      AtMostOneInJob(job, job.tasks, task);
    } else {
      InInit(js, job);
      AtMostOneIn(js[..|js| - 1], job, task);
    }
  }

  /** From level 1 on, at most one alternative of each task is scheduled. */
  lemma AtMostOneHolds(inst: Instance, level: int, a: Var -> int, job: Job, task: Task)
    requires level >= 1 && Satisfies(a, ModelAt(inst, level))
    requires job in inst.jobs && task in job.tasks
    ensures SumOf(a, TaskFlags(job, task)) <= 1
  {
    AtMostOneIn(inst.jobs, job, task);
    SatisfiesMember(a, ModelAt(inst, level), AtMostOne(job, task));
    EvalOnes(a, TaskFlags(job, task));
  }

  // ---------------------------------------------------------------------
  // Level 4: all of a job or nothing

  lemma {:induction false} TaskSumsInJob(job: Job, ts: seq<Task>, task: Task)
    requires task in ts
    ensures TaskSum(job, task, 1, Pos(Started(job.name))) in CompletionConsOfJob(job, ts)
    ensures TaskSum(job, task, 0, Neg(Started(job.name))) in CompletionConsOfJob(job, ts)
  {
    if task != ts[|ts| - 1] {
      InInit(ts, task);
      TaskSumsInJob(job, ts[..|ts| - 1], task);
    }
  }

  lemma {:induction false} TaskSumsIn(js: seq<Job>, job: Job, task: Task)
    requires job in js && task in job.tasks
    ensures TaskSum(job, task, 1, Pos(Started(job.name))) in CompletionCons(js)
    ensures TaskSum(job, task, 0, Neg(Started(job.name))) in CompletionCons(js)
  {
    if job == js[|js| - 1] {
      TaskSumsInJob(job, job.tasks, task);
    } else {
      InInit(js, job);
      TaskSumsIn(js[..|js| - 1], job, task);
    }
  }

  /** The number of alternatives of a task that an assignment schedules. */
  function Chosen(a: Var -> int, job: Job, task: Task): int {
    SumOf(a, TaskFlags(job, task))
  }

  /** The task sums of a job follow its `started` flag. */
  lemma StartedDecides(inst: Instance, level: int, a: Var -> int, job: Job, task: Task)
    requires level >= 4 && Satisfies(a, ModelAt(inst, level))
    requires job in inst.jobs && task in job.tasks
    ensures Chosen(a, job, task) == if a(Started(job.name)) != 0 then 1 else 0
  {
    TaskSumsIn(inst.jobs, job, task);
    TaskSumsForce(a, ModelAt(inst, level), job, task);
  }

  /** Whatever model holds both task sums of a task, an assignment satisfying it schedules the task as `started` says. */
  lemma TaskSumsForce(a: Var -> int, m: Model<Var>, job: Job, task: Task)
    requires Satisfies(a, m)
    requires TaskSum(job, task, 1, Pos(Started(job.name))) in m.constraints
    requires TaskSum(job, task, 0, Neg(Started(job.name))) in m.constraints
    ensures Chosen(a, job, task) == if a(Started(job.name)) != 0 then 1 else 0
  {
    EvalOnes(a, TaskFlags(job, task));
    if a(Started(job.name)) != 0 {
      SatisfiesMember(a, m, TaskSum(job, task, 1, Pos(Started(job.name))));
      assert AllHold(a, [Pos(Started(job.name))]);
    } else {
      SatisfiesMember(a, m, TaskSum(job, task, 0, Neg(Started(job.name))));
      assert AllHold(a, [Neg(Started(job.name))]);
    }
  }

  /** From level 4 on, either every task of a job has one scheduled alternative or none has. */
  lemma AllOrNothing(inst: Instance, level: int, a: Var -> int, job: Job)
    requires level >= 4 && Satisfies(a, ModelAt(inst, level)) && job in inst.jobs
    ensures || (forall t :: t in job.tasks ==> Chosen(a, job, t) == 1)
            || (forall t :: t in job.tasks ==> Chosen(a, job, t) == 0)
  {
    forall t | t in job.tasks ensures Chosen(a, job, t) == if a(Started(job.name)) != 0 then 1 else 0 {
      StartedDecides(inst, level, a, job, t);
    }
  }

  // ---------------------------------------------------------------------
  // Level 2: no overlap on a machine

  /** No interval is collected for a machine exactly when no alternative uses it. */
  lemma {:induction false} MachineIvsEmpty(m: Machine, alts: seq<Alt>, ivs: map<Key, Interval<Var>>)
    requires forall x :: x in alts ==> KeyOf(x) in ivs
    ensures MachineIvs(m, alts, ivs) == [] <==> forall x :: x in alts ==> x.tm.machine != m
  {
    if alts != [] {
      var init := alts[..|alts| - 1];
      MachineIvsEmpty(m, init, ivs);
      assert alts == init + [alts[|alts| - 1]];
    }
  }

  /** The interval of the `i`-th alternative sits right after those of the earlier alternatives on the same machine. */
  lemma MachineIvsAt(m: Machine, alts: seq<Alt>, ivs: map<Key, Interval<Var>>, i: int)
    requires forall x :: x in alts ==> KeyOf(x) in ivs
    requires 0 <= i < |alts| && alts[i].tm.machine == m
    ensures var p := |MachineIvs(m, alts[..i], ivs)|;
      p < |MachineIvs(m, alts, ivs)| && MachineIvs(m, alts, ivs)[p] == ivs[KeyOf(alts[i])]
  {
    assert alts == alts[..i + 1] + alts[i + 1..];
    assert alts[..i + 1][..i] == alts[..i];
    MachineIvsAppend(m, alts[..i + 1], alts[i + 1..], ivs);
  }

  lemma MachineIvsGrows(m: Machine, alts: seq<Alt>, ivs: map<Key, Interval<Var>>, i: int, j: int)
    requires forall x :: x in alts ==> KeyOf(x) in ivs
    requires 0 <= i < j <= |alts| && alts[i].tm.machine == m
    ensures |MachineIvs(m, alts[..i], ivs)| < |MachineIvs(m, alts[..j], ivs)|
  {
    assert alts[..j] == alts[..i + 1] + alts[i + 1..j];
    assert alts[..i + 1][..i] == alts[..i];
    MachineIvsAppend(m, alts[..i + 1], alts[i + 1..j], ivs);
  }

  lemma {:induction false} NoOverlapIn(ms: seq<Machine>, alts: seq<Alt>, ivs: map<Key, Interval<Var>>, m: Machine)
    requires forall x :: x in alts ==> KeyOf(x) in ivs
    requires m in ms && MachineIvs(m, alts, ivs) != []
    ensures NoOverlap(MachineIvs(m, alts, ivs)) in MachineConsOver(ms, alts, ivs)
  {
    if m != ms[|ms| - 1] {
      InInit(ms, m);
      NoOverlapIn(ms[..|ms| - 1], alts, ivs, m);
    }
  }

  /** What the no-overlap constraint of one machine says about two of its alternatives. */
  lemma NoOverlapMeaning(a: Var -> int, m: Machine, alts: seq<Alt>, i: int, j: int)
    requires 0 <= i < j < |alts| && alts[i].tm.machine == m && alts[j].tm.machine == m
    requires SatisfiesConstraint(a, NoOverlap(MachineIvsOf(m, alts)))
    requires a(Scheduled(KeyOf(alts[i]))) != 0 && a(Scheduled(KeyOf(alts[j]))) != 0
    ensures var ki, kj := KeyOf(alts[i]), KeyOf(alts[j]);
      a(End(ki)) <= a(Start(kj)) || a(End(kj)) <= a(Start(ki))
  {
    var ivs := TablesOf(alts).ivs;
    TablesOverKeys(NoTables, alts);
    TablesOverConsistent(NoTables, alts);
    var ivl := MachineIvs(m, alts, ivs);
    MachineIvsAt(m, alts, ivs, i);
    MachineIvsAt(m, alts, ivs, j);
    MachineIvsGrows(m, alts, ivs, i, j);
    var p, q := |MachineIvs(m, alts[..i], ivs)|, |MachineIvs(m, alts[..j], ivs)|;
    assert ivl[p] == ivs[KeyOf(alts[i])] && ivl[q] == ivs[KeyOf(alts[j])];
    assert a(ivl[p].present) != 0 && a(ivl[q].present) != 0;
  }

  /**
   * From level 2 on, two scheduled alternatives bound to the same listed
   * machine do not overlap in time.
   */
  lemma NoOverlapHolds(inst: Instance, level: int, a: Var -> int, i: int, j: int)
    requires level >= 2 && Satisfies(a, ModelAt(inst, level))
    requires var alts := Alts(inst.jobs);
      && 0 <= i < j < |alts| && alts[i].tm.machine == alts[j].tm.machine && alts[i].tm.machine in inst.machines
      && a(Scheduled(KeyOf(alts[i]))) != 0 && a(Scheduled(KeyOf(alts[j]))) != 0
    ensures var alts := Alts(inst.jobs); var ki, kj := KeyOf(alts[i]), KeyOf(alts[j]);
      a(End(ki)) <= a(Start(kj)) || a(End(kj)) <= a(Start(ki))
  {
    var alts := Alts(inst.jobs);
    var m := alts[i].tm.machine;
    var ivs := TablesOf(alts).ivs;
    TablesOverKeys(NoTables, alts);
    MachineIvsEmpty(m, alts, ivs);
    assert alts[i] in alts;
    NoOverlapIn(inst.machines, alts, ivs, m);
    SatisfiesMember(a, ModelAt(inst, level), NoOverlap(MachineIvs(m, alts, ivs)));
    NoOverlapMeaning(a, m, alts, i, j);
  }

  // ---------------------------------------------------------------------
  // Level 3: task order within a job

  lemma {:induction false} PrecRowMember(job: Job, t1: Task, tm1: TaskMachine, t2: Task, tm2s: seq<TaskMachine>, tm2: TaskMachine)
    requires tm2 in tm2s
    ensures Precedence(job, t1, tm1, t2, tm2) in PrecRow(job, t1, tm1, t2, tm2s)
  {
    if tm2 != tm2s[|tm2s| - 1] {
      InInit(tm2s, tm2);
      PrecRowMember(job, t1, tm1, t2, tm2s[..|tm2s| - 1], tm2);
    }
  }

  lemma {:induction false} PrecPairMember(job: Job, t1: Task, tm1s: seq<TaskMachine>, t2: Task, tm1: TaskMachine, tm2: TaskMachine)
    requires tm1 in tm1s && tm2 in t2.taskMachines
    ensures Precedence(job, t1, tm1, t2, tm2) in PrecPair(job, t1, tm1s, t2)
  {
    if tm1 == tm1s[|tm1s| - 1] {
      PrecRowMember(job, t1, tm1, t2, t2.taskMachines, tm2);
    } else {
      InInit(tm1s, tm1);
      PrecPairMember(job, t1, tm1s[..|tm1s| - 1], t2, tm1, tm2);
    }
  }

  lemma {:induction false} OrderConsOfPairsMember(job: Job, ps: seq<(Task, Task)>, p: (Task, Task), tm1: TaskMachine, tm2: TaskMachine)
    requires p in ps && tm1 in p.0.taskMachines && tm2 in p.1.taskMachines
    ensures Precedence(job, p.0, tm1, p.1, tm2) in OrderConsOfPairs(job, ps)
  {
    if p == ps[|ps| - 1] {
      PrecPairMember(job, p.0, p.0.taskMachines, p.1, tm1, tm2);
    } else {
      InInit(ps, p);
      OrderConsOfPairsMember(job, ps[..|ps| - 1], p, tm1, tm2);
    }
  }

  lemma {:induction false} PrecedenceIn(js: seq<Job>, job: Job, j: int, tm1: TaskMachine, tm2: TaskMachine)
    requires job in js && 0 <= j < |job.tasks| - 1
    requires tm1 in job.tasks[j].taskMachines && tm2 in job.tasks[j + 1].taskMachines
    ensures Precedence(job, job.tasks[j], tm1, job.tasks[j + 1], tm2) in OrderCons(js)
  {
    if job == js[|js| - 1] {
      var ps := Consecutive(job.tasks);
      assert ps[j] == (job.tasks[j], job.tasks[j + 1]);
      OrderConsOfPairsMember(job, ps, ps[j], tm1, tm2);
    } else {
      InInit(js, job);
      PrecedenceIn(js[..|js| - 1], job, j, tm1, tm2);
    }
  }

  /**
   * From level 3 on, when alternatives of two consecutive tasks of a job are
   * both scheduled, the first ends no later than the second starts.
   */
  lemma PrecedenceHolds(inst: Instance, level: int, a: Var -> int, job: Job, j: int, tm1: TaskMachine, tm2: TaskMachine)
    requires level >= 3 && Satisfies(a, ModelAt(inst, level))
    requires job in inst.jobs && 0 <= j < |job.tasks| - 1
    requires tm1 in job.tasks[j].taskMachines && tm2 in job.tasks[j + 1].taskMachines
    requires var k1, k2 := MakeKey(job, job.tasks[j], tm1.machine), MakeKey(job, job.tasks[j + 1], tm2.machine);
      a(Scheduled(k1)) != 0 && a(Scheduled(k2)) != 0
    ensures var k1, k2 := MakeKey(job, job.tasks[j], tm1.machine), MakeKey(job, job.tasks[j + 1], tm2.machine);
      a(End(k1)) <= a(Start(k2))
  {
    var t1, t2 := job.tasks[j], job.tasks[j + 1];
    PrecedenceIn(inst.jobs, job, j, tm1, tm2);
    SatisfiesMember(a, ModelAt(inst, level), Precedence(job, t1, tm1, t2, tm2));
    PrecedenceMeaning(a, job, t1, tm1, t2, tm2);
  }

  /** What one precedence constraint says once both flags are set. */
  lemma PrecedenceMeaning(a: Var -> int, job: Job, t1: Task, tm1: TaskMachine, t2: Task, tm2: TaskMachine)
    requires SatisfiesConstraint(a, Precedence(job, t1, tm1, t2, tm2))
    requires a(Scheduled(MakeKey(job, t1, tm1.machine))) != 0 && a(Scheduled(MakeKey(job, t2, tm2.machine))) != 0
    ensures a(End(MakeKey(job, t1, tm1.machine))) <= a(Start(MakeKey(job, t2, tm2.machine)))
  {
    var k1, k2 := MakeKey(job, t1, tm1.machine), MakeKey(job, t2, tm2.machine);
    assert AllHold(a, [Pos(Scheduled(k1)), Pos(Scheduled(k2))]);
    assert [Term(1, End(k1))][..0] == [] && [Term(1, Start(k2))][..0] == [];
  }

  /** One precedence per pair of alternatives: `|tm1s| * |t2.taskMachines|` constraints for a task pair. */
  lemma {:induction false} PrecPairCount(job: Job, t1: Task, tm1s: seq<TaskMachine>, t2: Task)
    ensures |PrecPair(job, t1, tm1s, t2)| == |tm1s| * |t2.taskMachines|
  {
    if tm1s != [] {
      PrecPairCount(job, t1, tm1s[..|tm1s| - 1], t2);
      PrecRowCount(job, t1, tm1s[|tm1s| - 1], t2, t2.taskMachines);
      assert (|tm1s| - 1) * |t2.taskMachines| + |t2.taskMachines| == |tm1s| * |t2.taskMachines|;
    }
  }

  lemma {:induction false} PrecRowCount(job: Job, t1: Task, tm1: TaskMachine, t2: Task, tm2s: seq<TaskMachine>)
    ensures |PrecRow(job, t1, tm1, t2, tm2s)| == |tm2s|
  {
    if tm2s != [] {
      PrecRowCount(job, t1, tm1, t2, tm2s[..|tm2s| - 1]);
    }
  }

  /** A job with fewer than two tasks gets no ordering constraint. */
  lemma ShortJobUnordered(job: Job)
    requires |job.tasks| < 2
    ensures OrderConsOfPairs(job, Consecutive(job.tasks)) == []
  {
  }

  // ---------------------------------------------------------------------
  // Levels 5 and 6: the reservoir event lists

  /** An event sits at the start or the end of an alternative and counts only when that alternative is scheduled. */
  predicate Guarded(e: Event) {
    (e.time.Start? || e.time.End?) && e.active == Scheduled(e.time.key)
  }

  /** A tool is taken (+1) when an alternative starts and given back (-1) when it ends. */
  predicate ToolShaped(e: Event) {
    Guarded(e) && e.change == if e.time.Start? then 1 else -1
  }

  /** A part is taken (+1) when an alternative starts; what comes back arrives when one ends. */
  predicate PartShaped(e: Event) {
    Guarded(e) && (e.time.Start? ==> e.change == 1)
  }

  /** The net change of a list of events. */
  function ChangeSum(es: seq<Event>): int {
    if es == [] then 0 else ChangeSum(es[..|es| - 1]) + es[|es| - 1].change
  }

  lemma {:induction false} ChangeSumAppend(a: seq<Event>, b: seq<Event>)
    ensures ChangeSum(a + b) == ChangeSum(a) + ChangeSum(b)
  {
    if b != [] {
      ChangeSumAppend(a, b[..|b| - 1]);
      assert (a + b)[..|a + b| - 1] == a + b[..|b| - 1];
    } else {
      assert a + b == a;
    }
  }

  /** `c` start/end pairs for one key: `2 * c` events whose changes cancel out. */
  lemma {:induction false} ToolPairsShape(k: Key, c: nat)
    ensures |ToolPairs(k, c)| == 2 * c
    ensures forall e :: e in ToolPairs(k, c) ==> ToolShaped(e) && e.time.key == k
    ensures ChangeSum(ToolPairs(k, c)) == 0
  {
    if c > 0 {
      var pair := [Event(Start(k), 1, Scheduled(k)), Event(End(k), -1, Scheduled(k))];
      ToolPairsShape(k, c - 1);
      ChangeSumAppend(ToolPairs(k, c - 1), pair);
      assert ChangeSum(pair) == 0 by {
        assert ChangeSum([pair[0]]) == 1 by { assert [pair[0]][..0] == []; }
        assert pair[..|pair| - 1] == [pair[0]];
      }
    }
  }

  lemma {:induction false} ToolEventsOfTmsShape(job: Job, task: Task, tms: seq<TaskMachine>, c: nat)
    ensures |ToolEventsOfTms(job, task, tms, c)| == 2 * c * |tms|
    ensures forall e :: e in ToolEventsOfTms(job, task, tms, c) ==> ToolShaped(e)
    ensures ChangeSum(ToolEventsOfTms(job, task, tms, c)) == 0
  {
    if tms != [] {
      var k := MakeKey(job, task, tms[|tms| - 1].machine);
      ToolEventsOfTmsShape(job, task, tms[..|tms| - 1], c);
      ToolPairsShape(k, c);
      ChangeSumAppend(ToolEventsOfTms(job, task, tms[..|tms| - 1], c), ToolPairs(k, c));
      assert 2 * c * (|tms| - 1) + 2 * c == 2 * c * |tms|;
    }
  }

  lemma {:induction false} ToolEventsOfJobShape(tool: Tool, job: Job, ts: seq<Task>)
    ensures forall e :: e in ToolEventsOfJob(tool, job, ts) ==> ToolShaped(e)
    ensures ChangeSum(ToolEventsOfJob(tool, job, ts)) == 0
  {
    if ts != [] {
      var t := ts[|ts| - 1];
      var names := ToolNames(t.tools);
      ToolEventsOfJobShape(tool, job, ts[..|ts| - 1]);
      ToolEventsOfTmsShape(job, t, t.taskMachines, Count(names, tool.name));
      ChangeSumAppend(ToolEventsOfJob(tool, job, ts[..|ts| - 1]), ToolEventsOfTask(tool, job, t));
    }
  }

  /**
   * The events create_tools_constraints collects for a tool: each is taken at
   * a start and given back at the matching end, guarded by the alternative's
   * flag, so the changes sum to zero.
   */
  lemma {:induction false} ToolEventsShape(tool: Tool, js: seq<Job>)
    ensures forall e :: e in ToolEvents(tool, js) ==> ToolShaped(e)
    ensures ChangeSum(ToolEvents(tool, js)) == 0
  {
    if js != [] {
      var job := js[|js| - 1];
      ToolEventsShape(tool, js[..|js| - 1]);
      ToolEventsOfJobShape(tool, job, job.tasks);
      ChangeSumAppend(ToolEvents(tool, js[..|js| - 1]), ToolEventsOfJob(tool, job, job.tasks));
    }
  }

  lemma {:induction false} ConsumesShape(k: Key, c: nat)
    ensures |Consumes(k, c)| == c
    ensures forall e :: e in Consumes(k, c) ==> e == Event(Start(k), 1, Scheduled(k))
  {
    if c > 0 {
      ConsumesShape(k, c - 1);
    }
  }

  lemma {:induction false} ConsumeEventsOfTmsShape(job: Job, task: Task, tms: seq<TaskMachine>, c: nat)
    ensures |ConsumeEventsOfTms(job, task, tms, c)| == c * |tms|
    ensures forall e :: e in ConsumeEventsOfTms(job, task, tms, c) ==> PartShaped(e) && e.time.Start?
  {
    if tms != [] {
      ConsumeEventsOfTmsShape(job, task, tms[..|tms| - 1], c);
      ConsumesShape(MakeKey(job, task, tms[|tms| - 1].machine), c);
      assert c * (|tms| - 1) + c == c * |tms|;
    }
  }

  lemma {:induction false} ProduceEventsOfTmsShape(job: Job, task: Task, tms: seq<TaskMachine>, q: int)
    ensures |ProduceEventsOfTms(job, task, tms, q)| == |tms|
    ensures forall e :: e in ProduceEventsOfTms(job, task, tms, q) ==> Guarded(e) && e.time.End? && e.change == -q
  {
    if tms != [] {
      ProduceEventsOfTmsShape(job, task, tms[..|tms| - 1], q);
    }
  }

  lemma {:induction false} PartEventsOfJobShape(part: Part, job: Job, ts: seq<Task>)
    ensures forall e :: e in PartEventsOfJob(part, job, ts) ==> PartShaped(e)
  {
    if ts != [] {
      var t := ts[|ts| - 1];
      var names := PartNames(t.parts);
      PartEventsOfJobShape(part, job, ts[..|ts| - 1]);
      ConsumeEventsOfTmsShape(job, t, t.taskMachines, Count(names, part.name));
      if Produces(t, part) {
        ProduceEventsOfTmsShape(job, t, t.taskMachines, t.quantity);
      }
    }
  }

  /**
   * The events create_parts_constraints collects for a part: every event is
   * guarded by its alternative's flag, and every start event takes one unit.
   */
  lemma {:induction false} PartEventsShape(part: Part, js: seq<Job>)
    ensures forall e :: e in PartEvents(part, js) ==> PartShaped(e)
  {
    if js != [] {
      var job := js[|js| - 1];
      PartEventsShape(part, js[..|js| - 1]);
      PartEventsOfJobShape(part, job, job.tasks);
    }
  }

  /** The three lists handed to the reservoir are aligned: position `i` of each comes from event `i`. */
  lemma {:induction false} EventListsAt(es: seq<Event>, i: int)
    requires 0 <= i < |es|
    ensures Times(es)[i] == es[i].time && Changes(es)[i] == es[i].change && Actives(es)[i] == es[i].active
  {
    if i < |es| - 1 {
      EventListsAt(es[..|es| - 1], i);
    }
  }

  lemma {:induction false} ToolReservoirIn(tools: seq<Tool>, js: seq<Job>, tool: Tool)
    requires tool in tools && ToolEvents(tool, js) != []
    ensures ReservoirOf(ToolEvents(tool, js), tool.num) in ToolCons(tools, js)
  {
    if tool != tools[|tools| - 1] {
      InInit(tools, tool);
      ToolReservoirIn(tools[..|tools| - 1], js, tool);
    }
  }

  lemma {:induction false} PartReservoirIn(parts: seq<Part>, js: seq<Job>, part: Part)
    requires part in parts && PartEvents(part, js) != []
    ensures ReservoirOf(PartEvents(part, js), part.quantity) in PartCons(parts, js)
  {
    if part != parts[|parts| - 1] {
      InInit(parts, part);
      PartReservoirIn(parts[..|parts| - 1], js, part);
    }
  }

  /** Every tool constraint is the reservoir of some listed tool that has events; none is emitted for a tool without. */
  lemma {:induction false} ToolConsOnlyReservoirs(tools: seq<Tool>, js: seq<Job>, c: Constraint<Var>)
    requires c in ToolCons(tools, js)
    ensures exists tool :: tool in tools && ToolEvents(tool, js) != [] && c == ReservoirOf(ToolEvents(tool, js), tool.num)
  {
    var tool := tools[|tools| - 1];
    var es := ToolEvents(tool, js);
    if es != [] && c == ReservoirOf(es, tool.num) {
      assert tool in tools;
    } else {
      ToolConsOnlyReservoirs(tools[..|tools| - 1], js, c);
      var t :| t in tools[..|tools| - 1] && ToolEvents(t, js) != [] && c == ReservoirOf(ToolEvents(t, js), t.num);
      assert t in tools;
    }
  }

  /** The reservoir level at time `t` of the event lists built from `es`. */
  function EventLevel(a: Var -> int, es: seq<Event>, t: int): int {
    Level(a, Times(es), Changes(es), Actives(es), t, |es|)
  }

  /** What a satisfied reservoir says at the time of each of its active events. */
  lemma ReservoirMeaning(a: Var -> int, es: seq<Event>, hi: int, i: int)
    requires SatisfiesConstraint(a, ReservoirOf(es, hi))
    requires 0 <= i < |es| && a(es[i].active) != 0
    ensures 0 <= EventLevel(a, es, a(es[i].time)) <= hi
  {
    EventListsAt(es, i);
    ReservoirAt(a, Times(es), Changes(es), Actives(es), 0, hi, i);
  }

  lemma ReservoirAt(a: Var -> int, times: seq<Var>, changes: seq<int>, actives: seq<Var>, lo: int, hi: int, i: int)
    requires SatisfiesConstraint(a, Reservoir(times, changes, actives, lo, hi))
    requires 0 <= i < |times| && a(actives[i]) != 0
    ensures Aligned(times, changes, actives) && lo <= Level(a, times, changes, actives, a(times[i]), |times|) <= hi
  {
  }

  /**
   * From level 5 on, with parts in use, the number of units of a tool in use
   * when a scheduled alternative that needs it starts or ends lies in [0, tool.num].
   */
  lemma ToolLevelsBounded(inst: Instance, level: int, a: Var -> int, tool: Tool, i: int)
    requires level >= 5 && inst.useParts && Satisfies(a, ModelAt(inst, level)) && tool in inst.tools
    requires var es := ToolEvents(tool, inst.jobs); 0 <= i < |es| && a(es[i].active) != 0
    ensures var es := ToolEvents(tool, inst.jobs); 0 <= EventLevel(a, es, a(es[i].time)) <= tool.num
  {
    var es := ToolEvents(tool, inst.jobs);
    ToolReservoirIn(inst.tools, inst.jobs, tool);
    SatisfiesMember(a, ModelAt(inst, level), ReservoirOf(es, tool.num));
    ReservoirMeaning(a, es, tool.num, i);
  }

  /** From level 6 on, with parts in use, the stock of a part never goes negative nor above part.quantity at an event time. */
  lemma PartLevelsBounded(inst: Instance, level: int, a: Var -> int, part: Part, i: int)
    requires level >= 6 && inst.useParts && Satisfies(a, ModelAt(inst, level)) && part in inst.parts
    requires var es := PartEvents(part, inst.jobs); 0 <= i < |es| && a(es[i].active) != 0
    ensures var es := PartEvents(part, inst.jobs); 0 <= EventLevel(a, es, a(es[i].time)) <= part.quantity
  {
    var es := PartEvents(part, inst.jobs);
    PartReservoirIn(inst.parts, inst.jobs, part);
    SatisfiesMember(a, ModelAt(inst, level), ReservoirOf(es, part.quantity));
    ReservoirMeaning(a, es, part.quantity, i);
  }

  // ---------------------------------------------------------------------
  // The objective

  /** The total value of the scheduled alternatives: `sum(tm.value * flag)`. */
  function AltValue(alts: seq<Alt>, a: Var -> int): int {
    if alts == [] then 0
    else
      var x := alts[|alts| - 1];
      AltValue(alts[..|alts| - 1], a) + x.tm.value * a(Scheduled(KeyOf(x)))
  }

  lemma {:induction false} ValueTermsEval(alts: seq<Alt>, a: Var -> int)
    ensures Eval(a, ValueTerms(alts)) == AltValue(alts, a)
  {
    if alts != [] {
      var x := alts[|alts| - 1];
      var init := ValueTerms(alts[..|alts| - 1]);
      ValueTermsEval(alts[..|alts| - 1], a);
      assert (init + [Term(x.tm.value, Scheduled(KeyOf(x)))])[..|init|] == init;
    }
  }

  /**
   * At every level the model maximises `objective`, `value` is the total value
   * of the scheduled alternatives, and `objective` is `value - cost` exactly
   * when costs are in use and the level is at least 7, `value` otherwise.
   */
  lemma ObjectiveMeaning(inst: Instance, level: int, a: Var -> int)
    requires Satisfies(a, ModelAt(inst, level))
    ensures ModelAt(inst, level).objective == Some(Objective)
    ensures a(Value) == AltValue(Alts(inst.jobs), a)
    ensures a(Objective) == a(Value) - if inst.useCosts && level >= 7 then a(Cost) else 0
  {
    var m := ModelAt(inst, level);
    var withCost := inst.useCosts && level >= 7;
    assert ValueCons(Alts(inst.jobs)) in m.constraints && ObjectiveCons(withCost) in m.constraints;
    SatisfiesMember(a, m, ValueCons(Alts(inst.jobs)));
    SatisfiesMember(a, m, ObjectiveCons(withCost));
    ValueConsMeaning(a, Alts(inst.jobs));
    ObjectiveConsMeaning(a, withCost);
  }

  lemma ValueConsMeaning(a: Var -> int, alts: seq<Alt>)
    requires SatisfiesConstraint(a, ValueCons(alts))
    ensures a(Value) == AltValue(alts, a)
  {
    ValueTermsEval(alts, a);
    assert [Term(1, Value)][..0] == [];
  }

  lemma ObjectiveConsMeaning(a: Var -> int, withCost: bool)
    requires SatisfiesConstraint(a, ObjectiveCons(withCost))
    ensures a(Objective) == a(Value) - if withCost then a(Cost) else 0
  {
    assert [Term(1, Value)][..0] == [] && [Term(1, Objective)][..0] == [];
    assert [Term(1, Value), Term(-1, Cost)][..1] == [Term(1, Value)];
  }

  // ---------------------------------------------------------------------
  // Decoding: solve()

  /** An alternative yields an entry exactly when its flag is set. */
  lemma {:induction false} EntriesOfEmpty(alts: seq<Alt>, a: Var -> int)
    ensures EntriesOf(alts, a) == [] <==> forall x :: x in alts ==> a(Scheduled(KeyOf(x))) == 0
  {
    if alts != [] {
      var init := alts[..|alts| - 1];
      EntriesOfEmpty(init, a);
      assert alts == init + [alts[|alts| - 1]];
    }
  }

  lemma {:induction false} EntriesOfMember(alts: seq<Alt>, a: Var -> int, x: Alt)
    requires x in alts && a(Scheduled(KeyOf(x))) != 0
    ensures EntryOf(x, a) in EntriesOf(alts, a)
  {
    if x != alts[|alts| - 1] {
      InInit(alts, x);
      EntriesOfMember(alts[..|alts| - 1], a, x);
    }
  }

  lemma {:induction false} EntriesOfOnly(alts: seq<Alt>, a: Var -> int, e: Entry)
    requires e in EntriesOf(alts, a)
    ensures exists x :: x in alts && a(Scheduled(KeyOf(x))) != 0 && e == EntryOf(x, a)
  {
    var x := alts[|alts| - 1];
    if a(Scheduled(KeyOf(x))) != 0 && e == EntryOf(x, a) {
      assert x in alts;
    } else {
      var init := alts[..|alts| - 1];
      EntriesOfOnly(init, a, e);
      var y :| y in init && a(Scheduled(KeyOf(y))) != 0 && e == EntryOf(y, a);
      assert y in alts;
    }
  }

  /** No two jobs share a name. */
  ghost predicate UniqueNames(js: seq<Job>) {
    forall i, j :: 0 <= i < j < |js| ==> js[i].name != js[j].name
  }

  /** The names of the jobs with at least one scheduled alternative, in job order. */
  function ScheduledNames(js: seq<Job>, a: Var -> int): seq<string> {
    if js == [] then []
    else
      var job := js[|js| - 1];
      ScheduledNames(js[..|js| - 1], a) + if JobEntries(job, a) != [] then [job.name] else []
  }

  /** A name that no job carries is not a key of the solution. */
  lemma {:induction false} DecodeAbsent(js: seq<Job>, a: Var -> int, name: string)
    requires forall job :: job in js ==> job.name != name
    ensures Get(Decode(js, a), name) == None
  {
    if js != [] {
      assert js[|js| - 1] in js;
      forall job | job in js[..|js| - 1] ensures job.name != name {
        assert job in js;
      }
      DecodeAbsent(js[..|js| - 1], a, name);
    }
  }

  /** With distinct job names, the solution's keys are the scheduled jobs' names in job order. */
  lemma {:induction false} DecodeKeys(js: seq<Job>, a: Var -> int)
    requires UniqueNames(js)
    ensures Keys(Decode(js, a)) == ScheduledNames(js, a)
  {
    if js != [] {
      var init, job := js[..|js| - 1], js[|js| - 1];
      assert UniqueNames(init);
      DecodeKeys(init, a);
      if JobEntries(job, a) != [] {
        forall j | j in init ensures j.name != job.name {
          var i :| 0 <= i < |init| && init[i] == j;
        }
        DecodeAbsent(init, a, job.name);
        PutKeys(Decode(init, a), job.name, JobEntries(job, a));
      }
    }
  }

  /**
   * With distinct job names, a job is a key of the solution exactly when one of
   * its alternatives is scheduled, and its value is the job's entries.
   */
  lemma {:induction false} DecodeGet(js: seq<Job>, a: Var -> int, job: Job)
    requires UniqueNames(js) && job in js
    ensures Get(Decode(js, a), job.name) == if JobEntries(job, a) != [] then Some(JobEntries(job, a)) else None
  {
    var init, last := js[..|js| - 1], js[|js| - 1];
    assert UniqueNames(init);
    if job == last {
      if JobEntries(job, a) == [] {
        forall j | j in init ensures j.name != job.name {
          var i :| 0 <= i < |init| && init[i] == j;
        }
        DecodeAbsent(init, a, job.name);
      }
    } else {
      InInit(js, job);
      var i :| 0 <= i < |init| && init[i] == job;
      assert job.name != last.name;
      DecodeGet(init, a, job);
    }
  }
}
