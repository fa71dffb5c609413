/**
 * The job-shop problem instance: machines, tools, parts, tasks with their
 * machine alternatives, and jobs (ordered task lists). These are read-only
 * once built. A task machine refers back to its task by name only (the
 * object reference of the Python scheduler would make the datatype cyclic).
 */
module Domain {
  import Strings

  datatype Machine = Machine(name: string, energyCost: int)

  datatype Tool = Tool(name: string, num: int)

  datatype Part = Part(name: string, quantity: int, cost: int)

  /** One way to execute a task: on `machine`, taking `duration`, worth `value`. */
  datatype TaskMachine = TaskMachine(taskName: string, machine: Machine, duration: int, value: int)

  datatype Task =
    | Task(name: string, tools: seq<Tool>, parts: seq<Part>, taskMachines: seq<TaskMachine>)
      /** a task that also produces `quantity` units of `producedPart` */
    | PartsTask(name: string, tools: seq<Tool>, parts: seq<Part>, taskMachines: seq<TaskMachine>,
                producedPart: Part, quantity: int)

  datatype Job = Job(name: string, tasks: seq<Task>)

  /** The (job, task, machine) names that identify one alternative. */
  type Key = (string, string, string)

  function JobName(j: Job): string { j.name }
  function TaskName(t: Task): string { t.name }
  function MachineName(m: Machine): string { m.name }
  function ToolName(t: Tool): string { t.name }
  function PartName(p: Part): string { p.name }

  function MakeKey(job: Job, task: Task, machine: Machine): (k: Key)
    ensures k.0 == job.name && k.1 == task.name && k.2 == machine.name
  {
    (job.name, task.name, machine.name)
  }

  /** The variable-name prefix `job-task-machine`. */
  function Prefix(job: Job, task: Task, machine: Machine): string {
    job.name + "-" + task.name + "-" + machine.name
  }

  /**
   * When no name contains '-', the prefix determines the key: the variable
   * names built from it never clash between two alternatives.
   */
  lemma PrefixDeterminesKey(j1: Job, t1: Task, m1: Machine, j2: Job, t2: Task, m2: Machine)
    requires '-' !in j1.name && '-' !in t1.name && '-' !in m1.name
    requires '-' !in j2.name && '-' !in t2.name && '-' !in m2.name
    requires Prefix(j1, t1, m1) == Prefix(j2, t2, m2)
    ensures MakeKey(j1, t1, m1) == MakeKey(j2, t2, m2)
  {
    PrefixSplits(j1, t1, m1);
    PrefixSplits(j2, t2, m2);
  }

  lemma PrefixSplits(j: Job, t: Task, m: Machine)
    requires '-' !in j.name && '-' !in t.name && '-' !in m.name
    ensures Strings.Split(Prefix(j, t, m), '-') == [j.name, t.name, m.name]
  {
    var ps := [j.name, t.name, m.name];
    assert ps[1..] == [t.name, m.name] && ps[1..][1..] == [m.name];
    assert Strings.Join([m.name], '-') == m.name;
    assert Strings.Join(ps[1..], '-') == t.name + "-" + m.name;
    assert Strings.Join(ps, '-') == j.name + "-" + (t.name + "-" + m.name);
    assert Prefix(j, t, m) == j.name + "-" + (t.name + "-" + m.name);
    Strings.SplitJoin(ps, '-');
  }

  /** `isinstance(task, PartsTask)` */
  predicate IsPartsTask(t: Task) {
    t.PartsTask?
  }

  /** The names of `xs`, in order. */
  function Names<T>(xs: seq<T>, nameOf: T -> string): (r: seq<string>)
    ensures |r| == |xs| && forall i :: 0 <= i < |xs| ==> r[i] == nameOf(xs[i])
  {
    if xs == [] then [] else Names(xs[..|xs| - 1], nameOf) + [nameOf(xs[|xs| - 1])]
  }

  function ToolNames(ts: seq<Tool>): (r: seq<string>)
    ensures |r| == |ts| && forall i :: 0 <= i < |ts| ==> r[i] == ts[i].name
  {
    Names(ts, (t: Tool) => t.name)
  }

  function PartNames(ps: seq<Part>): (r: seq<string>)
    ensures |r| == |ps| && forall i :: 0 <= i < |ps| ==> r[i] == ps[i].name
  {
    Names(ps, (p: Part) => p.name)
  }

  /** `xs.count(x)` */
  function Count(xs: seq<string>, x: string): nat {
    if xs == [] then 0 else Count(xs[..|xs| - 1], x) + (if xs[|xs| - 1] == x then 1 else 0)
  }
}
