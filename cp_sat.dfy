/**
 * The constraint store the schedulers build. The CP-SAT model object is
 * treated as a value: the variables declared so far with their domains, the
 * constraints added so far, and the variable to maximise. Each constraint has a
 * satisfaction predicate over an assignment of integers to variables (Booleans
 * are 0/1). The search itself is an oracle (`SolveResult`); `SoundSolver`
 * states what a caller may rely on when it reports a status.
 */
module CpSat {
  import opened Wrappers

  /** A Boolean literal: the variable, or its negation (`b.Not()`). */
  datatype Lit<V> = Pos(v: V) | Neg(v: V)

  datatype Term<V> = Term(coef: int, v: V)

  datatype Relation = Le | Eq

  /** `NewOptionalIntervalVar(start, size, end, present)` */
  datatype Interval<V> = Interval(start: V, size: int, end: V, present: V)

  datatype Constraint<V> =
      /** `Add(lhs <rel> rhs + offset).OnlyEnforceIf(enforce)` */
    | Linear(lhs: seq<Term<V>>, rel: Relation, rhs: seq<Term<V>>, offset: int, enforce: seq<Lit<V>>)
      /** the constraint an optional interval carries: present implies start + size == end */
    | IntervalOf(iv: Interval<V>)
    | NoOverlap(ivs: seq<Interval<V>>)
    | Reservoir(times: seq<V>, changes: seq<int>, actives: seq<V>, minLevel: int, maxLevel: int)

  /** A declared variable with its domain `[lo, hi]`. */
  datatype Decl<V> = Decl(v: V, lo: int, hi: int)

  datatype Model<V> = Model(decls: seq<Decl<V>>, constraints: seq<Constraint<V>>, objective: Option<V>)

  datatype Status = Optimal | Feasible | Infeasible | Unknown | ModelInvalid

  /** What the search hands back: a status and a value for every variable. */
  datatype SolveResult<!V> = SolveResult(status: Status, values: V -> int)

  function EmptyModel<V>(): Model<V> {
    Model([], [], None)
  }

  function NewVar<V>(m: Model<V>, v: V, lo: int, hi: int): Model<V> {
    m.(decls := m.decls + [Decl(v, lo, hi)])
  }

  function Add<V>(m: Model<V>, c: Constraint<V>): Model<V> {
    m.(constraints := m.constraints + [c])
  }

  /** `m` is `m0` with the declarations `ds` and the constraints `cs` appended. */
  ghost predicate Extends<V>(m: Model<V>, m0: Model<V>, ds: seq<Decl<V>>, cs: seq<Constraint<V>>) {
    m.decls == m0.decls + ds && m.constraints == m0.constraints + cs && m.objective == m0.objective
  }

  /** Appending in two steps appends the concatenation. */
  lemma ExtendsTrans<V>(m2: Model<V>, m1: Model<V>, m0: Model<V>,
                        ds1: seq<Decl<V>>, cs1: seq<Constraint<V>>, ds2: seq<Decl<V>>, cs2: seq<Constraint<V>>)
    requires Extends(m1, m0, ds1, cs1) && Extends(m2, m1, ds2, cs2)
    ensures Extends(m2, m0, ds1 + ds2, cs1 + cs2)
  {
    assert m0.decls + ds1 + ds2 == m0.decls + (ds1 + ds2);
    assert m0.constraints + cs1 + cs2 == m0.constraints + (cs1 + cs2);
  }

  /** Appending nothing. */
  lemma ExtendsSelf<V>(m: Model<V>)
    ensures Extends(m, m, [], [])
  {
    assert m.decls + [] == m.decls && m.constraints + [] == m.constraints;
  }

  /** Adding one constraint. */
  lemma ExtendsAdd<V>(m: Model<V>, c: Constraint<V>)
    ensures Extends(Add(m, c), m, [], [c])
  {
    assert m.decls + [] == m.decls;
  }

  lemma ExtendsCons<V>(m2: Model<V>, m1: Model<V>, m0: Model<V>, ds: seq<Decl<V>>, cs1: seq<Constraint<V>>, cs2: seq<Constraint<V>>)
    requires Extends(m1, m0, ds, cs1) && Extends(m2, m1, [], cs2)
    ensures Extends(m2, m0, ds, cs1 + cs2)
  {
    assert m0.decls + ds + [] == m0.decls + ds;
    assert m0.constraints + cs1 + cs2 == m0.constraints + (cs1 + cs2);
  }

  /** What a chain of steps from the empty model holds. */
  lemma ExtendsEmpty<V>(m: Model<V>, ds: seq<Decl<V>>, cs: seq<Constraint<V>>)
    requires Extends(m, EmptyModel(), ds, cs)
    ensures m == Model(ds, cs, None)
  {
    assert [] + ds == ds;
    assert [] + cs == cs;
  }

  lemma AppendAssoc<T>(a: seq<T>, b: seq<T>, c: seq<T>)
    ensures a + b + c == a + (b + c)
  {
  }

  /** `sum(vs)` as a linear expression. */
  function Ones<V>(vs: seq<V>): (ts: seq<Term<V>>)
    ensures |ts| == |vs|
  {
    if vs == [] then [] else Ones(vs[..|vs| - 1]) + [Term(1, vs[|vs| - 1])]
  }

  function Eval<V>(a: V -> int, ts: seq<Term<V>>): int {
    if ts == [] then 0 else Eval(a, ts[..|ts| - 1]) + ts[|ts| - 1].coef * a(ts[|ts| - 1].v)
  }

  function SumOf<V>(a: V -> int, vs: seq<V>): int {
    if vs == [] then 0 else SumOf(a, vs[..|vs| - 1]) + a(vs[|vs| - 1])
  }

  lemma {:induction false} EvalOnes<V>(a: V -> int, vs: seq<V>)
    ensures Eval(a, Ones(vs)) == SumOf(a, vs)
  {
    if vs != [] {
      EvalOnes(a, vs[..|vs| - 1]);
      assert Ones(vs)[..|vs| - 1] == Ones(vs[..|vs| - 1]);
    }
  }

  predicate Holds<V>(a: V -> int, l: Lit<V>) {
    match l
    case Pos(v) => a(v) != 0
    case Neg(v) => a(v) == 0
  }

  predicate AllHold<V>(a: V -> int, ls: seq<Lit<V>>) {
    forall i :: 0 <= i < |ls| ==> Holds(a, ls[i])
  }

  predicate Aligned<V>(times: seq<V>, changes: seq<int>, actives: seq<V>) {
    |times| == |changes| == |actives|
  }

  /** The reservoir level at time `t`: the changes of the first `n` events that are active and not later than `t`. */
  function Level<V>(a: V -> int, times: seq<V>, changes: seq<int>, actives: seq<V>, t: int, n: nat): int
    requires Aligned(times, changes, actives) && n <= |times|
  {
    if n == 0 then 0
    else Level(a, times, changes, actives, t, n - 1)
         + (if a(actives[n - 1]) != 0 && a(times[n - 1]) <= t then changes[n - 1] else 0)
  }

  predicate Disjoint<V>(a: V -> int, x: Interval<V>, y: Interval<V>) {
    a(x.end) <= a(y.start) || a(y.end) <= a(x.start)
  }

  predicate SatisfiesConstraint<V>(a: V -> int, c: Constraint<V>) {
    match c
    case Linear(lhs, rel, rhs, offset, enforce) =>
      AllHold(a, enforce) ==>
        (if rel == Le then Eval(a, lhs) <= Eval(a, rhs) + offset else Eval(a, lhs) == Eval(a, rhs) + offset)
    case IntervalOf(iv) =>
      a(iv.present) != 0 ==> a(iv.start) + iv.size == a(iv.end)
    case NoOverlap(ivs) =>
      forall i, j :: 0 <= i < j < |ivs| && a(ivs[i].present) != 0 && a(ivs[j].present) != 0 ==>
        Disjoint(a, ivs[i], ivs[j])
    case Reservoir(times, changes, actives, lo, hi) =>
      Aligned(times, changes, actives) &&
      forall i :: 0 <= i < |times| && a(actives[i]) != 0 ==>
        lo <= Level(a, times, changes, actives, a(times[i]), |times|) <= hi
  }

  predicate InDomain<V>(a: V -> int, d: Decl<V>) {
    d.lo <= a(d.v) <= d.hi
  }

  /** `a` gives every declared variable a value in its domain and meets every constraint. */
  predicate Satisfies<V>(a: V -> int, m: Model<V>) {
    && (forall i :: 0 <= i < |m.decls| ==> InDomain(a, m.decls[i]))
    && (forall i :: 0 <= i < |m.constraints| ==> SatisfiesConstraint(a, m.constraints[i]))
  }

  /** Every declaration and every constraint of `m` is also in `m'`, with the same objective. */
  predicate Submodel<V(==)>(m: Model<V>, m': Model<V>) {
    && (forall d :: d in m.decls ==> d in m'.decls)
    && (forall c :: c in m.constraints ==> c in m'.constraints)
    && m.objective == m'.objective
  }

  /** Adding declarations and constraints can only remove satisfying assignments. */
  lemma SubmodelSatisfies<V>(a: V -> int, m: Model<V>, m': Model<V>)
    requires Submodel(m, m') && Satisfies(a, m')
    ensures Satisfies(a, m)
  {
    forall i | 0 <= i < |m.decls| ensures InDomain(a, m.decls[i]) {
      var d := m.decls[i];
      assert d in m'.decls;
      var k :| 0 <= k < |m'.decls| && m'.decls[k] == d;
    }
    forall i | 0 <= i < |m.constraints| ensures SatisfiesConstraint(a, m.constraints[i]) {
      var c := m.constraints[i];
      assert c in m'.constraints;
      var k :| 0 <= k < |m'.constraints| && m'.constraints[k] == c;
    }
  }

  lemma SatisfiesMember<V>(a: V -> int, m: Model<V>, c: Constraint<V>)
    requires Satisfies(a, m) && c in m.constraints
    ensures SatisfiesConstraint(a, c)
  {
    var k :| 0 <= k < |m.constraints| && m.constraints[k] == c;
  }

  lemma DomainMember<V>(a: V -> int, m: Model<V>, d: Decl<V>)
    requires Satisfies(a, m) && d in m.decls
    ensures d.lo <= a(d.v) <= d.hi
  {
    var k :| 0 <= k < |m.decls| && m.decls[k] == d;
    assert InDomain(a, m.decls[k]);
  }

  /**
   * Restricting a model keeps an optimum that survives the restriction optimal:
   * the optimum of the restricted model equals the original optimum.
   */
  lemma {:induction false} OptimalInRestriction<V>(a: V -> int, m: Model<V>, m': Model<V>)
    requires m.objective.Some? && Submodel(m, m') && Satisfies(a, m')
    requires forall b :: Satisfies(b, m) ==> b(m.objective.value) <= a(m.objective.value)
    ensures forall b :: Satisfies(b, m') ==> b(m'.objective.value) <= a(m'.objective.value)
  {
    forall b | Satisfies(b, m') ensures b(m'.objective.value) <= a(m'.objective.value) {
      SubmodelSatisfies(b, m, m');
    }
  }

  predicate Solved(s: Status) {
    s == Optimal || s == Feasible
  }

  /** The contract of the external search: a reported solution satisfies the model. */
  ghost predicate SoundSolver<V(!new)>(solver: Model<V> -> SolveResult<V>) {
    forall m :: Solved(solver(m).status) ==> Satisfies(solver(m).values, m)
  }

  /** A complete search reports a solution whenever the model has one. */
  ghost predicate CompleteSolver<V(!new)>(solver: Model<V> -> SolveResult<V>) {
    forall m, a :: Satisfies(a, m) ==> Solved(solver(m).status)
  }
  /** `Add(v == c)`: pins one variable to a constant. */
  function Pin<V>(v: V, c: int): Constraint<V> {
    Linear([Term(1, v)], Eq, [], c, [])
  }

  lemma PinMeaning<V>(a: V -> int, v: V, c: int)
    ensures SatisfiesConstraint(a, Pin(v, c)) <==> a(v) == c
  {
    assert Eval(a, [Term(1, v)]) == Eval(a, []) + 1 * a(v);
  }

  /** `a` meets every constraint of `cs`. */
  predicate SatisfiesAll<V>(a: V -> int, cs: seq<Constraint<V>>) {
    forall i :: 0 <= i < |cs| ==> SatisfiesConstraint(a, cs[i])
  }

  lemma {:induction false} SatisfiesAllAppend<V>(a: V -> int, cs: seq<Constraint<V>>, ds: seq<Constraint<V>>)
    ensures SatisfiesAll(a, cs + ds) <==> SatisfiesAll(a, cs) && SatisfiesAll(a, ds)
  {
    if SatisfiesAll(a, cs) && SatisfiesAll(a, ds) {
      forall i | 0 <= i < |cs + ds| ensures SatisfiesConstraint(a, (cs + ds)[i]) {
        if i >= |cs| {
          assert (cs + ds)[i] == ds[i - |cs|];
        }
      }
    }
    if SatisfiesAll(a, cs + ds) {
      forall i | 0 <= i < |cs| ensures SatisfiesConstraint(a, cs[i]) {
        assert (cs + ds)[i] == cs[i];
      }
      forall i | 0 <= i < |ds| ensures SatisfiesConstraint(a, ds[i]) {
        assert (cs + ds)[|cs| + i] == ds[i];
      }
    }
  }

  /** Adding constraints to a model leaves the assignments that satisfy both. */
  lemma AddAllSatisfies<V>(a: V -> int, m: Model<V>, cs: seq<Constraint<V>>)
    ensures Satisfies(a, m.(constraints := m.constraints + cs)) <==> Satisfies(a, m) && SatisfiesAll(a, cs)
  {
    SatisfiesAllAppend(a, m.constraints, cs);
  }
}
