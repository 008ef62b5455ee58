module Results {
  datatype Option<+T> = None | Some(value: T)

  datatype Result<+T, +E> = Success(value: T) | Failure(error: E)
}

/**
 * The mixed-integer linear program as the PuLP library holds it for the
 * flood-response script: keyed variables with bounds and a category,
 * named constraints `Σ coeff·var ≤ rhs`, an objective, the satisfaction
 * relation between a program and an assignment of values, and the
 * `LpProblem` object that the script grows with `model += …`. Names are
 * the strings the script's f-strings produce.
 */
module Lp {

  type Zone = string

  datatype Resource = Ambulances | Staff | Supplies

  /** An allocation variable (`ambulance_vars[z]`, …) or a deviation variable (`dev_ambulances[z]`, …). */
  datatype VarKind = Alloc | Dev

  /** The key of one variable of the program. */
  datatype Var = Var(kind: VarKind, resource: Resource, zone: Zone)

  /** PuLP's `cat=` argument. */
  datatype Category = Integer | Continuous

  /** A declared variable: its key, its `lowBound=` and its category (no upper bound is ever given). */
  datatype VarDecl = VarDecl(v: Var, lowBound: int, cat: Category)

  datatype Term = Term(coeff: int, v: Var)

  datatype Side = Pos | Neg

  /** What a constraint is about; the string name PuLP stores is `ConstraintName(tag)`. */
  datatype Tag =
    | DevLink(resource: Resource, side: Side, zone: Zone)
    | MaxTotal(resource: Resource)
    | BudgetTag

  /** The linear constraint `Σ coeff·var ≤ rhs`. */
  datatype Constraint = Constraint(tag: Tag, terms: seq<Term>, rhs: int)
  {
    function Name(): string { ConstraintName(tag) }
  }

  /** A complete program: minimise `objective` subject to the declarations and constraints. */
  datatype Model = Model(name: string, vars: seq<VarDecl>, objective: seq<Term>, constraints: seq<Constraint>)

  /** Values the solver gives the variables. */
  type Assignment = map<Var, real>

  // ---------------------------------------------------------------------
  // Names

  function VarPrefix(kind: VarKind, r: Resource): string
  {
    match (kind, r)
    case (Alloc, Ambulances) => "Ambulances_"
    case (Alloc, Staff) => "Staff_"
    case (Alloc, Supplies) => "Supplies_"
    case (Dev, Ambulances) => "Dev_Ambulances_"
    case (Dev, Staff) => "Dev_Staff_"
    case (Dev, Supplies) => "Dev_Supplies_"
  }

  /** The name given to `LpVariable`. */
  function VarName(v: Var): string
  {
    VarPrefix(v.kind, v.resource) + v.zone
  }

  function LinkPrefix(r: Resource, side: Side): string
  {
    match (r, side)
    case (Ambulances, Pos) => "Amb_Dev_Pos_"
    case (Ambulances, Neg) => "Amb_Dev_Neg_"
    case (Staff, Pos) => "Staff_Dev_Pos_"
    case (Staff, Neg) => "Staff_Dev_Neg_"
    case (Supplies, Pos) => "Sup_Dev_Pos_"
    case (Supplies, Neg) => "Sup_Dev_Neg_"
  }

  /** The name attached to a constraint with `model += (…), name`. */
  function ConstraintName(t: Tag): string
  {
    match t
    case DevLink(r, side, z) => LinkPrefix(r, side) + z
    case MaxTotal(Ambulances) => "Max_Ambulances"
    case MaxTotal(Staff) => "Max_Staff"
    case MaxTotal(Supplies) => "Max_Supplies"
    case BudgetTag => "Budget_Constraint"
  }

  /** Two strings that start with prefixes `p` and `q` agree on the shorter prefix. */
  lemma {:induction false} PrefixesComparable(p: string, x: string, q: string, y: string)
    requires p + x == q + y
    ensures p <= q || q <= p
  {
    if |p| <= |q| {
      assert p == (q + y)[..|p|] == q[..|p|];
    } else {
      assert q == (p + x)[..|q|] == p[..|q|];
    }
  }

  lemma {:induction false} SamePrefixSameSuffix(p: string, x: string, y: string)
    requires p + x == p + y
    ensures x == y
  {
    assert x == (p + x)[|p|..];
    assert y == (p + y)[|p|..];
  }

  /** Distinct variables carry distinct names, as the f-strings of lines 11–18 write them. */
  lemma VarNameInjective(v: Var, w: Var)
    requires VarName(v) == VarName(w)
    ensures v == w
  {
    var p, q := VarPrefix(v.kind, v.resource), VarPrefix(w.kind, w.resource);
    PrefixesComparable(p, v.zone, q, w.zone);
    assert p[0] == q[0] && p[1] == q[1] && p[4] == q[4] && p[5] == q[5];
    SamePrefixSameSuffix(p, v.zone, w.zone);
  }

  /** A per-zone linking name never coincides with a cap or budget name. */
  lemma LinkNameNotFixed(r: Resource, side: Side, z: Zone, t: Tag)
    requires !t.DevLink?
    ensures LinkPrefix(r, side) + z != ConstraintName(t)
  {
    var p := LinkPrefix(r, side);
    assert p[0] == 'A' || p[0] == 'S';
    assert ConstraintName(t)[0] == 'M' || ConstraintName(t)[0] == 'B';
    assert (p + z)[0] == p[0];
  }

  /** Distinct tags carry distinct constraint names, as the f-strings of lines 36–51 write them. */
  lemma ConstraintNameInjective(s: Tag, t: Tag)
    requires ConstraintName(s) == ConstraintName(t)
    ensures s == t
  {
    if s.DevLink? && t.DevLink? {
      var p, q := LinkPrefix(s.resource, s.side), LinkPrefix(t.resource, t.side);
      PrefixesComparable(p, s.zone, q, t.zone);
      assert p[0] == q[0] && p[1] == q[1] && p[8] == q[8] && p[10] == q[10];
      SamePrefixSameSuffix(p, s.zone, t.zone);
    } else if s.DevLink? {
      LinkNameNotFixed(s.resource, s.side, s.zone, t);
    } else if t.DevLink? {
      LinkNameNotFixed(t.resource, t.side, t.zone, s);
    }
  }

  // ---------------------------------------------------------------------
  // Meaning of a program

  function Val(a: Assignment, v: Var): real
  {
    if v in a then a[v] else 0.0
  }

  /** Value of the linear expression `Σ coeff·var` under `a`. */
  function Eval(terms: seq<Term>, a: Assignment): real
  {
    if terms == [] then 0.0
    else terms[0].coeff as real * Val(a, terms[0].v) + Eval(terms[1..], a)
  }

  lemma {:induction false} EvalAppend(s: seq<Term>, t: seq<Term>, a: Assignment)
    ensures Eval(s + t, a) == Eval(s, a) + Eval(t, a)
  {
    if s != [] {
      assert (s + t)[1..] == s[1..] + t;
      EvalAppend(s[1..], t, a);
    } else {
      assert s + t == t;
    }
  }

  /** A two-term expression is worth its two products, whatever the values. */
  lemma TwoTermsEval(s: Term, t: Term)
    ensures forall a :: Eval([s, t], a) == s.coeff as real * Val(a, s.v) + t.coeff as real * Val(a, t.v)
  {
    forall a
      ensures Eval([s, t], a) == s.coeff as real * Val(a, s.v) + t.coeff as real * Val(a, t.v)
    {
      assert [s, t][1..] == [t] && [t][1..] == [];
      assert Eval([t], a) == t.coeff as real * Val(a, t.v);
    }
  }

  predicate IsIntegral(x: real)
  {
    x.Floor as real == x
  }

  /** The value of a declared variable respects its lower bound and its category. */
  predicate Admits(d: VarDecl, a: Assignment)
  {
    d.v in a && d.lowBound as real <= a[d.v] && (d.cat == Integer ==> IsIntegral(a[d.v]))
  }

  predicate Holds(c: Constraint, a: Assignment)
  {
    Eval(c.terms, a) <= c.rhs as real
  }

  /** `a` is a feasible point of `m`. */
  predicate Satisfies(m: Model, a: Assignment)
    ensures Satisfies(m, a) ==> forall d :: d in m.vars ==> d.v in a && a[d.v] >= d.lowBound as real
    ensures Satisfies(m, a) ==> forall d :: d in m.vars && d.cat == Integer ==> IsIntegral(a[d.v])
  {
    (forall d :: d in m.vars ==> Admits(d, a)) &&
    (forall c :: c in m.constraints ==> Holds(c, a))
  }

  // ---------------------------------------------------------------------
  // The solver, a black box

  /** PuLP's status codes: 0 Not Solved, 1 Optimal, -1 Infeasible, -2 Unbounded, -3 Undefined. */
  datatype Status = NotSolved | Optimal | Infeasible | Unbounded | Undefined

  /** What `model.solve()` leaves behind: a status and the variables' `varValue`s. */
  datatype SolveOutcome = SolveOutcome(status: Status, values: Assignment)

  /** `a` is feasible and no feasible point has a smaller objective (the program minimises). */
  ghost predicate IsOptimal(m: Model, a: Assignment)
  {
    Satisfies(m, a) &&
    forall b :: Satisfies(m, b) ==> Eval(m.objective, a) <= Eval(m.objective, b)
  }

  /** All that is assumed of the external solver: an Optimal status comes with an optimal point. */
  ghost predicate SolverContract(m: Model, out: SolveOutcome)
    ensures SolverContract(m, out) && out.status == Optimal ==>
      Satisfies(m, out.values) && forall b :: Satisfies(m, b) ==> Eval(m.objective, out.values) <= Eval(m.objective, b)
  {
    out.status == Optimal ==> IsOptimal(m, out.values)
  }

  // ---------------------------------------------------------------------
  // The `LpProblem` object

  predicate NameFreeIn(cs: seq<Constraint>, n: string)
  {
    forall k :: 0 <= k < |cs| ==> cs[k].Name() != n
  }

  class Problem {
    const name: string
    var objective: seq<Term>
    var constraints: seq<Constraint>

    constructor (name: string)
      ensures this.name == name && objective == [] && constraints == []
    {
      this.name := name;
      objective := [];
      constraints := [];
    }

    /** No constraint already added carries the name `n`. */
    predicate NameFree(n: string)
      reads this
    {
      NameFreeIn(constraints, n)
    }

    /** `model += expr, name` with a bare expression: sets the objective. */
    method SetObjective(obj: seq<Term>)
      modifies this
      ensures objective == obj && constraints == old(constraints)
    {
      objective := obj;
    }

    /** `model += (constraint), name`; the name, as written, must be new. */
    method AddConstraint(c: Constraint)
      requires NameFree(c.Name())
      modifies this
      ensures constraints == old(constraints) + [c] && objective == old(objective)
    {
      constraints := constraints + [c];
    }
  }
}
