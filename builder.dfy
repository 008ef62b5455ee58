/**
 * The model builder of the 15-zone flood-response script: the zone list,
 * the demand table, the variable declarations, the goal-programming
 * objective, and the loop that adds six deviation-linking constraints per
 * demand entry followed by three cap constraints and the budget constraint.
 */
module Builder {
  import opened Results
  import opened Lp

  const ProblemName: string := "Flood_Response_Allocation_15_Zones"

  const Zones: seq<Zone> := ["A", "B", "C", "D", "E", "F", "G", "H", "I", "J", "K", "L", "M", "N", "O"]

  /** One `demand` entry: a zone and its (ambulances, staff, supplies) targets. */
  datatype DemandRow = DemandRow(zone: Zone, ambulances: int, staff: int, supplies: int)
  {
    function Target(r: Resource): int
    {
      match r
      case Ambulances => ambulances
      case Staff => staff
      case Supplies => supplies
    }
  }

  /** The demand dictionary, in its insertion (iteration) order. */
  const DemandTable: seq<DemandRow> := [
    DemandRow("A", 3, 6, 50), DemandRow("B", 2, 4, 30), DemandRow("C", 1, 3, 20),
    DemandRow("D", 3, 5, 40), DemandRow("E", 4, 8, 60), DemandRow("F", 1, 2, 15),
    DemandRow("G", 1, 3, 20), DemandRow("H", 4, 8, 70), DemandRow("I", 2, 4, 35),
    DemandRow("J", 1, 3, 25), DemandRow("K", 3, 6, 55), DemandRow("L", 2, 5, 40),
    DemandRow("M", 4, 8, 65), DemandRow("N", 1, 2, 15), DemandRow("O", 1, 3, 20)
  ]

  /** A dictionary's keys are pairwise distinct. */
  predicate KeysDistinct(d: seq<DemandRow>)
  {
    forall i, j :: 0 <= i < j < |d| ==> d[i].zone != d[j].zone
  }

  function Keys(d: seq<DemandRow>): seq<Zone>
  {
    seq(|d|, i requires 0 <= i < |d| => d[i].zone)
  }

  predicate ZonesDistinct(zones: seq<Zone>)
  {
    forall i, j :: 0 <= i < j < |zones| ==> zones[i] != zones[j]
  }

  /**
   * The keys of a dict comprehension `{zone: … for zone in zones}`: every
   * zone once, at the place of its first occurrence (a repeated key
   * replaces the value but keeps its place).
   */
  function DictKeys(zones: seq<Zone>): (keys: seq<Zone>)
    ensures forall z :: z in keys <==> z in zones
    ensures ZonesDistinct(keys)
    ensures ZonesDistinct(zones) ==> keys == zones
    ensures |keys| <= |zones|
  {
    if zones == [] then []
    else
      var front, last := zones[..|zones| - 1], zones[|zones| - 1];
      assert zones == front + [last];
      assert ZonesDistinct(zones) ==> ZonesDistinct(front) && last !in front;
      if last in front then DictKeys(front) else DictKeys(front) + [last]
  }

  // ---------------------------------------------------------------------
  // Policy constants written into the program

  /** `lowBound=` of the allocation variables. */
  function Floor(r: Resource): int
  {
    match r
    case Ambulances => 1
    case Staff => 1
    case Supplies => 10
  }

  /** Right-hand sides of `Max_Ambulances`, `Max_Staff`, `Max_Supplies`. */
  function CapOf(r: Resource): int
  {
    match r
    case Ambulances => 30
    case Staff => 70
    case Supplies => 600
  }

  /** Coefficients of the budget constraint. */
  function BudgetCoeff(r: Resource): int
  {
    match r
    case Ambulances => 500
    case Staff => 200
    case Supplies => 10
  }

  const BudgetCeiling: int := 40000

  // ---------------------------------------------------------------------
  // Variables

  function AllocVar(r: Resource, z: Zone): Var { Var(Alloc, r, z) }

  function DevVar(r: Resource, z: Zone): Var { Var(Dev, r, z) }

  /** `{zone: LpVariable(…, lowBound=Floor(r), cat="Integer") for zone in zones}` */
  function AllocDecls(r: Resource, zones: seq<Zone>): seq<VarDecl>
  {
    seq(|zones|, i requires 0 <= i < |zones| => VarDecl(AllocVar(r, zones[i]), Floor(r), Integer))
  }

  /** `{zone: LpVariable(…, lowBound=0, cat="Continuous") for zone in zones}` */
  function DevDecls(r: Resource, zones: seq<Zone>): seq<VarDecl>
  {
    seq(|zones|, i requires 0 <= i < |zones| => VarDecl(DevVar(r, zones[i]), 0, Continuous))
  }

  /** The values of the six variable dictionaries, in the order the script creates them. */
  function Variables(zones: seq<Zone>): (vs: seq<VarDecl>)
    ensures forall k :: 0 <= k < |vs| ==> vs[k].v.zone in zones
  {
    var keys := DictKeys(zones);
    AllocDecls(Ambulances, keys) + AllocDecls(Staff, keys) + AllocDecls(Supplies, keys) +
    DevDecls(Ambulances, keys) + DevDecls(Staff, keys) + DevDecls(Supplies, keys)
  }

  // ---------------------------------------------------------------------
  // Objective

  /** `lpSum(dev_r[z] for z in zones)` */
  function DevTerms(r: Resource, zones: seq<Zone>): seq<Term>
  {
    seq(|zones|, i requires 0 <= i < |zones| => Term(1, DevVar(r, zones[i])))
  }

  /** `Total_Deviation`: the three deviation sums added together. */
  function ObjectiveTerms(zones: seq<Zone>): (t: seq<Term>)
    ensures |t| == 3 * |zones|
  {
    DevTerms(Ambulances, zones) + DevTerms(Staff, zones) + DevTerms(Supplies, zones)
  }

  // ---------------------------------------------------------------------
  // Constraints

  /**
   * `alloc - target <= dev` (Pos) and `target - alloc <= dev` (Neg), with
   * the constant moved to the right: `alloc - dev <= target` and
   * `-alloc - dev <= -target`.
   */
  function LinkConstraint(r: Resource, side: Side, row: DemandRow): (c: Constraint)
    ensures forall a :: Holds(c, a) <==>
      (if side == Pos then Val(a, AllocVar(r, row.zone)) - row.Target(r) as real
       else row.Target(r) as real - Val(a, AllocVar(r, row.zone))) <= Val(a, DevVar(r, row.zone))
  {
    var alloc, dev := AllocVar(r, row.zone), DevVar(r, row.zone);
    match side
    case Pos =>
      TwoTermsEval(Term(1, alloc), Term(-1, dev));
      Constraint(DevLink(r, Pos, row.zone), [Term(1, alloc), Term(-1, dev)], row.Target(r))
    case Neg =>
      TwoTermsEval(Term(-1, alloc), Term(-1, dev));
      Constraint(DevLink(r, Neg, row.zone), [Term(-1, alloc), Term(-1, dev)], -row.Target(r))
  }

  /** The six constraints one iteration of the demand loop adds, in order. */
  function ZoneBlock(row: DemandRow): (b: seq<Constraint>)
    ensures |b| == 6
    ensures forall k :: 0 <= k < 6 ==> b[k].tag.DevLink? && b[k].tag.zone == row.zone
    ensures forall i, j :: 0 <= i < j < 6 ==> b[i].tag != b[j].tag
  {
    [LinkConstraint(Ambulances, Pos, row), LinkConstraint(Ambulances, Neg, row),
     LinkConstraint(Staff, Pos, row), LinkConstraint(Staff, Neg, row),
     LinkConstraint(Supplies, Pos, row), LinkConstraint(Supplies, Neg, row)]
  }

  /** The constraints the demand loop has added after visiting the rows `d`. */
  function Linking(d: seq<DemandRow>): seq<Constraint>
  {
    if d == [] then [] else Linking(d[..|d| - 1]) + ZoneBlock(d[|d| - 1])
  }

  /** `lpSum(vars[z] for z in keys)` over allocation variables. */
  function AllocTerms(r: Resource, keys: seq<Zone>): seq<Term>
  {
    seq(|keys|, i requires 0 <= i < |keys| => Term(1, AllocVar(r, keys[i])))
  }

  /** `lpSum(r_vars.values())`: one term per dictionary key, so a repeated zone counts once. */
  function CapTerms(r: Resource, zones: seq<Zone>): seq<Term>
  {
    AllocTerms(r, DictKeys(zones))
  }

  function CapConstraint(r: Resource, zones: seq<Zone>): (c: Constraint)
    ensures c.tag == MaxTotal(r) && c.rhs == CapOf(r)
  {
    Constraint(MaxTotal(r), CapTerms(r, zones), CapOf(r))
  }

  /** `500 * ambulance_vars[z] + 200 * staff_vars[z] + 10 * supplies_vars[z]` for each zone. */
  function BudgetTerms(zones: seq<Zone>): (t: seq<Term>)
    ensures |t| == 3 * |zones|
  {
    if zones == [] then []
    else
      [Term(BudgetCoeff(Ambulances), AllocVar(Ambulances, zones[0])),
       Term(BudgetCoeff(Staff), AllocVar(Staff, zones[0])),
       Term(BudgetCoeff(Supplies), AllocVar(Supplies, zones[0]))] + BudgetTerms(zones[1..])
  }

  function BudgetConstraint(zones: seq<Zone>): (c: Constraint)
    ensures c.tag == BudgetTag && c.rhs == BudgetCeiling
  {
    Constraint(BudgetTag, BudgetTerms(zones), BudgetCeiling)
  }

  function FinalConstraints(zones: seq<Zone>): seq<Constraint>
  {
    [CapConstraint(Ambulances, zones), CapConstraint(Staff, zones), CapConstraint(Supplies, zones),
     BudgetConstraint(zones)]
  }

  function Constraints(zones: seq<Zone>, d: seq<DemandRow>): seq<Constraint>
  {
    Linking(d) + FinalConstraints(zones)
  }

  /** The complete program built from `zones` and `d`. */
  function ModelOf(zones: seq<Zone>, d: seq<DemandRow>): Model
  {
    Model(ProblemName, Variables(zones), ObjectiveTerms(zones), Constraints(zones, d))
  }

  // ---------------------------------------------------------------------
  // Building, with its one failure

  /** `ambulance_vars[zone]` raises KeyError for a demand key that is not a zone. */
  datatype BuildError = UnknownZone(zone: Zone)

  /** The first demand key, in iteration order, that is not one of `zones`. */
  function FirstUnknownZone(zones: seq<Zone>, d: seq<DemandRow>): (r: Option<Zone>)
    ensures r.None? <==> forall i :: 0 <= i < |d| ==> d[i].zone in zones
    ensures r.Some? ==> r.value !in zones && exists i :: 0 <= i < |d| && d[i].zone == r.value
  {
    if d == [] then None
    else if d[0].zone !in zones then Some(d[0].zone)
    else
      var rest := FirstUnknownZone(zones, d[1..]);
      assert forall i :: 1 <= i < |d| ==> d[i] == d[1..][i - 1];
      rest
  }

  lemma {:induction false} FirstUnknownAt(zones: seq<Zone>, d: seq<DemandRow>, i: nat)
    requires i < |d| && d[i].zone !in zones
    requires forall k :: 0 <= k < i ==> d[k].zone in zones
    ensures FirstUnknownZone(zones, d) == Some(d[i].zone)
  {
    if i > 0 {
      FirstUnknownAt(zones, d[1..], i - 1);
    }
  }

  /** What running lines 11–51 of the script produces. */
  function Build(zones: seq<Zone>, d: seq<DemandRow>): (r: Result<Model, BuildError>)
    ensures r.Success? <==> forall i :: 0 <= i < |d| ==> d[i].zone in zones
    ensures r.Success? ==> r.value == ModelOf(zones, d)
    ensures r.Failure? ==> r.error.zone !in zones && exists i :: 0 <= i < |d| && d[i].zone == r.error.zone
  {
    match FirstUnknownZone(zones, d)
    case Some(z) => Failure(UnknownZone(z))
    case None => Success(ModelOf(zones, d))
  }

  // ---------------------------------------------------------------------
  // Shape of the linking constraints, needed by the builder

  lemma {:induction false} LinkingAt(d: seq<DemandRow>, k: nat)
    requires k < 6 * |d|
    ensures |Linking(d)| == 6 * |d|
    ensures Linking(d)[k] == ZoneBlock(d[k / 6])[k % 6]
  {
    var n := |d| - 1;
    var front := d[..n];
    LinkingLength(front);
    if k < 6 * n {
      LinkingAt(front, k);
    }
  }

  lemma {:induction false} LinkingLength(d: seq<DemandRow>)
    ensures |Linking(d)| == 6 * |d|
  {
    if d != [] {
      LinkingLength(d[..|d| - 1]);
    }
  }

  /** Every constraint of `Linking(d)` links some row's zone. */
  lemma LinkingTag(d: seq<DemandRow>, k: nat)
    requires k < |Linking(d)|
    ensures Linking(d)[k].tag.DevLink?
    ensures exists i :: 0 <= i < |d| && Linking(d)[k].tag.zone == d[i].zone
  {
    LinkingLength(d);
    LinkingAt(d, k);
  }

  /** A constraint whose tag is new also has a name that is new. */
  lemma NameFreeFromTags(cs: seq<Constraint>, c: Constraint)
    requires forall k :: 0 <= k < |cs| ==> cs[k].tag != c.tag
    ensures NameFreeIn(cs, c.Name())
  {
    forall k | 0 <= k < |cs|
      ensures cs[k].Name() != c.Name()
    {
      if cs[k].Name() == c.Name() {
        ConstraintNameInjective(cs[k].tag, c.tag);
      }
    }
  }

  /** The next constraint of row `i`'s block has a name no constraint added before it has. */
  lemma LinkNameFresh(d: seq<DemandRow>, i: nat, t: nat)
    requires KeysDistinct(d)
    requires i < |d| && t < 6
    ensures NameFreeIn(Linking(d[..i]) + ZoneBlock(d[i])[..t], ZoneBlock(d[i])[t].Name())
  {
    var front := d[..i];
    var cs := Linking(front) + ZoneBlock(d[i])[..t];
    var c := ZoneBlock(d[i])[t];
    forall k | 0 <= k < |cs|
      ensures cs[k].tag != c.tag
    {
      LinkingLength(front);
      if k < |Linking(front)| {
        LinkingTag(front, k);
      }
    }
    NameFreeFromTags(cs, c);
  }

  /** The cap and budget names are not taken by any linking constraint nor by an earlier cap. */
  lemma FinalNameFresh(zones: seq<Zone>, d: seq<DemandRow>, t: nat)
    requires t < 4
    ensures NameFreeIn(Linking(d) + FinalConstraints(zones)[..t], FinalConstraints(zones)[t].Name())
  {
    var cs := Linking(d) + FinalConstraints(zones)[..t];
    var c := FinalConstraints(zones)[t];
    forall k | 0 <= k < |cs|
      ensures cs[k].tag != c.tag
    {
      LinkingLength(d);
      if k < |Linking(d)| {
        LinkingTag(d, k);
      }
    }
    NameFreeFromTags(cs, c);
  }

  // ---------------------------------------------------------------------
  // The builder

  /** Position of a resource's pair inside `ZoneBlock`. */
  function PairStart(r: Resource): nat
  {
    match r
    case Ambulances => 0
    case Staff => 2
    case Supplies => 4
  }

  /** One pair of lines 36–43: the Pos and Neg linking constraints of `r` for row `i`. */
  method AddLinkPair(problem: Problem, demand: seq<DemandRow>, i: nat, r: Resource)
    requires KeysDistinct(demand) && i < |demand|
    requires problem.constraints == Linking(demand[..i]) + ZoneBlock(demand[i])[..PairStart(r)]
    modifies problem
    ensures problem.constraints == Linking(demand[..i]) + ZoneBlock(demand[i])[..PairStart(r) + 2]
    ensures problem.objective == old(problem.objective)
  {
    var row := demand[i];
    ghost var front := Linking(demand[..i]);
    ghost var block := ZoneBlock(row);
    var t := PairStart(r);
    LinkNameFresh(demand, i, t);
    assert block[t] == LinkConstraint(r, Pos, row);
    problem.AddConstraint(LinkConstraint(r, Pos, row));
    assert block[..t + 1] == block[..t] + [block[t]];
    assert problem.constraints == front + block[..t + 1];
    LinkNameFresh(demand, i, t + 1);
    assert block[t + 1] == LinkConstraint(r, Neg, row);
    problem.AddConstraint(LinkConstraint(r, Neg, row));
    assert block[..t + 2] == block[..t + 1] + [block[t + 1]];
  }

  /** Lines 36–43: one iteration of the demand loop, for a row whose zone is known. */
  method AddZoneBlock(problem: Problem, demand: seq<DemandRow>, i: nat)
    requires KeysDistinct(demand) && i < |demand|
    requires problem.constraints == Linking(demand[..i])
    modifies problem
    ensures problem.constraints == Linking(demand[..i + 1])
    ensures problem.objective == old(problem.objective)
  {
    assert ZoneBlock(demand[i])[..0] == [];
    assert problem.constraints == Linking(demand[..i]) + ZoneBlock(demand[i])[..0];
    AddLinkPair(problem, demand, i, Ambulances);
    AddLinkPair(problem, demand, i, Staff);
    AddLinkPair(problem, demand, i, Supplies);
    assert ZoneBlock(demand[i])[..6] == ZoneBlock(demand[i]);
    assert demand[..i + 1][..i] == demand[..i];
  }

  /** Lines 46–51: the three caps and the budget, after the demand loop. */
  method AddCapsAndBudget(problem: Problem, zones: seq<Zone>, demand: seq<DemandRow>)
    requires problem.constraints == Linking(demand)
    modifies problem
    ensures problem.constraints == Constraints(zones, demand)
    ensures problem.objective == old(problem.objective)
  {
    ghost var final := FinalConstraints(zones);
    FinalNameFresh(zones, demand, 0);
    assert Linking(demand) + final[..0] == problem.constraints;
    problem.AddConstraint(CapConstraint(Ambulances, zones));
    FinalNameFresh(zones, demand, 1);
    assert problem.constraints == Linking(demand) + final[..1];
    problem.AddConstraint(CapConstraint(Staff, zones));
    FinalNameFresh(zones, demand, 2);
    assert problem.constraints == Linking(demand) + final[..2];
    problem.AddConstraint(CapConstraint(Supplies, zones));
    FinalNameFresh(zones, demand, 3);
    assert problem.constraints == Linking(demand) + final[..3];
    problem.AddConstraint(BudgetConstraint(zones));
    assert problem.constraints == Linking(demand) + final;
  }

  /**
   * Lines 5–51: create the problem, set the objective, add six linking
   * constraints per demand entry, then the three caps and the budget.
   * A demand key that is not a zone stops the build at that entry.
   */
  method BuildModel(zones: seq<Zone>, demand: seq<DemandRow>) returns (r: Result<Model, BuildError>)
    requires KeysDistinct(demand)
    ensures r == Build(zones, demand)
  {
    var problem := new Problem(ProblemName);
    problem.SetObjective(ObjectiveTerms(zones));
    var i := 0;
    while i < |demand|
      invariant 0 <= i <= |demand|
      invariant problem.objective == ObjectiveTerms(zones)
      invariant problem.constraints == Linking(demand[..i])
      invariant forall k :: 0 <= k < i ==> demand[k].zone in zones
    {
      if demand[i].zone !in zones {
        FirstUnknownAt(zones, demand, i);
        return Failure(UnknownZone(demand[i].zone));
      }
      AddZoneBlock(problem, demand, i);
      i := i + 1;
    }
    assert demand[..i] == demand;
    AddCapsAndBudget(problem, zones, demand);
    r := Success(Model(problem.name, Variables(zones), problem.objective, problem.constraints));
  }
}
