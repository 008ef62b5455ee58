/**
 * What every feasible point of the built program satisfies: the floors,
 * the deviation bounds, the caps, the budget, and the value of the
 * goal-programming objective. Nothing here depends on the solver being
 * optimal; each fact holds for every assignment the program admits.
 */
module Feasibility {
  import opened Lp
  import opened Builder
  import opened Shape

  function Abs(x: real): real
  {
    if x < 0.0 then -x else x
  }

  // ---------------------------------------------------------------------
  // Reference sums, written independently of the program's term lists

  /** Σ over `zones` of the allocation of `r`. */
  function SumAlloc(a: Assignment, r: Resource, zones: seq<Zone>): real
  {
    if zones == [] then 0.0 else Val(a, AllocVar(r, zones[0])) + SumAlloc(a, r, zones[1..])
  }

  /** Σ over `zones` of the deviation of `r`. */
  function SumDev(a: Assignment, r: Resource, zones: seq<Zone>): real
  {
    if zones == [] then 0.0 else Val(a, DevVar(r, zones[0])) + SumDev(a, r, zones[1..])
  }

  /** What one zone's allocation costs at the budget constraint's unit prices. */
  function ZoneSpend(a: Assignment, z: Zone): real
  {
    500.0 * Val(a, AllocVar(Ambulances, z)) + 200.0 * Val(a, AllocVar(Staff, z)) +
    10.0 * Val(a, AllocVar(Supplies, z))
  }

  function Spend(a: Assignment, zones: seq<Zone>): real
  {
    if zones == [] then 0.0 else ZoneSpend(a, zones[0]) + Spend(a, zones[1..])
  }

  /** |allocation − target| for one demand row and resource. */
  function Gap(a: Assignment, row: DemandRow, r: Resource): real
  {
    Abs(Val(a, AllocVar(r, row.zone)) - row.Target(r) as real)
  }

  function GapSum(a: Assignment, r: Resource, d: seq<DemandRow>): real
  {
    if d == [] then 0.0 else Gap(a, d[0], r) + GapSum(a, r, d[1..])
  }

  function TotalTarget(d: seq<DemandRow>, r: Resource): int
  {
    if d == [] then 0 else d[0].Target(r) + TotalTarget(d[1..], r)
  }

  // ---------------------------------------------------------------------
  // The program's expressions evaluate to the reference sums

  lemma {:induction false} AllocTermsValue(a: Assignment, r: Resource, keys: seq<Zone>)
    ensures Eval(AllocTerms(r, keys), a) == SumAlloc(a, r, keys)
  {
    if keys != [] {
      assert AllocTerms(r, keys)[1..] == AllocTerms(r, keys[1..]);
      AllocTermsValue(a, r, keys[1..]);
    }
  }

  /** A cap's left-hand side sums the allocation of every distinct zone once. */
  lemma CapTermsValue(a: Assignment, r: Resource, zones: seq<Zone>)
    ensures Eval(CapTerms(r, zones), a) == SumAlloc(a, r, DictKeys(zones))
    ensures ZonesDistinct(zones) ==> Eval(CapTerms(r, zones), a) == SumAlloc(a, r, zones)
  {
    AllocTermsValue(a, r, DictKeys(zones));
  }

  lemma {:induction false} DevTermsValue(a: Assignment, r: Resource, zones: seq<Zone>)
    ensures Eval(DevTerms(r, zones), a) == SumDev(a, r, zones)
  {
    if zones != [] {
      assert DevTerms(r, zones)[1..] == DevTerms(r, zones[1..]);
      DevTermsValue(a, r, zones[1..]);
    }
  }

  lemma {:induction false} BudgetTermsValue(a: Assignment, zones: seq<Zone>)
    ensures Eval(BudgetTerms(zones), a) == Spend(a, zones)
  {
    if zones != [] {
      var z := zones[0];
      var t0, t1, t2 := Term(500, AllocVar(Ambulances, z)), Term(200, AllocVar(Staff, z)), Term(10, AllocVar(Supplies, z));
      assert BudgetTerms(zones) == [t0, t1, t2] + BudgetTerms(zones[1..]);
      EvalAppend([t0, t1, t2], BudgetTerms(zones[1..]), a);
      assert [t0, t1, t2][1..] == [t1, t2] && [t1, t2][1..] == [t2] && [t2][1..] == [];
      assert Eval([t2], a) == 10.0 * Val(a, t2.v);
      assert Eval([t1, t2], a) == 200.0 * Val(a, t1.v) + Eval([t2], a);
      assert Eval([t0, t1, t2], a) == 500.0 * Val(a, t0.v) + Eval([t1, t2], a);
      BudgetTermsValue(a, zones[1..]);
    }
  }

  /** Lines 30–32: the objective is the sum of all 3·|zones| deviation variables. */
  lemma ObjectiveIsTotalDeviation(a: Assignment, zones: seq<Zone>)
    ensures Eval(ObjectiveTerms(zones), a) ==
      SumDev(a, Ambulances, zones) + SumDev(a, Staff, zones) + SumDev(a, Supplies, zones)
  {
    EvalAppend(DevTerms(Ambulances, zones), DevTerms(Staff, zones), a);
    EvalAppend(DevTerms(Ambulances, zones) + DevTerms(Staff, zones), DevTerms(Supplies, zones), a);
    DevTermsValue(a, Ambulances, zones);
    DevTermsValue(a, Staff, zones);
    DevTermsValue(a, Supplies, zones);
  }

  // ---------------------------------------------------------------------
  // Per-variable facts

  /** Lines 11–18: at a feasible point every allocation is a whole number at or above its floor, every deviation is non-negative. */
  lemma FloorsHold(zones: seq<Zone>, d: seq<DemandRow>, a: Assignment, r: Resource, z: Zone)
    requires Satisfies(ModelOf(zones, d), a)
    requires z in zones
    ensures AllocVar(r, z) in a && IsIntegral(a[AllocVar(r, z)]) && a[AllocVar(r, z)] >= Floor(r) as real
    ensures DevVar(r, z) in a && a[DevVar(r, z)] >= 0.0
  {
    DeclaredExactly(zones, AllocVar(r, z));
    DeclaredExactly(zones, DevVar(r, z));
  }

  /**
   * Lines 36–43: one resource's Pos/Neg pair holds exactly when its
   * deviation variable is at least the distance between allocation and target.
   */
  lemma LinkPairIff(a: Assignment, row: DemandRow, r: Resource)
    ensures Holds(LinkConstraint(r, Pos, row), a) && Holds(LinkConstraint(r, Neg, row), a)
        <==> Val(a, DevVar(r, row.zone)) >= Gap(a, row, r)
  {
    var x, e := Val(a, AllocVar(r, row.zone)), Val(a, DevVar(r, row.zone));
    var pos, neg := LinkConstraint(r, Pos, row).terms, LinkConstraint(r, Neg, row).terms;
    assert pos[1..][1..] == [] && neg[1..][1..] == [];
    assert Eval(pos[1..], a) == -e && Eval(neg[1..], a) == -e;
    assert Eval(pos, a) == x - e;
    assert Eval(neg, a) == -x - e;
  }

  /** The Pos and Neg constraints of row `i` and resource `r` are part of the program. */
  lemma LinkPairPresent(zones: seq<Zone>, d: seq<DemandRow>, i: nat, r: Resource)
    requires i < |d|
    ensures LinkConstraint(r, Pos, d[i]) in Constraints(zones, d)
    ensures LinkConstraint(r, Neg, d[i]) in Constraints(zones, d)
  {
    BlockAt(zones, d, i);
    var cs := Constraints(zones, d);
    var t := PairStart(r);
    assert cs[6 * i + t] == ZoneBlock(d[i])[t] == LinkConstraint(r, Pos, d[i]);
    assert cs[6 * i + t + 1] == ZoneBlock(d[i])[t + 1] == LinkConstraint(r, Neg, d[i]);
  }

  /** Every feasible point has deviation ≥ |allocation − target| for every demand entry and resource. */
  lemma DeviationCoversGap(zones: seq<Zone>, d: seq<DemandRow>, a: Assignment, i: nat, r: Resource)
    requires Satisfies(ModelOf(zones, d), a)
    requires i < |d|
    ensures Val(a, DevVar(r, d[i].zone)) >= Gap(a, d[i], r)
  {
    LinkPairPresent(zones, d, i, r);
    LinkPairIff(a, d[i], r);
  }

  // ---------------------------------------------------------------------
  // Caps and budget

  lemma FinalPresent(zones: seq<Zone>, d: seq<DemandRow>)
    ensures forall c :: c in FinalConstraints(zones) ==> c in Constraints(zones, d)
  {
  }

  /** Lines 46–48: at a feasible point no resource exceeds its cap summed over the distinct zones. */
  lemma CapsRespected(zones: seq<Zone>, d: seq<DemandRow>, a: Assignment, r: Resource)
    requires Satisfies(ModelOf(zones, d), a)
    ensures SumAlloc(a, r, DictKeys(zones)) <= CapOf(r) as real
    ensures ZonesDistinct(zones) ==> SumAlloc(a, r, zones) <= CapOf(r) as real
  {
    FinalPresent(zones, d);
    assert CapConstraint(r, zones) in FinalConstraints(zones);
    CapTermsValue(a, r, zones);
  }

  /** Line 51: at a feasible point the spend at 500/200/10 per unit stays within 40000. */
  lemma BudgetRespected(zones: seq<Zone>, d: seq<DemandRow>, a: Assignment)
    requires Satisfies(ModelOf(zones, d), a)
    ensures Spend(a, zones) <= 40000.0
  {
    FinalPresent(zones, d);
    assert BudgetConstraint(zones) in FinalConstraints(zones);
    BudgetTermsValue(a, zones);
  }

  // ---------------------------------------------------------------------
  // Feasibility, restated per zone and resource

  /** The program's declarations and constraints, one requirement per zone and resource. */
  predicate FeasibleParts(zones: seq<Zone>, d: seq<DemandRow>, a: Assignment)
  {
    (forall i, r :: 0 <= i < |zones| ==> AtFloor(a, r, zones[i])) &&
    (forall i, r :: 0 <= i < |d| ==> Val(a, DevVar(r, d[i].zone)) >= Gap(a, d[i], r)) &&
    (forall r :: SumAlloc(a, r, DictKeys(zones)) <= CapOf(r) as real) &&
    Spend(a, zones) <= BudgetCeiling as real
  }

  /** Zone `z`'s allocation of `r` is a whole number at or above its floor, its deviation is non-negative. */
  predicate AtFloor(a: Assignment, r: Resource, z: Zone)
  {
    AllocVar(r, z) in a && IsIntegral(a[AllocVar(r, z)]) && a[AllocVar(r, z)] >= Floor(r) as real &&
    DevVar(r, z) in a && a[DevVar(r, z)] >= 0.0
  }

  /** The `t`-th constraint of a block is the Pos or Neg link of one resource. */
  lemma BlockIsLink(row: DemandRow, t: nat)
    requires t < 6
    ensures ZoneBlock(row)[t] ==
      LinkConstraint([Ambulances, Staff, Supplies][t / 2], if t % 2 == 0 then Pos else Neg, row)
  {
  }

  lemma PartsGiveLinking(zones: seq<Zone>, d: seq<DemandRow>, a: Assignment, k: nat)
    requires FeasibleParts(zones, d, a)
    requires k < |Linking(d)|
    ensures Holds(Linking(d)[k], a)
  {
    LinkingLength(d);
    LinkingAt(d, k);
    var i, t := k / 6, k % 6;
    var r := [Ambulances, Staff, Supplies][t / 2];
    BlockIsLink(d[i], t);
    assert Val(a, DevVar(r, d[i].zone)) >= Gap(a, d[i], r);
    LinkPairIff(a, d[i], r);
  }

  lemma PartsGiveVariables(zones: seq<Zone>, d: seq<DemandRow>, a: Assignment, decl: VarDecl)
    requires FeasibleParts(zones, d, a)
    requires decl in Variables(zones)
    ensures Admits(decl, a)
  {
    VariableBounds(zones);
    var i :| 0 <= i < |zones| && zones[i] == decl.v.zone;
    var r := decl.v.resource;
    assert AtFloor(a, r, zones[i]);
    if decl.v.kind == Alloc {
      assert decl.v == AllocVar(r, zones[i]);
    } else {
      assert decl.v == DevVar(r, zones[i]);
    }
  }

  lemma SatisfiesGivesParts(zones: seq<Zone>, d: seq<DemandRow>, a: Assignment)
    requires Satisfies(ModelOf(zones, d), a)
    ensures FeasibleParts(zones, d, a)
  {
    forall i, r | 0 <= i < |zones|
      ensures AtFloor(a, r, zones[i])
    {
      FloorsHold(zones, d, a, r, zones[i]);
    }
    forall i, r | 0 <= i < |d|
      ensures Val(a, DevVar(r, d[i].zone)) >= Gap(a, d[i], r)
    {
      DeviationCoversGap(zones, d, a, i, r);
    }
    forall r
      ensures SumAlloc(a, r, DictKeys(zones)) <= CapOf(r) as real
    {
      CapsRespected(zones, d, a, r);
    }
    BudgetRespected(zones, d, a);
  }

  lemma PartsGiveSatisfies(zones: seq<Zone>, d: seq<DemandRow>, a: Assignment)
    requires FeasibleParts(zones, d, a)
    ensures Satisfies(ModelOf(zones, d), a)
  {
    var m := ModelOf(zones, d);
    forall decl | decl in m.vars
      ensures Admits(decl, a)
    {
      PartsGiveVariables(zones, d, a, decl);
    }
    forall c | c in m.constraints
      ensures Holds(c, a)
    {
      var k :| 0 <= k < |m.constraints| && m.constraints[k] == c;
      if k < |Linking(d)| {
        PartsGiveLinking(zones, d, a, k);
      } else {
        assert c in FinalConstraints(zones);
        CapTermsValue(a, Ambulances, zones);
        CapTermsValue(a, Staff, zones);
        CapTermsValue(a, Supplies, zones);
        BudgetTermsValue(a, zones);
      }
    }
  }

  /** A point satisfies the built program exactly when it meets every per-zone, per-resource requirement. */
  lemma SatisfiesIff(zones: seq<Zone>, d: seq<DemandRow>, a: Assignment)
    ensures Satisfies(ModelOf(zones, d), a) <==> FeasibleParts(zones, d, a)
  {
    if Satisfies(ModelOf(zones, d), a) {
      SatisfiesGivesParts(zones, d, a);
    }
    if FeasibleParts(zones, d, a) {
      PartsGiveSatisfies(zones, d, a);
    }
  }

  // ---------------------------------------------------------------------
  // The objective at a feasible point

  lemma {:induction false} DevSumCoversGaps(a: Assignment, r: Resource, d: seq<DemandRow>)
    requires forall i :: 0 <= i < |d| ==> Val(a, DevVar(r, d[i].zone)) >= Gap(a, d[i], r)
    ensures SumDev(a, r, Keys(d)) >= GapSum(a, r, d) >= 0.0
  {
    if d != [] {
      assert Keys(d)[1..] == Keys(d[1..]);
      assert forall i :: 1 <= i < |d| ==> d[i] == d[1..][i - 1];
      DevSumCoversGaps(a, r, d[1..]);
    }
  }

  lemma {:induction false} GapSumAtLeastShortfall(a: Assignment, r: Resource, d: seq<DemandRow>)
    ensures GapSum(a, r, d) >= TotalTarget(d, r) as real - SumAlloc(a, r, Keys(d))
  {
    if d != [] {
      assert Keys(d)[1..] == Keys(d[1..]);
      GapSumAtLeastShortfall(a, r, d[1..]);
    }
  }

  lemma DevSumBounds(a: Assignment, r: Resource, d: seq<DemandRow>)
    requires Satisfies(ModelOf(Keys(d), d), a)
    ensures SumDev(a, r, Keys(d)) >= GapSum(a, r, d) >= 0.0
    ensures KeysDistinct(d) ==> SumDev(a, r, Keys(d)) >= (TotalTarget(d, r) - CapOf(r)) as real
  {
    forall i | 0 <= i < |d|
      ensures Val(a, DevVar(r, d[i].zone)) >= Gap(a, d[i], r)
    {
      DeviationCoversGap(Keys(d), d, a, i, r);
    }
    DevSumCoversGaps(a, r, d);
    GapSumAtLeastShortfall(a, r, d);
    if KeysDistinct(d) {
      assert ZonesDistinct(Keys(d));
      CapsRespected(Keys(d), d, a, r);
    }
  }

  /**
   * Lines 30–43: when the zones are exactly the demand keys, the objective
   * at any feasible point is at least Σ |allocation − target| ≥ 0.
   */
  lemma ObjectiveCoversGaps(d: seq<DemandRow>, a: Assignment)
    requires Satisfies(ModelOf(Keys(d), d), a)
    ensures Eval(ObjectiveTerms(Keys(d)), a) >=
      GapSum(a, Ambulances, d) + GapSum(a, Staff, d) + GapSum(a, Supplies, d) >= 0.0
  {
    ObjectiveIsTotalDeviation(a, Keys(d));
    DevSumBounds(a, Ambulances, d);
    DevSumBounds(a, Staff, d);
    DevSumBounds(a, Supplies, d);
  }

  function Excess(d: seq<DemandRow>, r: Resource): int
  {
    if TotalTarget(d, r) > CapOf(r) then TotalTarget(d, r) - CapOf(r) else 0
  }

  /**
   * Demand above a cap cannot be met: each unit of it shows up in the
   * objective of every feasible point. The keys of the demand dictionary are
   * distinct, which the cap needs: it counts each zone once.
   */
  lemma ObjectiveAtLeastExcess(d: seq<DemandRow>, a: Assignment)
    requires KeysDistinct(d)
    requires Satisfies(ModelOf(Keys(d), d), a)
    ensures Eval(ObjectiveTerms(Keys(d)), a) >=
      (Excess(d, Ambulances) + Excess(d, Staff) + Excess(d, Supplies)) as real
  {
    ObjectiveIsTotalDeviation(a, Keys(d));
    DevSumBounds(a, Ambulances, d);
    DevSumBounds(a, Staff, d);
    DevSumBounds(a, Supplies, d);
  }

  /** Σ of the targets of `r` over the rows from position `i` on, by index. */
  function TargetSumFrom(d: seq<DemandRow>, r: Resource, i: nat): int
    decreases |d| - i
  {
    if i >= |d| then 0 else d[i].Target(r) + TargetSumFrom(d, r, i + 1)
  }

  lemma {:induction false} TargetSumFromSuffix(d: seq<DemandRow>, r: Resource, i: nat)
    requires i <= |d|
    ensures TargetSumFrom(d, r, i) == TotalTarget(d[i..], r)
    decreases |d| - i
  {
    if i < |d| {
      assert d[i..][1..] == d[i + 1..];
      TargetSumFromSuffix(d, r, i + 1);
    }
  }

  /** The demand table asks for 33 ambulances, 70 staff and 560 supplies. */
  lemma TableTotals()
    ensures TotalTarget(DemandTable, Ambulances) == 33
    ensures TotalTarget(DemandTable, Staff) == 70
    ensures TotalTarget(DemandTable, Supplies) == 560
  {
    TableAmbulances();
    TableStaff();
    TableSupplies();
  }

  lemma TableAmbulances()
    ensures TotalTarget(DemandTable, Ambulances) == 33
  {
    TableTotal(Ambulances);
  }

  lemma TableStaff()
    ensures TotalTarget(DemandTable, Staff) == 70
  {
    TableTotal(Staff);
  }

  lemma TableSupplies()
    ensures TotalTarget(DemandTable, Supplies) == 560
  {
    TableTotal(Supplies);
  }

  lemma TableTotal(r: Resource)
    ensures TotalTarget(DemandTable, r) == TargetSumFrom(DemandTable, r, 0)
  {
    assert DemandTable[0..] == DemandTable;
    TargetSumFromSuffix(DemandTable, r, 0);
  }

  /** Lines 21–27, 37, 46: 33 ambulances are asked for against a cap of 30, so every feasible point has objective ≥ 3. */
  lemma TableObjectiveAtLeastThree(a: Assignment)
    requires Satisfies(ModelOf(Zones, DemandTable), a)
    ensures Eval(ModelOf(Zones, DemandTable).objective, a) >= 3.0
  {
    TableKeys();
    TableTotals();
    ObjectiveAtLeastThree(DemandTable, a);
  }

  /** Any demand asking for 33 ambulances in all, with distinct keys, forces an objective of at least 3. */
  lemma ObjectiveAtLeastThree(d: seq<DemandRow>, a: Assignment)
    requires KeysDistinct(d) && TotalTarget(d, Ambulances) == 33
    requires Satisfies(ModelOf(Keys(d), d), a)
    ensures Eval(ModelOf(Keys(d), d).objective, a) >= 3.0
  {
    ObjectiveAtLeastExcess(d, a);
  }
}
