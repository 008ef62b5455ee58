/**
 * A point of the built program assembled from a table of whole-number
 * allocations, with each deviation set to the distance between allocation
 * and target, and the allocation table the project reports for the 15
 * zones: it is feasible, its objective is 3, and so it is an optimum;
 * its cost report is the table's `Cost` column, 34600 in total.
 */
module Witness {
  import opened Lp
  import opened Builder
  import opened Shape
  import opened Feasibility
  import opened Projection

  function IntAbs(x: int): int
  {
    if x < 0 then -x else x
  }

  /** The `r` column entry of an allocation row. */
  function Amount(row: AllocationRow, r: Resource): int
  {
    match r
    case Ambulances => row.ambulances
    case Staff => row.staff
    case Supplies => row.supplies
  }

  function Column(rows: seq<AllocationRow>, r: Resource): seq<int>
  {
    seq(|rows|, i requires 0 <= i < |rows| => Amount(rows[i], r))
  }

  /** |allocation − target| per row, for one resource. */
  function Gaps(rows: seq<AllocationRow>, d: seq<DemandRow>, r: Resource): seq<int>
    requires |rows| == |d|
  {
    seq(|rows|, i requires 0 <= i < |rows| => IntAbs(Amount(rows[i], r) - d[i].Target(r)))
  }

  /** Row `i` of the allocation table belongs to demand entry `i`. */
  predicate Aligned(rows: seq<AllocationRow>, d: seq<DemandRow>)
  {
    |rows| == |d| && forall i :: 0 <= i < |d| ==> rows[i].zone == d[i].zone
  }

  // ---------------------------------------------------------------------
  // The point built from a table

  /** The six values of one zone. */
  function RowValues(row: AllocationRow, t: DemandRow): Assignment
  {
    map[
      AllocVar(Ambulances, row.zone) := row.ambulances as real,
      AllocVar(Staff, row.zone) := row.staff as real,
      AllocVar(Supplies, row.zone) := row.supplies as real,
      DevVar(Ambulances, row.zone) := Abs(row.ambulances as real - t.ambulances as real),
      DevVar(Staff, row.zone) := Abs(row.staff as real - t.staff as real),
      DevVar(Supplies, row.zone) := Abs(row.supplies as real - t.supplies as real)]
  }

  function Completed(rows: seq<AllocationRow>, d: seq<DemandRow>): Assignment
    requires |rows| == |d|
  {
    if rows == [] then map[] else Completed(rows[1..], d[1..]) + RowValues(rows[0], d[0])
  }

  lemma RowValuesAt(row: AllocationRow, t: DemandRow, r: Resource)
    ensures AllocVar(r, row.zone) in RowValues(row, t)
    ensures RowValues(row, t)[AllocVar(r, row.zone)] == Amount(row, r) as real
    ensures DevVar(r, row.zone) in RowValues(row, t)
    ensures RowValues(row, t)[DevVar(r, row.zone)] == Abs(Amount(row, r) as real - t.Target(r) as real)
  {
  }

  lemma {:induction false} AlignedTail(rows: seq<AllocationRow>, d: seq<DemandRow>)
    requires Aligned(rows, d) && KeysDistinct(d) && d != []
    ensures Aligned(rows[1..], d[1..]) && KeysDistinct(d[1..])
  {
    assert forall i :: 0 <= i < |d| - 1 ==> d[1..][i] == d[i + 1] && rows[1..][i] == rows[i + 1];
  }

  /** Looking up zone `i`'s variables in the completed point gives row `i`'s values. */
  lemma {:induction false} CompletedAt(rows: seq<AllocationRow>, d: seq<DemandRow>, i: nat, r: Resource)
    requires Aligned(rows, d) && KeysDistinct(d) && i < |d|
    ensures AllocVar(r, d[i].zone) in Completed(rows, d)
    ensures Completed(rows, d)[AllocVar(r, d[i].zone)] == Amount(rows[i], r) as real
    ensures DevVar(r, d[i].zone) in Completed(rows, d)
    ensures Completed(rows, d)[DevVar(r, d[i].zone)] == Abs(Amount(rows[i], r) as real - d[i].Target(r) as real)
  {
    RowValuesAt(rows[0], d[0], r);
    if i > 0 {
      AlignedTail(rows, d);
      assert d[1..][i - 1] == d[i] && rows[1..][i - 1] == rows[i];
      CompletedAt(rows[1..], d[1..], i - 1, r);
      var row := RowValues(rows[0], d[0]);
      assert d[i].zone != d[0].zone;
      assert AllocVar(r, d[i].zone) !in row && DevVar(r, d[i].zone) !in row;
    }
  }

  /** Reading the completed point back gives the table it was built from. */
  lemma RoundTrip(rows: seq<AllocationRow>, d: seq<DemandRow>)
    requires Aligned(rows, d) && KeysDistinct(d)
    ensures AllocationTable(Completed(rows, d), Keys(d)) == rows
  {
    var a := Completed(rows, d);
    forall i | 0 <= i < |d|
      ensures AllocationTable(a, Keys(d))[i] == rows[i]
    {
      CompletedAt(rows, d, i, Ambulances);
      CompletedAt(rows, d, i, Staff);
      CompletedAt(rows, d, i, Supplies);
    }
  }

  // ---------------------------------------------------------------------
  // Sums over the completed point

  lemma {:induction false} SumAllocIsColumnSum(a: Assignment, r: Resource, rows: seq<AllocationRow>, d: seq<DemandRow>)
    requires Aligned(rows, d)
    requires forall i :: 0 <= i < |d| ==> Val(a, AllocVar(r, d[i].zone)) == Amount(rows[i], r) as real
    ensures SumAlloc(a, r, Keys(d)) == Sum(Column(rows, r)) as real
  {
    if d != [] {
      assert Keys(d)[1..] == Keys(d[1..]);
      assert Column(rows, r)[1..] == Column(rows[1..], r);
      assert forall i :: 0 <= i < |d| - 1 ==> d[1..][i] == d[i + 1] && rows[1..][i] == rows[i + 1];
      SumAllocIsColumnSum(a, r, rows[1..], d[1..]);
    }
  }

  lemma {:induction false} SumDevIsGapSum(a: Assignment, r: Resource, rows: seq<AllocationRow>, d: seq<DemandRow>)
    requires Aligned(rows, d)
    requires forall i :: 0 <= i < |d| ==>
      Val(a, DevVar(r, d[i].zone)) == Abs(Amount(rows[i], r) as real - d[i].Target(r) as real)
    ensures SumDev(a, r, Keys(d)) == Sum(Gaps(rows, d, r)) as real
  {
    if d != [] {
      assert Keys(d)[1..] == Keys(d[1..]);
      assert Gaps(rows, d, r)[1..] == Gaps(rows[1..], d[1..], r);
      assert forall i :: 0 <= i < |d| - 1 ==> d[1..][i] == d[i + 1] && rows[1..][i] == rows[i + 1];
      SumDevIsGapSum(a, r, rows[1..], d[1..]);
    }
  }

  /** A table whose rows meet the floors, whose columns fit the caps and whose cost fits the budget. */
  predicate Admissible(rows: seq<AllocationRow>)
  {
    (forall i :: 0 <= i < |rows| ==> rows[i].ambulances >= 1 && rows[i].staff >= 1 && rows[i].supplies >= 10) &&
    (forall r :: Sum(Column(rows, r)) <= CapOf(r)) &&
    TotalCost(rows) <= BudgetCeiling
  }

  /**
   * Completeness of the program: every admissible whole-number table,
   * completed with the exact distances as deviations, is a feasible point,
   * and its objective is the total distance from the targets.
   */
  lemma CompletedFeasible(rows: seq<AllocationRow>, d: seq<DemandRow>)
    requires Aligned(rows, d) && KeysDistinct(d) && Admissible(rows)
    ensures Satisfies(ModelOf(Keys(d), d), Completed(rows, d))
    ensures Eval(ModelOf(Keys(d), d).objective, Completed(rows, d)) ==
      (Sum(Gaps(rows, d, Ambulances)) + Sum(Gaps(rows, d, Staff)) + Sum(Gaps(rows, d, Supplies))) as real
  {
    var a, zones := Completed(rows, d), Keys(d);
    assert ZonesDistinct(zones);
    assert DictKeys(zones) == zones;
    forall i, r | 0 <= i < |zones|
      ensures AtFloor(a, r, zones[i]) && IsIntegral(Val(a, AllocVar(r, zones[i])))
      ensures Val(a, DevVar(r, d[i].zone)) >= Gap(a, d[i], r)
    {
      CompletedAt(rows, d, i, r);
    }
    forall r
      ensures SumAlloc(a, r, zones) <= CapOf(r) as real
      ensures SumDev(a, r, zones) == Sum(Gaps(rows, d, r)) as real
    {
      forall i | 0 <= i < |d|
        ensures Val(a, AllocVar(r, d[i].zone)) == Amount(rows[i], r) as real
        ensures Val(a, DevVar(r, d[i].zone)) == Abs(Amount(rows[i], r) as real - d[i].Target(r) as real)
      {
        CompletedAt(rows, d, i, r);
      }
      SumAllocIsColumnSum(a, r, rows, d);
      SumDevIsGapSum(a, r, rows, d);
    }
    assert IntegralOn(a, zones);
    SpendIsTotalCost(a, zones);
    RoundTrip(rows, d);
    PartsGiveSatisfies(zones, d, a);
    ObjectiveIsTotalDeviation(a, zones);
  }

  // ---------------------------------------------------------------------
  // The reported allocation for the 15 zones

  /** The allocation table the project reports for the script's data. */
  const ReportedRows: seq<AllocationRow> := [
    AllocationRow("A", 3, 6, 50), AllocationRow("B", 1, 4, 30), AllocationRow("C", 1, 3, 20),
    AllocationRow("D", 3, 5, 40), AllocationRow("E", 4, 8, 60), AllocationRow("F", 1, 2, 15),
    AllocationRow("G", 1, 3, 20), AllocationRow("H", 4, 8, 70), AllocationRow("I", 2, 4, 35),
    AllocationRow("J", 1, 3, 25), AllocationRow("K", 3, 6, 55), AllocationRow("L", 2, 5, 40),
    AllocationRow("M", 2, 8, 65), AllocationRow("N", 1, 2, 15), AllocationRow("O", 1, 3, 20)
  ]

  /** Its reported `Cost` column. */
  const ReportedCosts: seq<int> := [
    3200, 1600, 1300, 2900, 4200, 1050, 1300, 4300, 2150, 1350, 3250, 2400, 3250, 1050, 1300
  ]

  // Local helpers for the literal table below, not part of the model. The
  // verifier does not unfold `Sum` and `Column` over slices of a literal
  // sequence, but it does unfold these index-based forms. Each one is tied
  // to the definition it stands for by the lemma named in its comment, and
  // the concrete lemmas state their results in terms of those definitions.

  /** `Sum(Column(rows[i..], r))`, by `ColumnFromSuffix`. */
  function ColumnFrom(rows: seq<AllocationRow>, r: Resource, i: nat): int
    decreases |rows| - i
  {
    if i >= |rows| then 0 else Amount(rows[i], r) + ColumnFrom(rows, r, i + 1)
  }

  /** `TotalCost(rows[i..])`, by `CostFromSuffix`. */
  function CostFrom(rows: seq<AllocationRow>, i: nat): int
    decreases |rows| - i
  {
    if i >= |rows| then 0 else ZoneCost(rows[i]) + CostFrom(rows, i + 1)
  }

  /** `Sum(Gaps(rows[i..], d[i..], r))`, by `GapFromSuffix`. */
  function GapFrom(rows: seq<AllocationRow>, d: seq<DemandRow>, r: Resource, i: nat): int
    requires |rows| == |d|
    decreases |rows| - i
  {
    if i >= |rows| then 0 else IntAbs(Amount(rows[i], r) - d[i].Target(r)) + GapFrom(rows, d, r, i + 1)
  }

  /** Every row from `i` on meets the floors, the first conjunct of `Admissible`, by `FloorsFromAll`. */
  predicate FloorsFrom(rows: seq<AllocationRow>, i: nat)
    decreases |rows| - i
  {
    i >= |rows| ||
    (rows[i].ambulances >= 1 && rows[i].staff >= 1 && rows[i].supplies >= 10 && FloorsFrom(rows, i + 1))
  }

  lemma {:induction false} FloorsFromAll(rows: seq<AllocationRow>, i: nat)
    requires i <= |rows| && FloorsFrom(rows, i)
    ensures forall k :: i <= k < |rows| ==> rows[k].ambulances >= 1 && rows[k].staff >= 1 && rows[k].supplies >= 10
    decreases |rows| - i
  {
    if i < |rows| {
      FloorsFromAll(rows, i + 1);
    }
  }

  /** Row `k` costs `costs[k]` for every `k` from `i` on, so `CostColumn(rows)` agrees with `costs` there, by `CostsFromColumn`. */
  predicate CostsFrom(rows: seq<AllocationRow>, costs: seq<int>, i: nat)
    decreases |rows| - i
  {
    i >= |rows| || (i < |costs| && ZoneCost(rows[i]) == costs[i] && CostsFrom(rows, costs, i + 1))
  }

  lemma {:induction false} ColumnFromSuffix(rows: seq<AllocationRow>, r: Resource, i: nat)
    requires i <= |rows|
    ensures ColumnFrom(rows, r, i) == Sum(Column(rows[i..], r))
    decreases |rows| - i
  {
    if i < |rows| {
      assert Column(rows[i..], r)[1..] == Column(rows[i + 1..], r);
      ColumnFromSuffix(rows, r, i + 1);
    }
  }

  lemma {:induction false} CostFromSuffix(rows: seq<AllocationRow>, i: nat)
    requires i <= |rows|
    ensures CostFrom(rows, i) == TotalCost(rows[i..])
    decreases |rows| - i
  {
    if i < |rows| {
      assert CostColumn(rows[i..])[1..] == CostColumn(rows[i + 1..]);
      CostFromSuffix(rows, i + 1);
    }
  }

  lemma {:induction false} GapFromSuffix(rows: seq<AllocationRow>, d: seq<DemandRow>, r: Resource, i: nat)
    requires |rows| == |d| && i <= |rows|
    ensures GapFrom(rows, d, r, i) == Sum(Gaps(rows[i..], d[i..], r))
    decreases |rows| - i
  {
    if i < |rows| {
      assert Gaps(rows[i..], d[i..], r)[1..] == Gaps(rows[i + 1..], d[i + 1..], r);
      GapFromSuffix(rows, d, r, i + 1);
    }
  }

  lemma {:induction false} CostsFromColumn(rows: seq<AllocationRow>, costs: seq<int>, i: nat)
    requires |rows| == |costs| && i <= |rows| && CostsFrom(rows, costs, i)
    ensures forall k :: i <= k < |rows| ==> CostColumn(rows)[k] == costs[k]
    decreases |rows| - i
  {
    if i < |rows| {
      CostsFromColumn(rows, costs, i + 1);
    }
  }

  /** Column totals of the reported table: 30 ambulances, 70 staff, 560 supplies. */
  lemma ReportedColumns()
    ensures Sum(Column(ReportedRows, Ambulances)) == 30
    ensures Sum(Column(ReportedRows, Staff)) == 70
    ensures Sum(Column(ReportedRows, Supplies)) == 560
  {
    assert ReportedRows[0..] == ReportedRows;
    ColumnFromSuffix(ReportedRows, Ambulances, 0);
    ColumnFromSuffix(ReportedRows, Staff, 0);
    ColumnFromSuffix(ReportedRows, Supplies, 0);
  }

  /** The reported `Cost` column is 500/200/10 per unit of each row, 34600 in total. */
  lemma ReportedCostColumn()
    ensures CostColumn(ReportedRows) == ReportedCosts
    ensures TotalCost(ReportedRows) == 34600
  {
    assert ReportedRows[0..] == ReportedRows;
    CostFromSuffix(ReportedRows, 0);
    assert CostsFrom(ReportedRows, ReportedCosts, 0);
    CostsFromColumn(ReportedRows, ReportedCosts, 0);
  }

  lemma ReportedGapFrom(r: Resource)
    ensures Sum(Gaps(ReportedRows, DemandTable, r)) == GapFrom(ReportedRows, DemandTable, r, 0)
  {
    assert ReportedRows[0..] == ReportedRows && DemandTable[0..] == DemandTable;
    GapFromSuffix(ReportedRows, DemandTable, r, 0);
  }

  /** Zone B is one ambulance short of its target and zone M two. */
  lemma ReportedAmbulanceGap()
    ensures Sum(Gaps(ReportedRows, DemandTable, Ambulances)) == 3
  {
    ReportedGapFrom(Ambulances);
  }

  /** When every row meets its target for `r` exactly, no distance is left for `r`. */
  lemma {:induction false} GapsZero(rows: seq<AllocationRow>, d: seq<DemandRow>, r: Resource)
    requires |rows| == |d|
    requires forall i :: 0 <= i < |d| ==> Amount(rows[i], r) == d[i].Target(r)
    ensures Sum(Gaps(rows, d, r)) == 0
  {
    if d != [] {
      assert Gaps(rows, d, r)[1..] == Gaps(rows[1..], d[1..], r);
      assert forall i :: 0 <= i < |d| - 1 ==> d[1..][i] == d[i + 1] && rows[1..][i] == rows[i + 1];
      GapsZero(rows[1..], d[1..], r);
    }
  }

  /** Every staff target is met exactly. */
  lemma ReportedStaffGap()
    ensures Sum(Gaps(ReportedRows, DemandTable, Staff)) == 0
  {
    assert forall i :: 0 <= i < |DemandTable| ==> ReportedRows[i].staff == DemandTable[i].staff;
    GapsZero(ReportedRows, DemandTable, Staff);
  }

  /** Every supplies target is met exactly. */
  lemma ReportedSuppliesGap()
    ensures Sum(Gaps(ReportedRows, DemandTable, Supplies)) == 0
  {
    assert forall i :: 0 <= i < |DemandTable| ==> ReportedRows[i].supplies == DemandTable[i].supplies;
    GapsZero(ReportedRows, DemandTable, Supplies);
  }

  lemma ReportedAligned()
    ensures Aligned(ReportedRows, DemandTable)
  {
  }

  lemma ReportedFloors()
    ensures forall k :: 0 <= k < |ReportedRows| ==>
      ReportedRows[k].ambulances >= 1 && ReportedRows[k].staff >= 1 && ReportedRows[k].supplies >= 10
  {
    assert FloorsFrom(ReportedRows, 0);
    FloorsFromAll(ReportedRows, 0);
  }

  lemma ReportedAdmissible()
    ensures Admissible(ReportedRows)
  {
    ReportedColumns();
    ReportedCostColumn();
    ReportedFloors();
    assert forall r :: Sum(Column(ReportedRows, r)) <= CapOf(r) by {
      forall r ensures Sum(Column(ReportedRows, r)) <= CapOf(r) {
        match r
        case Ambulances =>
        case Staff =>
        case Supplies =>
      }
    }
  }

  function ReportedPoint(): Assignment
  {
    Completed(ReportedRows, DemandTable)
  }

  /**
   * The reported allocation is an optimum of the script's program: it is
   * feasible, its objective is 3 (zone B one ambulance short, zone M two),
   * and no feasible point has a smaller objective.
   */
  lemma ReportedAllocationIsOptimal()
    ensures IsOptimal(ModelOf(Zones, DemandTable), ReportedPoint())
    ensures Eval(ModelOf(Zones, DemandTable).objective, ReportedPoint()) == 3.0
  {
    TableKeys();
    ReportedAmbulanceGap();
    ReportedStaffGap();
    ReportedSuppliesGap();
    ReportedAligned();
    ReportedAdmissible();
    CompletedFeasible(ReportedRows, DemandTable);
    forall b | Satisfies(ModelOf(Zones, DemandTable), b)
      ensures Eval(ModelOf(Zones, DemandTable).objective, b) >= 3.0
    {
      TableObjectiveAtLeastThree(b);
    }
  }

  /** Whatever optimum the solver returns for the script's data, its total deviation is 3. */
  lemma OptimalObjectiveIsThree(out: SolveOutcome)
    requires SolverContract(ModelOf(Zones, DemandTable), out)
    requires out.status == Optimal
    ensures Eval(ModelOf(Zones, DemandTable).objective, out.values) == 3.0
  {
    ReportedAllocationIsOptimal();
    TableObjectiveAtLeastThree(out.values);
  }

  /** The cost projection of the reported allocation: its `Cost` column, a total of 34600, and 5400 left. */
  lemma ReportedProjection()
    ensures Project(ReportedPoint(), Zones) == CostReport(ReportedRows, ReportedCosts, 34600, 5400)
  {
    TableKeys();
    ReportedAligned();
    RoundTrip(ReportedRows, DemandTable);
    ReportedCostColumn();
  }
}
