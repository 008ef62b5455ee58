/**
 * The result projection at the end of the script: the allocation read
 * back per zone, the cost of each zone at 500/200/10 per unit, the total
 * cost and what is left of the 40000 budget.
 */
module Projection {
  import opened Lp
  import opened Builder
  import opened Shape
  import opened Feasibility

  const AmbulanceCost: int := 500
  const StaffCost: int := 200
  const SuppliesCost: int := 10
  const BudgetLimit: int := 40000

  /** One row of the allocation table: a zone and the three allocated quantities. */
  datatype AllocationRow = AllocationRow(zone: Zone, ambulances: int, staff: int, supplies: int)

  /** The `Zone`, `Ambulances`, `Staff` and `Supplies` columns, read from the solved variables. */
  function AllocationTable(a: Assignment, zones: seq<Zone>): (rows: seq<AllocationRow>)
    ensures |rows| == |zones|
    ensures forall i :: 0 <= i < |zones| ==> rows[i].zone == zones[i]
    ensures forall i :: 0 <= i < |zones| && IsIntegral(Val(a, AllocVar(Ambulances, zones[i]))) ==>
      rows[i].ambulances as real == Val(a, AllocVar(Ambulances, zones[i]))
    ensures forall i :: 0 <= i < |zones| && IsIntegral(Val(a, AllocVar(Staff, zones[i]))) ==>
      rows[i].staff as real == Val(a, AllocVar(Staff, zones[i]))
    ensures forall i :: 0 <= i < |zones| && IsIntegral(Val(a, AllocVar(Supplies, zones[i]))) ==>
      rows[i].supplies as real == Val(a, AllocVar(Supplies, zones[i]))
  {
    seq(|zones|, i requires 0 <= i < |zones| =>
      AllocationRow(zones[i],
        Val(a, AllocVar(Ambulances, zones[i])).Floor,
        Val(a, AllocVar(Staff, zones[i])).Floor,
        Val(a, AllocVar(Supplies, zones[i])).Floor))
  }

  /** The `Cost` column entry of one row. */
  function ZoneCost(row: AllocationRow): (c: int)
    ensures row.ambulances >= 1 && row.staff >= 1 && row.supplies >= 10 ==> c >= 800
    ensures row.ambulances >= 0 && row.staff >= 0 && row.supplies >= 0 ==> c >= 0
  {
    row.ambulances * AmbulanceCost + row.staff * StaffCost + row.supplies * SuppliesCost
  }

  function CostColumn(rows: seq<AllocationRow>): seq<int>
  {
    seq(|rows|, i requires 0 <= i < |rows| => ZoneCost(rows[i]))
  }

  function Sum(xs: seq<int>): int
  {
    if xs == [] then 0 else xs[0] + Sum(xs[1..])
  }

  /** `df_allocation["Cost"].sum()` */
  function TotalCost(rows: seq<AllocationRow>): (total: int)
    ensures rows == [] ==> total == 0
    ensures (forall i :: 0 <= i < |rows| ==> rows[i].ambulances >= 0 && rows[i].staff >= 0 && rows[i].supplies >= 0) ==>
      total >= 0
  {
    SumNonNegative(CostColumn(rows));
    Sum(CostColumn(rows))
  }

  /** `budget_limit - total_cost` */
  function RemainingBudget(rows: seq<AllocationRow>): (rem: int)
    ensures rem >= 0 <==> TotalCost(rows) <= BudgetLimit
    ensures rem + TotalCost(rows) == BudgetLimit
  {
    BudgetLimit - TotalCost(rows)
  }

  /** Everything the projection computes. */
  datatype CostReport = CostReport(rows: seq<AllocationRow>, costs: seq<int>, total: int, remaining: int)

  function Project(a: Assignment, zones: seq<Zone>): (report: CostReport)
    ensures report.rows == AllocationTable(a, zones)
    ensures |report.rows| == |report.costs| == |zones|
    ensures forall i :: 0 <= i < |zones| ==> report.rows[i].zone == zones[i] && report.costs[i] == ZoneCost(report.rows[i])
    ensures report.total == Sum(report.costs) && report.total + report.remaining == BudgetLimit
  {
    var rows := AllocationTable(a, zones);
    CostReport(rows, CostColumn(rows), TotalCost(rows), RemainingBudget(rows))
  }

  // ---------------------------------------------------------------------
  // Cost identities

  lemma {:induction false} SumAppend(xs: seq<int>, ys: seq<int>)
    ensures Sum(xs + ys) == Sum(xs) + Sum(ys)
  {
    if xs == [] {
      assert xs + ys == ys;
    } else {
      assert (xs + ys)[1..] == xs[1..] + ys;
      SumAppend(xs[1..], ys);
    }
  }

  /** The total of two tables put together is the sum of their totals. */
  lemma TotalCostAppend(rs: seq<AllocationRow>, ts: seq<AllocationRow>)
    ensures TotalCost(rs + ts) == TotalCost(rs) + TotalCost(ts)
  {
    assert CostColumn(rs + ts) == CostColumn(rs) + CostColumn(ts);
    SumAppend(CostColumn(rs), CostColumn(ts));
  }

  /** The allocation values of `zones` are whole numbers. */
  predicate IntegralOn(a: Assignment, zones: seq<Zone>)
  {
    forall i, r :: 0 <= i < |zones| ==> IsIntegral(Val(a, AllocVar(r, zones[i])))
  }

  /**
   * Lines 51 and 78–91: on whole-number allocations the budget
   * constraint's left-hand side is exactly the projected total cost, so
   * both use the same unit costs.
   */
  lemma {:induction false} SpendIsTotalCost(a: Assignment, zones: seq<Zone>)
    requires IntegralOn(a, zones)
    ensures Spend(a, zones) == TotalCost(AllocationTable(a, zones)) as real
  {
    if zones != [] {
      var rows := AllocationTable(a, zones);
      assert rows[1..] == AllocationTable(a, zones[1..]);
      assert CostColumn(rows)[1..] == CostColumn(rows[1..]);
      assert IsIntegral(Val(a, AllocVar(Ambulances, zones[0])));
      assert IsIntegral(Val(a, AllocVar(Staff, zones[0])));
      assert IsIntegral(Val(a, AllocVar(Supplies, zones[0])));
      assert ZoneSpend(a, zones[0]) == ZoneCost(rows[0]) as real;
      assert IntegralOn(a, zones[1..]) by {
        forall i, r | 0 <= i < |zones| - 1
          ensures IsIntegral(Val(a, AllocVar(r, zones[1..][i])))
        {
          assert zones[1..][i] == zones[i + 1];
        }
      }
      SpendIsTotalCost(a, zones[1..]);
    }
  }

  lemma FeasibleIsIntegral(zones: seq<Zone>, d: seq<DemandRow>, a: Assignment)
    requires Satisfies(ModelOf(zones, d), a)
    ensures IntegralOn(a, zones)
  {
    forall i, r | 0 <= i < |zones|
      ensures IsIntegral(Val(a, AllocVar(r, zones[i])))
    {
      FloorsHold(zones, d, a, r, zones[i]);
    }
  }

  /** Lines 51, 81, 91–92: at a feasible point the total cost stays within the limit and the remaining budget is never negative. */
  lemma RemainingBudgetNonNegative(zones: seq<Zone>, d: seq<DemandRow>, a: Assignment)
    requires Satisfies(ModelOf(zones, d), a)
    ensures TotalCost(AllocationTable(a, zones)) <= BudgetLimit
    ensures RemainingBudget(AllocationTable(a, zones)) >= 0
  {
    FeasibleIsIntegral(zones, d, a);
    SpendIsTotalCost(a, zones);
    BudgetRespected(zones, d, a);
  }

  /** Lines 11–13, 57–62: at a feasible point every projected row meets the floors, so costs at least 800. */
  lemma RowsMeetFloors(zones: seq<Zone>, d: seq<DemandRow>, a: Assignment)
    requires Satisfies(ModelOf(zones, d), a)
    ensures forall row :: row in AllocationTable(a, zones) ==>
      row.ambulances >= 1 && row.staff >= 1 && row.supplies >= 10 && ZoneCost(row) >= 800
  {
    var rows := AllocationTable(a, zones);
    forall k | 0 <= k < |rows|
      ensures rows[k].ambulances >= 1 && rows[k].staff >= 1 && rows[k].supplies >= 10
    {
      FloorsHold(zones, d, a, Ambulances, zones[k]);
      FloorsHold(zones, d, a, Staff, zones[k]);
      FloorsHold(zones, d, a, Supplies, zones[k]);
    }
  }

  lemma {:induction false} SumNonNegative(xs: seq<int>)
    ensures (forall k :: 0 <= k < |xs| ==> xs[k] >= 0) ==> Sum(xs) >= 0
  {
    if xs != [] {
      SumNonNegative(xs[1..]);
      assert forall k :: 1 <= k < |xs| ==> xs[1..][k - 1] == xs[k];
    }
  }

  lemma {:induction false} SumAtLeast(xs: seq<int>, m: int)
    requires forall k :: 0 <= k < |xs| ==> xs[k] >= m
    ensures Sum(xs) >= m * |xs|
  {
    if xs != [] {
      SumAtLeast(xs[1..], m);
    }
  }

  /** Every feasible point costs at least 800 per zone. */
  lemma TotalCostAtLeastFloors(zones: seq<Zone>, d: seq<DemandRow>, a: Assignment)
    requires Satisfies(ModelOf(zones, d), a)
    ensures TotalCost(AllocationTable(a, zones)) >= 800 * |zones|
  {
    RowsMeetFloors(zones, d, a);
    var costs := CostColumn(AllocationTable(a, zones));
    assert forall k :: 0 <= k < |costs| ==> costs[k] >= 800;
    SumAtLeast(costs, 800);
  }

  /** With more than 50 zones the floors alone cost more than the budget: the program has no feasible point. */
  lemma InfeasibleWhenFloorsExceedBudget(zones: seq<Zone>, d: seq<DemandRow>, a: Assignment)
    requires 800 * |zones| > BudgetCeiling
    ensures !Satisfies(ModelOf(zones, d), a)
  {
    if Satisfies(ModelOf(zones, d), a) {
      TotalCostAtLeastFloors(zones, d, a);
      RemainingBudgetNonNegative(zones, d, a);
    }
  }

  /**
   * Lines 54–92 with the solver as a black box: when it reports Optimal
   * the report's remaining budget is non-negative and its total is the
   * sum of its per-zone costs.
   */
  lemma OptimalReportWithinBudget(zones: seq<Zone>, d: seq<DemandRow>, out: SolveOutcome)
    requires SolverContract(ModelOf(zones, d), out)
    requires out.status == Optimal
    ensures var report := Project(out.values, zones);
      |report.rows| == |report.costs| == |zones| &&
      report.total == Sum(report.costs) <= BudgetLimit &&
      report.remaining == BudgetLimit - report.total >= 0
  {
    RemainingBudgetNonNegative(zones, d, out.values);
  }
}
