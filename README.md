# Flood-response zone allocation, modelled in Dafny

The script `15_zone_allocation.py` allocates ambulances, staff and medical
supplies to fifteen flood zones (A to O). It builds a goal-programming
integer linear program with PuLP and minimises the total deviation from
each zone's demand targets. The program is subject to three global caps
(30 ambulances, 70 staff, 600 supplies) and a budget of 40000 at unit costs
500, 200 and 10. After the solve, the script reads the allocation back and
projects its cost: a cost per zone, a total, and what is left of the budget.

The Dafny project models:

- **`Lp` (lp.dfy).** PuLP's program as data:
  - keyed variables, each with a lower bound and a category (Integer or Continuous);
  - linear constraints `Σ coeff·var ≤ rhs`, each with a tag from which its PuLP name is derived;
  - the objective, and what it means for an assignment of values to satisfy the program.
  - The `LpProblem` object becomes the class `Problem`. `model += …` becomes `SetObjective`, which replaces the objective, or `AddConstraint`, which appends to the constraint list.
  - The solver is a black box. Its outcome is a status and a value per variable. The only thing assumed of it is that an `Optimal` status comes with an optimal point.
- **`Builder` (builder.dfy).** The script's own data:
  - the zone list;
  - the demand dictionary, in iteration order;
  - the floors, caps and budget coefficients.
  - The variable dictionaries and the objective are pure functions.
  - A dictionary comprehension keeps one entry per key. So a zone listed twice gets one set of variables and counts once in each cap (`lpSum(vars.values())`, lines 46–48). The objective (lines 30–32) and the budget (line 51) walk the zone list itself and count it twice. `DictKeys` gives the comprehension's keys, and the caps are summed over them. The build itself, lines 5–51, is the method `BuildModel`. Its demand loop appends six linking constraints per entry, and then the caps and the budget are added. The method is proved equal to the specification function `Build`.
  - A demand key that is not a zone makes `ambulance_vars[zone]` raise `KeyError`. `Build` models this as a `Failure` naming the first such key.
- **`Shape` (shape.dfy).** The program's layout:
  - the bounds and categories of the variables;
  - six named constraints per demand entry, then `Max_Ambulances`, `Max_Staff`, `Max_Supplies` and `Budget_Constraint`;
  - pairwise distinct names as the f-strings write them, so no `model +=` reuses a name (for zone names without the characters PuLP rewrites, such as the script's);
  - for the script's own data, 90 variables and 94 constraints.
- **`Feasibility` (feasibility.dfy).** What every feasible point satisfies, and an exact per-zone, per-resource characterisation of feasibility. Every feasible point meets:
  - the floors and integrality;
  - deviation ≥ |allocation − target|;
  - the caps and the budget.
  - The objective is the sum of the deviations. It is at least the total distance from the targets, and at least the demand in excess of each cap. For the script's data that lower bound is 3: 33 ambulances are asked for against a cap of 30.
- **`Projection` (projection.dfy).** The cost projection of lines 57–92:
  - the allocation table, per-zone costs, total and remaining budget;
  - at a feasible point the total equals the budget constraint's left-hand side, and the remaining budget is never negative;
  - with more than 50 zones, the floors alone exceed the budget.
- **`Witness` (witness.dfy).** A whole-number allocation table satisfies the floors, caps and budget, and its deviations are set to the exact distances from the targets. Any such completed table is a feasible point, whose objective is the total distance. Reading it back gives the table.
  - The allocation table that Visualizations.py lists as the result is one such point, with objective 3. By the lower bound above it is therefore an optimum, and any optimum the solver returns has objective 3.
  - The cost projection of that table is the listed `Cost` column: total 34600, with 5400 remaining.

## Model

| member | source | states |
|---|---|---|
| Lp.Problem.constructor | 15_zone_allocation.py:5 | `LpProblem(name)` starts with no objective and no constraints |
| Lp.Problem.SetObjective | 15_zone_allocation.py:30-32 | `model += expr, name` sets the objective and leaves the constraints as they were |
| Lp.Problem.AddConstraint | 15_zone_allocation.py:36-51 | `model += constraint, name` appends exactly that constraint and keeps the objective; it may only be called with a name, as written, not already used |
| Lp.Satisfies | 15_zone_allocation.py:11-51 | a point is feasible when every declared variable has a value at or above its bound, an Integer one a whole value, and every constraint holds |
| Lp.SolverContract | 15_zone_allocation.py:54 | all that is assumed of `model.solve()`: an Optimal status comes with a feasible point whose objective is no larger than that of any feasible point |
| Lp.VarNameInjective | 15_zone_allocation.py:11-18 | two variables with the same name as written (prefix plus zone) are the same variable |
| Lp.ConstraintNameInjective | 15_zone_allocation.py:36-51 | two constraints with the same name as written have the same resource, side and zone, or are the same cap, or are both the budget |
| Builder.DictKeys | 15_zone_allocation.py:11-18 | the keys of `{zone: … for zone in zones}`: the same set of zones as the list, each once, and the list itself when no zone repeats |
| Builder.Variables | 15_zone_allocation.py:11-18 | the six variable dictionaries' values, in creation order; every declared variable belongs to a listed zone |
| Builder.ObjectiveTerms | 15_zone_allocation.py:30-32 | `Total_Deviation`: three `lpSum`s over the zone list, one term per listed zone and resource (3·zones terms); its value is stated by `ObjectiveIsTotalDeviation` |
| Builder.LinkConstraint | 15_zone_allocation.py:36-43 | one of the six linking inequalities: the Pos one holds exactly when allocation − target ≤ deviation, the Neg one exactly when target − allocation ≤ deviation |
| Builder.ZoneBlock | 15_zone_allocation.py:36-43 | the six constraints one loop iteration adds, all tagged with that entry's zone, no two with the same tag |
| Builder.CapConstraint | 15_zone_allocation.py:46-48 | `Max_<resource>`, whose right-hand side is the cap 30/70/600; its left-hand side is stated by `CapTermsValue` |
| Builder.BudgetTerms | 15_zone_allocation.py:51 | the list comprehension of line 51: three terms per listed zone, so 3·zones terms; its value is stated by `BudgetTermsValue` |
| Builder.BudgetConstraint | 15_zone_allocation.py:51 | `Budget_Constraint`, whose right-hand side is 40000 |
| Builder.Build | 15_zone_allocation.py:5-51 | succeeds exactly when every demand key is a zone, and then gives the program of lines 5–51; otherwise fails naming a demand key that is not a zone |
| Builder.FirstUnknownZone | 15_zone_allocation.py:35-36 | no result exactly when every demand key is a zone; otherwise a demand key that is not a zone |
| Builder.FirstUnknownAt | 15_zone_allocation.py:35-36 | the reported key is the first unknown key in iteration order |
| Builder.LinkingAt | 15_zone_allocation.py:35-43 | after the loop, constraint k is constraint k mod 6 of the block added for demand entry k div 6, and there are 6 per entry |
| Builder.AddLinkPair | 15_zone_allocation.py:36-37 | adds one resource's `…_Dev_Pos_zone` and `…_Dev_Neg_zone` constraints, in that order, after everything added so far |
| Builder.AddZoneBlock | 15_zone_allocation.py:35-43 | one loop iteration appends that entry's six constraints to those of the earlier entries; the objective is unchanged |
| Builder.AddCapsAndBudget | 15_zone_allocation.py:46-51 | appends the three caps and then the budget; every name is fresh |
| Builder.BuildModel | 15_zone_allocation.py:5-51 | the built program is `Build(zones, demand)`: `Failure(UnknownZone(k))` for the first demand key k not among the zones, otherwise the variables of each distinct zone, the deviation objective over the zone list, the linking constraints of every entry in order, then the caps over the distinct zones and the budget over the zone list |
| Shape.VariableCount | 15_zone_allocation.py:11-18 | 6 variables per distinct zone, so 6 per zone when no zone is listed twice |
| Shape.RepeatedZone | 15_zone_allocation.py:11-51 | with zone "A" listed twice the build succeeds with 6 variables and a one-term ambulance cap, while the objective and the budget each have 6 terms |
| Shape.VariableBounds | 15_zone_allocation.py:11-18 | every variable belongs to a listed zone; allocations are Integer with floors 1/1/10, deviations Continuous with floor 0 |
| Shape.DeclaredExactly | 15_zone_allocation.py:11-18 | a variable is declared if and only if its zone is listed, and then with the bound and category of its kind |
| Shape.VariablesDistinct | 15_zone_allocation.py:11-18 | no two declarations share a key or a name as written, even when a zone is listed twice |
| Shape.ConstraintLayout | 15_zone_allocation.py:35-51 | 6·entries + 4 constraints: each entry's six names in the order Amb Pos/Neg, Staff Pos/Neg, Sup Pos/Neg, then `Max_Ambulances`, `Max_Staff`, `Max_Supplies`, `Budget_Constraint` |
| Shape.ConstraintNamesDistinct | 15_zone_allocation.py:35-51 | with distinct demand keys, all constraint names as written are pairwise distinct |
| Shape.ZonesDistinctTable | 15_zone_allocation.py:8 | the fifteen zone names are pairwise distinct |
| Shape.TableKeys | 15_zone_allocation.py:8-27 | the demand keys are exactly the zones, in order, without repetition |
| Shape.TableModelShape | 15_zone_allocation.py:5-51 | on the script's data the build succeeds with 90 variables and 94 distinctly named constraints |
| Feasibility.CapTermsValue | 15_zone_allocation.py:46-48 | a cap's left-hand side evaluates to the sum of that resource's allocations over the distinct zones, each once; over the zone list when no zone repeats |
| Feasibility.DevTermsValue | 15_zone_allocation.py:30-32 | each `lpSum` of deviations evaluates to the sum of that resource's deviations |
| Feasibility.BudgetTermsValue | 15_zone_allocation.py:51 | the budget's left-hand side evaluates to Σ 500·amb + 200·staff + 10·supplies over the zones |
| Feasibility.ObjectiveIsTotalDeviation | 15_zone_allocation.py:30-32 | the objective is the sum of all 3·zones deviation variables |
| Feasibility.FloorsHold | 15_zone_allocation.py:11-18 | at a feasible point every allocation is a whole number at or above its floor and every deviation is ≥ 0 |
| Feasibility.LinkPairIff | 15_zone_allocation.py:36-43 | a resource's Pos and Neg constraints both hold if and only if deviation ≥ the distance between allocation and target |
| Feasibility.DeviationCoversGap | 15_zone_allocation.py:35-43 | at a feasible point, for every demand entry and resource, deviation ≥ the distance between allocation and target |
| Feasibility.CapsRespected | 15_zone_allocation.py:46-48 | at a feasible point each resource's total allocation over the distinct zones is within its cap (30/70/600) |
| Feasibility.BudgetRespected | 15_zone_allocation.py:51 | at a feasible point the spend at 500/200/10 per unit is at most 40000 |
| Feasibility.SatisfiesIff | 15_zone_allocation.py:11-51 | a point satisfies the program if and only if it meets the floors and integrality per zone, deviation ≥ gap per entry, every cap over the distinct zones, and the budget over the zone list |
| Feasibility.DevSumBounds | 15_zone_allocation.py:35-48 | for the program built with the demand keys as its zone list, as the script's is (`Shape.TableKeys`): at a feasible point a resource's deviation sum is ≥ its sum of gaps ≥ 0, and, since a dictionary's keys are distinct, ≥ its total demand minus its cap |
| Feasibility.ObjectiveCoversGaps | 15_zone_allocation.py:30-43 | for the program built with the demand keys as its zone list, as the script's is (`Shape.TableKeys`): at a feasible point the objective is ≥ the summed distance between allocations and targets, which is ≥ 0 |
| Feasibility.ObjectiveAtLeastExcess | 15_zone_allocation.py:30-48 | for the program built with the demand keys as its zone list, as the script's is (`Shape.TableKeys`), and with distinct keys: at a feasible point the objective is ≥ the demand in excess of the caps, summed over resources |
| Feasibility.TableTotals | 15_zone_allocation.py:21-27 | the demand table asks for 33 ambulances, 70 staff and 560 supplies |
| Feasibility.TableObjectiveAtLeastThree | 15_zone_allocation.py:21-48 | on the script's data every feasible point has objective ≥ 3 |
| Projection.AllocationTable | 15_zone_allocation.py:57-62 | one row per listed zone, in list order, holding the solved allocation values exactly when they are whole numbers |
| Projection.ZoneCost | 15_zone_allocation.py:84-88 | a row's `Cost`; a row that meets the floors costs at least 800, and a row of non-negative amounts costs at least 0 |
| Projection.TotalCost | 15_zone_allocation.py:91 | `total_cost`: 0 for an empty table, and non-negative when every amount is |
| Projection.RemainingBudget | 15_zone_allocation.py:92 | `budget_limit − total_cost`: with the total it makes 40000, and it is ≥ 0 exactly when the total is within 40000 |
| Projection.Project | 15_zone_allocation.py:57-92 | the report's rows are the allocation table read from the solved values, one per listed zone, with one cost per row, each cost that row's `Cost`, a total that is the sum of the costs, and a remaining budget that makes 40000 with it |
| Projection.SpendIsTotalCost | 15_zone_allocation.py:78-91 | on whole-number allocations, the budget's left-hand side equals the projected total cost |
| Projection.TotalCostAppend | 15_zone_allocation.py:91 | the total of two tables put together is the sum of their totals |
| Projection.FeasibleIsIntegral | 15_zone_allocation.py:11-13 | at a feasible point the allocations read back are whole numbers |
| Projection.RemainingBudgetNonNegative | 15_zone_allocation.py:81-92 | at a feasible point the total cost is ≤ 40000 and the remaining budget is ≥ 0 |
| Projection.RowsMeetFloors | 15_zone_allocation.py:57-62 | at a feasible point every projected row has ≥ 1 ambulance, ≥ 1 staff, ≥ 10 supplies, and costs ≥ 800 |
| Projection.TotalCostAtLeastFloors | 15_zone_allocation.py:84-91 | at a feasible point the total cost is ≥ 800 per zone |
| Projection.InfeasibleWhenFloorsExceedBudget | 15_zone_allocation.py:11-51 | when 800 per zone exceeds 40000, no point is feasible |
| Projection.OptimalReportWithinBudget | 15_zone_allocation.py:54-92 | after an Optimal solve the report has a row and a cost per zone, its total is the sum of the costs and ≤ 40000, and remaining = 40000 − total ≥ 0 |
| Witness.CompletedAt | 15_zone_allocation.py:11-18 | in the point completed from a table, each zone's allocation is the table's value and each deviation is the distance between allocation and target |
| Witness.RoundTrip | 15_zone_allocation.py:57-62 | reading the allocation back from the completed point gives the table it was built from |
| Witness.CompletedFeasible | 15_zone_allocation.py:11-51 | every table that meets the floors, caps and budget, completed with the exact distances, is feasible, and its objective is the total distance from the targets |
| Witness.ReportedColumns | Visualizations.py:5-9 | the listed allocation uses 30 ambulances, 70 staff and 560 supplies |
| Witness.ReportedCostColumn | Visualizations.py:5-11 | the listed `Cost` column is 500/200/10 per unit of each listed row, and it totals 34600 |
| Witness.ReportedAmbulanceGap | Visualizations.py:7 | the listed ambulances miss their targets by 3 in total (zone B by 1, zone M by 2) |
| Witness.ReportedStaffGap | Visualizations.py:8 | the listed staff meet every target exactly |
| Witness.ReportedSuppliesGap | Visualizations.py:9 | the listed supplies meet every target exactly |
| Witness.ReportedAllocationIsOptimal | Visualizations.py:5-11 | the listed allocation, with exact deviations, is an optimal point of the script's program, with objective 3 |
| Witness.OptimalObjectiveIsThree | 15_zone_allocation.py:54 | any optimum the solver reports for the script's data has total deviation exactly 3 |
| Witness.ReportedProjection | 15_zone_allocation.py:78-92 | the cost projection of the listed allocation has the listed rows and `Cost` column, total 34600, and 5400 remaining |

## Left out

- The solver (`model.solve()`, line 54) is not modelled. It is an external library. Its outcome is a parameter, and the only property assumed is that an `Optimal` status comes with an optimal point. The script never checks the status before reading values, and the model does not add such a check.
- Solver values are `real`s. Integrality of the allocation variables is part of feasibility, and the projection reads whole numbers through `.Floor`. Floating-point `varValue`s and their rounding are not modelled.
- The pandas DataFrame, the `print` calls, the CSV write and read-back (lines 57–75, 94–97), and the charts of Visualizations.py are not modelled. They are presentation and I/O. The projection works on the values directly. Of Visualizations.py, only its data table (lines 5–11) is used, as a concrete point.
- The demand dictionary is a sequence of rows in iteration order. Its keys are unique because it is a dictionary, so `BuildModel`, `ObjectiveAtLeastExcess` and the cap half of `DevSumBounds` take distinct keys as given. With a repeated key the caps count the zone once while the demand is counted twice, and the excess bound no longer follows.
- There is one deviation variable per zone and resource, linked by two inequalities, as in lines 36–43. A split into separate positive and negative deviation variables is not modelled, because the code does not make that split.
- The 3-zone formulation with hard equalities and a budget deviation pair is not modelled. Its code is not part of this model.
- Monotonicity of the optimum in the budget is not stated, because the budget is a fixed constant of the program (line 51).
- PuLP's check for a repeated constraint name is a precondition of `AddConstraint`. The builder proves the precondition holds rather than modelling PuLP's exception.
- Names are modelled as the strings the f-strings produce. PuLP stores names after replacing characters it treats as illegal (`-`, `+`, `[`, `]`, space) with `_`, and that replacement is not modelled. So the distinct-name results hold for the names as written: zones `"A-1"` and `"A_1"` would give PuLP the same stored name, which the model does not see. The script's single-letter zones contain none of those characters.
