/**
 * The fixed shape of the program the builder produces: which variables it
 * declares and with which bounds, how many constraints it adds, what they
 * are called, and that no two of them share a name.
 */
module Shape {
  import opened Results
  import opened Lp
  import opened Builder

  // ---------------------------------------------------------------------
  // Variables

  /**
   * Lines 11–18: six variables per distinct zone, so six per zone when no
   * zone is listed twice.
   */
  lemma VariableCount(zones: seq<Zone>)
    ensures |Variables(zones)| == 6 * |DictKeys(zones)| <= 6 * |zones|
    ensures ZonesDistinct(zones) ==> |Variables(zones)| == 6 * |zones|
  {
  }

  /**
   * A zone listed twice: the dictionaries of lines 11–18 and the caps of
   * lines 46–48 hold it once, while the objective (lines 30–32) and the
   * budget (line 51) walk the list and count it twice.
   */
  lemma RepeatedZone()
    ensures Build(["A", "A"], [DemandRow("A", 3, 6, 50)]).Success?
    ensures |Variables(["A", "A"])| == 6
    ensures |CapConstraint(Ambulances, ["A", "A"]).terms| == 1
    ensures |ObjectiveTerms(["A", "A"])| == 6 && |BudgetConstraint(["A", "A"]).terms| == 6
  {
    var zones := ["A", "A"];
    assert DictKeys(zones) == ["A"] by {
      assert zones[..1] == ["A"];
    }
    assert Build(zones, [DemandRow("A", 3, 6, 50)]).Success? by {
      assert zones[0] == "A";
    }
    assert |ObjectiveTerms(zones)| == 6;
    assert |BudgetConstraint(zones).terms| == 6;
  }

  /** Lines 11–18: every variable is declared with the floor of its kind and resource, and only for listed zones. */
  lemma VariableBounds(zones: seq<Zone>)
    ensures forall d :: d in Variables(zones) ==>
      d.v.zone in zones &&
      (d.v.kind == Alloc ==> d.cat == Integer && d.lowBound == Floor(d.v.resource)) &&
      (d.v.kind == Dev ==> d.cat == Continuous && d.lowBound == 0)
  {
    assert forall d :: d in Variables(zones) ==> d.v.zone in DictKeys(zones);
  }

  /** One allocation and one deviation variable per (zone, resource) pair, and nothing else. */
  lemma {:induction false} DeclaredExactly(zones: seq<Zone>, v: Var)
    ensures (exists d :: d in Variables(zones) && d.v == v) <==> v.zone in zones
    ensures v.zone in zones && v.kind == Alloc ==> VarDecl(v, Floor(v.resource), Integer) in Variables(zones)
    ensures v.zone in zones && v.kind == Dev ==> VarDecl(v, 0, Continuous) in Variables(zones)
  {
    var vs, keys := Variables(zones), DictKeys(zones);
    if v.zone in zones {
      var i :| 0 <= i < |keys| && keys[i] == v.zone;
      var n := |keys|;
      var base := match (v.kind, v.resource)
        case (Alloc, Ambulances) => 0
        case (Alloc, Staff) => n
        case (Alloc, Supplies) => 2 * n
        case (Dev, Ambulances) => 3 * n
        case (Dev, Staff) => 4 * n
        case (Dev, Supplies) => 5 * n;
      assert vs[base + i].v == v;
    }
  }

  predicate KeysUnique(vs: seq<VarDecl>)
  {
    forall i, j :: 0 <= i < j < |vs| ==> vs[i].v != vs[j].v
  }

  lemma {:induction false} KeysUniqueAppend(s: seq<VarDecl>, t: seq<VarDecl>)
    requires KeysUnique(s) && KeysUnique(t)
    requires forall i, j :: 0 <= i < |s| && 0 <= j < |t| ==> s[i].v != t[j].v
    ensures KeysUnique(s + t)
  {
  }

  /** The declared variables have distinct keys and distinct names as written, even when a zone is listed twice. */
  lemma VariablesDistinct(zones: seq<Zone>)
    ensures KeysUnique(Variables(zones))
    ensures forall i, j :: 0 <= i < j < |Variables(zones)| ==>
      VarName(Variables(zones)[i].v) != VarName(Variables(zones)[j].v)
  {
    var keys := DictKeys(zones);
    var a0, a1, a2 := AllocDecls(Ambulances, keys), AllocDecls(Staff, keys), AllocDecls(Supplies, keys);
    var d0, d1, d2 := DevDecls(Ambulances, keys), DevDecls(Staff, keys), DevDecls(Supplies, keys);
    KeysUniqueAppend(a0, a1);
    KeysUniqueAppend(a0 + a1, a2);
    KeysUniqueAppend(a0 + a1 + a2, d0);
    KeysUniqueAppend(a0 + a1 + a2 + d0, d1);
    KeysUniqueAppend(a0 + a1 + a2 + d0 + d1, d2);
    var vs := Variables(zones);
    forall i, j | 0 <= i < j < |vs|
      ensures VarName(vs[i].v) != VarName(vs[j].v)
    {
      if VarName(vs[i].v) == VarName(vs[j].v) {
        VarNameInjective(vs[i].v, vs[j].v);
      }
    }
  }

  // ---------------------------------------------------------------------
  // Constraints

  /** The tag of the `t`-th constraint of a zone's block. */
  lemma BlockTag(row: DemandRow, t: nat)
    requires t < 6
    ensures ZoneBlock(row)[t].tag ==
      DevLink([Ambulances, Staff, Supplies][t / 2], if t % 2 == 0 then Pos else Neg, row.zone)
  {
  }

  /**
   * Lines 35–51: six constraints per demand entry, named after the entry's
   * zone, followed by `Max_Ambulances`, `Max_Staff`, `Max_Supplies` and
   * `Budget_Constraint`.
   */
  lemma ConstraintLayout(zones: seq<Zone>, d: seq<DemandRow>)
    ensures var cs := Constraints(zones, d);
      |cs| == 6 * |d| + 4 &&
      (forall i :: 0 <= i < |d| ==> BlockNamed(cs, 6 * i, d[i].zone)) &&
      cs[6 * |d|].Name() == "Max_Ambulances" &&
      cs[6 * |d| + 1].Name() == "Max_Staff" &&
      cs[6 * |d| + 2].Name() == "Max_Supplies" &&
      cs[6 * |d| + 3].Name() == "Budget_Constraint"
  {
    LinkingLength(d);
    forall i | 0 <= i < |d|
      ensures BlockNamed(Constraints(zones, d), 6 * i, d[i].zone)
    {
      BlockNames(zones, d, i);
    }
    var cs := Constraints(zones, d);
    assert cs[6 * |d| ..] == FinalConstraints(zones);
  }

  /** The six names of the block starting at `k`. */
  predicate BlockNamed(cs: seq<Constraint>, k: nat, z: Zone)
  {
    k + 6 <= |cs| &&
    cs[k].Name() == "Amb_Dev_Pos_" + z &&
    cs[k + 1].Name() == "Amb_Dev_Neg_" + z &&
    cs[k + 2].Name() == "Staff_Dev_Pos_" + z &&
    cs[k + 3].Name() == "Staff_Dev_Neg_" + z &&
    cs[k + 4].Name() == "Sup_Dev_Pos_" + z &&
    cs[k + 5].Name() == "Sup_Dev_Neg_" + z
  }

  lemma BlockNames(zones: seq<Zone>, d: seq<DemandRow>, i: nat)
    requires i < |d|
    ensures BlockNamed(Constraints(zones, d), 6 * i, d[i].zone)
  {
    BlockAt(zones, d, i);
    ZoneBlockNamed(d[i]);
    var cs, k := Constraints(zones, d), 6 * i;
    var block := cs[k .. k + 6];
    assert cs[k] == block[0] && cs[k + 1] == block[1] && cs[k + 2] == block[2];
    assert cs[k + 3] == block[3] && cs[k + 4] == block[4] && cs[k + 5] == block[5];
  }

  lemma ZoneBlockNamed(row: DemandRow)
    ensures BlockNamed(ZoneBlock(row), 0, row.zone)
  {
  }

  lemma BlockAt(zones: seq<Zone>, d: seq<DemandRow>, i: nat)
    requires i < |d|
    ensures |Constraints(zones, d)| == 6 * |d| + 4
    ensures Constraints(zones, d)[6 * i .. 6 * i + 6] == ZoneBlock(d[i])
  {
    LinkingBlock(d, i);
    var links := Linking(d);
    var cs := links + FinalConstraints(zones);
    assert cs[6 * i .. 6 * i + 6] == links[6 * i .. 6 * i + 6];
  }

  /** Row `i` of the demand loop adds the six constraints at positions 6·i to 6·i + 5. */
  lemma {:induction false} LinkingBlock(d: seq<DemandRow>, i: nat)
    requires i < |d|
    ensures |Linking(d)| == 6 * |d|
    ensures Linking(d)[6 * i .. 6 * i + 6] == ZoneBlock(d[i])
  {
    var n := |d| - 1;
    var front := d[..n];
    LinkingLength(front);
    var links := Linking(d);
    assert links == Linking(front) + ZoneBlock(d[n]);
    if i < n {
      LinkingBlock(front, i);
      assert links[6 * i .. 6 * i + 6] == Linking(front)[6 * i .. 6 * i + 6];
    } else {
      assert links[6 * n ..] == ZoneBlock(d[n]);
    }
  }

  /** Distinct positions of the constraint list carry distinct tags. */
  lemma TagsDistinct(zones: seq<Zone>, d: seq<DemandRow>, i: nat, j: nat)
    requires KeysDistinct(d)
    requires i < j < |Constraints(zones, d)|
    ensures Constraints(zones, d)[i].tag != Constraints(zones, d)[j].tag
  {
    var cs := Constraints(zones, d);
    LinkingLength(d);
    var n := 6 * |d|;
    if j < n {
      LinkingAt(d, i);
      LinkingAt(d, j);
      BlockTag(d[i / 6], i % 6);
      BlockTag(d[j / 6], j % 6);
      if i / 6 == j / 6 {
        assert i % 6 != j % 6;
      } else {
        assert d[i / 6].zone != d[j / 6].zone;
      }
    } else if i < n {
      LinkingTag(d, i);
    }
  }

  /** Every `model +=` of the builder uses a new name: all constraint names, as written, are pairwise distinct. */
  lemma ConstraintNamesDistinct(zones: seq<Zone>, d: seq<DemandRow>)
    requires KeysDistinct(d)
    ensures forall i, j :: 0 <= i < j < |Constraints(zones, d)| ==>
      Constraints(zones, d)[i].Name() != Constraints(zones, d)[j].Name()
  {
    var cs := Constraints(zones, d);
    forall i, j | 0 <= i < j < |cs|
      ensures cs[i].Name() != cs[j].Name()
    {
      TagsDistinct(zones, d, i, j);
      if cs[i].Name() == cs[j].Name() {
        ConstraintNameInjective(cs[i].tag, cs[j].tag);
      }
    }
  }

  /** The demand keys are exactly the script's zones, in order. */
  lemma TableKeys()
    ensures Keys(DemandTable) == Zones
    ensures ZonesDistinct(Zones)
    ensures KeysDistinct(DemandTable)
  {
    ZonesDistinctTable();
    assert forall i :: 0 <= i < |Zones| ==> Keys(DemandTable)[i] == Zones[i];
  }

  /** The script's zone list has no repeated name. */
  lemma ZonesDistinctTable()
    ensures ZonesDistinct(Zones)
  {
    assert forall i :: 0 <= i < |Zones| ==> |Zones[i]| == 1;
    assert forall i, j :: 0 <= i < j < |Zones| ==> Zones[i][0] < Zones[j][0];
  }

  /** The script's own tables: the build succeeds with 90 variables and 94 distinctly named constraints. */
  lemma TableModelShape()
    ensures Build(Zones, DemandTable) == Success(ModelOf(Zones, DemandTable))
    ensures |ModelOf(Zones, DemandTable).vars| == 90
    ensures |ModelOf(Zones, DemandTable).constraints| == 94
    ensures forall i, j :: 0 <= i < j < 94 ==>
      ModelOf(Zones, DemandTable).constraints[i].Name() != ModelOf(Zones, DemandTable).constraints[j].Name()
  {
    TableKeys();
    assert forall i :: 0 <= i < |DemandTable| ==> DemandTable[i].zone in Zones by {
      forall i | 0 <= i < |DemandTable| ensures DemandTable[i].zone in Zones {
        assert DemandTable[i].zone == Keys(DemandTable)[i];
      }
    }
    LinkingLength(DemandTable);
    ConstraintNamesDistinct(Zones, DemandTable);
  }
}
