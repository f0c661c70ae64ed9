/**
 * The grouping step of `fromOdb` in matGroups.py: for one instance, the
 * element labels of its section assignments collected per material.
 *
 * A section assignment names a section and the labels of the elements of its
 * region.  An assignment whose section has no material, or an empty one, is
 * skipped; otherwise its labels are appended, in assignment order, to the
 * list of the section's material (`setdefault(...).extend(...)`).
 */
module Materials {

  datatype Option<T> = None | Some(value: T)

  /** A section of the output database; `None` when it has no material. */
  datatype Section = Section(material: Option<string>)

  /** A section assignment: the section's name and its region's element labels. */
  datatype SectionAssignment = SectionAssignment(sectionName: string, elementLabels: seq<int>)

  /**
   * The outcome of the grouping loop: the material sets, or the name of the
   * first assigned section missing from `odb.sections` (a `KeyError`).
   */
  datatype Grouping = Groups(materialSets: map<string, seq<int>>) | MissingSection(sectionName: string)

  /** Every assignment names a known section. */
  predicate SectionsKnown(sections: map<string, Section>, assignments: seq<SectionAssignment>) {
    forall k :: 0 <= k < |assignments| ==> assignments[k].sectionName in sections
  }

  /** The material an assignment contributes to, if any. */
  function MaterialOf(sections: map<string, Section>, a: SectionAssignment): (r: Option<string>)
    requires a.sectionName in sections
    ensures r.Some? <==> sections[a.sectionName].material.Some? && sections[a.sectionName].material.value != ""
    ensures r.Some? ==> r.value == sections[a.sectionName].material.value
  {
    match sections[a.sectionName].material
    case None => None
    case Some(m) => if m == "" then None else Some(m)
  }

  /** The materials some assignment contributes to. */
  function UsedMaterials(sections: map<string, Section>, assignments: seq<SectionAssignment>): set<string>
    requires SectionsKnown(sections, assignments)
  {
    if assignments == [] then {}
    else
      var n := |assignments| - 1;
      var rest := UsedMaterials(sections, assignments[..n]);
      match MaterialOf(sections, assignments[n])
      case None => rest
      case Some(m) => rest + {m}
  }

  /**
   * The labels of material `m`: the labels of every assignment contributing
   * to `m`, concatenated in assignment order.
   */
  function MaterialLabels(sections: map<string, Section>, assignments: seq<SectionAssignment>, m: string): (r: seq<int>)
    requires SectionsKnown(sections, assignments)
    ensures m !in UsedMaterials(sections, assignments) ==> r == []
  {
    if assignments == [] then []
    else
      var n := |assignments| - 1;
      var rest := MaterialLabels(sections, assignments[..n], m);
      if MaterialOf(sections, assignments[n]) == Some(m) then rest + assignments[n].elementLabels else rest
  }

  lemma PrefixKnown(sections: map<string, Section>, assignments: seq<SectionAssignment>, k: nat)
    requires k < |assignments|
    requires SectionsKnown(sections, assignments[..k])
    requires assignments[k].sectionName in sections
    ensures SectionsKnown(sections, assignments[..k + 1])
    ensures assignments[..k + 1][..k] == assignments[..k]
  {
    assert assignments[..k + 1][..k] == assignments[..k];
  }

  /** A material is used exactly when some assignment contributes to it. */
  lemma {:induction false} UsedMaterialsSpec(sections: map<string, Section>, assignments: seq<SectionAssignment>, m: string)
    requires SectionsKnown(sections, assignments)
    ensures m in UsedMaterials(sections, assignments)
        <==> exists k :: 0 <= k < |assignments| && MaterialOf(sections, assignments[k]) == Some(m)
  {
    if assignments != [] {
      var n := |assignments| - 1;
      var init := assignments[..n];
      UsedMaterialsSpec(sections, init, m);
      if m in UsedMaterials(sections, init) {
        var k :| 0 <= k < n && MaterialOf(sections, init[k]) == Some(m);
        assert assignments[k] == init[k];
      }
      if k :| 0 <= k < |assignments| && MaterialOf(sections, assignments[k]) == Some(m) {
        if k < n {
          assert init[k] == assignments[k];
        }
      }
    }
  }

  /**
   * A label is in the list of material `m` exactly when some assignment
   * contributing to `m` carries it.
   */
  lemma {:induction false} MaterialLabelsSpec(sections: map<string, Section>, assignments: seq<SectionAssignment>, m: string, x: int)
    requires SectionsKnown(sections, assignments)
    ensures x in MaterialLabels(sections, assignments, m)
        <==> exists k :: 0 <= k < |assignments| && MaterialOf(sections, assignments[k]) == Some(m)
                         && x in assignments[k].elementLabels
  {
    if assignments != [] {
      var n := |assignments| - 1;
      var init := assignments[..n];
      MaterialLabelsSpec(sections, init, m, x);
      if x in MaterialLabels(sections, init, m) {
        var k :| 0 <= k < n && MaterialOf(sections, init[k]) == Some(m) && x in init[k].elementLabels;
        assert assignments[k] == init[k];
      }
      if k :| 0 <= k < |assignments| && MaterialOf(sections, assignments[k]) == Some(m) && x in assignments[k].elementLabels {
        if k < n {
          assert init[k] == assignments[k];
        }
      }
    }
  }

  /**
   * Grouping two lists of assignments one after the other gives, for each
   * material, its labels from the first list followed by those from the second.
   */
  lemma {:induction false} MaterialLabelsAppend(sections: map<string, Section>, a: seq<SectionAssignment>, b: seq<SectionAssignment>, m: string)
    requires SectionsKnown(sections, a) && SectionsKnown(sections, b)
    ensures SectionsKnown(sections, a + b)
    ensures MaterialLabels(sections, a + b, m) == MaterialLabels(sections, a, m) + MaterialLabels(sections, b, m)
  {
    var ab := a + b;
    assert SectionsKnown(sections, ab) by {
      forall k | 0 <= k < |ab| ensures ab[k].sectionName in sections {
        if k >= |a| {
          assert ab[k] == b[k - |a|];
        }
      }
    }
    if b == [] {
      assert ab == a;
    } else {
      var n := |b| - 1;
      assert ab[..|ab| - 1] == a + b[..n];
      assert ab[|ab| - 1] == b[n];
      MaterialLabelsAppend(sections, a, b[..n], m);
    }
  }

  /**
   * The grouping loop of `fromOdb`: for each section assignment in order,
   * look its section up, skip it when the section has no material or an
   * empty one, and otherwise extend the list of that material (creating it
   * empty first) with the assignment's element labels.
   */
  method GroupByMaterial(sections: map<string, Section>, assignments: seq<SectionAssignment>) returns (g: Grouping)
    ensures g.Groups? <==> SectionsKnown(sections, assignments)
    ensures g.Groups? ==> g.materialSets.Keys == UsedMaterials(sections, assignments)
    ensures g.Groups? ==> forall m :: m in g.materialSets ==> g.materialSets[m] == MaterialLabels(sections, assignments, m)
    ensures g.MissingSection? ==>
      g.sectionName !in sections
      && exists k :: 0 <= k < |assignments| && assignments[k].sectionName == g.sectionName
                     && SectionsKnown(sections, assignments[..k])
  {
    var materialSets: map<string, seq<int>> := map[];
    var k := 0;
    assert assignments[..0] == [];
    while k < |assignments|
      invariant 0 <= k <= |assignments|
      invariant SectionsKnown(sections, assignments[..k])
      invariant materialSets.Keys == UsedMaterials(sections, assignments[..k])
      invariant forall m :: m in materialSets ==> materialSets[m] == MaterialLabels(sections, assignments[..k], m)
    {
      var a := assignments[k];
      if a.sectionName !in sections {
        assert !SectionsKnown(sections, assignments);
        return MissingSection(a.sectionName);
      }
      var section := sections[a.sectionName];
      PrefixKnown(sections, assignments, k);
      if section.material.Some? && section.material.value != "" {
        var m := section.material.value;
        var current := if m in materialSets then materialSets[m] else [];
        materialSets := materialSets[m := current + a.elementLabels];
      }
      k := k + 1;
    }
    assert assignments[..k] == assignments;
    g := Groups(materialSets);
  }
}
