/**
 The search for governance metadata in planner payloads
 (`_find_governance_semantic_mutations` of planner/governance_boundary.py), for any choice of
 marker tests and metadata check.
 */
module GovernanceWalk {
  import opened JsonValues
  import opened Positions
  import opened Records
  import opened Wrappers

  const GOVERNANCE_VISIBILITY := "governance_visibility"

  /** What the walk asks about keys and values. */
  datatype Tests = Tests(
    governance: string -> bool,
    diagnostic: string -> bool,
    semantic: string -> bool,
    accepts: Json -> bool,
    reports: Json -> seq<string>)
  {
    predicate Unbounded(key: string) {
      governance(key) && key != GOVERNANCE_VISIBILITY
    }

    /** A key that is a governance or diagnostic marker outside the allowed attachment point. */
    predicate Marked(key: string) {
      Unbounded(key) || diagnostic(key)
    }
  }

  /** This module's own `_unique`: it drops the empty text only and strips nothing. */
  function Distinct(values: seq<string>): seq<string> {
    if values == [] then []
    else
      var n := |values| - 1;
      var found := Distinct(values[..n]);
      if values[n] != "" && values[n] !in found then found + [values[n]] else found
  }

  lemma {:induction false} DistinctNone(values: seq<string>)
    ensures Distinct(values) == [] <==> forall i :: 0 <= i < |values| ==> values[i] == ""
  {
    if values != [] {
      var n := |values| - 1;
      DistinctNone(values[..n]);
      assert forall i :: 0 <= i < n ==> values[..n][i] == values[i];
    }
  }

  predicate HasUnboundedMarker(t: Tests, fs: seq<Field>) {
    exists i :: 0 <= i < |fs| && t.Unbounded(fs[i].key)
  }

  /** What one field adds before its value is searched. */
  function OwnFindings(t: Tests, f: Field, path: string, unbounded: bool, scope: bool): seq<string> {
    (if unbounded && t.semantic(f.key) then [path] else [])
    + (if t.diagnostic(f.key)
       then [path] + (if f.value.Obj? then Prefixed(path + ".", t.reports(f.value)) else [])
       else [])
    + (if t.Unbounded(f.key) then [path] else [])
    + (if scope && t.semantic(f.key) then [path] else [])
  }

  function Joined(a: Option<seq<string>>, b: Option<seq<string>>): Option<seq<string>> {
    if a.Some? && b.Some? then Some(a.value + b.value) else None
  }

  /** `_find_governance_semantic_mutations`: the findings, or `None` when a nested check raises. */
  function Findings(t: Tests, v: Json, path: string, scope: bool): Option<seq<string>>
    decreases v, 1
  {
    match v
    case Obj(fs) => Deduplicated(FieldFindings(t, fs, path, HasUnboundedMarker(t, fs), scope))
    case Arr(_, items) => if v.isList then Deduplicated(ItemFindings(t, items, path, scope)) else Some([])
    case _ => Some([])
  }

  function Deduplicated(found: Option<seq<string>>): Option<seq<string>> {
    if found.Some? then Some(Distinct(found.value)) else None
  }

  function FieldFindings(t: Tests, fs: seq<Field>, path: string, unbounded: bool, scope: bool): Option<seq<string>>
    decreases fs, 0
  {
    if fs == [] then Some([])
    else
      var n := |fs| - 1;
      Joined(FieldFindings(t, fs[..n], path, unbounded, scope), OneField(t, fs[n], path, unbounded, scope))
  }

  function OneField(t: Tests, f: Field, path: string, unbounded: bool, scope: bool): Option<seq<string>>
    decreases f, 0
  {
    var here, inside := Extend(path, Key(f.key)), scope || t.governance(f.key);
    Joined(Some(OwnFindings(t, f, here, unbounded, inside)),
           if f.key == GOVERNANCE_VISIBILITY then (if t.accepts(f.value) then Some([]) else None)
           else Findings(t, f.value, here, inside))
  }

  function ItemFindings(t: Tests, items: seq<Json>, path: string, scope: bool): Option<seq<string>>
    decreases items, 0
  {
    if items == [] then Some([])
    else
      var n := |items| - 1;
      Joined(ItemFindings(t, items[..n], path, scope), OneItem(t, items[n], n, path, scope))
  }

  function OneItem(t: Tests, item: Json, index: nat, path: string, scope: bool): Option<seq<string>>
    decreases item, 2
  {
    Findings(t, item, Extend(path, Index(index)), scope)
  }

  /** `_find_governance_semantic_mutations`. */
  method FindMutations(t: Tests, v: Json, path: string, scope: bool) returns (found: Option<seq<string>>)
    ensures found == Findings(t, v, path, scope)
    decreases v
  {
    found := Some([]);
    match v
    case Obj(fs) =>
      var unbounded := HasUnboundedMarker(t, fs);
      for i := 0 to |fs|
        invariant found == FieldFindings(t, fs[..i], path, unbounded, scope)
      {
        assert fs[..i + 1][..i] == fs[..i];
        var here, inside := Extend(path, Key(fs[i].key)), scope || t.governance(fs[i].key);
        var below := Some([]);
        if fs[i].key == GOVERNANCE_VISIBILITY {
          if !t.accepts(fs[i].value) {
            below := None;
          }
        } else {
          assert fs[i].value < fs[i];
          below := FindMutations(t, fs[i].value, here, inside);
        }
        found := Joined(found, Joined(Some(OwnFindings(t, fs[i], here, unbounded, inside)), below));
      }
      assert fs[..|fs|] == fs;
      found := Deduplicated(found);
    case Arr(_, items) =>
      if v.isList {
        for i := 0 to |items|
          invariant found == ItemFindings(t, items[..i], path, scope)
        {
          assert items[..i + 1][..i] == items[..i];
          var below := FindMutations(t, items[i], Extend(path, Index(i)), scope);
          found := Joined(found, below);
        }
        assert items[..|items|] == items;
        found := Deduplicated(found);
      }
    case _ =>
  }

  /** No marked key outside `governance_visibility` subtrees. */
  ghost predicate Unmarked(t: Tests, v: Json) {
    match v
    case Obj(fs) => forall i :: 0 <= i < |fs| ==> UnmarkedField(t, fs[i])
    case Arr(isList, items) => isList ==> forall i :: 0 <= i < |items| ==> Unmarked(t, items[i])
    case _ => true
  }

  ghost predicate UnmarkedField(t: Tests, f: Field) {
    !t.Marked(f.key) && (f.key == GOVERNANCE_VISIBILITY || Unmarked(t, f.value))
  }

  /** Every reached `governance_visibility` value is acceptable metadata. */
  ghost predicate Acceptable(t: Tests, v: Json) {
    match v
    case Obj(fs) => forall i :: 0 <= i < |fs| ==> AcceptableField(t, fs[i])
    case Arr(isList, items) => isList ==> forall i :: 0 <= i < |items| ==> Acceptable(t, items[i])
    case _ => true
  }

  ghost predicate AcceptableField(t: Tests, f: Field) {
    if f.key == GOVERNANCE_VISIBILITY then t.accepts(f.value) else Acceptable(t, f.value)
  }

  /** The walk raises exactly when it reaches unacceptable metadata. */
  lemma {:induction false} RaisesExactly(t: Tests, v: Json, path: string, scope: bool)
    ensures Findings(t, v, path, scope).Some? <==> Acceptable(t, v)
    decreases v, 1
  {
    match v
    case Obj(fs) => FieldsRaise(t, fs, path, HasUnboundedMarker(t, fs), scope);
    case Arr(_, items) => ItemsRaise(t, items, path, scope);
    case _ =>
  }

  lemma {:induction false} FieldsRaise(t: Tests, fs: seq<Field>, path: string, unbounded: bool, scope: bool)
    ensures FieldFindings(t, fs, path, unbounded, scope).Some? <==>
              forall i :: 0 <= i < |fs| ==> AcceptableField(t, fs[i])
    decreases fs, 0
  {
    if fs != [] {
      var init, last := fs[..|fs| - 1], fs[|fs| - 1];
      FieldsRaise(t, init, path, unbounded, scope);
      OneFieldRaises(t, last, path, unbounded, scope);
      assert forall i :: 0 <= i < |init| ==> init[i] == fs[i];
    }
  }

  lemma {:induction false} OneFieldRaises(t: Tests, f: Field, path: string, unbounded: bool, scope: bool)
    ensures OneField(t, f, path, unbounded, scope).Some? <==> AcceptableField(t, f)
    decreases f, 0
  {
    RaisesExactly(t, f.value, Extend(path, Key(f.key)), scope || t.governance(f.key));
  }

  lemma {:induction false} ItemsRaise(t: Tests, items: seq<Json>, path: string, scope: bool)
    ensures ItemFindings(t, items, path, scope).Some? <==> forall i :: 0 <= i < |items| ==> Acceptable(t, items[i])
    decreases items, 0
  {
    if items != [] {
      var init, n := items[..|items| - 1], |items| - 1;
      ItemsRaise(t, init, path, scope);
      OneItemRaises(t, items[n], n, path, scope);
      assert forall i :: 0 <= i < n ==> init[i] == items[i];
    }
  }

  lemma {:induction false} OneItemRaises(t: Tests, item: Json, index: nat, path: string, scope: bool)
    ensures OneItem(t, item, index, path, scope).Some? <==> Acceptable(t, item)
    decreases item, 2
  {
    RaisesExactly(t, item, Extend(path, Index(index)), scope);
  }

  /** Nothing found, not even something that de-duplication would drop. */
  ghost predicate Silent(found: Option<seq<string>>) {
    found == Some([])
  }

  ghost predicate NonEmptyTexts(found: Option<seq<string>>) {
    found.Some? ==> forall i :: 0 <= i < |found.value| ==> found.value[i] != ""
  }

  lemma DeduplicationKeepsOne(found: Option<seq<string>>)
    requires NonEmptyTexts(found)
    ensures Silent(Deduplicated(found)) <==> Silent(found)
    ensures NonEmptyTexts(Deduplicated(found))
  {
    if found.Some? {
      DistinctNone(found.value);
      DistinctNonEmpty(found.value);
      if found.value != [] {
        assert found.value[0] != "";
      }
    }
  }

  lemma {:induction false} DistinctNonEmpty(values: seq<string>)
    ensures forall i :: 0 <= i < |Distinct(values)| ==> Distinct(values)[i] != ""
  {
    if values != [] {
      DistinctNonEmpty(values[..|values| - 1]);
    }
  }

  lemma JoinedSilent(a: Option<seq<string>>, b: Option<seq<string>>)
    requires NonEmptyTexts(a) && NonEmptyTexts(b)
    ensures NonEmptyTexts(Joined(a, b))
    ensures Silent(Joined(a, b)) <==> Silent(a) && Silent(b)
  {
    if a.Some? && b.Some? {
      assert |a.value + b.value| == |a.value| + |b.value|;
    }
  }

  /** What the tests of the planner boundary satisfy. */
  ghost predicate Sensible(t: Tests) {
    && !t.governance("") && !t.diagnostic("") && !t.semantic("")
    && t.governance(GOVERNANCE_VISIBILITY) && !t.semantic(GOVERNANCE_VISIBILITY)
  }

  lemma OwnFindingsExact(t: Tests, f: Field, path: string, unbounded: bool, inside: bool)
    requires Sensible(t)
    ensures var own := OwnFindings(t, f, Extend(path, Key(f.key)), unbounded, inside);
            && NonEmptyTexts(Some(own))
            && (own == [] <==> !t.Marked(f.key) && ((unbounded || inside) ==> !t.semantic(f.key)))
  {
    var here := Extend(path, Key(f.key));
    if f.key == "" {
      assert OwnFindings(t, f, here, unbounded, inside) == [];
    } else {
      assert here != "";
      assert here + "." != "";
    }
  }

  /** Findings appear exactly below a marked key, in or out of a governance scope. */
  ghost predicate ExactFor(found: Option<seq<string>>, unmarked: bool, scope: bool) {
    && NonEmptyTexts(found)
    && (Silent(found) ==> unmarked)
    && (found.Some? && unmarked && !scope ==> Silent(found))
  }

  lemma ExactJoin(a: Option<seq<string>>, b: Option<seq<string>>, unmarkedA: bool, unmarkedB: bool, scope: bool)
    requires ExactFor(a, unmarkedA, scope) && ExactFor(b, unmarkedB, scope)
    ensures ExactFor(Joined(a, b), unmarkedA && unmarkedB, scope)
  {
    JoinedSilent(a, b);
  }

  /**
   If the walk does not raise, it returns nothing exactly when no key outside
   `governance_visibility` subtrees is a marker: the scope flag and the semantic keys never
   decide.
   */
  lemma {:induction false} FindingsExact(t: Tests, v: Json, path: string, scope: bool)
    requires Sensible(t)
    ensures ExactFor(Findings(t, v, path, scope), Unmarked(t, v), scope)
    decreases v, 1
  {
    match v
    case Obj(fs) =>
      var unbounded := HasUnboundedMarker(t, fs);
      FieldsExact(t, fs, path, unbounded, scope);
      DeduplicationKeepsOne(FieldFindings(t, fs, path, unbounded, scope));
      if Unmarked(t, v) {
        assert !unbounded;
      }
    case Arr(_, items) =>
      ItemsExact(t, items, path, scope);
      DeduplicationKeepsOne(ItemFindings(t, items, path, scope));
    case _ =>
  }

  lemma {:induction false} FieldsExact(t: Tests, fs: seq<Field>, path: string, unbounded: bool, scope: bool)
    requires Sensible(t)
    ensures ExactFor(FieldFindings(t, fs, path, unbounded, scope),
                     forall i :: 0 <= i < |fs| ==> UnmarkedField(t, fs[i]), scope || unbounded)
    decreases fs, 0
  {
    if fs != [] {
      var init, last := fs[..|fs| - 1], fs[|fs| - 1];
      FieldsExact(t, init, path, unbounded, scope);
      OneFieldExact(t, last, path, unbounded, scope);
      ExactJoin(FieldFindings(t, init, path, unbounded, scope), OneField(t, last, path, unbounded, scope),
                forall i :: 0 <= i < |init| ==> UnmarkedField(t, init[i]), UnmarkedField(t, last),
                scope || unbounded);
      assert forall i :: 0 <= i < |init| ==> init[i] == fs[i];
    }
  }

  lemma {:induction false} OneFieldExact(t: Tests, f: Field, path: string, unbounded: bool, scope: bool)
    requires Sensible(t)
    ensures ExactFor(OneField(t, f, path, unbounded, scope), UnmarkedField(t, f), scope || unbounded)
    decreases f, 0
  {
    var here, inside := Extend(path, Key(f.key)), scope || t.governance(f.key);
    var own := OwnFindings(t, f, here, unbounded, inside);
    OwnFindingsExact(t, f, path, unbounded, inside);
    if f.key == GOVERNANCE_VISIBILITY {
      JoinedSilent(Some(own), if t.accepts(f.value) then Some([]) else None);
    } else {
      FindingsExact(t, f.value, here, inside);
      JoinedSilent(Some(own), Findings(t, f.value, here, inside));
    }
  }

  lemma {:induction false} ItemsExact(t: Tests, items: seq<Json>, path: string, scope: bool)
    requires Sensible(t)
    ensures ExactFor(ItemFindings(t, items, path, scope),
                     forall i :: 0 <= i < |items| ==> Unmarked(t, items[i]), scope)
    decreases items, 0
  {
    if items != [] {
      var init, n := items[..|items| - 1], |items| - 1;
      ItemsExact(t, init, path, scope);
      OneItemExact(t, items[n], n, path, scope);
      ExactJoin(ItemFindings(t, init, path, scope), OneItem(t, items[n], n, path, scope),
                forall i :: 0 <= i < n ==> Unmarked(t, init[i]), Unmarked(t, items[n]), scope);
      assert forall i :: 0 <= i < n ==> init[i] == items[i];
    }
  }

  lemma {:induction false} OneItemExact(t: Tests, item: Json, index: nat, path: string, scope: bool)
    requires Sensible(t)
    ensures ExactFor(OneItem(t, item, index, path, scope), Unmarked(t, item), scope)
    decreases item, 2
  {
    FindingsExact(t, item, Extend(path, Index(index)), scope);
  }

  /** `_contains_governance_marker`. */
  predicate ContainsMarker(t: Tests, v: Json) {
    match v
    case Obj(fs) => exists i :: 0 <= i < |fs| && FieldContainsMarker(t, fs[i])
    case Arr(isList, items) => isList && exists i :: 0 <= i < |items| && ContainsMarker(t, items[i])
    case _ => false
  }

  predicate FieldContainsMarker(t: Tests, f: Field) {
    t.governance(f.key) || ContainsMarker(t, f.value)
  }

  /** A `governance_visibility` key is reached. */
  ghost predicate CarriesVisibility(v: Json) {
    match v
    case Obj(fs) => exists i :: 0 <= i < |fs| && FieldCarriesVisibility(fs[i])
    case Arr(isList, items) => isList && exists i :: 0 <= i < |items| && CarriesVisibility(items[i])
    case _ => false
  }

  ghost predicate FieldCarriesVisibility(f: Field) {
    f.key == GOVERNANCE_VISIBILITY || CarriesVisibility(f.value)
  }

  /** Once nothing is found, `metadata_visible` means a reached `governance_visibility` key. */
  lemma {:induction false} MarkerMeansVisibility(t: Tests, v: Json)
    requires Sensible(t) && Unmarked(t, v)
    ensures ContainsMarker(t, v) <==> CarriesVisibility(v)
  {
    match v
    case Obj(fs) =>
      forall i | 0 <= i < |fs| ensures FieldContainsMarker(t, fs[i]) <==> FieldCarriesVisibility(fs[i]) {
        assert UnmarkedField(t, fs[i]);
        assert fs[i].value < fs[i];
        if fs[i].key != GOVERNANCE_VISIBILITY {
          MarkerMeansVisibility(t, fs[i].value);
        }
      }
    case Arr(isList, items) =>
      if isList {
        forall i | 0 <= i < |items| ensures ContainsMarker(t, items[i]) <==> CarriesVisibility(items[i]) {
          MarkerMeansVisibility(t, items[i]);
        }
      }
    case _ =>
  }
}
