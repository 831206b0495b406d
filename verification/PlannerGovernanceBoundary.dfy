/** What planner payloads may carry about governance (planner/governance_boundary.py). */
module PlannerGovernanceBoundary {
  import opened AsciiCase
  import opened Attachments
  import opened BoundaryTerms
  import opened GovernanceWalk
  import opened JsonValues
  import opened Positions
  import opened Records
  import opened Text
  import opened ValidatorSupport
  import opened VisibilityIsolation
  import opened VisibilitySchema
  import opened Wrappers

  const GOVERNANCE_MARKERS := ["approval", "autonomy", "governance", "memory", "trust", "visibility"]
  const DIAGNOSTIC_MARKERS := ["diagnostic", "diagnostics"]

  const PLANNER_VISIBLE_GOVERNANCE_KEYS := {
    "action_type", "adapter_id", "capability", "content_safe", "execution_allowed", "execution_performed",
    "governance_state", "injection_allowed", "lookup_execution_id", "lookup_id", "lookup_lineage_id",
    "lookup_request_id", "lookup_type", "operation_domain", "owning_agent", "prior_trust_scope_match",
    "records_returned", "render_allowed", "requires_approval", "retrieval_executed", "schema_version",
    "semantic_reinterpretation_performed", "skipped_reasons", "source_binding_id", "source_scope", "step_id",
    "trust_inheritance_boundary", "trust_lineage_type", "trust_scope_bleed_prevented", "trust_scope_key",
    "trust_state", "visibility_contract_id", "visibility_type", "workflow_id", "workflow_type"
  }

  predicate ContainsAny(text: string, parts: seq<string>) {
    exists k :: 0 <= k < |parts| && Contains(text, parts[k])
  }

  predicate IsGovernanceMarker(key: string) {
    key != "requires_approval" && ContainsAny(Lower(key), GOVERNANCE_MARKERS)
  }

  predicate IsDiagnosticMarker(key: string) {
    ContainsAny(Lower(key), DIAGNOSTIC_MARKERS)
  }

  function KeysWhere(fs: seq<Field>, blocked: string -> bool): seq<string> {
    if fs == [] then []
    else (if blocked(fs[0].key) then [fs[0].key] else []) + KeysWhere(fs[1..], blocked)
  }

  predicate Unknown(key: string) {
    key !in PLANNER_VISIBLE_GOVERNANCE_KEYS
  }

  predicate Semantic(key: string) {
    key in SEMANTIC_AUTHORITY_FIELDS
  }

  function BlockedKeys(fs: seq<Field>): seq<string> {
    Distinct(KeysWhere(fs, Unknown) + KeysWhere(fs, Semantic))
  }

  /** `validate_planner_visible_governance_metadata` does not raise. */
  predicate PlannerAccepts(metadata: Json) {
    || metadata == Null
    || (&& metadata.Obj?
        && BlockedKeys(metadata.fields) == []
        && Get(metadata, "content_safe") == Bool(true)
        && Get(metadata, "semantic_reinterpretation_performed") == Bool(false)
        && AttachmentAllowed(metadata, "planner_visible_governance_metadata"))
  }

  lemma {:induction false} KeysWhereNone(fs: seq<Field>, blocked: string -> bool)
    ensures (forall i :: 0 <= i < |KeysWhere(fs, blocked)| ==> KeysWhere(fs, blocked)[i] == "") <==>
              forall i :: 0 <= i < |fs| ==> fs[i].key == "" || !blocked(fs[i].key)
  {
    if fs != [] {
      var own, rest := if blocked(fs[0].key) then [fs[0].key] else [], KeysWhere(fs[1..], blocked);
      KeysWhereNone(fs[1..], blocked);
      EmptyAppend(own, rest);
      assert KeysWhere(fs, blocked) == own + rest;
      assert forall i :: 1 <= i < |fs| ==> fs[i] == fs[1..][i - 1];
      assert blocked(fs[0].key) ==> own[0] == fs[0].key;
    }
  }

  lemma EmptyAppend(a: seq<string>, b: seq<string>)
    ensures (forall i :: 0 <= i < |a + b| ==> (a + b)[i] == "") <==>
              (forall i :: 0 <= i < |a| ==> a[i] == "") && (forall i :: 0 <= i < |b| ==> b[i] == "")
  {
    assert forall i :: 0 <= i < |a| ==> (a + b)[i] == a[i];
    assert forall i :: 0 <= i < |b| ==> (a + b)[|a| + i] == b[i];
  }

  /** Every key is planner-visible and carries no authority; an empty key is overlooked. */
  ghost predicate VisibleKey(key: string) {
    key == "" || (!Unknown(key) && !Semantic(key))
  }

  lemma BlockedKeysNone(fs: seq<Field>)
    ensures BlockedKeys(fs) == [] <==> forall i :: 0 <= i < |fs| ==> VisibleKey(fs[i].key)
  {
    var unknown := KeysWhere(fs, Unknown);
    var semantic := KeysWhere(fs, Semantic);
    KeysWhereNone(fs, Unknown);
    KeysWhereNone(fs, Semantic);
    DistinctNone(unknown + semantic);
    EmptyAppend(unknown, semantic);
  }

  /**
   What the planner takes as governance metadata: nothing, or a dictionary whose keys are all
   visible to it, that says it is safe and not reinterpreted, and that may be attached there.
   */
  lemma AcceptedExactly(metadata: Json)
    ensures PlannerAccepts(metadata) <==>
              || metadata == Null
              || (&& metadata.Obj? && (forall i :: 0 <= i < |metadata.fields| ==> VisibleKey(metadata.fields[i].key))
                  && Get(metadata, "content_safe") == Bool(true)
                  && Get(metadata, "semantic_reinterpretation_performed") == Bool(false)
                  && AttachmentAllowed(metadata, "planner_visible_governance_metadata"))
  {
    if metadata.Obj? {
      BlockedKeysNone(metadata.fields);
    }
  }

  ghost predicate Mentions(key: string, markers: seq<string>) {
    exists k, i: nat :: 0 <= k < |markers| && MarkerAt(key, markers[k], i)
  }

  lemma MentionsExactly(key: string, markers: seq<string>)
    ensures ContainsAny(Lower(key), markers) <==> Mentions(key, markers)
  {
    forall k | 0 <= k < |markers|
      ensures Contains(Lower(key), markers[k]) <==> exists i: nat :: MarkerAt(key, markers[k], i)
    {
      ContainsExactly(key, markers[k]);
    }
  }

  /** A key is about governance exactly when one of the six words stands in it, in any case; one key is excepted. */
  lemma MarkersExactly(key: string)
    ensures IsGovernanceMarker(key) <==>
              key != "requires_approval"
              && Mentions(key, ["approval", "autonomy", "governance", "memory", "trust", "visibility"])
    ensures IsDiagnosticMarker(key) <==> Mentions(key, ["diagnostic", "diagnostics"])
  {
    MentionsExactly(key, GOVERNANCE_MARKERS);
    MentionsExactly(key, DIAGNOSTIC_MARKERS);
  }

  lemma CanonicalKeysVisible()
    ensures CANONICAL_GOVERNANCE_VISIBILITY_FIELDS <= PLANNER_VISIBLE_GOVERNANCE_KEYS
  {
  }

  lemma CanonicalFlagsAbsent()
    ensures CANONICAL_GOVERNANCE_VISIBILITY_FIELDS !! SEMANTIC_RULE.falseAllowed
  {
  }

  /** A canonical key the semantic walk does not report carries no authority. */
  lemma CanonicalKeyVisible(f: Field)
    requires f.key in CANONICAL_GOVERNANCE_VISIBILITY_FIELDS && QuietField(f, SEMANTIC_RULE)
    ensures VisibleKey(f.key)
  {
    CanonicalKeysVisible();
    CanonicalFlagsAbsent();
  }

  lemma PlannerTarget()
    ensures Strip("planner_visible_governance_metadata") in ALLOWED_VISIBILITY_ATTACHMENT_TARGETS
  {
    StripFacts("planner_visible_governance_metadata");
  }

  lemma CanonicalAccepted(surface: Json)
    requires Canonical(surface) && CleanVisibility(surface)
    ensures PlannerAccepts(surface)
  {
    forall i | 0 <= i < |surface.fields| ensures VisibleKey(surface.fields[i].key) {
      CanonicalKeyVisible(surface.fields[i]);
    }
    BlockedKeysNone(surface.fields);
    CanonicalIsVisibility(surface);
    PlannerTarget();
    AttachVisibility(surface, "planner_visible_governance_metadata");
  }

  /**
   Builder to planner: whatever fields and target the builder was given, a surface it
   returns is accepted as planner-visible metadata.
   */
  lemma BuiltSurfaceAccepted(domain: string, fields: seq<Field>, target: string)
    requires BuildSurface(domain, fields, target).Some?
    ensures PlannerAccepts(BuildSurface(domain, fields, target).value)
  {
    var surface := Assembled(domain, fields);
    SchemaExact(surface);
    CanonicalIsVisibility(surface);
    AttachVisibility(surface, target);
    CanonicalAccepted(surface);
  }

  function Reports(item: Json): seq<string> {
    Unique(DiagnosticViolations(item))
  }

  const PLANNER_TESTS := Tests(IsGovernanceMarker, IsDiagnosticMarker, Semantic, PlannerAccepts, Reports)

  lemma ContainsAt(text: string, parts: seq<string>, k: nat, i: nat)
    requires k < |parts| && i <= |text| && PartAt(text, parts[k], i)
    ensures ContainsAny(text, parts)
  {
    assert Contains(text, parts[k]);
  }

  lemma EmptyTextContainsNone(parts: seq<string>)
    requires forall k :: 0 <= k < |parts| ==> parts[k] != ""
    ensures !ContainsAny("", parts)
  {
  }

  lemma VisibilityKeyIsMarker()
    ensures IsGovernanceMarker(GOVERNANCE_VISIBILITY)
  {
    var lowered := Lower(GOVERNANCE_VISIBILITY);
    assert lowered == GOVERNANCE_VISIBILITY;
    assert PartAt(lowered, "governance", 0);
    ContainsAt(lowered, GOVERNANCE_MARKERS, 2, 0);
  }

  lemma EmptyKeyUnmarked()
    ensures !IsGovernanceMarker("") && !IsDiagnosticMarker("")
  {
    assert Lower("") == "";
    EmptyTextContainsNone(GOVERNANCE_MARKERS);
    EmptyTextContainsNone(DIAGNOSTIC_MARKERS);
  }

  lemma VisibilityKeyNotSemantic()
    ensures !Semantic("") && !Semantic(GOVERNANCE_VISIBILITY)
  {
  }

  lemma PlannerTestsSensible()
    ensures Sensible(PLANNER_TESTS)
  {
    EmptyKeyUnmarked();
    VisibilityKeyIsMarker();
    VisibilityKeyNotSemantic();
  }

  /** `assert_no_governance_semantic_mutation` does not raise. */
  predicate MutationFree(payload: Json) {
    payload.Obj? ==> Findings(PLANNER_TESTS, payload, "", false) == Some([])
  }

  /**
   A planner payload is accepted exactly when no governance or diagnostic marker occurs as a
   key outside `governance_visibility` subtrees and every such subtree is acceptable
   metadata; `metadata_visible` then says that there is one.
   */
  lemma MutationFreeExact(payload: Json)
    requires payload.Obj?
    ensures MutationFree(payload) <==> Unmarked(PLANNER_TESTS, payload) && Acceptable(PLANNER_TESTS, payload)
    ensures MutationFree(payload) ==> (ContainsMarker(PLANNER_TESTS, payload) <==> CarriesVisibility(payload))
  {
    PlannerTestsSensible();
    RaisesExactly(PLANNER_TESTS, payload, "", false);
    FindingsExact(PLANNER_TESTS, payload, "", false);
    if MutationFree(payload) {
      MarkerMeansVisibility(PLANNER_TESTS, payload);
    }
  }

  /** `assert_no_governance_semantic_mutation`: whether it returns, and its `metadata_visible`. */
  method AssertNoMutation(payload: Json) returns (allowed: bool, metadataVisible: bool)
    ensures allowed == MutationFree(payload)
    ensures payload.Obj? ==>
              (allowed <==> Unmarked(PLANNER_TESTS, payload) && Acceptable(PLANNER_TESTS, payload))
    ensures metadataVisible <==> payload.Obj? && allowed && CarriesVisibility(payload)
  {
    allowed, metadataVisible := true, false;
    if payload.Obj? {
      MutationFreeExact(payload);
      var found := FindMutations(PLANNER_TESTS, payload, "", false);
      allowed := found == Some([]);
      metadataVisible := allowed && ContainsMarker(PLANNER_TESTS, payload);
    }
  }
}
