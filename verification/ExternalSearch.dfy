/**
 External search result sets: builder and validator (runtime/artifacts/external_search.py).
 A dictionary that is only read by fixed keys is a record; a missing key reads as `Null`.
 */
module ExternalSearch {
  import opened JsonValues
  import opened RetrievalLineage
  import opened Sequences
  import opened Text
  import opened Validation
  import opened Wrappers

  const RESULT_SET_ARTIFACT := "external_search_result_set"
  const MERGE_TYPE := "bounded_external_search_result_set_merge"

  const FORBIDDEN_TOP_LEVEL_FIELDS := [
    "candidate_count", "candidates", "delivery_payload", "final_answer", "guest_candidate_list",
    "normalized_results", "provider_metadata", "provider_payload", "ranking", "selected_candidate",
    "sourced_summary", "summary"
  ]

  /** The provenance flags of the provider stages. */
  datatype ProviderStages = ProviderStages(integration: Json, selected: Json, adapter: Json, browser: Json, cloud: Json)
  {
    predicate AllFalse() {
      IsFalse(integration) && IsFalse(selected) && IsFalse(adapter) && IsFalse(browser) && IsFalse(cloud)
    }
  }

  const NO_PROVIDER_STAGES := ProviderStages(Bool(false), Bool(false), Bool(false), Bool(false), Bool(false))

  datatype Provenance =
    | BadProvenance
    | Provenance(contractStage: Json, executionAllowed: Json, provider: ProviderStages, derived: Stages,
                 receiptRefs: Json)

  /** What a caller's provenance overrides. */
  datatype ProvenancePatch = ProvenancePatch(provider: Option<ProviderStages>, derived: Option<Stages>,
                                             receiptRefs: Option<Json>)

  /** `semantic_authority`. */
  datatype Authority =
    | BadAuthority
    | Authority(planner: Json, runtime: Json, operation: Json, artifactType: Json, capability: Json)

  const NO_AUTHORITY := Authority(Bool(false), Bool(false), Bool(false), Bool(false), Bool(false))

  datatype LimitValues = BadLimits | LimitValues(maxSets: Json, maxPerSet: Json, maxTotal: Json)

  /** One entry of `input_result_sets`. */
  datatype InputRecord =
    | ForeignRecord(value: Json)
    | InputRecord(index: nat, artifactType: Json, searchId: Json, query: Json, accepted: nat, start: nat, end: nat)

  datatype InputSets = BadInputs | InputSets(records: seq<InputRecord>)

  datatype Metadata =
    | NoMetadata
    | BadMetadata
    | Metadata(mergeType: Json, bounded: Json, limits: LimitValues, inputs: InputSets, inputCount: Json,
               rawResultCount: Json, dedupe: Json, derived: Stages, skipped: Json)

  /** `receiptRefs` tells a missing key (`None`) from an explicit `None` (`Some(Null)`). */
  datatype Artifact =
    | NotAnArtifact
    | Artifact(artifactType: Json, resultType: Json, searchId: Json, query: Json, externalCall: Json,
               costIncurred: Json, otherKeys: set<string>, rawResults: Json, sourceRefs: Json, citations: Json,
               rejected: Json, receiptRefs: Option<Json>, lineage: LineageList, provenance: Provenance,
               authority: Authority, metadata: Metadata)

  predicate ObjectList(v: Json) {
    v.Arr? && v.isList && forall i :: 0 <= i < |v.items| ==> v.items[i].Obj?
  }

  predicate TextItems(v: Json) {
    v.Arr? && v.isList && forall i :: 0 <= i < |v.items| ==> HasText(v.items[i])
  }

  predicate PositiveInt(v: Json) {
    v.Num? && v.n > 0
  }

  /** Python's `v == n`: a bool equals 0 or 1. */
  predicate EqualsCount(v: Json, n: nat) {
    v == Num(n) || (n == 1 && v == Bool(true)) || (n == 0 && v == Bool(false))
  }

  function ReceiptValue(refs: Option<Json>): Json {
    if refs.Some? then refs.value else Null
  }

  function HeadChecks(a: Artifact): seq<Check>
    requires a.Artifact?
  {
    [ Check(a.artifactType == Str(RESULT_SET_ARTIFACT), "invalid_artifact_type", "artifact_type"),
      Check(a.resultType == Str(RESULT_SET_ARTIFACT), "invalid_result_type", "result_type"),
      Check(HasText(a.searchId), "missing_required_field", "search_id"),
      Check(HasText(a.query), "missing_required_field", "query"),
      Check(a.externalCall.Bool?, "invalid_boolean_field", "external_call_performed"),
      Check(a.costIncurred.Bool?, "invalid_boolean_field", "cost_incurred"),
      Check(IsFalse(a.externalCall), "external_call_not_allowed", "external_call_performed"),
      Check(IsFalse(a.costIncurred), "cost_not_allowed", "cost_incurred") ]
  }

  function ForbiddenKeys(keys: set<string>, fields: seq<string>): seq<Problem> {
    if fields == [] then []
    else (if fields[0] in keys then [Problem("derived_or_provider_field_not_allowed", fields[0])] else [])
         + ForbiddenKeys(keys, fields[1..])
  }

  function ListChecks(a: Artifact): seq<Check>
    requires a.Artifact?
  {
    [ Check(ObjectList(a.rawResults), "invalid_object_list", "raw_results"),
      Check(ObjectList(a.sourceRefs), "invalid_object_list", "source_refs"),
      Check(ObjectList(a.citations), "invalid_object_list", "citations"),
      Check(a.rejected == Null || ObjectList(a.rejected), "invalid_object_list", "rejected_raw_results"),
      Check(ReceiptValue(a.receiptRefs) == Null || TextItems(ReceiptValue(a.receiptRefs)),
            "invalid_execution_receipt_refs", "execution_receipt_refs") ]
  }

  /** `_validate_result_lineage_coverage`. */
  function CoverageProblems(raw: Json, lineage: LineageList): seq<Problem> {
    if !(raw.Arr? && raw.isList) || raw.items == [] then []
    else if !lineage.Items? || lineage.items == [] then [Problem("missing_result_lineage", "result_lineage")]
    else if |lineage.items| != |raw.items| then [Problem("result_lineage_count_mismatch", "result_lineage")]
    else []
  }

  function AuthorityChecks(v: Authority): seq<Check> {
    if v.BadAuthority? then [Check(false, "invalid_semantic_authority", "semantic_authority")]
    else
      [ Check(IsFalse(v.planner), "semantic_authority_not_allowed", "semantic_authority.planner_semantic_grounding"),
        Check(IsFalse(v.runtime), "semantic_authority_not_allowed", "semantic_authority.runtime_semantic_grounding"),
        Check(IsFalse(v.operation), "semantic_authority_not_allowed", "semantic_authority.operation_selection"),
        Check(IsFalse(v.artifactType), "semantic_authority_not_allowed",
              "semantic_authority.artifact_type_selection"),
        Check(IsFalse(v.capability), "semantic_authority_not_allowed", "semantic_authority.capability_selection") ]
  }

  function LimitChecks(l: LimitValues): seq<Check> {
    if l.BadLimits? then [Check(false, "invalid_merge_limits", "merge_metadata.limits")]
    else
      [ Check(PositiveInt(l.maxSets), "invalid_merge_limit", "merge_metadata.limits.max_result_sets"),
        Check(PositiveInt(l.maxPerSet), "invalid_merge_limit", "merge_metadata.limits.max_results_per_set"),
        Check(PositiveInt(l.maxTotal), "invalid_merge_limit", "merge_metadata.limits.max_total_results") ]
  }

  predicate InputsCounted(m: Metadata)
    requires m.Metadata?
  {
    m.inputs.InputSets? && EqualsCount(m.inputCount, |m.inputs.records|)
  }

  predicate RawCounted(m: Metadata, raw: Json)
    requires m.Metadata?
  {
    m.rawResultCount.Num? && raw.Arr? && raw.isList && m.rawResultCount.n == |raw.items|
  }

  function CountChecks(m: Metadata, raw: Json): seq<Check>
    requires m.Metadata?
  {
    [ Check(InputsCounted(m),
            if m.inputs.BadInputs? then "invalid_merge_inputs" else "merge_input_count_mismatch",
            if m.inputs.BadInputs? then "merge_metadata.input_result_sets"
            else "merge_metadata.input_result_set_count"),
      Check(RawCounted(m, raw), "merge_raw_result_count_mismatch", "merge_metadata.raw_result_count"),
      Check(IsFalse(m.dedupe), "merge_derived_stage_not_allowed", "merge_metadata.dedupe_performed") ]
  }

  function MergeHeadChecks(m: Metadata): seq<Check>
    requires m.Metadata?
  {
    [ Check(m.mergeType == Str(MERGE_TYPE), "invalid_merge_type", "merge_metadata.merge_type"),
      Check(m.bounded == Bool(true), "merge_not_bounded", "merge_metadata.bounded") ]
  }

  function SkippedChecks(m: Metadata): seq<Check>
    requires m.Metadata?
  {
    [ Check(m.skipped == Null || TextItems(m.skipped), "invalid_merge_skipped_reasons",
            "merge_metadata.skipped_reasons") ]
  }

  /** `_validate_merge_metadata`. */
  function MetadataProblems(m: Metadata, raw: Json): seq<Problem> {
    match m
    case NoMetadata => []
    case BadMetadata => [Problem("invalid_merge_metadata", "merge_metadata")]
    case Metadata(_, _, _, _, _, _, _, _, _) =>
      Failures(MergeHeadChecks(m))
      + Failures(LimitChecks(m.limits))
      + Failures(CountChecks(m, raw))
      + Failures(StageChecks(m.derived, "merge_derived_stage_not_allowed", "merge_metadata"))
      + Failures(SkippedChecks(m))
  }

  function ProvenanceChecks(p: Provenance): seq<Check>
    requires p.Provenance?
  {
    [ Check(p.contractStage == Str("pre_provider_integration"), "invalid_contract_stage",
            "provenance.contract_stage"),
      Check(IsFalse(p.executionAllowed), "execution_not_allowed", "provenance.execution_allowed"),
      Check(IsFalse(p.provider.browser), "provider_stage_flag_not_allowed", "provenance.browser_api_called"),
      Check(IsFalse(p.provider.cloud), "provider_stage_flag_not_allowed", "provenance.cloud_model_called"),
      Check(IsFalse(p.provider.adapter), "provider_stage_flag_not_allowed", "provenance.provider_adapter_called"),
      Check(IsFalse(p.provider.integration), "provider_stage_flag_not_allowed",
            "provenance.provider_integration_performed"),
      Check(IsFalse(p.provider.selected), "provider_stage_flag_not_allowed", "provenance.provider_selected"),
      Check(p.receiptRefs == Null || TextItems(p.receiptRefs), "invalid_execution_receipt_refs",
            "provenance.execution_receipt_refs") ]
  }

  /** `_validate_provenance`. */
  function ProvenanceProblems(p: Provenance): seq<Problem> {
    if p.BadProvenance? then [Problem("invalid_provenance", "provenance")]
    else Failures(ProvenanceChecks(p))
         + Failures(StageChecks(p.derived, "provider_stage_flag_not_allowed", "provenance"))
  }

  function FieldProblems(a: Artifact): seq<Problem>
    requires a.Artifact?
  {
    Failures(HeadChecks(a)) + ForbiddenKeys(a.otherKeys, FORBIDDEN_TOP_LEVEL_FIELDS) + Failures(ListChecks(a))
  }

  function CoveredLineageProblems(raw: Json, lineage: LineageList): seq<Problem> {
    LineageProblems(lineage, "result_lineage", false) + CoverageProblems(raw, lineage)
  }

  function NestedProblems(a: Artifact): seq<Problem>
    requires a.Artifact?
  {
    Failures(AuthorityChecks(a.authority)) + MetadataProblems(a.metadata, a.rawResults)
    + ProvenanceProblems(a.provenance)
  }

  /** `validate_external_search_result_set`: its errors, group by group. */
  function Problems(a: Artifact): seq<Problem> {
    if a.NotAnArtifact? then [Problem("invalid_external_search_result_artifact", "artifact")]
    else FieldProblems(a) + CoveredLineageProblems(a.rawResults, a.lineage) + NestedProblems(a)
  }

  predicate GoodHead(a: Artifact) {
    && a.Artifact?
    && a.artifactType == Str(RESULT_SET_ARTIFACT) && a.resultType == Str(RESULT_SET_ARTIFACT)
    && HasText(a.searchId) && HasText(a.query)
    && IsFalse(a.externalCall) && IsFalse(a.costIncurred)
  }

  predicate NoForbiddenKey(keys: set<string>) {
    forall i :: 0 <= i < |FORBIDDEN_TOP_LEVEL_FIELDS| ==> FORBIDDEN_TOP_LEVEL_FIELDS[i] !in keys
  }

  predicate GoodLists(a: Artifact) {
    && a.Artifact?
    && ObjectList(a.rawResults) && ObjectList(a.sourceRefs) && ObjectList(a.citations)
    && (a.rejected == Null || ObjectList(a.rejected))
    && (ReceiptValue(a.receiptRefs) == Null || TextItems(ReceiptValue(a.receiptRefs)))
  }

  /** Every lineage item is accepted, and there is one per raw result. */
  predicate GoodLineage(raw: Json, lineage: LineageList) {
    && (lineage.NotAList? ==> lineage.value == Null)
    && (lineage.Items? ==> forall i :: 0 <= i < |lineage.items| ==> GoodItem(lineage.items[i]))
    && (ObjectList(raw) && raw.items != [] ==> lineage.Items? && |lineage.items| == |raw.items|)
  }

  predicate GoodAuthority(v: Authority) {
    && v.Authority?
    && IsFalse(v.planner) && IsFalse(v.runtime) && IsFalse(v.operation) && IsFalse(v.artifactType)
    && IsFalse(v.capability)
  }

  predicate GoodLimits(l: LimitValues) {
    l.LimitValues? && PositiveInt(l.maxSets) && PositiveInt(l.maxPerSet) && PositiveInt(l.maxTotal)
  }

  predicate GoodMetadata(m: Metadata, raw: Json) {
    && !m.BadMetadata?
    && (m.Metadata? ==>
          && m.mergeType == Str(MERGE_TYPE) && m.bounded == Bool(true) && GoodLimits(m.limits)
          && InputsCounted(m) && RawCounted(m, raw) && IsFalse(m.dedupe) && m.derived.AllFalse()
          && (m.skipped == Null || TextItems(m.skipped)))
  }

  predicate GoodProvenance(p: Provenance) {
    && p.Provenance?
    && p.contractStage == Str("pre_provider_integration") && IsFalse(p.executionAllowed)
    && p.provider.AllFalse() && p.derived.AllFalse()
    && (p.receiptRefs == Null || TextItems(p.receiptRefs))
  }

  /** What an accepted result set looks like. */
  predicate Valid(a: Artifact) {
    && GoodHead(a) && NoForbiddenKey(a.otherKeys) && GoodLists(a) && GoodLineage(a.rawResults, a.lineage)
    && GoodAuthority(a.authority) && GoodMetadata(a.metadata, a.rawResults) && GoodProvenance(a.provenance)
  }

  lemma HeadExact(a: Artifact)
    requires a.Artifact?
    ensures Failures(HeadChecks(a)) == [] <==> GoodHead(a)
  {
    var c := HeadChecks(a);
    FailuresNone(c);
    if AllPass(c) {
      assert c[0].passes && c[1].passes && c[2].passes && c[3].passes && c[6].passes && c[7].passes;
    }
  }

  lemma {:induction false} ForbiddenKeysExact(keys: set<string>, fields: seq<string>)
    ensures ForbiddenKeys(keys, fields) == [] <==> forall i :: 0 <= i < |fields| ==> fields[i] !in keys
  {
    if fields != [] {
      ForbiddenKeysExact(keys, fields[1..]);
      assert forall i :: 1 <= i < |fields| ==> fields[i] == fields[1..][i - 1];
    }
  }

  lemma ListsExact(a: Artifact)
    requires a.Artifact?
    ensures Failures(ListChecks(a)) == [] <==> GoodLists(a)
  {
    var c := ListChecks(a);
    FailuresNone(c);
    if AllPass(c) {
      assert c[0].passes && c[1].passes && c[2].passes && c[3].passes && c[4].passes;
    }
  }

  lemma LineageExact(raw: Json, lineage: LineageList)
    requires ObjectList(raw)
    ensures CoveredLineageProblems(raw, lineage) == [] <==> GoodLineage(raw, lineage)
  {
    if lineage.Items? {
      ItemsGood(lineage.items, "result_lineage");
    }
  }

  lemma AuthorityExact(v: Authority)
    ensures Failures(AuthorityChecks(v)) == [] <==> GoodAuthority(v)
  {
    var c := AuthorityChecks(v);
    FailuresNone(c);
    if AllPass(c) {
      assert c[0].passes;
      assert v.Authority? ==> c[1].passes && c[2].passes && c[3].passes && c[4].passes;
    }
  }

  lemma StagesPass(s: Stages, code: string, at: string)
    ensures AllPass(StageChecks(s, code, at)) <==> s.AllFalse()
  {
    var c := StageChecks(s, code, at);
    if AllPass(c) {
      assert c[0].passes && c[1].passes && c[2].passes && c[3].passes && c[4].passes;
    }
  }

  lemma LimitsPass(l: LimitValues)
    ensures AllPass(LimitChecks(l)) <==> GoodLimits(l)
  {
    var c := LimitChecks(l);
    if AllPass(c) {
      assert c[0].passes;
      assert l.LimitValues? ==> c[1].passes && c[2].passes;
    }
  }

  /** A short list of checks reports nothing when each passes. */
  lemma FewPass(c: seq<Check>)
    requires |c| <= 3
    ensures Failures(c) == [] <==>
              (|c| > 0 ==> c[0].passes) && (|c| > 1 ==> c[1].passes) && (|c| > 2 ==> c[2].passes)
  {
    FailuresNone(c);
  }

  lemma MetadataExact(m: Metadata, raw: Json)
    ensures MetadataProblems(m, raw) == [] <==> GoodMetadata(m, raw)
  {
    if m.Metadata? {
      var head, tail := MergeHeadChecks(m), SkippedChecks(m);
      var stages := StageChecks(m.derived, "merge_derived_stage_not_allowed", "merge_metadata");
      FewPass(head);
      FewPass(CountChecks(m, raw));
      FewPass(tail);
      LimitsPass(m.limits);
      FailuresNone(LimitChecks(m.limits));
      StagesPass(m.derived, "merge_derived_stage_not_allowed", "merge_metadata");
      FailuresNone(stages);
      FiveEmpty(Failures(head), Failures(LimitChecks(m.limits)), Failures(CountChecks(m, raw)), Failures(stages),
                Failures(tail));
    }
  }

  lemma FiveEmpty(a: seq<Problem>, b: seq<Problem>, c: seq<Problem>, d: seq<Problem>, e: seq<Problem>)
    ensures a + b + c + d + e == [] <==> a == [] && b == [] && c == [] && d == [] && e == []
  {
    assert |a + b + c + d + e| == |a| + |b| + |c| + |d| + |e|;
  }

  lemma ProvenancePass(p: Provenance)
    requires p.Provenance?
    ensures AllPass(ProvenanceChecks(p)) <==>
              && p.contractStage == Str("pre_provider_integration") && IsFalse(p.executionAllowed)
              && p.provider.AllFalse() && (p.receiptRefs == Null || TextItems(p.receiptRefs))
  {
    var c := ProvenanceChecks(p);
    if AllPass(c) {
      assert c[0].passes && c[1].passes && c[2].passes && c[3].passes;
      assert c[4].passes && c[5].passes && c[6].passes && c[7].passes;
    }
  }

  lemma ProvenanceExact(p: Provenance)
    ensures ProvenanceProblems(p) == [] <==> GoodProvenance(p)
  {
    if p.Provenance? {
      ProvenancePass(p);
      FailuresNone(ProvenanceChecks(p));
      StagesPass(p.derived, "provider_stage_flag_not_allowed", "provenance");
      FailuresNone(StageChecks(p.derived, "provider_stage_flag_not_allowed", "provenance"));
    }
  }

  lemma ThreeEmpty(a: seq<Problem>, b: seq<Problem>, c: seq<Problem>)
    ensures a + b + c == [] <==> a == [] && b == [] && c == []
  {
    assert |a + b + c| == |a| + |b| + |c|;
  }

  lemma FieldsExact(a: Artifact)
    requires a.Artifact?
    ensures FieldProblems(a) == [] <==> GoodHead(a) && NoForbiddenKey(a.otherKeys) && GoodLists(a)
  {
    HeadExact(a);
    ForbiddenKeysExact(a.otherKeys, FORBIDDEN_TOP_LEVEL_FIELDS);
    ListsExact(a);
    ThreeEmpty(Failures(HeadChecks(a)), ForbiddenKeys(a.otherKeys, FORBIDDEN_TOP_LEVEL_FIELDS),
               Failures(ListChecks(a)));
  }

  lemma NestedExact(a: Artifact)
    requires a.Artifact?
    ensures NestedProblems(a) == [] <==>
              GoodAuthority(a.authority) && GoodMetadata(a.metadata, a.rawResults) && GoodProvenance(a.provenance)
  {
    AuthorityExact(a.authority);
    MetadataExact(a.metadata, a.rawResults);
    ProvenanceExact(a.provenance);
    ThreeEmpty(Failures(AuthorityChecks(a.authority)), MetadataProblems(a.metadata, a.rawResults),
               ProvenanceProblems(a.provenance));
  }

  /** The validator reports no error exactly for the valid result sets. */
  lemma ProblemsExact(a: Artifact)
    ensures Problems(a) == [] <==> Valid(a)
  {
    if a.Artifact? {
      FieldsExact(a);
      if GoodLists(a) {
        LineageExact(a.rawResults, a.lineage);
      }
      NestedExact(a);
      ThreeEmpty(FieldProblems(a), CoveredLineageProblems(a.rawResults, a.lineage), NestedProblems(a));
    }
  }

  method AppendForbiddenKeys(keys: set<string>, fields: seq<string>, errors: seq<Problem>)
    returns (all: seq<Problem>)
    ensures all == errors + ForbiddenKeys(keys, fields)
  {
    all := errors;
    for i := 0 to |fields|
      invariant all + ForbiddenKeys(keys, fields[i..]) == errors + ForbiddenKeys(keys, fields)
    {
      if fields[i] in keys {
        all := all + [Problem("derived_or_provider_field_not_allowed", fields[i])];
      }
    }
  }

  method ReportMetadata(m: Metadata, raw: Json) returns (found: seq<Problem>)
    ensures found == MetadataProblems(m, raw)
  {
    match m
    case NoMetadata => found := [];
    case BadMetadata => found := [Problem("invalid_merge_metadata", "merge_metadata")];
    case Metadata(_, _, _, _, _, _, _, _, _) =>
      found := AppendFailures(MergeHeadChecks(m), []);
      found := AppendFailures(LimitChecks(m.limits), found);
      found := AppendFailures(CountChecks(m, raw), found);
      found := AppendFailures(StageChecks(m.derived, "merge_derived_stage_not_allowed", "merge_metadata"), found);
      found := AppendFailures(SkippedChecks(m), found);
  }

  method ReportProvenance(p: Provenance) returns (found: seq<Problem>)
    ensures found == ProvenanceProblems(p)
  {
    if p.BadProvenance? {
      found := [Problem("invalid_provenance", "provenance")];
    } else {
      found := AppendFailures(ProvenanceChecks(p), []);
      found := AppendFailures(StageChecks(p.derived, "provider_stage_flag_not_allowed", "provenance"), found);
    }
  }

  method ReportFields(a: Artifact) returns (found: seq<Problem>)
    requires a.Artifact?
    ensures found == FieldProblems(a)
  {
    found := AppendFailures(HeadChecks(a), []);
    found := AppendForbiddenKeys(a.otherKeys, FORBIDDEN_TOP_LEVEL_FIELDS, found);
    found := AppendFailures(ListChecks(a), found);
  }

  method ReportNested(a: Artifact) returns (found: seq<Problem>)
    requires a.Artifact?
    ensures found == NestedProblems(a)
  {
    found := AppendFailures(AuthorityChecks(a.authority), []);
    var metadata := ReportMetadata(a.metadata, a.rawResults);
    var provenance := ReportProvenance(a.provenance);
    found := found + metadata + provenance;
  }

  /** `validate_external_search_result_set`: it accepts exactly the valid result sets. */
  method ValidateResultSet(a: Artifact) returns (errors: seq<Problem>)
    ensures errors == Problems(a)
    ensures errors == [] <==> Valid(a)
  {
    ProblemsExact(a);
    if a.NotAnArtifact? {
      return [Problem("invalid_external_search_result_artifact", "artifact")];
    }
    var fields := ReportFields(a);
    var lineage := ValidateLineage(a.lineage, "result_lineage", false);
    var nested := ReportNested(a);
    errors := fields + (lineage + CoverageProblems(a.rawResults, a.lineage)) + nested;
  }
}
