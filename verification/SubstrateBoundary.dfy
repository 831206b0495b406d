/** Cross-substrate checks and their records (runtime/governance/substrate_boundary.py). */
module SubstrateBoundary {
  import opened BoundaryTerms
  import opened JsonValues
  import opened Positions
  import opened Records
  import opened Text
  import opened ValidatorSupport
  import opened VisibilityIsolation
  import opened Wrappers

  const CROSS_SUBSTRATE_CONTRACT_ID := "cross_substrate_interaction_contract_v1"

  const ALLOWED_INFLUENCE_DIRECTIONS := {
    ("governance", "retrieval", "execution_constraint"),
    ("governance", "workflow", "execution_constraint"),
    ("workflow", "retrieval", "explicit_lookup_request"),
    ("retrieval", "workflow", "explicit_retrieval_provenance"),
    ("retrieval", "visibility", "observational_diagnostic"),
    ("workflow", "visibility", "observational_diagnostic"),
    ("governance", "visibility", "observational_diagnostic")
  }

  function FalseExcused(fields: set<string>): Rule {
    Rule(fields, true, {}, true)
  }

  function Strict(fields: set<string>): Rule {
    Rule(fields, false, {}, true)
  }

  const AUTHORITY_RULE := Rule(SEMANTIC_AUTHORITY_FIELDS, false, {"planner_semantic_authority"}, true)

  // The top-level flags a payload may not set to True.
  const TOP_LEVEL_FLAGS := [
    "semantic_reinterpretation_performed", "cross_substrate_planner_mutation_performed",
    "implicit_substrate_inheritance_performed", "hidden_orchestration_performed"
  ]

  predicate NotRaised(payload: Json, flag: string) {
    Get(payload, flag) != Bool(true)
  }

  function TrueFlags(payload: Json, flags: seq<string>): seq<string> {
    if flags == [] then []
    else Unless(NotRaised(payload, flags[0]), flags[0]) + TrueFlags(payload, flags[1..])
  }

  /** The state fields of the substrates that take no part in the interaction. */
  function ForeignStatePaths(payload: Json, source: Option<string>, target: Option<string>,
                             substrates: seq<string>): seq<string>
  {
    if substrates == [] then []
    else
      (if Some(substrates[0]) in {source, target} then []
       else MatchingPaths(payload, Strict(SubstrateStateFields(substrates[0])), ""))
      + ForeignStatePaths(payload, source, target, substrates[1..])
  }

  /** `_payload_boundary_violations`. */
  function PayloadViolations(payload: Json, source: Option<string>, target: Option<string>): seq<string> {
    if payload == Null then []
    else if !payload.Obj? then ["payload"]
    else
      TrueFlags(payload, TOP_LEVEL_FLAGS)
      + MatchingPaths(payload, FalseExcused(MEMORY_FIELDS), "")
      + MatchingPaths(payload, FalseExcused(AUTONOMY_FIELDS), "")
      + MatchingPaths(payload, FalseExcused(MUTATION_FIELDS), "")
      + (if target in {Some("visibility"), None} then [] else MatchingPaths(payload, AUTHORITY_RULE, ""))
      + (if target == Some("visibility") then [] else ForeignStatePaths(payload, source, target, STATE_SUBSTRATES))
  }

  /** `_visibility_surface_violations`. */
  function SurfaceViolations(payload: Json): seq<string> {
    if !payload.Obj? then ["payload"]
    else if SafeText(Get(payload, "diagnostic_type")).Some?
    then Prefixed("visibility.", Unique(DiagnosticViolations(payload)))
    else Prefixed("visibility.", Unique(VisibilityViolations(payload)))
  }

  predicate Known(id: Option<string>) {
    id.Some? && id.value in SUBSTRATES
  }

  function OrEmpty(id: Option<string>): string {
    if id.Some? then id.value else ""
  }

  /** `validate_cross_substrate_interaction`: the violations before de-duplication. */
  function CrossViolations(source: Option<string>, target: Option<string>, interaction: Option<string>,
                           payload: Json, contractId: Json): seq<string>
  {
    Unless(Known(source), "source_substrate")
    + Unless(Known(target), "target_substrate")
    + Unless(!(source == target && source.Some?), "target_substrate")
    + Unless(contractId == Str(CROSS_SUBSTRATE_CONTRACT_ID), "explicit_contract_id")
    + Unless((OrEmpty(source), OrEmpty(target), OrEmpty(interaction)) in ALLOWED_INFLUENCE_DIRECTIONS,
             "allowed_influence_direction")
    + PayloadViolations(payload, source, target)
    + (if target == Some("visibility") && interaction == Some("observational_diagnostic")
       then SurfaceViolations(payload) else [])
  }

  function RecordHead(source: string, allowed: bool, sourceId: Option<string>, targetId: Option<string>,
                      interaction: Option<string>): seq<Field>
  {
    [ Field("contract_id", Str(CROSS_SUBSTRATE_CONTRACT_ID)),
      Field("diagnostic_type", Str("cross_substrate_boundary_diagnostic")),
      Field("source", Str(if Blank(source) then "cross_substrate_boundary" else Strip(source))),
      Field("allowed", Bool(allowed)),
      Field("source_substrate", TextOrNull(sourceId)),
      Field("target_substrate", TextOrNull(targetId)),
      Field("interaction_type", TextOrNull(interaction)) ]
  }

  const RECORD_FLAGS := [
    Field("content_safe", Bool(true)),
    Field("observational_only", Bool(true)),
    Field("explicit_interaction", Bool(true)),
    Field("auditable", Bool(true)),
    Field("planner_semantic_authority", Bool(false)),
    Field("semantic_reinterpretation_performed", Bool(false)),
    Field("cross_substrate_planner_mutation_performed", Bool(false)),
    Field("implicit_substrate_inheritance_performed", Bool(false)),
    Field("hidden_orchestration_performed", Bool(false)),
    Field("hidden_context_injection_performed", Bool(false)),
    Field("memory_write_performed", Bool(false)),
    Field("hidden_autonomy_escalation_performed", Bool(false))
  ]

  function RecordTail(allowed: bool, blocked: seq<string>, prohibited: seq<string>, lineage: Json, reason: string)
    : seq<Field>
  {
    [ Field("blocked_fields", TextList(blocked)),
      Field("prohibited_implicit_coupling_paths", TextList(prohibited)),
      Field("skipped_reasons", TextList(if allowed then [] else ["substrate_boundary_violation"])),
      Field("validator_lineage", lineage),
      Field("reason", Str(reason)) ]
  }

  /** The record that both validators of this module return (`_diagnostic`). */
  function Record(source: string, allowed: bool, sourceId: Option<string>, targetId: Option<string>,
                  interaction: Option<string>, blocked: seq<string>, prohibited: seq<string>, lineage: Json,
                  reason: string): Json
  {
    Obj(RecordHead(source, allowed, sourceId, targetId, interaction)
        + RECORD_FLAGS
        + RecordTail(allowed, blocked, prohibited, lineage, reason))
  }

  const RECORD_KEYS := {
    "contract_id", "diagnostic_type", "source", "allowed", "source_substrate", "target_substrate",
    "interaction_type", "content_safe", "observational_only", "explicit_interaction", "auditable",
    "semantic_reinterpretation_performed", "cross_substrate_planner_mutation_performed",
    "implicit_substrate_inheritance_performed", "hidden_orchestration_performed",
    "hidden_context_injection_performed", "memory_write_performed", "hidden_autonomy_escalation_performed",
    "blocked_fields", "prohibited_implicit_coupling_paths", "skipped_reasons", "validator_lineage", "reason"
  }

  lemma RecordContentSpared()
    ensures Spares(CONTENT_RULE, RECORD_KEYS)
  {
  }

  lemma RecordAuthoritySpared()
    ensures Spares(SEMANTIC_RULE, RECORD_KEYS)
  {
  }

  lemma FlagsQuiet(rule: Rule)
    requires Spares(rule, RECORD_KEYS)
    ensures QuietAll(RECORD_FLAGS, rule)
  {
  }

  lemma FlagsUnset(i: nat)
    requires i < |RECORD_FLAGS| && RECORD_FLAGS[i].key in MUTATION_FLAGS
    ensures RECORD_FLAGS[i].value == Bool(false)
  {
  }

  lemma FlagsAreDiagnostic()
    ensures DiagnosticFlags(RECORD_FLAGS)
  {
    forall i: nat | i < |RECORD_FLAGS| && RECORD_FLAGS[i].key in MUTATION_FLAGS
      ensures RECORD_FLAGS[i].value == Bool(false)
    {
      FlagsUnset(i);
    }
    assert FirstAt(RECORD_FLAGS, 1, Field("observational_only", Bool(true)));
    assert FirstAt(RECORD_FLAGS, 9, Field("hidden_context_injection_performed", Bool(false)));
    assert FirstAt(RECORD_FLAGS, 4, Field("planner_semantic_authority", Bool(false)));
  }

  lemma HeadShape(source: string, allowed: bool, sourceId: Option<string>, targetId: Option<string>,
                  interaction: Option<string>, rule: Rule)
    requires Spares(rule, RECORD_KEYS)
    ensures var head := RecordHead(source, allowed, sourceId, targetId, interaction);
            && Unwatched(head) && QuietAll(head, rule)
            && FirstAt(head, 1, Field("diagnostic_type", Str("cross_substrate_boundary_diagnostic")))
  {
  }

  lemma TailShape(allowed: bool, blocked: seq<string>, prohibited: seq<string>, lineage: Json, reason: string,
                  rule: Rule)
    requires Spares(rule, RECORD_KEYS) && Quiet(lineage, rule)
    ensures var tail := RecordTail(allowed, blocked, prohibited, lineage, reason);
            Unwatched(tail) && QuietAll(tail, rule)
  {
    TextListQuiet(blocked, rule);
    TextListQuiet(prohibited, rule);
    TextListQuiet(if allowed then [] else ["substrate_boundary_violation"], rule);
  }

  /** Whatever the checks found, their record passes the diagnostic surface validator. */
  lemma RecordIsCleanDiagnostic(source: string, allowed: bool, sourceId: Option<string>, targetId: Option<string>,
                                interaction: Option<string>, blocked: seq<string>, prohibited: seq<string>,
                                lineage: Json, reason: string)
    requires Quiet(lineage, CONTENT_RULE) && Quiet(lineage, SEMANTIC_RULE)
    ensures CleanDiagnostic(
              Record(source, allowed, sourceId, targetId, interaction, blocked, prohibited, lineage, reason))
  {
    RecordContentSpared();
    RecordAuthoritySpared();
    FlagsQuiet(CONTENT_RULE);
    FlagsQuiet(SEMANTIC_RULE);
    HeadShape(source, allowed, sourceId, targetId, interaction, CONTENT_RULE);
    HeadShape(source, allowed, sourceId, targetId, interaction, SEMANTIC_RULE);
    TailShape(allowed, blocked, prohibited, lineage, reason, CONTENT_RULE);
    TailShape(allowed, blocked, prohibited, lineage, reason, SEMANTIC_RULE);
    FlagsAreDiagnostic();
    NotBlankAt("cross_substrate_boundary_diagnostic", 0);
    CleanDiagnosticRecord(RecordHead(source, allowed, sourceId, targetId, interaction), RECORD_FLAGS,
                          RecordTail(allowed, blocked, prohibited, lineage, reason),
                          "cross_substrate_boundary_diagnostic");
  }

  const PROHIBITED_IMPLICIT_COUPLING_PATHS := [
    "any_to_hidden_autonomy", "any_to_memory_write", "governance_to_planner_semantic_mutation",
    "governance_to_retrieval_semantic_mutation", "governance_to_workflow_semantic_mutation",
    "retrieval_to_governance_state", "retrieval_to_visibility_content_injection",
    "retrieval_to_workflow_semantic_mutation", "retrieval_to_workflow_state_mutation",
    "visibility_to_governance_state", "visibility_to_planner_prompt", "visibility_to_retrieval_policy",
    "visibility_to_workflow_state", "workflow_to_governance_state", "workflow_to_retrieval_policy_implicit"
  ]

  /** Which of the two validators a record names, after its interaction type. */
  function ValidatorName(interaction: Option<string>): string {
    if interaction == Some("owned_payload") then "validate_substrate_boundary_payload"
    else "validate_cross_substrate_interaction"
  }

  function ChildValidators(targetId: Option<string>, interaction: Option<string>): seq<string> {
    if targetId == Some("visibility") && interaction == Some("observational_diagnostic")
    then ["runtime.governance.visibility_isolation"] else []
  }

  /** The record of a check that found `violations`. */
  function Verdict(source: string, sourceId: Option<string>, targetId: Option<string>, interaction: Option<string>,
                   violations: seq<string>): Json
  {
    var allowed := violations == [];
    Record(source, allowed, sourceId, targetId, interaction, Unique(violations),
           PROHIBITED_IMPLICIT_COUPLING_PATHS,
           Lineage("runtime.governance.substrate_boundary", ValidatorName(interaction), CROSS_SUBSTRATE_CONTRACT_ID,
                   source, ChildValidators(targetId, interaction)),
           if allowed then "Substrate interaction is allowed." else "Substrate interaction violates its contract.")
  }

  /** `validate_cross_substrate_interaction`. */
  function ValidateCross(source: string, sourceId: Option<string>, targetId: Option<string>,
                         interaction: Option<string>, payload: Json, contractId: Json): Json
  {
    Verdict(source, sourceId, targetId, interaction,
            CrossViolations(sourceId, targetId, interaction, payload, contractId))
  }

  /** `validate_substrate_boundary_payload`. */
  function ValidateOwned(payload: Json, owner: Option<string>): Json {
    Verdict("substrate_payload_boundary", owner, owner, Some("owned_payload"),
            PayloadViolations(payload, owner, owner))
  }

  lemma VerdictIsCleanDiagnostic(source: string, sourceId: Option<string>, targetId: Option<string>,
                                 interaction: Option<string>, violations: seq<string>)
    ensures CleanDiagnostic(Verdict(source, sourceId, targetId, interaction, violations))
  {
    var owner, validator := "runtime.governance.substrate_boundary", ValidatorName(interaction);
    var children := ChildValidators(targetId, interaction);
    LineageContentSpared();
    LineageAuthoritySpared();
    LineageQuiet(owner, validator, CROSS_SUBSTRATE_CONTRACT_ID, source, children, CONTENT_RULE);
    LineageQuiet(owner, validator, CROSS_SUBSTRATE_CONTRACT_ID, source, children, SEMANTIC_RULE);
    var allowed := violations == [];
    RecordIsCleanDiagnostic(
      source, allowed, sourceId, targetId, interaction, Unique(violations), PROHIBITED_IMPLICIT_COUPLING_PATHS,
      Lineage(owner, validator, CROSS_SUBSTRATE_CONTRACT_ID, source, children),
      if allowed then "Substrate interaction is allowed." else "Substrate interaction violates its contract.");
  }

  /**
   Checker closure: for every payload and request, the records of both validators pass the
   diagnostic surface validator.
   */
  lemma RecordsPassSurfaceValidator(source: string, sourceId: Option<string>, targetId: Option<string>,
                                    interaction: Option<string>, payload: Json, contractId: Json)
    ensures DiagnosticViolations(ValidateCross(source, sourceId, targetId, interaction, payload, contractId)) == []
    ensures DiagnosticViolations(ValidateOwned(payload, sourceId)) == []
  {
    var crossed := ValidateCross(source, sourceId, targetId, interaction, payload, contractId);
    var owned := ValidateOwned(payload, sourceId);
    VerdictIsCleanDiagnostic(source, sourceId, targetId, interaction,
                             CrossViolations(sourceId, targetId, interaction, payload, contractId));
    VerdictIsCleanDiagnostic("substrate_payload_boundary", sourceId, sourceId, Some("owned_payload"),
                             PayloadViolations(payload, sourceId, sourceId));
    DiagnosticCleanIff(crossed);
    DiagnosticCleanIff(owned);
  }
}
