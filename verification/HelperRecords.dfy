/** The record the helper check returns (`_diagnostic` of runtime/governance/helper_purity.py). */
module HelperRecords {
  import opened HelperPurity
  import opened JsonValues
  import opened Records
  import opened SubstrateBoundary
  import opened Text
  import opened ValidatorSupport
  import opened VisibilityIsolation
  import opened Wrappers

  const HELPER_PURITY_CONTRACT_ID := "helper_semantic_purity_v1"
  const HELPER_DIAGNOSTIC_TYPE := "helper_semantic_purity_diagnostic"

  function HelperHead(r: Request, source: string, allowed: bool): seq<Field> {
    [ Field("contract_id", Str(HELPER_PURITY_CONTRACT_ID)),
      Field("diagnostic_type", Str(HELPER_DIAGNOSTIC_TYPE)),
      Field("source", Str(if Blank(source) then "helper_purity" else Strip(source))),
      Field("helper_name", TextOrNull(SafeText(r.helperName))),
      Field("input_substrate", TextOrNull(r.Input())),
      Field("output_substrate", TextOrNull(r.Output())),
      Field("interaction_type", TextOrNull(r.Interaction())),
      Field("allowed", Bool(allowed)) ]
  }

  function HelperFlags(allowed: bool, leaked: bool): seq<Field> {
    [ Field("content_safe", Bool(true)),
      Field("observational_only", Bool(true)),
      Field("helper_semantic_authority", Bool(false)),
      Field("planner_semantic_authority", Bool(false)),
      Field("helpers_may_assist_execution", Bool(true)),
      Field("semantic_purity_preserved", Bool(allowed)),
      Field("helper_layer_cross_substrate_leakage_detected", Bool(leaked)),
      Field("hidden_helper_routing_performed", Bool(false)),
      Field("helper_derived_planner_mutation_performed", Bool(false)),
      Field("hidden_visibility_attachment_performed", Bool(false)),
      Field("hidden_governance_injection_performed", Bool(false)),
      Field("hidden_context_injection_performed", Bool(false)),
      Field("memory_write_performed", Bool(false)),
      Field("fail_closed", Bool(!allowed)) ]
  }

  function HelperOutcome(allowed: bool, blocked: seq<string>, lineage: Json): seq<Field> {
    [ Field("blocked_fields", TextList(blocked)),
      Field("skipped_reasons", TextList(if allowed then [] else ["helper_purity_violation"])),
      Field("validator_lineage", lineage),
      Field("reason", Str(if allowed then "Helper preserved semantic substrate purity."
                          else "Helper payload failed semantic purity validation.")) ]
  }

  /** The nested record of a crossing, when there is one. */
  function HelperNested(crossed: Option<Json>): seq<Field> {
    if crossed.Some? then [Field("cross_substrate_diagnostic", crossed.value)] else []
  }

  function HelperRecord(r: Request, source: string, allowed: bool, blocked: seq<string>, lineage: Json,
                        crossed: Option<Json>): Json
  {
    Obj(HelperHead(r, source, allowed)
        + HelperFlags(allowed, r.Crosses() && !allowed)
        + (HelperOutcome(allowed, blocked, lineage) + HelperNested(crossed)))
  }

  function CrossRecord(r: Request, source: string): Option<Json> {
    if r.Crosses()
    then Some(ValidateCross(source + ":cross_substrate", r.Input(), r.Output(), r.Interaction(), r.outputPayload,
                            r.contractId))
    else None
  }

  function HelperLineage(r: Request, source: string): Json {
    Lineage("runtime.governance.helper_purity", "validate_helper_purity", HELPER_PURITY_CONTRACT_ID, source,
            if r.Crosses() then ["runtime.governance.substrate_boundary"] else [])
  }

  /** `validate_helper_purity`, with its record. */
  function ValidateHelperPurity(r: Request, source: string): Json {
    HelperRecord(r, source, Allowed(r), Unique(Collected(r)), HelperLineage(r, source), CrossRecord(r, source))
  }

  const HELPER_KEYS := {
    "contract_id", "diagnostic_type", "source", "helper_name", "input_substrate", "output_substrate",
    "interaction_type", "allowed", "content_safe", "observational_only", "helper_semantic_authority",
    "helpers_may_assist_execution", "semantic_purity_preserved", "helper_layer_cross_substrate_leakage_detected",
    "hidden_helper_routing_performed", "helper_derived_planner_mutation_performed",
    "hidden_visibility_attachment_performed", "hidden_governance_injection_performed",
    "hidden_context_injection_performed", "memory_write_performed", "fail_closed", "blocked_fields",
    "skipped_reasons", "validator_lineage", "reason", "cross_substrate_diagnostic"
  }

  lemma HelperContentSpared()
    ensures Spares(CONTENT_RULE, HELPER_KEYS)
  {
  }

  lemma HelperAuthoritySpared()
    ensures Spares(SEMANTIC_RULE, HELPER_KEYS)
  {
  }

  lemma HelperHeadShape(r: Request, source: string, allowed: bool, rule: Rule)
    requires Spares(rule, HELPER_KEYS)
    ensures var head := HelperHead(r, source, allowed);
            && Unwatched(head) && QuietAll(head, rule)
            && FirstAt(head, 1, Field("diagnostic_type", Str(HELPER_DIAGNOSTIC_TYPE)))
  {
  }

  lemma HelperFlagsQuiet(allowed: bool, leaked: bool, rule: Rule)
    requires Spares(rule, HELPER_KEYS)
    ensures QuietAll(HelperFlags(allowed, leaked), rule)
  {
  }

  lemma HelperFlagsAreDiagnostic(allowed: bool, leaked: bool)
    ensures DiagnosticFlags(HelperFlags(allowed, leaked))
  {
    var flags := HelperFlags(allowed, leaked);
    assert FirstAt(flags, 1, Field("observational_only", Bool(true)));
    assert FirstAt(flags, 11, Field("hidden_context_injection_performed", Bool(false)));
    assert FirstAt(flags, 3, Field("planner_semantic_authority", Bool(false)));
  }

  lemma HelperOutcomeShape(allowed: bool, blocked: seq<string>, lineage: Json, rule: Rule)
    requires Spares(rule, HELPER_KEYS) && Quiet(lineage, rule)
    ensures var outcome := HelperOutcome(allowed, blocked, lineage);
            Unwatched(outcome) && QuietAll(outcome, rule)
  {
    TextListQuiet(blocked, rule);
    TextListQuiet(if allowed then [] else ["helper_purity_violation"], rule);
  }

  lemma HelperNestedShape(crossed: Option<Json>, rule: Rule)
    requires Spares(rule, HELPER_KEYS)
    requires crossed.Some? ==> Quiet(crossed.value, rule)
    ensures Unwatched(HelperNested(crossed)) && QuietAll(HelperNested(crossed), rule)
  {
  }

  lemma JoinShapes(a: seq<Field>, b: seq<Field>, rule: Rule)
    requires Unwatched(a) && QuietAll(a, rule) && Unwatched(b) && QuietAll(b, rule)
    ensures Unwatched(a + b) && QuietAll(a + b, rule)
  {
  }

  function HelperTail(allowed: bool, blocked: seq<string>, lineage: Json, crossed: Option<Json>): seq<Field> {
    HelperOutcome(allowed, blocked, lineage) + HelperNested(crossed)
  }

  lemma HelperTailShape(allowed: bool, blocked: seq<string>, lineage: Json, crossed: Option<Json>, rule: Rule)
    requires Spares(rule, HELPER_KEYS) && Quiet(lineage, rule)
    requires crossed.Some? ==> Quiet(crossed.value, rule)
    ensures var tail := HelperTail(allowed, blocked, lineage, crossed);
            Unwatched(tail) && QuietAll(tail, rule)
  {
    HelperOutcomeShape(allowed, blocked, lineage, rule);
    HelperNestedShape(crossed, rule);
    JoinShapes(HelperOutcome(allowed, blocked, lineage), HelperNested(crossed), rule);
  }

  /** The three parts of a record under either rule. */
  lemma HelperShape(r: Request, source: string, allowed: bool, blocked: seq<string>, lineage: Json,
                    crossed: Option<Json>, rule: Rule)
    requires Spares(rule, HELPER_KEYS) && Quiet(lineage, rule)
    requires crossed.Some? ==> Quiet(crossed.value, rule)
    ensures Shaped(HelperHead(r, source, allowed), HelperFlags(allowed, r.Crosses() && !allowed),
                   HelperTail(allowed, blocked, lineage, crossed), HELPER_DIAGNOSTIC_TYPE, rule)
  {
    HelperHeadShape(r, source, allowed, rule);
    HelperFlagsQuiet(allowed, r.Crosses() && !allowed, rule);
    HelperTailShape(allowed, blocked, lineage, crossed, rule);
  }

  /** The parts of the record that come from other checks are quiet under both rules. */
  ghost predicate QuietParts(lineage: Json, crossed: Option<Json>) {
    && Quiet(lineage, CONTENT_RULE) && Quiet(lineage, SEMANTIC_RULE)
    && (crossed.Some? ==> Quiet(crossed.value, CONTENT_RULE) && Quiet(crossed.value, SEMANTIC_RULE))
  }

  lemma HelperShapes(r: Request, source: string, allowed: bool, blocked: seq<string>, lineage: Json,
                     crossed: Option<Json>)
    ensures var head, flags, tail := HelperHead(r, source, allowed), HelperFlags(allowed, r.Crosses() && !allowed),
              HelperTail(allowed, blocked, lineage, crossed);
            QuietParts(lineage, crossed) ==>
              && Shaped(head, flags, tail, HELPER_DIAGNOSTIC_TYPE, CONTENT_RULE)
              && Shaped(head, flags, tail, HELPER_DIAGNOSTIC_TYPE, SEMANTIC_RULE)
  {
    if QuietParts(lineage, crossed) {
      HelperContentSpared();
      HelperAuthoritySpared();
      HelperShape(r, source, allowed, blocked, lineage, crossed, CONTENT_RULE);
      HelperShape(r, source, allowed, blocked, lineage, crossed, SEMANTIC_RULE);
    }
  }

  lemma HelperTypeNotBlank()
    ensures !Blank(HELPER_DIAGNOSTIC_TYPE)
  {
    NotBlankAt(HELPER_DIAGNOSTIC_TYPE, 0);
  }

  lemma HelperRecordIsCleanDiagnostic(r: Request, source: string, allowed: bool, blocked: seq<string>, lineage: Json,
                                      crossed: Option<Json>)
    ensures QuietParts(lineage, crossed) ==>
              CleanDiagnostic(HelperRecord(r, source, allowed, blocked, lineage, crossed))
  {
    HelperShapes(r, source, allowed, blocked, lineage, crossed);
    HelperFlagsAreDiagnostic(allowed, r.Crosses() && !allowed);
    HelperTypeNotBlank();
    if QuietParts(lineage, crossed) {
      ShapedRecordClean(HelperHead(r, source, allowed), HelperFlags(allowed, r.Crosses() && !allowed),
                        HelperTail(allowed, blocked, lineage, crossed), HELPER_DIAGNOSTIC_TYPE);
    }
  }

  lemma HelperLineageQuiet(r: Request, source: string)
    ensures Quiet(HelperLineage(r, source), CONTENT_RULE) && Quiet(HelperLineage(r, source), SEMANTIC_RULE)
  {
    var children := if r.Crosses() then ["runtime.governance.substrate_boundary"] else [];
    LineageContentSpared();
    LineageAuthoritySpared();
    LineageQuiet("runtime.governance.helper_purity", "validate_helper_purity", HELPER_PURITY_CONTRACT_ID, source,
                 children, CONTENT_RULE);
    LineageQuiet("runtime.governance.helper_purity", "validate_helper_purity", HELPER_PURITY_CONTRACT_ID, source,
                 children, SEMANTIC_RULE);
  }

  lemma CrossRecordQuiet(r: Request, source: string)
    requires r.Crosses()
    ensures var crossed := CrossRecord(r, source).value;
            Quiet(crossed, CONTENT_RULE) && Quiet(crossed, SEMANTIC_RULE)
  {
    RecordsPassSurfaceValidator(source + ":cross_substrate", r.Input(), r.Output(), r.Interaction(),
                                r.outputPayload, r.contractId);
    DiagnosticCleanIff(CrossRecord(r, source).value);
  }

  lemma HelperPartsQuiet(r: Request, source: string)
    ensures QuietParts(HelperLineage(r, source), CrossRecord(r, source))
  {
    HelperLineageQuiet(r, source);
    if r.Crosses() {
      CrossRecordQuiet(r, source);
    }
  }

  /**
   Checker closure: for every request, allowed or not, the record of the helper check,
   nested crossing included, passes the diagnostic surface validator.
   */
  lemma HelperRecordPassesSurfaceValidator(r: Request, source: string)
    ensures DiagnosticViolations(ValidateHelperPurity(r, source)) == []
  {
    HelperPartsQuiet(r, source);
    HelperRecordIsCleanDiagnostic(r, source, Allowed(r), Unique(Collected(r)), HelperLineage(r, source),
                                  CrossRecord(r, source));
    DiagnosticCleanIff(ValidateHelperPurity(r, source));
  }
}
