/** Surface and attachment validators (runtime/governance/visibility_isolation.py). */
module VisibilityIsolation {
  import opened BoundaryTerms
  import opened JsonValues
  import opened Positions
  import opened Text
  import opened ValidatorSupport
  import opened Wrappers

  const SEMANTIC_RULE := Rule(SEMANTIC_AUTHORITY_FIELDS, false,
                              {"memory_write_allowed", "memory_writes_allowed", "planner_semantic_authority"}, true)

  const CONTENT_RULE := Rule(FORBIDDEN_CONTENT_FIELDS, false, {}, false)

  // `sorted(_MUTATION_FLAGS)`.
  const MUTATION_FLAGS := [
    "artifact_mutation_performed", "candidate_mutation_performed", "db_write_performed",
    "governance_state_mutation_performed", "memory_write_performed", "workflow_state_mutation_performed"
  ]

  /** `_safe_text`. */
  function SafeText(v: Json): Option<string> {
    if v.Str? then SafeString(v.s) else None
  }

  function Unless(ok: bool, field: string): seq<string> {
    if ok then [] else [field]
  }

  predicate FlagClear(payload: Json, flag: string)
    requires payload.Obj?
  {
    !HasKey(payload.fields, flag) || Get(payload, flag) == Bool(false)
  }

  function FlagViolations(payload: Json, flags: seq<string>): seq<string>
    requires payload.Obj?
  {
    if flags == [] then []
    else Unless(FlagClear(payload, flags[0]), flags[0]) + FlagViolations(payload, flags[1..])
  }

  /** `validate_operator_visibility_surface`: the violations before de-duplication. */
  function VisibilityViolations(payload: Json): seq<string> {
    if !payload.Obj? then ["payload"]
    else
      Unless(SafeText(Get(payload, "visibility_type")).Some?, "visibility_type")
      + Unless(Get(payload, "content_safe") == Bool(true), "content_safe")
      + Unless(Get(payload, "semantic_reinterpretation_performed") == Bool(false),
               "semantic_reinterpretation_performed")
      + MatchingPaths(payload, CONTENT_RULE, "")
      + MatchingPaths(payload, SEMANTIC_RULE, "")
  }

  /** `validate_diagnostic_visibility_surface`: the violations before de-duplication. */
  function DiagnosticViolations(payload: Json): seq<string> {
    if !payload.Obj? then ["payload"]
    else
      Unless(SafeText(Get(payload, "diagnostic_type")).Some?, "diagnostic_type")
      + Unless(Get(payload, "observational_only") == Bool(true), "observational_only")
      + Unless(Get(payload, "hidden_context_injection_performed") == Bool(false),
               "hidden_context_injection_performed")
      + Unless(Get(payload, "planner_semantic_authority") == Bool(false), "planner_semantic_authority")
      + FlagViolations(payload, MUTATION_FLAGS)
      + MatchingPaths(payload, CONTENT_RULE, "")
      + MatchingPaths(payload, SEMANTIC_RULE, "")
  }

  datatype SurfaceKind = DiagnosticSurface | VisibilitySurface | NoSurface

  function KindOf(payload: Json): SurfaceKind {
    if SafeText(Get(payload, "diagnostic_type")).Some? then DiagnosticSurface
    else if SafeText(Get(payload, "visibility_type")).Some? then VisibilitySurface
    else NoSurface
  }

  function TargetId(target: string): string {
    if Blank(target) then "unknown" else Strip(target)
  }

  function ViolationsAt(payload: Json, id: string): seq<string> {
    Unless(id !in FORBIDDEN_ATTACHMENT_TARGETS, id)
    + match KindOf(payload)
      case DiagnosticSurface =>
        Unless(id in ALLOWED_DIAGNOSTIC_ATTACHMENT_TARGETS, id) + Unique(DiagnosticViolations(payload))
      case VisibilitySurface =>
        Unless(id in ALLOWED_VISIBILITY_ATTACHMENT_TARGETS, id) + Unique(VisibilityViolations(payload))
      case NoSurface => ["payload", "payload"]
  }

  /** `validate_visibility_attachment`: the violations before de-duplication. */
  function AttachmentViolations(payload: Json, target: string): seq<string> {
    ViolationsAt(payload, TargetId(target))
  }

  /** `assert_visibility_attachment_allowed` does not raise. */
  predicate AttachmentAllowed(payload: Json, target: string) {
    AttachmentViolations(payload, target) == []
  }

  /** No key of the rule is reported anywhere inside `v`. */
  ghost predicate Quiet(v: Json, rule: Rule) {
    match v
    case Obj(fs) => forall i :: 0 <= i < |fs| ==> QuietField(fs[i], rule)
    case Arr(_, items) => Enters(v, rule.tuples) ==> forall i :: 0 <= i < |items| ==> Quiet(items[i], rule)
    case _ => true
  }

  ghost predicate QuietField(f: Field, rule: Rule) {
    !rule.Flags(f.key, f.value) && Quiet(f.value, rule)
  }

  ghost predicate QuietEach(items: seq<Json>, rule: Rule) {
    forall i :: 0 <= i < |items| ==> Quiet(items[i], rule)
  }

  lemma {:induction false} QuietIffNoPaths(v: Json, rule: Rule, prefix: string)
    ensures Quiet(v, rule) <==> MatchingPaths(v, rule, prefix) == []
    decreases v, 1
  {
    match v
    case Obj(fs) => QuietFields(fs, rule, prefix);
    case Arr(_, items) => QuietItems(items, rule, prefix);
    case _ =>
  }

  lemma {:induction false} QuietFields(fs: seq<Field>, rule: Rule, prefix: string)
    ensures (forall i :: 0 <= i < |fs| ==> QuietField(fs[i], rule)) <==> FieldPaths(fs, rule, prefix) == []
    decreases fs, 0
  {
    if fs != [] {
      var init, last := fs[..|fs| - 1], fs[|fs| - 1];
      QuietFields(init, rule, prefix);
      assert last.value < last;
      QuietIffNoPaths(last.value, rule, Extend(prefix, Key(last.key)));
      assert forall i :: 0 <= i < |init| ==> init[i] == fs[i];
    }
  }

  lemma {:induction false} QuietItems(items: seq<Json>, rule: Rule, prefix: string)
    ensures QuietEach(items, rule) <==> ItemPaths(items, rule, prefix) == []
    decreases items, 0
  {
    if items != [] {
      var n := |items| - 1;
      QuietItems(items[..n], rule, prefix);
      QuietIffNoPaths(items[n], rule, Extend(prefix, Index(n)));
      QuietSnoc(items, rule);
    }
  }

  lemma QuietSnoc(items: seq<Json>, rule: Rule)
    requires items != []
    ensures QuietEach(items, rule) <==> QuietEach(items[..|items| - 1], rule) && Quiet(items[|items| - 1], rule)
  {
    var n := |items| - 1;
    assert forall i :: 0 <= i < n ==> items[..n][i] == items[i];
  }

  /** The flags a diagnostic may only carry as False. */
  ghost predicate FlagsFalse(payload: Json) {
    payload.Obj? && forall f :: f in MUTATION_FLAGS && HasKey(payload.fields, f) ==> Get(payload, f) == Bool(false)
  }

  lemma {:induction false} FlagsClear(payload: Json, flags: seq<string>)
    requires payload.Obj?
    ensures FlagViolations(payload, flags) == [] <==>
              forall f :: f in flags && HasKey(payload.fields, f) ==> Get(payload, f) == Bool(false)
  {
    if flags != [] {
      FlagsClear(payload, flags[1..]);
      assert flags == [flags[0]] + flags[1..];
    }
  }

  ghost predicate CleanDiagnostic(payload: Json) {
    && payload.Obj?
    && SafeText(Get(payload, "diagnostic_type")).Some?
    && Get(payload, "observational_only") == Bool(true)
    && Get(payload, "hidden_context_injection_performed") == Bool(false)
    && Get(payload, "planner_semantic_authority") == Bool(false)
    && FlagsFalse(payload)
    && Quiet(payload, CONTENT_RULE) && Quiet(payload, SEMANTIC_RULE)
  }

  ghost predicate CleanVisibility(payload: Json) {
    && payload.Obj?
    && SafeText(Get(payload, "visibility_type")).Some?
    && Get(payload, "content_safe") == Bool(true)
    && Get(payload, "semantic_reinterpretation_performed") == Bool(false)
    && Quiet(payload, CONTENT_RULE) && Quiet(payload, SEMANTIC_RULE)
  }

  /** The diagnostic validator accepts exactly the clean diagnostics. */
  lemma DiagnosticCleanIff(payload: Json)
    ensures DiagnosticViolations(payload) == [] <==> CleanDiagnostic(payload)
  {
    if payload.Obj? {
      QuietIffNoPaths(payload, CONTENT_RULE, "");
      QuietIffNoPaths(payload, SEMANTIC_RULE, "");
      FlagsClear(payload, MUTATION_FLAGS);
    }
  }

  /** The visibility validator accepts exactly the clean surfaces. */
  lemma VisibilityCleanIff(payload: Json)
    ensures VisibilityViolations(payload) == [] <==> CleanVisibility(payload)
  {
    if payload.Obj? {
      QuietIffNoPaths(payload, CONTENT_RULE, "");
      QuietIffNoPaths(payload, SEMANTIC_RULE, "");
    }
  }

  method AppendUnless(ok: bool, field: string, blocked: seq<string>) returns (all: seq<string>)
    ensures all == blocked + Unless(ok, field)
  {
    all := blocked;
    if !ok {
      all := all + [field];
    }
  }

  method AppendFlags(payload: Json, flags: seq<string>, blocked: seq<string>) returns (all: seq<string>)
    requires payload.Obj?
    ensures all == blocked + FlagViolations(payload, flags)
  {
    all := blocked;
    for i := 0 to |flags|
      invariant all + FlagViolations(payload, flags[i..]) == blocked + FlagViolations(payload, flags)
    {
      all := AppendUnless(FlagClear(payload, flags[i]), flags[i], all);
    }
  }

  method CollectVisibility(payload: Json) returns (blocked: seq<string>)
    ensures blocked == VisibilityViolations(payload)
  {
    if !payload.Obj? {
      return ["payload"];
    }
    blocked := AppendUnless(SafeText(Get(payload, "visibility_type")).Some?, "visibility_type", []);
    blocked := AppendUnless(Get(payload, "content_safe") == Bool(true), "content_safe", blocked);
    blocked := AppendUnless(Get(payload, "semantic_reinterpretation_performed") == Bool(false),
                            "semantic_reinterpretation_performed", blocked);
    var content := FindMatchingPaths(payload, CONTENT_RULE, "");
    var authority := FindMatchingPaths(payload, SEMANTIC_RULE, "");
    blocked := blocked + content + authority;
  }

  method CheckDiagnosticHead(payload: Json) returns (blocked: seq<string>)
    requires payload.Obj?
    ensures blocked == Unless(SafeText(Get(payload, "diagnostic_type")).Some?, "diagnostic_type")
                       + Unless(Get(payload, "observational_only") == Bool(true), "observational_only")
                       + Unless(Get(payload, "hidden_context_injection_performed") == Bool(false),
                                "hidden_context_injection_performed")
                       + Unless(Get(payload, "planner_semantic_authority") == Bool(false), "planner_semantic_authority")
  {
    blocked := AppendUnless(SafeText(Get(payload, "diagnostic_type")).Some?, "diagnostic_type", []);
    blocked := AppendUnless(Get(payload, "observational_only") == Bool(true), "observational_only", blocked);
    blocked := AppendUnless(Get(payload, "hidden_context_injection_performed") == Bool(false),
                            "hidden_context_injection_performed", blocked);
    blocked := AppendUnless(Get(payload, "planner_semantic_authority") == Bool(false), "planner_semantic_authority",
                            blocked);
  }

  method CollectDiagnostic(payload: Json) returns (blocked: seq<string>)
    ensures blocked == DiagnosticViolations(payload)
  {
    if !payload.Obj? {
      return ["payload"];
    }
    blocked := CheckDiagnosticHead(payload);
    blocked := AppendFlags(payload, MUTATION_FLAGS, blocked);
    var content := FindMatchingPaths(payload, CONTENT_RULE, "");
    var authority := FindMatchingPaths(payload, SEMANTIC_RULE, "");
    blocked := blocked + content + authority;
  }

  /** `validate_operator_visibility_surface`: it accepts exactly the clean surfaces. */
  method CheckVisibilitySurface(payload: Json) returns (blocked: seq<string>)
    ensures blocked == VisibilityViolations(payload)
    ensures blocked == [] <==> CleanVisibility(payload)
  {
    VisibilityCleanIff(payload);
    blocked := CollectVisibility(payload);
  }

  /** `validate_diagnostic_visibility_surface`: it accepts exactly the clean diagnostics. */
  method CheckDiagnosticSurface(payload: Json) returns (blocked: seq<string>)
    ensures blocked == DiagnosticViolations(payload)
    ensures blocked == [] <==> CleanDiagnostic(payload)
  {
    DiagnosticCleanIff(payload);
    blocked := CollectDiagnostic(payload);
  }
}
