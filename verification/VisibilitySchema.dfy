/**
 The canonical governance visibility surface: its builder, its schema check and the
 consistency record over several surfaces (runtime/governance/visibility_schema.py).
 */
module VisibilitySchema {
  import opened Attachments
  import opened BoundaryTerms
  import opened JsonValues
  import opened Positions
  import opened Records
  import opened Text
  import opened ValidatorSupport
  import opened VisibilityIsolation
  import opened Wrappers

  const GOVERNANCE_VISIBILITY_CONTRACT_ID := "governance_visibility_v1"
  const GOVERNANCE_VISIBILITY_TYPE := "operator_trust_governance_visibility"
  const CONSISTENCY_TYPE := "visibility_consistency_diagnostic"
  const GOVERNANCE_VISIBILITY_DOMAINS := {"retrieval", "workflow"}

  // `sorted(_REQUIRED_BASE_FIELDS)`.
  const BASE_FIELDS := [
    "content_safe", "operation_domain", "schema_version", "semantic_reinterpretation_performed",
    "visibility_contract_id", "visibility_type"
  ]

  const CANONICAL_GOVERNANCE_VISIBILITY_FIELDS := {
    "action_type", "adapter_id", "capability", "content_safe", "execution_allowed", "execution_performed",
    "governance_state", "injection_allowed", "lookup_execution_id", "lookup_id", "lookup_lineage_id",
    "lookup_request_id", "lookup_type", "operation_domain", "owning_agent", "prior_trust_scope_match",
    "records_returned", "render_allowed", "requires_approval", "retrieval_executed", "schema_version",
    "semantic_reinterpretation_performed", "skipped_reasons", "source_binding_id", "source_scope", "step_id",
    "trust_inheritance_boundary", "trust_lineage_type", "trust_scope_bleed_prevented", "trust_scope_key",
    "trust_state", "visibility_contract_id", "visibility_type", "workflow_id", "workflow_type"
  }

  /** `_canonical_fields` and `_without_empty`: what a caller's field must be to enter a surface. */
  predicate Kept(f: Field) {
    f.key !in BASE_FIELDS && f.value != Null && f.value != Arr(true, [])
  }

  function Extras(fields: seq<Field>): seq<Field> {
    if fields == [] then []
    else (if Kept(fields[0]) then [fields[0]] else []) + Extras(fields[1..])
  }

  /** The fields every surface starts with; a blank domain is dropped with the empty fields. */
  function BasePart(domain: string): seq<Field> {
    [ Field("visibility_contract_id", Str(GOVERNANCE_VISIBILITY_CONTRACT_ID)),
      Field("visibility_type", Str(GOVERNANCE_VISIBILITY_TYPE)),
      Field("schema_version", Num(1)) ]
    + (if Blank(domain) then [] else [Field("operation_domain", Str(Strip(domain)))])
    + [ Field("content_safe", Bool(true)),
        Field("semantic_reinterpretation_performed", Bool(false)) ]
  }

  function Assembled(domain: string, fields: seq<Field>): Json {
    Obj(BasePart(domain) + Extras(fields))
  }

  function MissingFields(fs: seq<Field>, required: seq<string>): seq<string> {
    if required == [] then []
    else Unless(HasKey(fs, required[0]), required[0]) + MissingFields(fs, required[1..])
  }

  function UnknownKeys(fs: seq<Field>): seq<string> {
    if fs == [] then []
    else
      var n := |fs| - 1;
      UnknownKeys(fs[..n]) + Unless(fs[n].key in CANONICAL_GOVERNANCE_VISIBILITY_FIELDS, fs[n].key)
  }

  /** Python's `True == 1`. */
  predicate IsOne(v: Json) {
    v == Num(1) || v == Bool(true)
  }

  /** The version of a surface is the number 1, or the boolean that equals it. */
  lemma VersionExactly(v: Json)
    ensures IsOne(v) <==> v in {Num(1), Bool(true)}
  {
  }

  predicate KnownDomain(v: Json) {
    SafeText(v).Some? && SafeText(v).value in GOVERNANCE_VISIBILITY_DOMAINS
  }

  function FixedFieldViolations(surface: Json): seq<string> {
    Unless(Get(surface, "visibility_contract_id") == Str(GOVERNANCE_VISIBILITY_CONTRACT_ID), "visibility_contract_id")
    + Unless(Get(surface, "visibility_type") == Str(GOVERNANCE_VISIBILITY_TYPE), "visibility_type")
    + Unless(IsOne(Get(surface, "schema_version")), "schema_version")
    + Unless(Get(surface, "content_safe") == Bool(true), "content_safe")
    + Unless(Get(surface, "semantic_reinterpretation_performed") == Bool(false),
             "semantic_reinterpretation_performed")
    + Unless(KnownDomain(Get(surface, "operation_domain")), "operation_domain")
  }

  /** `validate_governance_visibility_schema`: the violations before de-duplication. */
  function SchemaViolations(surface: Json): seq<string> {
    if !surface.Obj? then ["surface"]
    else MissingFields(surface.fields, BASE_FIELDS) + FixedFieldViolations(surface) + UnknownKeys(surface.fields)
  }

  method ValidateSchema(surface: Json) returns (blocked: seq<string>)
    ensures blocked == SchemaViolations(surface)
  {
    if !surface.Obj? {
      return ["surface"];
    }
    blocked := MissingFields(surface.fields, BASE_FIELDS) + FixedFieldViolations(surface);
    var fs := surface.fields;
    for i := 0 to |fs|
      invariant blocked
             == MissingFields(fs, BASE_FIELDS) + FixedFieldViolations(surface) + UnknownKeys(fs[..i])
    {
      assert fs[..i + 1][..i] == fs[..i];
      if fs[i].key !in CANONICAL_GOVERNANCE_VISIBILITY_FIELDS {
        blocked := blocked + [fs[i].key];
      }
    }
    assert fs[..|fs|] == fs;
  }

  /** `build_governance_visibility_surface`: the surface, or `None` for its `ValueError`. */
  function BuildSurface(domain: string, fields: seq<Field>, target: string): Option<Json> {
    var surface := Assembled(domain, fields);
    if SchemaViolations(surface) == [] && AttachmentAllowed(surface, target) then Some(surface) else None
  }

  lemma {:induction false} UnknownKeysNone(fs: seq<Field>)
    ensures UnknownKeys(fs) == [] <==>
              forall i :: 0 <= i < |fs| ==> fs[i].key in CANONICAL_GOVERNANCE_VISIBILITY_FIELDS
  {
    if fs != [] {
      var n := |fs| - 1;
      UnknownKeysNone(fs[..n]);
      assert forall i :: 0 <= i < n ==> fs[..n][i] == fs[i];
    }
  }

  lemma {:induction false} MissingFieldsNone(fs: seq<Field>, required: seq<string>)
    requires forall k :: k in required ==> HasKey(fs, k)
    ensures MissingFields(fs, required) == []
  {
    if required != [] {
      MissingFieldsNone(fs, required[1..]);
    }
  }

  /** The fixed fields have the values the contract prescribes. */
  predicate FixedFieldsGood(surface: Json) {
    && Get(surface, "visibility_contract_id") == Str(GOVERNANCE_VISIBILITY_CONTRACT_ID)
    && Get(surface, "visibility_type") == Str(GOVERNANCE_VISIBILITY_TYPE)
    && IsOne(Get(surface, "schema_version"))
    && Get(surface, "content_safe") == Bool(true)
    && Get(surface, "semantic_reinterpretation_performed") == Bool(false)
    && KnownDomain(Get(surface, "operation_domain"))
  }

  /** What the schema check accepts. */
  ghost predicate Canonical(surface: Json) {
    surface.Obj? && FixedFieldsGood(surface) && OnlyCanonicalKeys(surface.fields)
  }

  ghost predicate OnlyCanonicalKeys(fs: seq<Field>) {
    forall i :: 0 <= i < |fs| ==> fs[i].key in CANONICAL_GOVERNANCE_VISIBILITY_FIELDS
  }

  /** A field with a value of its own is present. */
  lemma PresentWhenNotNull(fs: seq<Field>, key: string)
    requires Lookup(fs, key) != Null
    ensures HasKey(fs, key)
  {
  }

  lemma FixedFieldsExact(surface: Json)
    ensures FixedFieldViolations(surface) == [] <==> FixedFieldsGood(surface)
  {
  }

  /** The six presence checks add nothing: each is implied by the check of the value. */
  lemma NoFixedFieldMissing(surface: Json)
    requires surface.Obj? && FixedFieldsGood(surface)
    ensures MissingFields(surface.fields, BASE_FIELDS) == []
  {
    forall k | k in BASE_FIELDS ensures HasKey(surface.fields, k) {
      PresentWhenNotNull(surface.fields, k);
    }
    MissingFieldsNone(surface.fields, BASE_FIELDS);
  }

  lemma SchemaExact(surface: Json)
    ensures SchemaViolations(surface) == [] <==> Canonical(surface)
  {
    if surface.Obj? {
      UnknownKeysNone(surface.fields);
      FixedFieldsExact(surface);
      if FixedFieldsGood(surface) {
        NoFixedFieldMissing(surface);
      }
    }
  }

  /** What a caller's field must be for the builder to keep it and still return. */
  ghost predicate Admissible(f: Field) {
    Kept(f) ==> && f.key in CANONICAL_GOVERNANCE_VISIBILITY_FIELDS
                && QuietField(f, CONTENT_RULE) && QuietField(f, SEMANTIC_RULE)
  }

  ghost predicate AllAdmissible(fields: seq<Field>) {
    forall i :: 0 <= i < |fields| ==> Admissible(fields[i])
  }

  ghost predicate Fit(f: Field) {
    && f.key in CANONICAL_GOVERNANCE_VISIBILITY_FIELDS
    && QuietField(f, CONTENT_RULE) && QuietField(f, SEMANTIC_RULE)
  }

  lemma {:induction false} ExtrasFit(fields: seq<Field>)
    ensures AllAdmissible(fields) <==> forall i :: 0 <= i < |Extras(fields)| ==> Fit(Extras(fields)[i])
  {
    if fields != [] {
      var rest, own := fields[1..], if Kept(fields[0]) then [fields[0]] else [];
      ExtrasFit(rest);
      assert Extras(fields) == own + Extras(rest);
      assert AllAdmissible(fields) <==> Admissible(fields[0]) && AllAdmissible(rest) by {
        assert forall i :: 1 <= i < |fields| ==> fields[i] == rest[i - 1];
      }
      FitAppend(own, Extras(rest));
      assert Kept(fields[0]) ==> own[0] == fields[0];
    }
  }

  lemma FitAppend(a: seq<Field>, b: seq<Field>)
    ensures (forall i :: 0 <= i < |a + b| ==> Fit((a + b)[i])) <==>
              (forall i :: 0 <= i < |a| ==> Fit(a[i])) && (forall i :: 0 <= i < |b| ==> Fit(b[i]))
  {
    assert forall i :: 0 <= i < |a| ==> (a + b)[i] == a[i];
    assert forall i :: 0 <= i < |b| ==> (a + b)[|a| + i] == b[i];
  }

  lemma {:induction false} ExtrasAvoidBase(fields: seq<Field>)
    ensures forall i :: 0 <= i < |Extras(fields)| ==> Extras(fields)[i].key !in BASE_FIELDS
  {
    if fields != [] {
      ExtrasAvoidBase(fields[1..]);
    }
  }

  lemma FindBase(base: seq<Field>, extras: seq<Field>, i: nat)
    requires i < |base| && forall j :: 0 <= j < i ==> base[j].key != base[i].key
    ensures Lookup(base + extras, base[i].key) == base[i].value
  {
    var fs := base + extras;
    assert forall j :: 0 <= j < |base| ==> fs[j] == base[j];
    LookupFirst(fs, i, base[i]);
  }

  /** The base fields are found whatever the caller adds. */
  lemma BaseLookups(domain: string, extras: seq<Field>)
    ensures var s := Obj(BasePart(domain) + extras);
            && Get(s, "visibility_contract_id") == Str(GOVERNANCE_VISIBILITY_CONTRACT_ID)
            && Get(s, "visibility_type") == Str(GOVERNANCE_VISIBILITY_TYPE)
            && Get(s, "schema_version") == Num(1)
            && Get(s, "content_safe") == Bool(true)
            && Get(s, "semantic_reinterpretation_performed") == Bool(false)
  {
    FindBase(BasePart(domain), extras, 0);
    FindBase(BasePart(domain), extras, 1);
    FindBase(BasePart(domain), extras, 2);
    FindBase(BasePart(domain), extras, |BasePart(domain)| - 2);
    FindBase(BasePart(domain), extras, |BasePart(domain)| - 1);
  }

  lemma DomainLookup(domain: string, fields: seq<Field>)
    ensures Get(Assembled(domain, fields), "operation_domain")
         == if Blank(domain) then Null else Str(Strip(domain))
  {
    if Blank(domain) {
      ExtrasAvoidBase(fields);
      assert !HasKey(BasePart(domain) + Extras(fields), "operation_domain");
    } else {
      FindBase(BasePart(domain), Extras(fields), 3);
    }
  }

  lemma NoDiagnosticType(fs: seq<Field>)
    requires OnlyCanonicalKeys(fs)
    ensures Lookup(fs, "diagnostic_type") == Null
  {
    assert "diagnostic_type" !in CANONICAL_GOVERNANCE_VISIBILITY_FIELDS;
    assert !HasKey(fs, "diagnostic_type");
  }

  lemma TypeNotBlank()
    ensures !Blank(GOVERNANCE_VISIBILITY_TYPE)
  {
    NotBlankAt(GOVERNANCE_VISIBILITY_TYPE, 0);
  }

  lemma CanonicalIsVisibility(surface: Json)
    requires Canonical(surface)
    ensures KindOf(surface).VisibilitySurface?
  {
    NoDiagnosticType(surface.fields);
    TypeNotBlank();
  }

  const BASE_SET := {
    "content_safe", "operation_domain", "schema_version", "semantic_reinterpretation_performed",
    "visibility_contract_id", "visibility_type"
  }

  lemma BaseContentSpared()
    ensures Spares(CONTENT_RULE, BASE_SET)
  {
  }

  lemma BaseAuthoritySpared()
    ensures Spares(SEMANTIC_RULE, BASE_SET)
  {
  }

  lemma BaseCanonical(domain: string)
    ensures OnlyCanonicalKeys(BasePart(domain))
  {
  }

  lemma BaseQuiet(domain: string, rule: Rule)
    requires Spares(rule, BASE_SET)
    ensures QuietAll(BasePart(domain), rule)
  {
  }

  lemma QuietAppend(a: seq<Field>, b: seq<Field>, rule: Rule)
    requires QuietAll(a, rule)
    ensures QuietAll(a + b, rule) <==> QuietAll(b, rule)
  {
    assert forall i :: 0 <= i < |b| ==> (a + b)[|a| + i] == b[i];
  }

  lemma KeysAppend(a: seq<Field>, b: seq<Field>)
    requires OnlyCanonicalKeys(a)
    ensures OnlyCanonicalKeys(a + b) <==> OnlyCanonicalKeys(b)
  {
    assert forall i :: 0 <= i < |b| ==> (a + b)[|a| + i] == b[i];
  }

  lemma AssembledSchema(domain: string, fields: seq<Field>)
    ensures Canonical(Assembled(domain, fields)) <==>
              Strip(domain) in GOVERNANCE_VISIBILITY_DOMAINS && OnlyCanonicalKeys(Extras(fields))
  {
    BaseLookups(domain, Extras(fields));
    DomainLookup(domain, fields);
    BaseCanonical(domain);
    KeysAppend(BasePart(domain), Extras(fields));
    StripTwice(domain);
  }

  lemma StripTwice(s: string)
    ensures Strip(Strip(s)) == Strip(s)
  {
    StripFacts(s);
    StripFacts(Strip(s));
  }

  lemma AssembledClean(domain: string, fields: seq<Field>)
    ensures CleanVisibility(Assembled(domain, fields)) <==>
              QuietAll(Extras(fields), CONTENT_RULE) && QuietAll(Extras(fields), SEMANTIC_RULE)
  {
    BaseLookups(domain, Extras(fields));
    TypeNotBlank();
    BaseContentSpared();
    BaseAuthoritySpared();
    BaseQuiet(domain, CONTENT_RULE);
    BaseQuiet(domain, SEMANTIC_RULE);
    QuietAppend(BasePart(domain), Extras(fields), CONTENT_RULE);
    QuietAppend(BasePart(domain), Extras(fields), SEMANTIC_RULE);
  }

  /**
   The builder returns a surface exactly for a known domain, an open target and fields that,
   when not empty, have canonical keys and carry no content or authority at any depth.
   */
  lemma BuilderExact(domain: string, fields: seq<Field>, target: string)
    ensures BuildSurface(domain, fields, target).Some? <==>
              && Strip(domain) in GOVERNANCE_VISIBILITY_DOMAINS
              && Strip(target) in ALLOWED_VISIBILITY_ATTACHMENT_TARGETS
              && AllAdmissible(fields)
  {
    var surface := Assembled(domain, fields);
    SchemaExact(surface);
    AssembledSchema(domain, fields);
    ExtrasFit(fields);
    if Canonical(surface) {
      CanonicalIsVisibility(surface);
      AttachVisibility(surface, target);
      AssembledClean(domain, fields);
    }
  }
}
