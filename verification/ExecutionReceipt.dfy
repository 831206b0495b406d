/**
 Execution receipts of external searches
 (runtime/artifacts/external_search_execution_receipt.py).
 */
module ExecutionReceipt {
  import opened JsonValues
  import opened Positions
  import opened Text
  import opened Validation
  import opened Wrappers

  const RECEIPT_ARTIFACT := "external_search_execution_receipt"
  const DISABLED := "provider_execution_disabled"
  const COMPLETED := "provider_execution_completed"
  const FAILED := "provider_execution_failed"
  const ALLOWED_EXECUTION_STATES := {"provider_execution_disabled", "provider_execution_completed",
                                     "provider_execution_failed"}

  // The keys of a receipt, all required.
  const RECEIPT_FIELDS := [
    "artifact_type", "receipt_id", "receipt_ref", "request_id", "search_id", "provider_id", "provider_type",
    "semantic_type", "authorization_decision", "execution_state", "execution_performed", "external_call_performed",
    "cost_incurred", "timing", "bounds", "normalized_result_metadata", "failure", "result_artifact_ref",
    "created_at"
  ]

  const FORBIDDEN_CONTENT_FIELDS := {
    "api_key", "authorization_header", "bearer_token", "citations", "credential", "credential_env_var",
    "email_draft", "prompt", "provider_payload", "query", "ranking", "raw_provider_payload", "raw_results",
    "rendered_context", "results", "secret", "source_refs", "summary", "token"
  }

  const REQUIRED_AUTHORIZATION_FIELDS := [
    "authorization_state", "authorization_status", "live_provider_execution_authorized", "external_call_allowed",
    "cost_allowed", "audit_required", "fail_closed"
  ]

  // The parts of a receipt, or what stands in their place. `others` are unknown fields.
  datatype Timing =
    | BadTiming(value: Json)
    | Timing(startedAt: Json, completedAt: Json, durationMs: Json, others: seq<Field>)

  datatype Bounds =
    | BadBounds(value: Json)
    | Bounds(requested: Json, normalized: Json, timeout: Json, freshness: Json, source: Json, result: Json,
             others: seq<Field>)

  datatype Counts =
    | BadCounts(value: Json)
    | Counts(raw: Json, source: Json, citation: Json, rejected: Json, others: seq<Field>)

  datatype Failure =
    | BadFailure(value: Json)
    | Failure(failed: Json, reasons: Json, errorClass: Json, others: seq<Field>)

  /** A receipt: `missing` names absent keys, which read as `Null`; `others` are unknown fields. */
  datatype Receipt =
    | NotAReceipt
    | Receipt(missing: set<string>, artifactType: Json, receiptId: Json, receiptRef: Json, requestId: Json,
              searchId: Json, providerId: Json, providerType: Json, semanticType: Json, authorization: Json,
              state: Json, performed: Json, externalCall: Json, cost: Json, timing: Timing, bounds: Bounds,
              counts: Counts, failure: Failure, resultRef: Json, createdAt: Json, others: seq<Field>)

  predicate Natural(v: Json) {
    v.Num? && v.n >= 0
  }

  predicate NullOrText(v: Json) {
    v == Null || HasText(v)
  }

  predicate NullOrNatural(v: Json) {
    v == Null || Natural(v)
  }

  function MissingFields(missing: set<string>, fields: seq<string>): seq<Problem> {
    if fields == [] then []
    else (if fields[0] in missing then [Problem("missing_execution_receipt_field", fields[0])] else [])
         + MissingFields(missing, fields[1..])
  }

  predicate KnownState(v: Json) {
    v.Str? && v.s in ALLOWED_EXECUTION_STATES
  }

  function IdentityChecks(r: Receipt): seq<Check>
    requires r.Receipt?
  {
    [ Check(r.artifactType == Str(RECEIPT_ARTIFACT), "invalid_execution_receipt_artifact_type", "artifact_type"),
      Check(HasText(r.receiptId), "invalid_execution_receipt_string", "receipt_id"),
      Check(HasText(r.receiptRef), "invalid_execution_receipt_string", "receipt_ref"),
      Check(HasText(r.requestId), "invalid_execution_receipt_string", "request_id"),
      Check(HasText(r.searchId), "invalid_execution_receipt_string", "search_id"),
      Check(NullOrText(r.providerId), "invalid_execution_receipt_string", "provider_id"),
      Check(NullOrText(r.providerType), "invalid_execution_receipt_string", "provider_type"),
      Check(NullOrText(r.resultRef), "invalid_execution_receipt_string", "result_artifact_ref"),
      Check(r.semanticType == Str("external_search"), "invalid_semantic_type", "semantic_type"),
      Check(KnownState(r.state), "invalid_execution_state", "execution_state"),
      Check(r.performed.Bool?, "invalid_execution_receipt_boolean", "execution_performed"),
      Check(r.externalCall.Bool?, "invalid_execution_receipt_boolean", "external_call_performed"),
      Check(r.cost.Bool?, "invalid_execution_receipt_boolean", "cost_incurred") ]
  }

  function TimingChecks(t: Timing): seq<Check> {
    if t.BadTiming? then [Check(false, "invalid_timing", "timing")]
    else
      [ Check(HasText(t.startedAt), "invalid_timing", "timing.started_at"),
        Check(HasText(t.completedAt), "invalid_timing", "timing.completed_at"),
        Check(Natural(t.durationMs), "invalid_timing", "timing.duration_ms") ]
  }

  function BoundsChecks(b: Bounds): seq<Check> {
    if b.BadBounds? then [Check(false, "invalid_bounds", "bounds")]
    else
      [ Check(NullOrNatural(b.requested), "invalid_bounds", "bounds.requested_max_results"),
        Check(NullOrNatural(b.normalized), "invalid_bounds", "bounds.normalized_max_results"),
        Check(NullOrNatural(b.timeout), "invalid_bounds", "bounds.timeout_ms"),
        Check(b.freshness.Bool?, "invalid_bounds", "bounds.freshness_policy_present"),
        Check(b.source.Bool?, "invalid_bounds", "bounds.source_policy_present"),
        Check(b.result.Bool?, "invalid_bounds", "bounds.result_bounds_present") ]
  }

  function CountChecks(c: Counts): seq<Check> {
    if c.BadCounts? then [Check(false, "invalid_normalized_result_metadata", "normalized_result_metadata")]
    else
      [ Check(Natural(c.raw), "invalid_normalized_result_metadata", "normalized_result_metadata.raw_result_count"),
        Check(Natural(c.source), "invalid_normalized_result_metadata",
              "normalized_result_metadata.source_ref_count"),
        Check(Natural(c.citation), "invalid_normalized_result_metadata",
              "normalized_result_metadata.citation_count"),
        Check(Natural(c.rejected), "invalid_normalized_result_metadata",
              "normalized_result_metadata.rejected_result_count") ]
  }

  predicate FailedState(state: Json) {
    state == Str(DISABLED) || state == Str(FAILED)
  }

  function FailureChecks(f: Failure, state: Json): seq<Check> {
    if f.BadFailure? then [Check(false, "invalid_failure", "failure")]
    else
      [ Check(f.failed.Bool?, "invalid_failure", "failure.failed"),
        Check(FailedState(state) ==> f.failed == Bool(true), "failure_state_hidden", "failure.failed"),
        Check(state == Str(FAILED) ==> HasText(f.errorClass), "missing_error_class", "failure.error_class") ]
  }

  function MissingAuthorization(fs: seq<Field>, required: seq<string>): seq<Problem> {
    if required == [] then []
    else
      (if HasKey(fs, required[0]) then []
       else [Problem("missing_authorization_decision_field", "authorization_decision." + required[0])])
      + MissingAuthorization(fs, required[1..])
  }

  function AuthorizationProblems(v: Json): seq<Problem> {
    if v.Obj? then MissingAuthorization(v.fields, REQUIRED_AUTHORIZATION_FIELDS)
    else [Problem("invalid_authorization_decision", "authorization_decision")]
  }

  /**
   `str.lower()` of one character, as far as forbidden names can tell. Besides the capitals
   only the Kelvin sign lowers to an ASCII letter alone. A capital I with a dot lowers to two
   characters, one of which is in no name; it stays as it is here.
   */
  function LowerChar(c: char): char {
    if 'A' <= c <= 'Z' then c - 'A' + 'a' else if c == '\U{212A}' then 'k' else c
  }

  function Lower(s: string): string {
    seq(|s|, i requires 0 <= i < |s| => LowerChar(s[i]))
  }

  predicate ForbiddenKey(key: string) {
    Lower(key) in FORBIDDEN_CONTENT_FIELDS
  }

  /** A name written with a Kelvin sign is still forbidden. */
  lemma KelvinSignSeen()
    ensures ForbiddenKey("to\U{212A}en") && ForbiddenKey("RAN\U{212A}ING")
  {
    assert Lower("to\U{212A}en") == "token" && Lower("RAN\U{212A}ING") == "ranking";
  }

  /** `_forbidden_content_paths` of a value. */
  function ForbiddenPaths(v: Json, prefix: string): seq<string>
    decreases v, 1
  {
    match v
    case Obj(fs) => ForbiddenFieldPaths(fs, prefix)
    case Arr(isList, items) => if isList then ForbiddenItemPaths(items, prefix) else []
    case _ => []
  }

  function ForbiddenFieldPaths(fs: seq<Field>, prefix: string): seq<string>
    decreases fs, 0
  {
    if fs == [] then []
    else
      var last := fs[|fs| - 1];
      var path := Extend(prefix, Key(last.key));
      ForbiddenFieldPaths(fs[..|fs| - 1], prefix)
      + (if ForbiddenKey(last.key) then [path] else [])
      + ForbiddenPaths(last.value, path)
  }

  function ForbiddenItemPaths(items: seq<Json>, prefix: string): seq<string>
    decreases items, 0
  {
    if items == [] then []
    else
      var n := |items| - 1;
      ForbiddenItemPaths(items[..n], prefix) + ForbiddenAt(items[n], n, prefix)
  }

  function ForbiddenAt(item: Json, index: nat, prefix: string): seq<string>
    decreases item, 2
  {
    ForbiddenPaths(item, Extend(prefix, Index(index)))
  }

  function TimingFields(t: Timing): seq<Field>
    requires t.Timing?
  {
    [ Field("started_at", t.startedAt), Field("completed_at", t.completedAt), Field("duration_ms", t.durationMs) ]
  }

  function BoundsFields(b: Bounds): seq<Field>
    requires b.Bounds?
  {
    [ Field("requested_max_results", b.requested), Field("normalized_max_results", b.normalized),
      Field("timeout_ms", b.timeout), Field("freshness_policy_present", b.freshness),
      Field("source_policy_present", b.source), Field("result_bounds_present", b.result) ]
  }

  function CountFields(c: Counts): seq<Field>
    requires c.Counts?
  {
    [ Field("raw_result_count", c.raw), Field("source_ref_count", c.source), Field("citation_count", c.citation),
      Field("rejected_result_count", c.rejected) ]
  }

  function FailureFields(f: Failure): seq<Field>
    requires f.Failure?
  {
    [ Field("failed", f.failed), Field("failure_reasons", f.reasons), Field("error_class", f.errorClass) ]
  }

  function TimingJson(t: Timing): Json {
    if t.BadTiming? then t.value else Obj(TimingFields(t) + t.others)
  }

  function BoundsJson(b: Bounds): Json {
    if b.BadBounds? then b.value else Obj(BoundsFields(b) + b.others)
  }

  function CountsJson(c: Counts): Json {
    if c.BadCounts? then c.value else Obj(CountFields(c) + c.others)
  }

  function FailureJson(f: Failure): Json {
    if f.BadFailure? then f.value else Obj(FailureFields(f) + f.others)
  }

  function IdentityFields(r: Receipt): seq<Field>
    requires r.Receipt?
  {
    [ Field("artifact_type", r.artifactType), Field("receipt_id", r.receiptId), Field("receipt_ref", r.receiptRef),
      Field("request_id", r.requestId), Field("search_id", r.searchId), Field("provider_id", r.providerId),
      Field("provider_type", r.providerType), Field("semantic_type", r.semanticType) ]
  }

  function StateFields(r: Receipt): seq<Field>
    requires r.Receipt?
  {
    [ Field("execution_state", r.state), Field("execution_performed", r.performed),
      Field("external_call_performed", r.externalCall), Field("cost_incurred", r.cost) ]
  }

  function DetailFields(r: Receipt): seq<Field>
    requires r.Receipt?
  {
    [ Field("authorization_decision", r.authorization), Field("timing", TimingJson(r.timing)),
      Field("bounds", BoundsJson(r.bounds)), Field("normalized_result_metadata", CountsJson(r.counts)),
      Field("failure", FailureJson(r.failure)), Field("created_at", r.createdAt) ]
  }

  /** The receipt as one dictionary. An absent key is written as `Null`, below which nothing is found. */
  function ReceiptJson(r: Receipt): Json
    requires r.Receipt?
  {
    Obj(IdentityFields(r) + StateFields(r) + [Field("result_artifact_ref", r.resultRef)] + DetailFields(r) + r.others)
  }

  /** The forbidden keys of the whole receipt, at every depth. */
  function ContentPaths(r: Receipt): seq<string>
    requires r.Receipt?
  {
    ForbiddenPaths(ReceiptJson(r), "")
  }

  function FieldProblems(r: Receipt): seq<Problem>
    requires r.Receipt?
  {
    MissingFields(r.missing, RECEIPT_FIELDS) + Failures(IdentityChecks(r))
  }

  function DetailProblems(r: Receipt): seq<Problem>
    requires r.Receipt?
  {
    Failures(TimingChecks(r.timing)) + Failures(BoundsChecks(r.bounds)) + Failures(CountChecks(r.counts))
    + Failures(FailureChecks(r.failure, r.state)) + AuthorizationProblems(r.authorization)
  }

  function Located(paths: seq<string>): (r: seq<Problem>)
    ensures |r| == |paths|
  {
    seq(|paths|, i requires 0 <= i < |paths| => Problem("content_field_not_allowed", paths[i]))
  }

  /** `validate_external_search_execution_receipt`. */
  function ReceiptProblems(r: Receipt): seq<Problem> {
    if r.NotAReceipt? then [Problem("invalid_external_search_execution_receipt", "receipt")]
    else FieldProblems(r) + DetailProblems(r) + Located(ContentPaths(r))
  }

  method AppendMissingFields(missing: set<string>, fields: seq<string>) returns (found: seq<Problem>)
    ensures found == MissingFields(missing, fields)
  {
    found := [];
    for i := 0 to |fields|
      invariant found + MissingFields(missing, fields[i..]) == MissingFields(missing, fields)
    {
      if fields[i] in missing {
        found := found + [Problem("missing_execution_receipt_field", fields[i])];
      }
    }
  }

  method AppendMissingAuthorization(fs: seq<Field>, required: seq<string>) returns (found: seq<Problem>)
    ensures found == MissingAuthorization(fs, required)
  {
    found := [];
    for i := 0 to |required|
      invariant found + MissingAuthorization(fs, required[i..]) == MissingAuthorization(fs, required)
    {
      if !HasKey(fs, required[i]) {
        found := found + [Problem("missing_authorization_decision_field", "authorization_decision." + required[i])];
      }
    }
  }

  /** `_forbidden_content_paths`. */
  method FindForbiddenPaths(v: Json, prefix: string) returns (paths: seq<string>)
    ensures paths == ForbiddenPaths(v, prefix)
    decreases v
  {
    paths := [];
    match v
    case Obj(fs) =>
      for i := 0 to |fs|
        invariant paths == ForbiddenFieldPaths(fs[..i], prefix)
      {
        assert fs[..i + 1][..i] == fs[..i];
        assert fs[i].value < fs[i];
        var path := Extend(prefix, Key(fs[i].key));
        if ForbiddenKey(fs[i].key) {
          paths := paths + [path];
        }
        var below := FindForbiddenPaths(fs[i].value, path);
        paths := paths + below;
      }
      assert fs[..|fs|] == fs;
    case Arr(isList, items) =>
      if isList {
        for i := 0 to |items|
          invariant paths == ForbiddenItemPaths(items[..i], prefix)
        {
          assert items[..i + 1][..i] == items[..i];
          var below := FindForbiddenPaths(items[i], Extend(prefix, Index(i)));
          paths := paths + below;
        }
        assert items[..|items|] == items;
      }
    case _ =>
  }

  method ReportParts(t: Timing, b: Bounds, c: Counts) returns (found: seq<Problem>)
    ensures found == Failures(TimingChecks(t)) + Failures(BoundsChecks(b)) + Failures(CountChecks(c))
  {
    found := AppendFailures(TimingChecks(t), []);
    found := AppendFailures(BoundsChecks(b), found);
    found := AppendFailures(CountChecks(c), found);
  }

  method ReportDetails(r: Receipt) returns (found: seq<Problem>)
    requires r.Receipt?
    ensures found == DetailProblems(r)
  {
    found := ReportParts(r.timing, r.bounds, r.counts);
    found := AppendFailures(FailureChecks(r.failure, r.state), found);
    var missing := [Problem("invalid_authorization_decision", "authorization_decision")];
    if r.authorization.Obj? {
      missing := AppendMissingAuthorization(r.authorization.fields, REQUIRED_AUTHORIZATION_FIELDS);
    }
    found := found + missing;
  }

  predicate GoodTiming(t: Timing) {
    t.Timing? && HasText(t.startedAt) && HasText(t.completedAt) && Natural(t.durationMs)
  }

  predicate GoodBounds(b: Bounds) {
    && b.Bounds? && NullOrNatural(b.requested) && NullOrNatural(b.normalized) && NullOrNatural(b.timeout)
    && b.freshness.Bool? && b.source.Bool? && b.result.Bool?
  }

  predicate GoodCounts(c: Counts) {
    c.Counts? && Natural(c.raw) && Natural(c.source) && Natural(c.citation) && Natural(c.rejected)
  }

  predicate GoodFailure(f: Failure, state: Json) {
    && f.Failure? && f.failed.Bool?
    && (FailedState(state) ==> f.failed == Bool(true))
    && (state == Str(FAILED) ==> HasText(f.errorClass))
  }

  predicate GoodIdentity(r: Receipt) {
    && r.Receipt? && r.artifactType == Str(RECEIPT_ARTIFACT)
    && HasText(r.receiptId) && HasText(r.receiptRef) && HasText(r.requestId) && HasText(r.searchId)
    && NullOrText(r.providerId) && NullOrText(r.providerType) && NullOrText(r.resultRef)
    && r.semanticType == Str("external_search") && KnownState(r.state)
    && r.performed.Bool? && r.externalCall.Bool? && r.cost.Bool?
  }

  /** Every required key of the authorization record is present. */
  ghost predicate FullyAuthorized(v: Json) {
    v.Obj? && forall i :: 0 <= i < |REQUIRED_AUTHORIZATION_FIELDS| ==> HasKey(v.fields, REQUIRED_AUTHORIZATION_FIELDS[i])
  }

  /** No key anywhere inside lowers to a forbidden name. */
  ghost predicate ContentFree(v: Json) {
    match v
    case Obj(fs) => forall i :: 0 <= i < |fs| ==> ContentFreeField(fs[i])
    case Arr(isList, items) => isList ==> forall i :: 0 <= i < |items| ==> ContentFree(items[i])
    case _ => true
  }

  ghost predicate ContentFreeField(f: Field) {
    !ForbiddenKey(f.key) && ContentFree(f.value)
  }

  /** What an accepted receipt looks like. */
  ghost predicate GoodReceipt(r: Receipt) {
    && r.Receipt?
    && (forall i :: 0 <= i < |RECEIPT_FIELDS| ==> RECEIPT_FIELDS[i] !in r.missing)
    && GoodIdentity(r) && GoodTiming(r.timing) && GoodBounds(r.bounds) && GoodCounts(r.counts)
    && GoodFailure(r.failure, r.state) && FullyAuthorized(r.authorization)
    && ContentFree(ReceiptJson(r))
  }

  lemma {:induction false} MissingExact(missing: set<string>, fields: seq<string>)
    ensures MissingFields(missing, fields) == [] <==> forall i :: 0 <= i < |fields| ==> fields[i] !in missing
  {
    if fields != [] {
      MissingExact(missing, fields[1..]);
      assert forall i :: 1 <= i < |fields| ==> fields[i] == fields[1..][i - 1];
    }
  }

  lemma {:induction false} AuthorizationExact(fs: seq<Field>, required: seq<string>)
    ensures MissingAuthorization(fs, required) == [] <==>
              forall i :: 0 <= i < |required| ==> HasKey(fs, required[i])
  {
    if required != [] {
      AuthorizationExact(fs, required[1..]);
      assert forall i :: 1 <= i < |required| ==> required[i] == required[1..][i - 1];
    }
  }

  lemma IdentityExact(r: Receipt)
    requires r.Receipt?
    ensures Failures(IdentityChecks(r)) == [] <==> GoodIdentity(r)
  {
    var c := IdentityChecks(r);
    FailuresNone(c);
    if AllPass(c) {
      assert c[0].passes && c[1].passes && c[2].passes && c[3].passes && c[4].passes && c[5].passes && c[6].passes;
      assert c[7].passes && c[8].passes && c[9].passes && c[10].passes && c[11].passes && c[12].passes;
    }
  }

  lemma TimingExact(t: Timing)
    ensures Failures(TimingChecks(t)) == [] <==> GoodTiming(t)
  {
    var c := TimingChecks(t);
    FailuresNone(c);
    if AllPass(c) {
      assert c[0].passes;
      assert t.Timing? ==> c[1].passes && c[2].passes;
    }
  }

  lemma BoundsExact(b: Bounds)
    ensures Failures(BoundsChecks(b)) == [] <==> GoodBounds(b)
  {
    var c := BoundsChecks(b);
    FailuresNone(c);
    if AllPass(c) {
      assert c[0].passes;
      assert b.Bounds? ==> c[1].passes && c[2].passes && c[3].passes && c[4].passes && c[5].passes;
    }
  }

  lemma CountsExact(n: Counts)
    ensures Failures(CountChecks(n)) == [] <==> GoodCounts(n)
  {
    var c := CountChecks(n);
    FailuresNone(c);
    if AllPass(c) {
      assert c[0].passes;
      assert n.Counts? ==> c[1].passes && c[2].passes && c[3].passes;
    }
  }

  lemma FailureExact(f: Failure, state: Json)
    ensures Failures(FailureChecks(f, state)) == [] <==> GoodFailure(f, state)
  {
    var c := FailureChecks(f, state);
    FailuresNone(c);
    if AllPass(c) {
      assert c[0].passes;
      assert f.Failure? ==> c[1].passes && c[2].passes;
    }
  }

  lemma FiveEmpty(a: seq<Problem>, b: seq<Problem>, c: seq<Problem>, d: seq<Problem>, e: seq<Problem>)
    ensures a + b + c + d + e == [] <==> a == [] && b == [] && c == [] && d == [] && e == []
  {
    assert |a + b + c + d + e| == |a| + |b| + |c| + |d| + |e|;
  }

  lemma DetailExact(r: Receipt)
    requires r.Receipt?
    ensures DetailProblems(r) == [] <==>
              && GoodTiming(r.timing) && GoodBounds(r.bounds) && GoodCounts(r.counts)
              && GoodFailure(r.failure, r.state) && FullyAuthorized(r.authorization)
  {
    TimingExact(r.timing);
    BoundsExact(r.bounds);
    CountsExact(r.counts);
    FailureExact(r.failure, r.state);
    if r.authorization.Obj? {
      AuthorizationExact(r.authorization.fields, REQUIRED_AUTHORIZATION_FIELDS);
    }
    FiveEmpty(Failures(TimingChecks(r.timing)), Failures(BoundsChecks(r.bounds)), Failures(CountChecks(r.counts)),
              Failures(FailureChecks(r.failure, r.state)), AuthorizationProblems(r.authorization));
  }

  lemma {:induction false} ContentExact(v: Json, prefix: string)
    ensures ForbiddenPaths(v, prefix) == [] <==> ContentFree(v)
    decreases v, 1
  {
    match v
    case Obj(fs) => FieldContentExact(fs, prefix);
    case Arr(_, items) => ItemContentExact(items, prefix);
    case _ =>
  }

  ghost predicate FreeFields(fs: seq<Field>) {
    forall i :: 0 <= i < |fs| ==> ContentFreeField(fs[i])
  }

  ghost predicate FreeItems(items: seq<Json>) {
    forall i :: 0 <= i < |items| ==> ContentFree(items[i])
  }

  lemma FreeFieldsSnoc(fs: seq<Field>)
    requires fs != []
    ensures FreeFields(fs) <==> FreeFields(fs[..|fs| - 1]) && ContentFreeField(fs[|fs| - 1])
  {
    var n := |fs| - 1;
    assert forall i :: 0 <= i < n ==> fs[..n][i] == fs[i];
  }

  lemma FreeItemsSnoc(items: seq<Json>)
    requires items != []
    ensures FreeItems(items) <==> FreeItems(items[..|items| - 1]) && ContentFree(items[|items| - 1])
  {
    var n := |items| - 1;
    assert forall i :: 0 <= i < n ==> items[..n][i] == items[i];
  }

  lemma {:induction false} FieldContentExact(fs: seq<Field>, prefix: string)
    ensures ForbiddenFieldPaths(fs, prefix) == [] <==> FreeFields(fs)
    decreases fs, 0
  {
    if fs != [] {
      var init, last := fs[..|fs| - 1], fs[|fs| - 1];
      FieldContentExact(init, prefix);
      assert last.value < last;
      ContentExact(last.value, Extend(prefix, Key(last.key)));
      FreeFieldsSnoc(fs);
    }
  }

  lemma {:induction false} ItemContentExact(items: seq<Json>, prefix: string)
    ensures ForbiddenItemPaths(items, prefix) == [] <==> FreeItems(items)
    decreases items, 0
  {
    if items != [] {
      var n := |items| - 1;
      ItemContentExact(items[..n], prefix);
      AtContentExact(items[n], n, prefix);
      FreeItemsSnoc(items);
    }
  }

  lemma {:induction false} AtContentExact(item: Json, index: nat, prefix: string)
    ensures ForbiddenAt(item, index, prefix) == [] <==> ContentFree(item)
    decreases item, 2
  {
    ContentExact(item, Extend(prefix, Index(index)));
  }

  /** The receipt validator reports no error exactly for the good receipts. */
  lemma ReceiptExact(r: Receipt)
    ensures ReceiptProblems(r) == [] <==> GoodReceipt(r)
  {
    if r.Receipt? {
      MissingExact(r.missing, RECEIPT_FIELDS);
      IdentityExact(r);
      DetailExact(r);
      ContentExact(ReceiptJson(r), "");
      assert |ReceiptProblems(r)| == |FieldProblems(r)| + |DetailProblems(r)| + |ContentPaths(r)|;
    }
  }

  /** Python can hash the value: it is no list or dictionary, nor a tuple with one inside. */
  predicate Hashable(v: Json) {
    match v
    case Arr(isList, items) => !isList && forall i :: 0 <= i < |items| ==> Hashable(items[i])
    case Obj(_) => false
    case _ => true
  }

  /** The value is `v` itself or sits in the tuples of `v`. */
  ghost predicate InTuples(v: Json, inner: Json) {
    || v == inner
    || (v.Arr? && !v.isList && exists i :: 0 <= i < |v.items| && InTuples(v.items[i], inner))
  }

  /** A value can be hashed exactly when it is no list or dictionary and has none in its tuples. */
  lemma {:induction false} HashableExactly(v: Json)
    ensures Hashable(v) <==> forall inner :: InTuples(v, inner) ==> !inner.Obj? && !(inner.Arr? && inner.isList)
  {
    if v.Arr? && !v.isList {
      forall i | 0 <= i < |v.items|
        ensures Hashable(v.items[i]) <==>
                  forall inner :: InTuples(v.items[i], inner) ==> !inner.Obj? && !(inner.Arr? && inner.isList)
      {
        HashableExactly(v.items[i]);
      }
    } else {
      assert InTuples(v, v);
    }
  }

  /** The validator's outcome: `None` when its lookup of the state in a set raises. */
  function Validated(r: Receipt): Option<seq<Problem>> {
    if r.Receipt? && !Hashable(r.state) then None else Some(ReceiptProblems(r))
  }

  /** `validate_external_search_execution_receipt`: it accepts exactly the good receipts. */
  method ValidateReceipt(r: Receipt) returns (errors: Option<seq<Problem>>)
    ensures errors == Validated(r)
    ensures errors == Some([]) <==> GoodReceipt(r)
  {
    ReceiptExact(r);
    if r.NotAReceipt? {
      return Some([Problem("invalid_external_search_execution_receipt", "receipt")]);
    }
    if !Hashable(r.state) {
      return None;
    }
    var found := AppendMissingFields(r.missing, RECEIPT_FIELDS);
    found := AppendFailures(IdentityChecks(r), found);
    var details := ReportDetails(r);
    var paths := FindForbiddenPaths(ReceiptJson(r), "");
    errors := Some(found + details + Located(paths));
  }
}
