/**
 The builder of execution receipts, and why its validator accepts what it builds
 (runtime/artifacts/external_search_execution_receipt.py).
 */
module ReceiptBuilder {
  import opened ExecutionReceipt
  import opened JsonValues
  import opened Positions
  import opened Text
  import opened Validation
  import opened Wrappers

  // All fixed keys: those of a receipt, then those of its timing, bounds, counts and failure.
  const TOP_KEYS := {
    "artifact_type", "receipt_id", "receipt_ref", "request_id", "search_id", "provider_id", "provider_type",
    "semantic_type", "authorization_decision", "execution_state", "execution_performed", "external_call_performed",
    "cost_incurred", "timing", "bounds", "normalized_result_metadata", "failure", "result_artifact_ref",
    "created_at"
  }

  const DETAIL_KEYS := {
    "started_at", "completed_at", "duration_ms", "requested_max_results", "normalized_max_results", "timeout_ms",
    "freshness_policy_present", "source_policy_present", "result_bounds_present", "raw_result_count",
    "source_ref_count", "citation_count", "rejected_result_count", "failed", "failure_reasons", "error_class"
  }

  // The keys of an authorization record that a receipt keeps.
  const KEPT_AUTHORIZATION_FIELDS := {
    "provider_id", "resource_id", "semantic_type", "authorization_state", "authorization_status",
    "live_provider_execution_authorized", "external_call_allowed", "cost_allowed", "audit_required", "fail_closed",
    "policy_id", "governance_id", "binding_id", "contract_id", "skipped_reasons"
  }

  function NaturalOr(v: Json, default: Json): Json {
    if Natural(v) then v else default
  }

  /** Python's `bool(value)` for the flags a caller passes. */
  predicate Truthy(v: Json) {
    match v
    case Null => false
    case Bool(b) => b
    case Num(n) => n != 0
    case Str(s) => s != ""
    case Arr(_, items) => items != []
    case Obj(fs) => fs != []
  }

  function SafeTiming(t: Timing): Timing {
    if t.BadTiming? then Timing(Null, Null, Num(0), [])
    else Timing(TextOrNull(SafeText(t.startedAt)), TextOrNull(SafeText(t.completedAt)),
                NaturalOr(t.durationMs, Num(0)), [])
  }

  function SafeBounds(b: Bounds): Bounds {
    if b.BadBounds? then Bounds(Null, Null, Null, Bool(false), Bool(false), Bool(false), [])
    else Bounds(NaturalOr(b.requested, Null), NaturalOr(b.normalized, Null), NaturalOr(b.timeout, Null),
                Bool(Truthy(b.freshness)), Bool(Truthy(b.source)), Bool(Truthy(b.result)), [])
  }

  function SafeCounts(c: Counts): Counts {
    if c.BadCounts? then Counts(Num(0), Num(0), Num(0), Num(0), [])
    else Counts(NaturalOr(c.raw, Num(0)), NaturalOr(c.source, Num(0)), NaturalOr(c.citation, Num(0)),
                NaturalOr(c.rejected, Num(0)), [])
  }

  function SafeReasons(items: seq<Json>): (r: seq<Json>)
    ensures forall i :: 0 <= i < |r| ==> r[i].Str?
  {
    if items == [] then []
    else
      SafeReasons(items[..|items| - 1])
      + (if HasText(items[|items| - 1]) then [Str(Strip(items[|items| - 1].s))] else [])
  }

  function SafeFailure(f: Failure): Failure {
    if f.BadFailure? then Failure(Bool(false), Arr(true, []), Null, [])
    else Failure(Bool(Truthy(f.failed)),
                 Arr(true, if f.reasons.Arr? && f.reasons.isList then SafeReasons(f.reasons.items) else []),
                 TextOrNull(SafeText(f.errorClass)), [])
  }

  /** `_safe_authorization_decision`: the kept keys, at the top level only. */
  function KeptFields(fs: seq<Field>): seq<Field> {
    if fs == [] then []
    else
      (if fs[0].key in KEPT_AUTHORIZATION_FIELDS && fs[0].key !in FORBIDDEN_CONTENT_FIELDS then [fs[0]] else [])
      + KeptFields(fs[1..])
  }

  function SafeAuthorization(v: Json): Json {
    Obj(if v.Obj? then KeptFields(v.fields) else [])
  }

  /** What the receipt builder is given; `created` is the time stamp it writes. */
  datatype Draft = Draft(requestId: Json, searchId: Json, providerId: Json, providerType: Json, authorization: Json,
                         state: Json, performed: bool, externalCall: bool, cost: bool, timing: Timing,
                         bounds: Bounds, counts: Counts, failure: Failure, resultRef: Json, created: string)

  function ReceiptId(d: Draft): string
    requires HasText(d.requestId)
  {
    "external-search-execution:" + SafeText(d.requestId).value + ":"
    + (if HasText(d.providerId) then SafeText(d.providerId).value else "provider-unknown") + ":" + d.created
  }

  /** `build_external_search_execution_receipt`: `None` for its `ValueError`. */
  function BuildReceipt(d: Draft): Option<Receipt> {
    if !HasText(d.requestId) || !HasText(d.searchId) || !HasText(d.state) then None
    else
      Some(Receipt(
        {}, Str(RECEIPT_ARTIFACT), Str(ReceiptId(d)), Str("receipt:" + ReceiptId(d)),
        TextOrNull(SafeText(d.requestId)), TextOrNull(SafeText(d.searchId)), TextOrNull(SafeText(d.providerId)),
        TextOrNull(SafeText(d.providerType)), Str("external_search"), SafeAuthorization(d.authorization),
        TextOrNull(SafeText(d.state)), Bool(d.performed), Bool(d.externalCall), Bool(d.cost), SafeTiming(d.timing),
        SafeBounds(d.bounds), SafeCounts(d.counts), SafeFailure(d.failure), TextOrNull(SafeText(d.resultRef)),
        Str(d.created), []))
  }

  predicate ChangesWhenLowered(s: string) {
    exists i :: 0 <= i < |s| && LowerChar(s[i]) != s[i]
  }

  lemma LowerUnchanged(s: string)
    requires !ChangesWhenLowered(s)
    ensures Lower(s) == s
  {
  }

  lemma KeptLowerCase(key: string)
    requires key in {"provider_id", "resource_id", "semantic_type", "authorization_state", "authorization_status",
                     "live_provider_execution_authorized"}
    ensures !ChangesWhenLowered(key)
  {
  }

  lemma MoreKeptLowerCase(key: string)
    requires key in {"external_call_allowed", "cost_allowed", "audit_required", "fail_closed", "policy_id",
                     "governance_id", "binding_id", "contract_id", "skipped_reasons"}
    ensures !ChangesWhenLowered(key)
  {
  }

  lemma KeptNotForbidden()
    ensures KEPT_AUTHORIZATION_FIELDS !! FORBIDDEN_CONTENT_FIELDS
  {
  }

  /** No kept key of an authorization record is forbidden, in any case. */
  lemma KeptHarmless(key: string)
    requires key in KEPT_AUTHORIZATION_FIELDS
    ensures key !in FORBIDDEN_CONTENT_FIELDS && !ForbiddenKey(key)
  {
    KeptNotForbidden();
    if key in {"provider_id", "resource_id", "semantic_type", "authorization_state", "authorization_status",
               "live_provider_execution_authorized"} {
      KeptLowerCase(key);
    } else {
      MoreKeptLowerCase(key);
    }
    LowerUnchanged(key);
  }

  lemma RequiredKept(i: nat)
    requires i < |REQUIRED_AUTHORIZATION_FIELDS|
    ensures REQUIRED_AUTHORIZATION_FIELDS[i] in KEPT_AUTHORIZATION_FIELDS
  {
  }

  lemma {:induction false} KeptPresence(fs: seq<Field>, key: string)
    requires key in KEPT_AUTHORIZATION_FIELDS
    ensures HasKey(KeptFields(fs), key) <==> HasKey(fs, key)
  {
    KeptHarmless(key);
    if fs != [] {
      KeptPresence(fs[1..], key);
      HasKeyCons(fs, key);
      if fs[0].key in KEPT_AUTHORIZATION_FIELDS && fs[0].key !in FORBIDDEN_CONTENT_FIELDS {
        assert KeptFields(fs)[1..] == KeptFields(fs[1..]);
        HasKeyCons(KeptFields(fs), key);
      } else {
        assert KeptFields(fs) == KeptFields(fs[1..]);
      }
    }
  }

  lemma HasKeyCons(fs: seq<Field>, key: string)
    requires fs != []
    ensures HasKey(fs, key) <==> fs[0].key == key || HasKey(fs[1..], key)
  {
    if i :| 0 <= i < |fs| && fs[i].key == key && i > 0 {
      assert fs[1..][i - 1].key == key;
    }
    if i :| 0 <= i < |fs[1..]| && fs[1..][i].key == key {
      assert fs[i + 1].key == key;
    }
  }

  /** No kept field hides a forbidden key in its value. */
  ghost predicate KeptValuesFree(fs: seq<Field>) {
    forall i :: 0 <= i < |fs| && fs[i].key in KEPT_AUTHORIZATION_FIELDS ==> ContentFree(fs[i].value)
  }

  lemma FreeCons(f: Field, rest: seq<Field>)
    ensures FreeFields([f] + rest) <==> ContentFreeField(f) && FreeFields(rest)
  {
    assert ([f] + rest)[0] == f;
    assert forall i :: 0 <= i < |rest| ==> rest[i] == ([f] + rest)[i + 1];
    assert forall i :: 1 <= i < |rest| + 1 ==> ([f] + rest)[i] == rest[i - 1];
  }

  lemma KeptValuesCons(fs: seq<Field>)
    requires fs != []
    ensures KeptValuesFree(fs) <==>
              (fs[0].key in KEPT_AUTHORIZATION_FIELDS ==> ContentFree(fs[0].value)) && KeptValuesFree(fs[1..])
  {
    assert forall i :: 1 <= i < |fs| ==> fs[i] == fs[1..][i - 1];
  }

  lemma {:induction false} KeptContent(fs: seq<Field>)
    ensures FreeFields(KeptFields(fs)) <==> KeptValuesFree(fs)
  {
    if fs != [] {
      KeptContent(fs[1..]);
      KeptValuesCons(fs);
      if fs[0].key in KEPT_AUTHORIZATION_FIELDS {
        KeptHarmless(fs[0].key);
        FreeCons(fs[0], KeptFields(fs[1..]));
      } else {
        assert KeptFields(fs) == KeptFields(fs[1..]);
      }
    }
  }

  /** The authorization records a receipt can be built from. */
  ghost predicate Recordable(authorization: Json) {
    FullyAuthorized(authorization) && KeptValuesFree(authorization.fields)
  }

  lemma RequiredPresence(fs: seq<Field>)
    ensures FullyAuthorized(Obj(KeptFields(fs))) <==> FullyAuthorized(Obj(fs))
  {
    forall i | 0 <= i < |REQUIRED_AUTHORIZATION_FIELDS|
      ensures HasKey(KeptFields(fs), REQUIRED_AUTHORIZATION_FIELDS[i]) <==>
                HasKey(fs, REQUIRED_AUTHORIZATION_FIELDS[i])
    {
      RequiredKept(i);
      KeptPresence(fs, REQUIRED_AUTHORIZATION_FIELDS[i]);
    }
  }

  lemma NothingAuthorizesNothing()
    ensures !FullyAuthorized(Obj([]))
  {
    assert !HasKey([], REQUIRED_AUTHORIZATION_FIELDS[0]);
  }

  lemma SafeAuthorizationExact(v: Json)
    ensures FullyAuthorized(SafeAuthorization(v)) && ContentFree(SafeAuthorization(v)) <==> Recordable(v)
  {
    if v.Obj? {
      RequiredPresence(v.fields);
      KeptContent(v.fields);
    } else {
      NothingAuthorizesNothing();
    }
  }

  /** The failure details a state calls for. */
  ghost predicate FailureRecorded(f: Failure, state: string) {
    && (state == DISABLED || state == FAILED ==> f.Failure? && Truthy(f.failed))
    && (state == FAILED ==> HasText(f.errorClass))
  }

  lemma TopKeysAllowed()
    ensures TOP_KEYS !! FORBIDDEN_CONTENT_FIELDS
  {
  }

  lemma DetailKeysAllowed()
    ensures DETAIL_KEYS !! FORBIDDEN_CONTENT_FIELDS
  {
  }

  lemma IdentityKeysLowerCase(key: string)
    requires key in {"artifact_type", "receipt_id", "receipt_ref", "request_id", "search_id", "provider_id",
                     "provider_type", "semantic_type"}
    ensures !ChangesWhenLowered(key)
  {
  }

  lemma StateKeysLowerCase(key: string)
    requires key in {"execution_state", "execution_performed", "external_call_performed", "cost_incurred",
                     "result_artifact_ref"}
    ensures !ChangesWhenLowered(key)
  {
  }

  lemma PartKeysLowerCase(key: string)
    requires key in {"authorization_decision", "timing", "bounds", "normalized_result_metadata", "failure",
                     "created_at"}
    ensures !ChangesWhenLowered(key)
  {
  }

  lemma TimingKeysLowerCase(key: string)
    requires key in {"started_at", "completed_at", "duration_ms", "failed", "failure_reasons", "error_class"}
    ensures !ChangesWhenLowered(key)
  {
  }

  lemma BoundsKeysLowerCase(key: string)
    requires key in {"requested_max_results", "normalized_max_results", "timeout_ms"}
    ensures !ChangesWhenLowered(key)
  {
  }

  lemma PolicyKeysLowerCase(key: string)
    requires key in {"freshness_policy_present", "source_policy_present", "result_bounds_present"}
    ensures !ChangesWhenLowered(key)
  {
  }

  lemma CountKeysLowerCase(key: string)
    requires key in {"raw_result_count", "source_ref_count", "citation_count", "rejected_result_count"}
    ensures !ChangesWhenLowered(key)
  {
  }

  /** No fixed key of a receipt is forbidden, in any case. */
  lemma TopKeyHarmless(key: string)
    requires key in TOP_KEYS
    ensures !ForbiddenKey(key)
  {
    TopKeysAllowed();
    if key in {"artifact_type", "receipt_id", "receipt_ref", "request_id", "search_id", "provider_id",
               "provider_type", "semantic_type"} {
      IdentityKeysLowerCase(key);
    } else if key in {"execution_state", "execution_performed", "external_call_performed", "cost_incurred",
                      "result_artifact_ref"} {
      StateKeysLowerCase(key);
    } else {
      PartKeysLowerCase(key);
    }
    LowerUnchanged(key);
  }

  /** No fixed key of its parts is forbidden either. */
  lemma DetailKeyHarmless(key: string)
    requires key in DETAIL_KEYS
    ensures !ForbiddenKey(key)
  {
    DetailKeysAllowed();
    if key in {"started_at", "completed_at", "duration_ms", "failed", "failure_reasons", "error_class"} {
      TimingKeysLowerCase(key);
    } else if key in {"raw_result_count", "source_ref_count", "citation_count", "rejected_result_count"} {
      CountKeysLowerCase(key);
    } else if key in {"requested_max_results", "normalized_max_results", "timeout_ms"} {
      BoundsKeysLowerCase(key);
    } else {
      PolicyKeysLowerCase(key);
    }
    LowerUnchanged(key);
  }

  ghost predicate HarmlessKeys(fs: seq<Field>) {
    forall i :: 0 <= i < |fs| ==> !ForbiddenKey(fs[i].key)
  }

  lemma TopFieldsHarmless(fs: seq<Field>)
    requires forall i :: 0 <= i < |fs| ==> fs[i].key in TOP_KEYS
    ensures HarmlessKeys(fs)
  {
    forall i | 0 <= i < |fs| ensures !ForbiddenKey(fs[i].key) {
      TopKeyHarmless(fs[i].key);
    }
  }

  lemma DetailFieldsHarmless(fs: seq<Field>)
    requires forall i :: 0 <= i < |fs| ==> fs[i].key in DETAIL_KEYS
    ensures HarmlessKeys(fs)
  {
    forall i | 0 <= i < |fs| ensures !ForbiddenKey(fs[i].key) {
      DetailKeyHarmless(fs[i].key);
    }
  }

  lemma FreeAppend(a: seq<Field>, b: seq<Field>)
    ensures FreeFields(a + b) <==> FreeFields(a) && FreeFields(b)
  {
    assert forall i :: 0 <= i < |a| ==> (a + b)[i] == a[i];
    assert forall i :: 0 <= i < |b| ==> (a + b)[|a| + i] == b[i];
  }

  predicate Scalars(fs: seq<Field>) {
    forall i :: 0 <= i < |fs| ==> !fs[i].value.Arr? && !fs[i].value.Obj?
  }

  lemma ScalarsFree(fs: seq<Field>)
    requires HarmlessKeys(fs) && Scalars(fs)
    ensures FreeFields(fs)
  {
  }

  /** A part with harmless keys and scalar values is free up to its unknown fields. */
  lemma PartFree(fs: seq<Field>, others: seq<Field>)
    requires HarmlessKeys(fs) && Scalars(fs)
    ensures ContentFree(Obj(fs + others)) <==> FreeFields(others)
  {
    ScalarsFree(fs);
    FreeAppend(fs, others);
  }

  lemma TimingFree(t: Timing)
    requires GoodTiming(t)
    ensures ContentFree(TimingJson(t)) <==> FreeFields(t.others)
  {
    DetailFieldsHarmless(TimingFields(t));
    PartFree(TimingFields(t), t.others);
  }

  lemma BoundsFree(b: Bounds)
    requires GoodBounds(b)
    ensures ContentFree(BoundsJson(b)) <==> FreeFields(b.others)
  {
    DetailFieldsHarmless(BoundsFields(b));
    PartFree(BoundsFields(b), b.others);
  }

  lemma CountsFree(c: Counts)
    requires GoodCounts(c)
    ensures ContentFree(CountsJson(c)) <==> FreeFields(c.others)
  {
    DetailFieldsHarmless(CountFields(c));
    PartFree(CountFields(c), c.others);
  }

  lemma FailureFree(f: Failure, state: Json)
    requires GoodFailure(f, state)
    ensures ContentFree(FailureJson(f)) <==>
              ContentFree(f.reasons) && ContentFree(f.errorClass) && FreeFields(f.others)
  {
    var fs := FailureFields(f);
    DetailFieldsHarmless(fs);
    FreeAppend(fs, f.others);
    assert fs[0].value.Bool? && ContentFreeField(fs[0]);
    assert ContentFreeField(fs[1]) <==> ContentFree(f.reasons);
    assert ContentFreeField(fs[2]) <==> ContentFree(f.errorClass);
    assert FreeFields(fs) <==> ContentFreeField(fs[0]) && ContentFreeField(fs[1]) && ContentFreeField(fs[2]);
    assert ContentFree(Obj(fs + f.others)) <==> FreeFields(fs + f.others);
  }

  lemma IdentityFree(r: Receipt)
    requires GoodIdentity(r)
    ensures FreeFields(IdentityFields(r) + StateFields(r) + [Field("result_artifact_ref", r.resultRef)])
  {
    var last := [Field("result_artifact_ref", r.resultRef)];
    TopFieldsHarmless(IdentityFields(r));
    TopFieldsHarmless(StateFields(r));
    TopFieldsHarmless(last);
    ScalarsFree(IdentityFields(r));
    ScalarsFree(StateFields(r));
    ScalarsFree(last);
    FreeAppend(IdentityFields(r), StateFields(r));
    FreeAppend(IdentityFields(r) + StateFields(r), last);
  }

  lemma DetailsFree(r: Receipt)
    requires r.Receipt?
    ensures FreeFields(DetailFields(r)) <==>
              && ContentFree(r.authorization) && ContentFree(TimingJson(r.timing))
              && ContentFree(BoundsJson(r.bounds)) && ContentFree(CountsJson(r.counts))
              && ContentFree(FailureJson(r.failure)) && ContentFree(r.createdAt)
  {
    var fs := DetailFields(r);
    TopFieldsHarmless(fs);
    assert FreeFields(fs) <==>
        && ContentFreeField(fs[0]) && ContentFreeField(fs[1]) && ContentFreeField(fs[2])
        && ContentFreeField(fs[3]) && ContentFreeField(fs[4]) && ContentFreeField(fs[5]);
  }

  /** The parts of a receipt whose form no test fixes. */
  ghost predicate OpenPartsFree(r: Receipt)
    requires r.Receipt? && r.timing.Timing? && r.bounds.Bounds? && r.counts.Counts? && r.failure.Failure?
  {
    && ContentFree(r.authorization) && ContentFree(r.failure.reasons) && ContentFree(r.failure.errorClass)
    && ContentFree(r.createdAt)
    && FreeFields(r.timing.others) && FreeFields(r.bounds.others) && FreeFields(r.counts.others)
    && FreeFields(r.failure.others) && FreeFields(r.others)
  }

  /**
   Where forbidden keys can hide: in a receipt that passes the other tests only below the
   authorization record, the failure reasons, the error class, the creation time and unknown
   fields.
   */
  lemma ForbiddenOnlyInOpenParts(r: Receipt)
    requires GoodIdentity(r) && GoodTiming(r.timing) && GoodBounds(r.bounds) && GoodCounts(r.counts)
    requires GoodFailure(r.failure, r.state)
    ensures ContentFree(ReceiptJson(r)) <==> OpenPartsFree(r)
  {
    var head := IdentityFields(r) + StateFields(r) + [Field("result_artifact_ref", r.resultRef)];
    IdentityFree(r);
    DetailsFree(r);
    TimingFree(r.timing);
    BoundsFree(r.bounds);
    CountsFree(r.counts);
    FailureFree(r.failure, r.state);
    FreeAppend(head, DetailFields(r));
    FreeAppend(head + DetailFields(r), r.others);
  }

  lemma BuiltIdentity(d: Draft)
    requires BuildReceipt(d).Some?
    ensures GoodIdentity(BuildReceipt(d).value) <==> Strip(d.state.s) in ALLOWED_EXECUTION_STATES
  {
    var r := BuildReceipt(d).value;
    var id := ReceiptId(d);
    NotBlankAt(id, 0);
    NotBlankAt("receipt:" + id, 0);
    SafeTextNotBlank(d.requestId);
    SafeTextNotBlank(d.searchId);
    SafeTextNotBlank(d.providerId);
    SafeTextNotBlank(d.providerType);
    SafeTextNotBlank(d.resultRef);
  }

  lemma BuiltFailure(f: Failure, state: Json)
    requires HasText(state)
    ensures GoodFailure(SafeFailure(f), Str(Strip(state.s))) <==> FailureRecorded(f, Strip(state.s))
  {
    if f.Failure? {
      SafeTextNotBlank(f.errorClass);
    }
  }

  /** Which drafts the validator will accept once built. */
  ghost predicate Acceptable(d: Draft) {
    && HasText(d.state) && Strip(d.state.s) in ALLOWED_EXECUTION_STATES
    && d.timing.Timing? && HasText(d.timing.startedAt) && HasText(d.timing.completedAt)
    && FailureRecorded(d.failure, Strip(d.state.s)) && Recordable(d.authorization)
  }

  lemma BuiltDetails(d: Draft)
    ensures GoodTiming(SafeTiming(d.timing)) <==>
              d.timing.Timing? && HasText(d.timing.startedAt) && HasText(d.timing.completedAt)
    ensures GoodBounds(SafeBounds(d.bounds)) && GoodCounts(SafeCounts(d.counts))
  {
    if d.timing.Timing? {
      SafeTextNotBlank(d.timing.startedAt);
      SafeTextNotBlank(d.timing.completedAt);
    }
  }

  lemma BuiltContent(d: Draft)
    requires BuildReceipt(d).Some? && GoodIdentity(BuildReceipt(d).value)
    requires GoodTiming(SafeTiming(d.timing)) && GoodFailure(SafeFailure(d.failure), BuildReceipt(d).value.state)
    ensures ContentFree(ReceiptJson(BuildReceipt(d).value)) <==> ContentFree(SafeAuthorization(d.authorization))
  {
    BuiltDetails(d);
    ForbiddenOnlyInOpenParts(BuildReceipt(d).value);
    BuiltFailureFree(d.failure);
  }

  lemma BuiltFailureFree(f: Failure)
    ensures ContentFree(SafeFailure(f).reasons) && ContentFree(SafeFailure(f).errorClass)
  {
  }

  /** Every built receipt is accepted exactly when its draft is acceptable. */
  lemma BuiltReceiptExact(d: Draft)
    requires BuildReceipt(d).Some?
    ensures ReceiptProblems(BuildReceipt(d).value) == [] <==> Acceptable(d)
  {
    ReceiptExact(BuildReceipt(d).value);
    BuiltIdentity(d);
    BuiltDetails(d);
    BuiltFailure(d.failure, d.state);
    SafeAuthorizationExact(d.authorization);
    if GoodIdentity(BuildReceipt(d).value) && GoodTiming(SafeTiming(d.timing))
       && GoodFailure(SafeFailure(d.failure), BuildReceipt(d).value.state) {
      BuiltContent(d);
    }
  }
}
