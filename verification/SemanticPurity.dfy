/**
 The semantic purity record and the assertion its builder makes about it
 (runtime/governance/semantic_purity_diagnostics.py).
 */
module SemanticPurity {
  import opened Attachments
  import opened BoundaryTerms
  import opened ContentSafeProjection
  import opened JsonValues
  import opened NothingLost
  import opened Positions
  import opened Records
  import opened Text
  import opened ValidatorSupport
  import opened VisibilityConsistency
  import opened VisibilityIsolation
  import opened Wrappers

  const PURITY_CONTRACT_ID := "semantic_purity_visibility_v1"
  const PURITY_TYPE := "semantic_purity_visibility_diagnostic"

  /** What iterating over a diagnostic's `blocked_fields` yields, or `None` for a `TypeError`. */
  function Entries(item: Json): Option<seq<Json>> {
    if !item.Obj? || !HasKey(item.fields, "blocked_fields") then Some([])
    else
      match Get(item, "blocked_fields")
      case Arr(_, items) => Some(items)
      case Str(s) => Some(seq(|s|, i requires 0 <= i < |s| => Str([s[i]])))
      case Obj(fs) => Some(seq(|fs|, i requires 0 <= i < |fs| => Str(fs[i].key)))
      case _ => None
  }

  /** The nonblank texts among the entries of one diagnostic. */
  function EntryTexts(entries: seq<Json>): seq<string> {
    if entries == [] then []
    else
      var n := |entries| - 1;
      EntryTexts(entries[..n]) + TextOf(entries[n])
  }

  function Tag(prefix: string, index: nat, texts: seq<string>): seq<string> {
    Prefixed(prefix + "[" + Decimal(index) + "].", texts)
  }

  /** `_blocked_fields`. */
  function BlockedOf(prefix: string, items: seq<Json>): Option<seq<string>> {
    if items == [] then Some([])
    else
      var n := |items| - 1;
      var before, entries := BlockedOf(prefix, items[..n]), Entries(items[n]);
      if before.None? || entries.None? then None
      else Some(before.value + Tag(prefix, n, EntryTexts(entries.value)))
  }

  method CollectBlocked(prefix: string, items: seq<Json>) returns (blocked: Option<seq<string>>)
    ensures blocked == BlockedOf(prefix, items)
  {
    var found := [];
    for index := 0 to |items|
      invariant BlockedOf(prefix, items[..index]) == Some(found)
    {
      assert items[..index + 1][..index] == items[..index];
      var entries := Entries(items[index]);
      if entries.None? {
        BlockedPrefixNone(prefix, items, index + 1);
        return None;
      }
      var texts := CollectTexts(entries.value);
      found := found + Tag(prefix, index, texts);
    }
    assert items[..|items|] == items;
    blocked := Some(found);
  }

  method CollectTexts(entries: seq<Json>) returns (texts: seq<string>)
    ensures texts == EntryTexts(entries)
  {
    texts := [];
    for i := 0 to |entries|
      invariant texts == EntryTexts(entries[..i])
    {
      assert entries[..i + 1][..i] == entries[..i];
      var text := SafeText(entries[i]);
      if text.Some? {
        texts := texts + [text.value];
      }
    }
    assert entries[..|entries|] == entries;
  }

  lemma {:induction false} BlockedPrefixNone(prefix: string, items: seq<Json>, n: nat)
    requires n <= |items| && BlockedOf(prefix, items[..n]).None?
    ensures BlockedOf(prefix, items).None?
    decreases |items| - n
  {
    if n == |items| {
      assert items[..n] == items;
    } else {
      assert items[..n + 1][..n] == items[..n];
      BlockedPrefixNone(prefix, items, n + 1);
    }
  }

  predicate Says(item: Json, verdict: bool) {
    Get(item, "allowed") == Bool(verdict)
  }

  function CountSaying(items: seq<Json>, verdict: bool): nat {
    |set i | 0 <= i < |items| && Says(items[i], verdict)|
  }

  function EntryCount(item: Json): nat {
    if Entries(item).Some? then |Entries(item).value| else 0
  }

  function EntryCounts(items: seq<Json>): nat {
    if items == [] then 0 else EntryCounts(items[..|items| - 1]) + EntryCount(items[|items| - 1])
  }

  /** `_summary`. */
  function Summary(items: seq<Json>): Json {
    Obj([ Field("checked_count", Num(|items|)),
          Field("allowed_count", Num(CountSaying(items, true))),
          Field("blocked_count", Num(CountSaying(items, false))),
          Field("blocked_field_count", Num(EntryCounts(items))) ])
  }

  /** `build_content_safe_projection`. */
  function ProjectionOf(payload: Json, name: Json, receiptRefs: seq<string>): Json {
    Obj([ Field("projection_type", Str("content_safe_projection")),
          Field("projection_label", Str(if SafeText(name).Some? then SafeText(name).value else "runtime_payload")),
          Field("content_safe", Bool(true)),
          Field("content_values_included", Bool(false)),
          Field("content_fields_suppressed", Bool(true)),
          Field("suppressed_content_field_paths", ListedPaths(payload, true)),
          Field("observed_non_content_field_paths", ListedPaths(payload, false)),
          Field("receipt_refs", TextList(Unique(receiptRefs))) ])
  }

  function ListedPaths(payload: Json, includeContent: bool): Json {
    TextList(if payload.Obj? then FieldPathsOf(payload, FORBIDDEN_CONTENT_FIELDS, includeContent, "") else [])
  }

  /** The diagnostics given to the builder, with non-dictionaries dropped. */
  datatype Inputs = Inputs(helper: seq<Json>, substrate: seq<Json>, attachment: seq<Json>)
  {
    function All(): seq<Json> {
      helper + substrate + attachment
    }

    function Blocked(): Option<seq<string>> {
      var h, s, a := BlockedOf("helper", helper), BlockedOf("substrate", substrate),
                     BlockedOf("attachment", attachment);
      if h.Some? && s.Some? && a.Some? then Some(h.value + s.value + a.value) else None
    }

    function Refused(): Refusals {
      Refusals(SomeRefused(substrate), SomeRefused(helper), SomeRefused(attachment))
    }

    predicate AllAllowed() {
      forall i :: 0 <= i < |All()| ==> Says(All()[i], true)
    }
  }

  predicate SomeRefused(items: seq<Json>) {
    exists i :: 0 <= i < |items| && Says(items[i], false)
  }

  function PurityHead(source: Json, allowed: bool): seq<Field> {
    [ Field("contract_id", Str(PURITY_CONTRACT_ID)),
      Field("diagnostic_type", Str(PURITY_TYPE)),
      Field("source", Str(if SafeText(source).Some? then SafeText(source).value else "semantic_purity_visibility")),
      Field("allowed", Bool(allowed)) ]
  }

  /** Which groups hold a refusal. */
  datatype Refusals = Refusals(substrate: bool, helper: bool, attachment: bool)

  function PurityFlags(allowed: bool, r: Refusals): seq<Field> {
    [ Field("content_safe", Bool(true)),
      Field("observational_only", Bool(true)),
      Field("planner_semantic_authority", Bool(false)),
      Field("semantic_purity_preserved", Bool(allowed)),
      Field("substrate_leakage_detected", Bool(r.substrate)),
      Field("helper_boundary_violation_detected", Bool(r.helper)),
      Field("attachment_path_violation_detected", Bool(r.attachment)),
      Field("hidden_context_injection_performed", Bool(false)),
      Field("hidden_routing_performed", Bool(false)),
      Field("hidden_attachment_performed", Bool(false)),
      Field("planner_mutation_performed", Bool(false)),
      Field("memory_write_performed", Bool(false)),
      Field("hidden_autonomy_escalation_performed", Bool(false)) ]
  }

  /** The nested values of the record. */
  datatype Details = Details(blocked: Json, helper: Json, substrate: Json, attachment: Json, projection: Json,
                             skipped: Json)

  function PurityTail(allowed: bool, d: Details): seq<Field> {
    [ Field("blocked_fields", d.blocked),
      Field("helper_boundary_summary", d.helper),
      Field("substrate_boundary_summary", d.substrate),
      Field("attachment_path_summary", d.attachment),
      Field("content_safe_projection", d.projection),
      Field("skipped_reasons", d.skipped),
      Field("reason", Str(if allowed then "Semantic purity diagnostics are observational and content-safe."
                          else "Semantic purity diagnostics report boundary violations.")) ]
  }

  function PurityRecord(source: Json, allowed: bool, r: Refusals, d: Details): Json {
    Obj(PurityHead(source, allowed) + PurityFlags(allowed, r) + PurityTail(allowed, d))
  }

  predicate PurityAllowed(inputs: Inputs, blocked: seq<string>) {
    Unique(blocked) == [] && inputs.AllAllowed()
  }

  function DetailsOf(inputs: Inputs, blocked: seq<string>, projection: Json): Details {
    Details(TextList(Unique(blocked)), Summary(inputs.helper), Summary(inputs.substrate),
            Summary(inputs.attachment), if projection.Obj? then projection else ProjectionOf(Null, Null, []),
            TextList(if PurityAllowed(inputs, blocked) then [] else ["semantic_purity_visibility_violation"]))
  }

  function PurityOf(inputs: Inputs, source: Json, projection: Json, blocked: seq<string>): Json {
    PurityRecord(source, PurityAllowed(inputs, blocked), inputs.Refused(), DetailsOf(inputs, blocked, projection))
  }

  datatype Outcome = Built(record: Json) | BadBlockedFields | AssertionRaised

  /** `build_semantic_purity_diagnostic`. */
  function BuildPurity(inputs: Inputs, source: Json, projection: Json): Outcome {
    var blocked := inputs.Blocked();
    if blocked.None? then BadBlockedFields
    else
      var record := PurityOf(inputs, source, projection, blocked.value);
      if AttachmentAllowed(record, "operator_report") then Built(record) else AssertionRaised
  }

  const PURITY_KEYS := {
    "contract_id", "diagnostic_type", "source", "allowed", "content_safe", "observational_only",
    "semantic_purity_preserved", "substrate_leakage_detected", "helper_boundary_violation_detected",
    "attachment_path_violation_detected", "hidden_context_injection_performed", "hidden_routing_performed",
    "hidden_attachment_performed", "planner_mutation_performed", "memory_write_performed",
    "hidden_autonomy_escalation_performed", "blocked_fields", "helper_boundary_summary",
    "substrate_boundary_summary", "attachment_path_summary", "content_safe_projection", "skipped_reasons", "reason"
  }

  const PURITY_TAIL_KEYS := {
    "blocked_fields", "helper_boundary_summary", "substrate_boundary_summary", "attachment_path_summary",
    "content_safe_projection", "skipped_reasons", "reason"
  }

  const NESTED_KEYS := {
    "checked_count", "allowed_count", "blocked_count", "blocked_field_count", "projection_type", "projection_label",
    "content_safe", "content_values_included", "content_fields_suppressed", "suppressed_content_field_paths",
    "observed_non_content_field_paths", "receipt_refs"
  }

  lemma PurityContentSpared()
    ensures Spares(CONTENT_RULE, PURITY_KEYS)
  {
  }

  lemma PurityAuthoritySpared()
    ensures Spares(SEMANTIC_RULE, PURITY_KEYS)
  {
  }

  lemma NestedContentSpared()
    ensures Spares(CONTENT_RULE, NESTED_KEYS)
  {
  }

  lemma NestedAuthoritySpared()
    ensures Spares(SEMANTIC_RULE, NESTED_KEYS)
  {
  }

  lemma TailSpared(rule: Rule)
    requires Spares(rule, PURITY_KEYS)
    ensures Spares(rule, PURITY_TAIL_KEYS)
  {
  }

  lemma PurityHeadShape(source: Json, allowed: bool, rule: Rule)
    requires Spares(rule, PURITY_KEYS)
    ensures var head := PurityHead(source, allowed);
            && Unwatched(head) && QuietAll(head, rule)
            && FirstAt(head, 1, Field("diagnostic_type", Str(PURITY_TYPE)))
  {
  }

  lemma PurityFlagsQuiet(allowed: bool, r: Refusals, rule: Rule)
    requires Spares(rule, PURITY_KEYS)
    ensures QuietAll(PurityFlags(allowed, r), rule)
  {
  }

  lemma PurityFlagsUnset(allowed: bool, r: Refusals, i: nat)
    requires i < |PurityFlags(allowed, r)| && PurityFlags(allowed, r)[i].key in MUTATION_FLAGS
    ensures PurityFlags(allowed, r)[i].value == Bool(false)
  {
  }

  lemma PurityFlagsAreDiagnostic(allowed: bool, r: Refusals)
    ensures DiagnosticFlags(PurityFlags(allowed, r))
  {
    var flags := PurityFlags(allowed, r);
    forall i: nat | i < |flags| && flags[i].key in MUTATION_FLAGS ensures flags[i].value == Bool(false) {
      PurityFlagsUnset(allowed, r, i);
    }
    assert FirstAt(flags, 1, Field("observational_only", Bool(true)));
    assert FirstAt(flags, 7, Field("hidden_context_injection_performed", Bool(false)));
    assert FirstAt(flags, 2, Field("planner_semantic_authority", Bool(false)));
  }

  /** Everything nested but the projection. */
  ghost predicate DetailsQuiet(d: Details, rule: Rule) {
    && Quiet(d.blocked, rule) && Quiet(d.helper, rule) && Quiet(d.substrate, rule) && Quiet(d.attachment, rule)
    && Quiet(d.skipped, rule)
  }

  lemma PurityTailUnwatched(allowed: bool, d: Details)
    ensures Unwatched(PurityTail(allowed, d))
  {
  }

  lemma PurityTailShape(allowed: bool, d: Details, rule: Rule)
    requires Spares(rule, PURITY_TAIL_KEYS) && DetailsQuiet(d, rule) && Quiet(d.projection, rule)
    ensures var tail := PurityTail(allowed, d);
            Unwatched(tail) && QuietAll(tail, rule)
  {
    PurityTailUnwatched(allowed, d);
  }

  lemma SummaryQuiet(items: seq<Json>, rule: Rule)
    requires Spares(rule, NESTED_KEYS)
    ensures Quiet(Summary(items), rule)
  {
  }

  /** A projection made by the projection builder carries neither content nor authority keys. */
  lemma ProjectionQuiet(payload: Json, name: Json, receiptRefs: seq<string>, rule: Rule)
    requires Spares(rule, NESTED_KEYS)
    ensures Quiet(ProjectionOf(payload, name, receiptRefs), rule)
  {
    TextListQuiet(Unique(receiptRefs), rule);
    TextListQuiet(if payload.Obj? then FieldPathsOf(payload, FORBIDDEN_CONTENT_FIELDS, true, "") else [], rule);
    TextListQuiet(if payload.Obj? then FieldPathsOf(payload, FORBIDDEN_CONTENT_FIELDS, false, "") else [], rule);
  }

  lemma PurityShape(source: Json, allowed: bool, r: Refusals, d: Details, rule: Rule)
    requires Spares(rule, PURITY_KEYS) && DetailsQuiet(d, rule) && Quiet(d.projection, rule)
    ensures var head := PurityHead(source, allowed);
            && Unwatched(head) && QuietAll(head, rule)
            && FirstAt(head, 1, Field("diagnostic_type", Str(PURITY_TYPE)))
    ensures QuietAll(PurityFlags(allowed, r), rule)
    ensures Unwatched(PurityTail(allowed, d)) && QuietAll(PurityTail(allowed, d), rule)
  {
    PurityHeadShape(source, allowed, rule);
    PurityFlagsQuiet(allowed, r, rule);
    TailSpared(rule);
    PurityTailShape(allowed, d, rule);
  }

  lemma PurityRecordClean(source: Json, allowed: bool, r: Refusals, d: Details)
    requires DetailsQuiet(d, CONTENT_RULE) && DetailsQuiet(d, SEMANTIC_RULE)
    requires Quiet(d.projection, CONTENT_RULE) && Quiet(d.projection, SEMANTIC_RULE)
    ensures CleanDiagnostic(PurityRecord(source, allowed, r, d))
  {
    PurityContentSpared();
    PurityAuthoritySpared();
    PurityShape(source, allowed, r, d, CONTENT_RULE);
    PurityShape(source, allowed, r, d, SEMANTIC_RULE);
    PurityFlagsAreDiagnostic(allowed, r);
    NotBlankAt(PURITY_TYPE, 0);
    CleanDiagnosticRecord(PurityHead(source, allowed), PurityFlags(allowed, r), PurityTail(allowed, d), PURITY_TYPE);
  }

  lemma DetailsAreQuiet(inputs: Inputs, blocked: seq<string>, projection: Json, rule: Rule)
    requires Spares(rule, NESTED_KEYS)
    ensures DetailsQuiet(DetailsOf(inputs, blocked, projection), rule)
    ensures !projection.Obj? ==> Quiet(DetailsOf(inputs, blocked, projection).projection, rule)
  {
    TextListQuiet(Unique(blocked), rule);
    TextListQuiet(if PurityAllowed(inputs, blocked) then [] else ["semantic_purity_visibility_violation"], rule);
    SummaryQuiet(inputs.helper, rule);
    SummaryQuiet(inputs.substrate, rule);
    SummaryQuiet(inputs.attachment, rule);
    ProjectionQuiet(Null, Null, [], rule);
  }

  lemma PurityKind(source: Json, allowed: bool, r: Refusals, d: Details)
    ensures KindOf(PurityRecord(source, allowed, r, d)).DiagnosticSurface?
  {
    var record := PurityRecord(source, allowed, r, d);
    LookupFirst(record.fields, 1, Field("diagnostic_type", Str(PURITY_TYPE)));
    NotBlankAt(PURITY_TYPE, 0);
  }

  /** A clean record has a clean projection. */
  lemma ProjectionInside(source: Json, allowed: bool, r: Refusals, d: Details, rule: Rule)
    requires Quiet(PurityRecord(source, allowed, r, d), rule)
    ensures Quiet(d.projection, rule)
  {
    var fs := PurityRecord(source, allowed, r, d).fields;
    assert fs[21] == Field("content_safe_projection", d.projection);
    assert QuietField(fs[21], rule);
  }

  /** The projection a caller supplies carries no content and no authority key. */
  ghost predicate SafeProjection(projection: Json) {
    projection.Obj? ==> Quiet(projection, CONTENT_RULE) && Quiet(projection, SEMANTIC_RULE)
  }

  lemma PurityAttachable(inputs: Inputs, source: Json, projection: Json, blocked: seq<string>)
    ensures AttachmentAllowed(PurityOf(inputs, source, projection, blocked), "operator_report") <==>
              SafeProjection(projection)
  {
    var allowed, r, d := PurityAllowed(inputs, blocked), inputs.Refused(), DetailsOf(inputs, blocked, projection);
    var record := PurityRecord(source, allowed, r, d);
    NestedContentSpared();
    NestedAuthoritySpared();
    DetailsAreQuiet(inputs, blocked, projection, CONTENT_RULE);
    DetailsAreQuiet(inputs, blocked, projection, SEMANTIC_RULE);
    if SafeProjection(projection) {
      PurityRecordClean(source, allowed, r, d);
      OperatorReportTakes(record);
    }
    if AttachmentAllowed(record, "operator_report") {
      PurityKind(source, allowed, r, d);
      AttachDiagnostic(record, "operator_report");
      ProjectionInside(source, allowed, r, d, CONTENT_RULE);
      ProjectionInside(source, allowed, r, d, SEMANTIC_RULE);
    }
  }

  /**
   The builder's assertion about its own record fires exactly for a supplied projection with
   a content or authority key, whatever the diagnostics say.
   */
  lemma PurityAssertionExact(inputs: Inputs, source: Json, projection: Json)
    requires inputs.Blocked().Some?
    ensures BuildPurity(inputs, source, projection) == AssertionRaised <==> !SafeProjection(projection)
  {
    PurityAttachable(inputs, source, projection, inputs.Blocked().value);
  }

  /** It never fires for a projection the projection builder made, or for none. */
  lemma PurityAssertionNeverFires(inputs: Inputs, source: Json, payload: Json, name: Json, receiptRefs: seq<string>)
    ensures BuildPurity(inputs, source, ProjectionOf(payload, name, receiptRefs)) != AssertionRaised
    ensures BuildPurity(inputs, source, Null) != AssertionRaised
  {
    if inputs.Blocked().Some? {
      NestedContentSpared();
      NestedAuthoritySpared();
      ProjectionQuiet(payload, name, receiptRefs, CONTENT_RULE);
      ProjectionQuiet(payload, name, receiptRefs, SEMANTIC_RULE);
      PurityAssertionExact(inputs, source, ProjectionOf(payload, name, receiptRefs));
      PurityAssertionExact(inputs, source, Null);
    }
  }

  lemma {:induction false} BlockedTagged(prefix: string, items: seq<Json>)
    requires prefix != "" && !IsSpace(prefix[0]) && BlockedOf(prefix, items).Some?
    ensures Visible(BlockedOf(prefix, items).value)
  {
    if items != [] {
      var n := |items| - 1;
      BlockedTagged(prefix, items[..n]);
      PrefixedVisible(prefix + "[" + Decimal(n) + "].", EntryTexts(Entries(items[n]).value));
    }
  }

  /** The nonblank texts a diagnostic lists as blocked. */
  function BlockedTexts(item: Json): seq<string> {
    if Entries(item).Some? then EntryTexts(Entries(item).value) else []
  }

  /** No diagnostic lists a nonblank blocked field. */
  ghost predicate NoneBlocked(items: seq<Json>) {
    forall i :: 0 <= i < |items| ==> BlockedTexts(items[i]) == []
  }

  lemma BlockedStep(prefix: string, items: seq<Json>)
    requires items != [] && BlockedOf(prefix, items).Some?
    ensures var init := items[..|items| - 1];
            && BlockedOf(prefix, init).Some?
            && (BlockedOf(prefix, items).value == [] <==>
                  BlockedOf(prefix, init).value == [] && BlockedTexts(items[|items| - 1]) == [])
  {
  }

  lemma {:induction false} BlockedNone(prefix: string, items: seq<Json>)
    requires BlockedOf(prefix, items).Some?
    ensures BlockedOf(prefix, items).value == [] <==> NoneBlocked(items)
  {
    if items != [] {
      BlockedStep(prefix, items);
      BlockedNone(prefix, items[..|items| - 1]);
      NoneBlockedStep(items);
    }
  }

  lemma NoneBlockedStep(items: seq<Json>)
    requires items != []
    ensures NoneBlocked(items) <==> NoneBlocked(items[..|items| - 1]) && BlockedTexts(items[|items| - 1]) == []
  {
    assert forall i :: 0 <= i < |items| - 1 ==> items[..|items| - 1][i] == items[i];
  }

  /** The record says allowed exactly when every diagnostic does and none lists a blocked field. */
  lemma PurityVerdictExact(inputs: Inputs)
    requires inputs.Blocked().Some?
    ensures PurityAllowed(inputs, inputs.Blocked().value) <==>
              inputs.AllAllowed() && NoneBlocked(inputs.helper) && NoneBlocked(inputs.substrate)
              && NoneBlocked(inputs.attachment)
  {
    var h, s, a := BlockedOf("helper", inputs.helper).value, BlockedOf("substrate", inputs.substrate).value,
                   BlockedOf("attachment", inputs.attachment).value;
    BlockedTagged("helper", inputs.helper);
    BlockedTagged("substrate", inputs.substrate);
    BlockedTagged("attachment", inputs.attachment);
    VisibleAppend(h, s);
    VisibleAppend(h + s, a);
    UniqueKeepsOne(h + s + a);
    BlockedNone("helper", inputs.helper);
    BlockedNone("substrate", inputs.substrate);
    BlockedNone("attachment", inputs.attachment);
    assert |h + s + a| == |h| + |s| + |a|;
  }
}
