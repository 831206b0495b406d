/** What the semantic purity record says, said about the diagnostics it is built from. */
module PurityContents {
  import opened BoundaryTerms
  import opened ContentSafeProjection
  import opened JsonValues
  import opened Records
  import opened SemanticPurity
  import opened Sequences
  import opened Text
  import opened ValidatorSupport
  import opened VisibilityConsistency
  import opened Wrappers

  /** What a diagnostic lists as blocked: entries of a list, characters of a text, keys of a dictionary. */
  ghost predicate Lists(item: Json, entry: Json) {
    item.Obj? && HasKey(item.fields, "blocked_fields") &&
    match Get(item, "blocked_fields")
    case Arr(_, items) => entry in items
    case Str(s) => exists i :: 0 <= i < |s| && entry == Str([s[i]])
    case Obj(fs) => exists i :: 0 <= i < |fs| && entry == Str(fs[i].key)
    case _ => false
  }

  /** A value that cannot be iterated over. */
  ghost predicate Unlistable(item: Json) {
    && item.Obj? && HasKey(item.fields, "blocked_fields")
    && (Get(item, "blocked_fields").Null? || Get(item, "blocked_fields").Bool? || Get(item, "blocked_fields").Num?)
  }

  /** The diagnostic lists nothing that can be read. */
  ghost predicate ListsNothing(item: Json) {
    forall entry :: Lists(item, entry) ==> !(entry.Str? && !Blank(entry.s))
  }

  lemma EntriesExactly(item: Json)
    ensures Entries(item).None? <==> Unlistable(item)
    ensures Entries(item).Some? ==> forall entry :: entry in Entries(item).value <==> Lists(item, entry)
  {
    if item.Obj? && HasKey(item.fields, "blocked_fields") {
      var listed := Get(item, "blocked_fields");
      match listed
      case Str(s) =>
        forall entry ensures entry in Entries(item).value <==> Lists(item, entry) {
          if i :| 0 <= i < |s| && entry == Str([s[i]]) {
            assert Entries(item).value[i] == entry;
          }
        }
      case Obj(fs) =>
        forall entry ensures entry in Entries(item).value <==> Lists(item, entry) {
          if i :| 0 <= i < |fs| && entry == Str(fs[i].key) {
            assert Entries(item).value[i] == entry;
          }
        }
      case _ =>
    }
  }

  lemma {:induction false} BlockedRaises(prefix: string, items: seq<Json>)
    ensures BlockedOf(prefix, items).None? <==> exists i :: 0 <= i < |items| && Unlistable(items[i])
  {
    if items != [] {
      var n := |items| - 1;
      BlockedRaises(prefix, items[..n]);
      EntriesExactly(items[n]);
      assert forall i :: 0 <= i < n ==> items[..n][i] == items[i];
    }
  }

  lemma {:induction false} NoTextsExactly(entries: seq<Json>)
    ensures EntryTexts(entries) == [] <==> forall entry :: entry in entries ==> !(entry.Str? && !Blank(entry.s))
  {
    if entries != [] {
      var n := |entries| - 1;
      NoTextsExactly(entries[..n]);
      assert entries == entries[..n] + [entries[n]];
    }
  }

  lemma ListsNothingExactly(item: Json)
    requires Entries(item).Some?
    ensures BlockedTexts(item) == [] <==> ListsNothing(item)
  {
    EntriesExactly(item);
    NoTextsExactly(Entries(item).value);
  }

  ghost predicate SaysAllowed(item: Json) {
    Get(item, "allowed") == Bool(true)
  }

  ghost predicate SaysRefused(item: Json) {
    Get(item, "allowed") == Bool(false)
  }

  /** Every diagnostic of the group is allowed and lists nothing. */
  ghost predicate GroupClean(items: seq<Json>) {
    forall i :: 0 <= i < |items| ==> SaysAllowed(items[i]) && ListsNothing(items[i])
  }

  ghost predicate GroupListable(items: seq<Json>) {
    forall i :: 0 <= i < |items| ==> !Unlistable(items[i])
  }

  ghost predicate GroupRefused(items: seq<Json>) {
    exists i :: 0 <= i < |items| && SaysRefused(items[i])
  }

  ghost predicate GroupAllowed(items: seq<Json>) {
    forall i :: 0 <= i < |items| ==> SaysAllowed(items[i])
  }

  lemma GroupVerdict(items: seq<Json>)
    ensures GroupListable(items) ==> (GroupAllowed(items) && NoneBlocked(items) <==> GroupClean(items))
  {
    if GroupListable(items) {
      forall i | 0 <= i < |items| ensures BlockedTexts(items[i]) == [] <==> ListsNothing(items[i]) {
        EntriesExactly(items[i]);
        ListsNothingExactly(items[i]);
      }
    }
  }

  lemma AllGroupsAllowed(inputs: Inputs)
    ensures inputs.AllAllowed() <==>
              GroupAllowed(inputs.helper) && GroupAllowed(inputs.substrate) && GroupAllowed(inputs.attachment)
  {
    var h, s, a, all := inputs.helper, inputs.substrate, inputs.attachment, inputs.All();
    assert forall i :: 0 <= i < |h| ==> all[i] == h[i];
    assert forall i :: 0 <= i < |s| ==> all[|h| + i] == s[i];
    assert forall i :: 0 <= i < |a| ==> all[|h| + |s| + i] == a[i];
  }

  ghost predicate Listable(inputs: Inputs) {
    GroupListable(inputs.helper) && GroupListable(inputs.substrate) && GroupListable(inputs.attachment)
  }

  ghost predicate Clean(inputs: Inputs) {
    GroupClean(inputs.helper) && GroupClean(inputs.substrate) && GroupClean(inputs.attachment)
  }

  lemma BlockedExactly(inputs: Inputs)
    ensures inputs.Blocked().Some? <==> Listable(inputs)
  {
    BlockedRaises("helper", inputs.helper);
    BlockedRaises("substrate", inputs.substrate);
    BlockedRaises("attachment", inputs.attachment);
  }

  /** The builder raises exactly for a `blocked_fields` value that cannot be iterated over. */
  lemma RaisesExactly(inputs: Inputs, source: Json, projection: Json)
    ensures BuildPurity(inputs, source, projection) == BadBlockedFields <==> !Listable(inputs)
  {
    BlockedExactly(inputs);
  }

  lemma GroupsVerdict(inputs: Inputs)
    ensures Listable(inputs) ==>
              (Clean(inputs) <==>
                 inputs.AllAllowed() && NoneBlocked(inputs.helper) && NoneBlocked(inputs.substrate)
                 && NoneBlocked(inputs.attachment))
  {
    AllGroupsAllowed(inputs);
    GroupVerdict(inputs.helper);
    GroupVerdict(inputs.substrate);
    GroupVerdict(inputs.attachment);
  }

  /** The verdict on the raw diagnostics. */
  lemma VerdictExactly(inputs: Inputs)
    requires inputs.Blocked().Some?
    ensures PurityAllowed(inputs, inputs.Blocked().value) <==> Clean(inputs)
  {
    BlockedExactly(inputs);
    PurityVerdictExact(inputs);
    GroupsVerdict(inputs);
  }

  lemma HeadHas(source: Json, allowed: bool)
    ensures Field("allowed", Bool(allowed)) in PurityHead(source, allowed)
  {
    assert PurityHead(source, allowed)[3] in PurityHead(source, allowed);
  }

  lemma FlagsHave(allowed: bool, r: Refusals)
    ensures var flags := PurityFlags(allowed, r);
            && Field("semantic_purity_preserved", Bool(allowed)) in flags
            && Field("substrate_leakage_detected", Bool(r.substrate)) in flags
            && Field("helper_boundary_violation_detected", Bool(r.helper)) in flags
            && Field("attachment_path_violation_detected", Bool(r.attachment)) in flags
  {
    var flags := PurityFlags(allowed, r);
    assert flags[3] in flags && flags[4] in flags && flags[5] in flags && flags[6] in flags;
  }

  /** The fixed flags: the record is safe and observational, and nothing hidden was done. */
  ghost predicate Harmless(fields: seq<Field>) {
    && Field("content_safe", Bool(true)) in fields && Field("observational_only", Bool(true)) in fields
    && Field("planner_semantic_authority", Bool(false)) in fields
    && Field("hidden_context_injection_performed", Bool(false)) in fields
    && Field("hidden_routing_performed", Bool(false)) in fields
    && Field("hidden_attachment_performed", Bool(false)) in fields
    && Field("planner_mutation_performed", Bool(false)) in fields
    && Field("memory_write_performed", Bool(false)) in fields
    && Field("hidden_autonomy_escalation_performed", Bool(false)) in fields
  }

  lemma FixedFlags(allowed: bool, r: Refusals)
    ensures Harmless(PurityFlags(allowed, r))
  {
    var flags := PurityFlags(allowed, r);
    assert flags[0] in flags && flags[1] in flags && flags[2] in flags && flags[7] in flags && flags[8] in flags;
    assert flags[9] in flags && flags[10] in flags && flags[11] in flags && flags[12] in flags;
  }

  lemma HarmlessWithin(some: seq<Field>, all: seq<Field>)
    requires Harmless(some) && forall f :: f in some ==> f in all
    ensures Harmless(all)
  {
  }

  lemma RefusedExactly(inputs: Inputs)
    ensures inputs.Refused()
         == Refusals(GroupRefused(inputs.substrate), GroupRefused(inputs.helper), GroupRefused(inputs.attachment))
  {
  }

  lemma InRecord(source: Json, allowed: bool, refused: Refusals, d: Details)
    ensures forall f :: f in PurityHead(source, allowed) || f in PurityFlags(allowed, refused) ==>
              f in PurityRecord(source, allowed, refused, d).fields
  {
    forall f | f in PurityHead(source, allowed) || f in PurityFlags(allowed, refused)
      ensures f in PurityRecord(source, allowed, refused, d).fields
    {
      InThree(f, PurityHead(source, allowed), PurityFlags(allowed, refused), PurityTail(allowed, d));
    }
  }

  /** What a record says of the verdict and of the refusals in each group. */
  ghost predicate Reports(r: Json, allowed: bool, refused: Refusals) {
    && r.Obj? && Harmless(r.fields)
    && Has(r, "allowed", Bool(allowed)) && Has(r, "semantic_purity_preserved", Bool(allowed))
    && Has(r, "substrate_leakage_detected", Bool(refused.substrate))
    && Has(r, "helper_boundary_violation_detected", Bool(refused.helper))
    && Has(r, "attachment_path_violation_detected", Bool(refused.attachment))
  }

  lemma RecordReports(source: Json, allowed: bool, refused: Refusals, d: Details)
    ensures Reports(PurityRecord(source, allowed, refused, d), allowed, refused)
  {
    HeadHas(source, allowed);
    FlagsHave(allowed, refused);
    InRecord(source, allowed, refused, d);
    FixedFlags(allowed, refused);
    HarmlessWithin(PurityFlags(allowed, refused), PurityRecord(source, allowed, refused, d).fields);
  }

  /**
   The record over readable diagnostics: allowed, and purity preserved, exactly when every
   diagnostic of every group is allowed and lists nothing; each group has its own flag, set
   exactly when one of its diagnostics is refused.
   */
  lemma RecordExactly(inputs: Inputs, source: Json, projection: Json)
    requires BuildPurity(inputs, source, projection).Built?
    ensures Listable(inputs)
    ensures Reports(BuildPurity(inputs, source, projection).record, Clean(inputs),
                    Refusals(GroupRefused(inputs.substrate), GroupRefused(inputs.helper),
                             GroupRefused(inputs.attachment)))
  {
    BlockedExactly(inputs);
    VerdictExactly(inputs);
    RefusedExactly(inputs);
    RecordReports(source, Clean(inputs), inputs.Refused(), DetailsOf(inputs, inputs.Blocked().value, projection));
  }

  ghost function Listed(texts: seq<string>): Json {
    Arr(true, seq(|texts|, i requires 0 <= i < |texts| => Str(texts[i])))
  }

  /**
   What a projection says: that it holds no content values, where content was suppressed and
   what other paths there are in a dictionary, and the distinct stripped receipt refs.
   */
  lemma ProjectionExactly(payload: Json, name: Json, receiptRefs: seq<string>) returns (refs: seq<string>)
    ensures EachOnceInOrder(refs, StrippedTexts(receiptRefs))
    ensures var r := ProjectionOf(payload, name, receiptRefs);
            && Has(r, "content_safe", Bool(true)) && Has(r, "content_values_included", Bool(false))
            && Has(r, "content_fields_suppressed", Bool(true)) && Has(r, "receipt_refs", Listed(refs))
            && Has(r, "suppressed_content_field_paths",
                   Listed(if payload.Obj? then FieldPathsOf(payload, FORBIDDEN_CONTENT_FIELDS, true, "") else []))
            && Has(r, "observed_non_content_field_paths",
                   Listed(if payload.Obj? then FieldPathsOf(payload, FORBIDDEN_CONTENT_FIELDS, false, "") else []))
  {
    refs := Unique(receiptRefs);
    UniqueKeepsOrder(receiptRefs);
    var fields := ProjectionOf(payload, name, receiptRefs).fields;
    assert fields[2] in fields && fields[3] in fields && fields[4] in fields && fields[5] in fields;
    assert fields[6] in fields && fields[7] in fields;
  }
}
