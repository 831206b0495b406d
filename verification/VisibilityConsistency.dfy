/**
 The consistency record over several surfaces
 (`build_visibility_consistency_diagnostic` of runtime/governance/visibility_schema.py).
 */
module VisibilityConsistency {
  import opened Attachments
  import opened JsonValues
  import opened NothingLost
  import opened Positions
  import opened Records
  import opened Text
  import opened ValidatorSupport
  import opened VisibilityIsolation
  import opened VisibilitySchema
  import opened Wrappers

  /** `_safe_mapping_list`. */
  function Mappings(values: seq<Json>): (r: seq<Json>)
    ensures forall i :: 0 <= i < |r| ==> r[i].Obj?
  {
    if values == [] then []
    else (if values[0].Obj? then [values[0]] else []) + Mappings(values[1..])
  }

  function TextOf(v: Json): seq<string> {
    if SafeText(v).Some? then [SafeText(v).value] else []
  }

  function NumberOf(v: Json): seq<int> {
    if v.Num? then [v.n] else []
  }

  /** The schema faults reported for each surface. */
  function Reports(items: seq<Json>): (r: seq<seq<string>>)
    ensures |r| == |items|
    ensures forall i :: 0 <= i < |r| ==> r[i] == Unique(SchemaViolations(items[i]))
  {
    seq(|items|, i requires 0 <= i < |items| => Unique(SchemaViolations(items[i])))
  }

  function At(index: nat, fields: seq<string>): seq<string> {
    Prefixed("surfaces[" + Decimal(index) + "].", fields)
  }

  function Located(reports: seq<seq<string>>): seq<string> {
    if reports == [] then []
    else
      var n := |reports| - 1;
      Located(reports[..n]) + At(n, reports[n])
  }

  function Texts(items: seq<Json>, key: string): seq<string> {
    if items == [] then []
    else
      var n := |items| - 1;
      Texts(items[..n], key) + TextOf(Get(items[n], key))
  }

  function Versions(items: seq<Json>): seq<int> {
    if items == [] then []
    else
      var n := |items| - 1;
      Versions(items[..n]) + NumberOf(Get(items[n], "schema_version"))
  }

  /** `len(set(values)) > 1`. */
  predicate Varied<T(==)>(values: seq<T>) {
    exists i, j :: 0 <= i < j < |values| && values[i] != values[j]
  }

  /** The violations before de-duplication. */
  function ConsistencyViolations(items: seq<Json>): seq<string> {
    Located(Reports(items))
    + Unless(!Varied(Texts(items, "visibility_type")), "visibility_type")
    + Unless(!Varied(Versions(items)), "schema_version")
    + Unless(items != [], "surfaces")
  }

  lemma ReportsPrefix(items: seq<Json>, n: nat)
    requires n < |items|
    ensures Reports(items[..n + 1]) == Reports(items[..n]) + [Unique(SchemaViolations(items[n]))]
  {
  }

  /** The `blocked_fields` of a schema check. */
  method ReportFaults(surface: Json) returns (found: seq<string>)
    ensures found == Unique(SchemaViolations(surface))
  {
    var schema := ValidateSchema(surface);
    found := UniqueValues(schema);
  }

  /** What one more surface adds to each list. */
  lemma ObservedSnoc(items: seq<Json>, n: nat, found: seq<string>)
    requires n < |items| && found == Unique(SchemaViolations(items[n]))
    ensures Located(Reports(items[..n + 1])) == Located(Reports(items[..n])) + At(n, found)
    ensures Texts(items[..n + 1], "operation_domain")
         == Texts(items[..n], "operation_domain") + TextOf(Get(items[n], "operation_domain"))
    ensures Texts(items[..n + 1], "visibility_type")
         == Texts(items[..n], "visibility_type") + TextOf(Get(items[n], "visibility_type"))
    ensures Versions(items[..n + 1]) == Versions(items[..n]) + NumberOf(Get(items[n], "schema_version"))
  {
    assert items[..n + 1][..n] == items[..n];
    ReportsPrefix(items, n);
    LocatedSnoc(Reports(items[..n]), found);
  }

  /** The loop over the surfaces. */
  method ObserveSurfaces(items: seq<Json>)
    returns (blocked: seq<string>, domains: seq<string>, types: seq<string>, versions: seq<int>)
    ensures blocked == Located(Reports(items))
    ensures domains == Texts(items, "operation_domain") && types == Texts(items, "visibility_type")
    ensures versions == Versions(items)
  {
    blocked, domains, types, versions := [], [], [], [];
    for i := 0 to |items|
      invariant blocked == Located(Reports(items[..i]))
      invariant domains == Texts(items[..i], "operation_domain") && types == Texts(items[..i], "visibility_type")
      invariant versions == Versions(items[..i])
    {
      var found := ReportFaults(items[i]);
      ObservedSnoc(items, i, found);
      blocked := blocked + At(i, found);
      domains := domains + TextOf(Get(items[i], "operation_domain"));
      types := types + TextOf(Get(items[i], "visibility_type"));
      versions := versions + NumberOf(Get(items[i], "schema_version"));
    }
    assert items[..|items|] == items;
  }

  lemma LocatedSnoc(reports: seq<seq<string>>, last: seq<string>)
    ensures Located(reports + [last]) == Located(reports) + At(|reports|, last)
  {
    assert (reports + [last])[..|reports|] == reports;
  }

  method CheckSurfaces(items: seq<Json>) returns (blocked: seq<string>, domains: seq<string>)
    ensures blocked == ConsistencyViolations(items)
    ensures domains == Texts(items, "operation_domain")
  {
    var types, versions;
    blocked, domains, types, versions := ObserveSurfaces(items);
    blocked := AppendUnless(!Varied(types), "visibility_type", blocked);
    blocked := AppendUnless(!Varied(versions), "schema_version", blocked);
    blocked := AppendUnless(items != [], "surfaces", blocked);
  }

  /** The schema check reports no fault of the surface, once its list is de-duplicated. */
  ghost predicate NothingReported(surface: Json) {
    Unique(SchemaViolations(surface)) == []
  }

  lemma NoneReportedNoneVisible(values: seq<string>)
    ensures Unique(values) == [] <==> forall i :: 0 <= i < |values| ==> Blank(values[i])
  {
    UniqueExact(values);
    if i :| 0 <= i < |values| && !Blank(values[i]) {
      assert Strip(values[i]) in Unique(values);
    }
  }

  lemma FixedNames()
    ensures EndsInLetter("visibility_contract_id") && EndsInLetter("visibility_type") && EndsInLetter("schema_version")
    ensures EndsInLetter("content_safe") && EndsInLetter("semantic_reinterpretation_performed")
    ensures EndsInLetter("operation_domain")
  {
  }

  lemma FixedVisible(surface: Json)
    ensures Visible(FixedFieldViolations(surface))
  {
    FixedNames();
    var contract := Get(surface, "visibility_contract_id") == Str(GOVERNANCE_VISIBILITY_CONTRACT_ID);
    var kind := Get(surface, "visibility_type") == Str(GOVERNANCE_VISIBILITY_TYPE);
    var version := IsOne(Get(surface, "schema_version"));
    var safe := Get(surface, "content_safe") == Bool(true);
    var semantic := Get(surface, "semantic_reinterpretation_performed") == Bool(false);
    var domain := KnownDomain(Get(surface, "operation_domain"));
    NamesVisible(contract, "visibility_contract_id", kind, "visibility_type", version, "schema_version");
    NamesVisible(safe, "content_safe", semantic, "semantic_reinterpretation_performed", domain, "operation_domain");
    SixVisible(Unless(contract, "visibility_contract_id"), Unless(kind, "visibility_type"),
               Unless(version, "schema_version"), Unless(safe, "content_safe"),
               Unless(semantic, "semantic_reinterpretation_performed"), Unless(domain, "operation_domain"));
  }

  lemma NamesVisible(a: bool, first: string, b: bool, second: string, c: bool, third: string)
    requires EndsInLetter(first) && EndsInLetter(second) && EndsInLetter(third)
    ensures Visible(Unless(a, first)) && Visible(Unless(b, second)) && Visible(Unless(c, third))
  {
    NameVisible(a, first);
    NameVisible(b, second);
    NameVisible(c, third);
  }

  lemma SixVisible(a: seq<string>, b: seq<string>, c: seq<string>, d: seq<string>, e: seq<string>, f: seq<string>)
    requires Visible(a) && Visible(b) && Visible(c) && Visible(d) && Visible(e) && Visible(f)
    ensures Visible(a + b + c + d + e + f)
  {
    VisibleFour(a, b, c, d);
    VisibleAppend(a + b + c + d, e);
    VisibleAppend(a + b + c + d + e, f);
  }

  /** A surface without reported faults has none in its fixed fields. */
  lemma ReportedFixed(surface: Json)
    requires surface.Obj? && NothingReported(surface)
    ensures FixedFieldViolations(surface) == []
  {
    FixedVisible(surface);
    if FixedFieldViolations(surface) != [] {
      VisibleReported(MissingFields(surface.fields, BASE_FIELDS), FixedFieldViolations(surface),
                      UnknownKeys(surface.fields));
    }
  }

  lemma VisibleReported(before: seq<string>, values: seq<string>, after: seq<string>)
    requires values != [] && Visible(values)
    ensures Unique(before + values + after) != []
  {
    var all := before + values + after;
    assert all[|before|] == values[0];
    NoneReportedNoneVisible(all);
  }

  /** The one type and the one version of surfaces without faults in the fixed fields. */
  ghost predicate TypeAndVersion(surface: Json) {
    && Get(surface, "visibility_type") == Str(GOVERNANCE_VISIBILITY_TYPE)
    && IsOne(Get(surface, "schema_version"))
  }

  lemma FixedGivesType(surface: Json)
    requires FixedFieldViolations(surface) == []
    ensures TypeAndVersion(surface)
  {
  }

  lemma {:induction false} OneType(items: seq<Json>)
    requires forall i :: 0 <= i < |items| ==> TypeAndVersion(items[i])
    ensures forall i :: 0 <= i < |Texts(items, "visibility_type")| ==>
              Texts(items, "visibility_type")[i] == Strip(GOVERNANCE_VISIBILITY_TYPE)
  {
    if items != [] {
      var n := |items| - 1;
      OneType(items[..n]);
      assert TypeAndVersion(items[n]);
    }
  }

  lemma {:induction false} OneVersion(items: seq<Json>)
    requires forall i :: 0 <= i < |items| ==> TypeAndVersion(items[i])
    ensures forall i :: 0 <= i < |Versions(items)| ==> Versions(items)[i] == 1
  {
    if items != [] {
      var n := |items| - 1;
      OneVersion(items[..n]);
      assert TypeAndVersion(items[n]);
    }
  }

  lemma {:induction false} LocatedNone(reports: seq<seq<string>>)
    ensures Located(reports) == [] <==> forall i :: 0 <= i < |reports| ==> reports[i] == []
  {
    if reports != [] {
      var n := |reports| - 1;
      LocatedNone(reports[..n]);
      assert forall i :: 0 <= i < n ==> reports[..n][i] == reports[i];
    }
  }

  lemma UnreportedTyped(surface: Json)
    requires surface.Obj? && NothingReported(surface)
    ensures TypeAndVersion(surface)
  {
    ReportedFixed(surface);
    FixedGivesType(surface);
  }

  ghost predicate AllUnreported(items: seq<Json>) {
    forall i :: 0 <= i < |items| ==> NothingReported(items[i])
  }

  ghost predicate AllTyped(items: seq<Json>) {
    forall i :: 0 <= i < |items| ==> TypeAndVersion(items[i])
  }

  lemma UnreportedAllTyped(items: seq<Json>)
    requires (forall i :: 0 <= i < |items| ==> items[i].Obj?) && AllUnreported(items)
    ensures AllTyped(items)
  {
    forall i | 0 <= i < |items| ensures TypeAndVersion(items[i]) {
      UnreportedTyped(items[i]);
    }
  }

  lemma TypedAgree(items: seq<Json>)
    requires AllTyped(items)
    ensures !Varied(Texts(items, "visibility_type")) && !Varied(Versions(items))
  {
    OneType(items);
    OneVersion(items);
  }

  lemma ReportsNone(items: seq<Json>)
    ensures Located(Reports(items)) == [] <==> AllUnreported(items)
  {
    var reports := Reports(items);
    LocatedNone(reports);
    assert forall i :: 0 <= i < |items| ==> (reports[i] == [] <==> NothingReported(items[i]));
  }

  ghost predicate CanonicalOrBlank(key: string) {
    key in CANONICAL_GOVERNANCE_VISIBILITY_FIELDS || Blank(key)
  }

  /** Every key is canonical or made of whitespace. */
  ghost predicate CanonicalOrBlankKeys(fs: seq<Field>) {
    forall i :: 0 <= i < |fs| ==> CanonicalOrBlank(fs[i].key)
  }

  lemma CanonicalOrBlankSnoc(fs: seq<Field>)
    requires fs != []
    ensures CanonicalOrBlankKeys(fs) <==>
              CanonicalOrBlankKeys(fs[..|fs| - 1]) && CanonicalOrBlank(fs[|fs| - 1].key)
  {
    var n := |fs| - 1;
    assert forall i :: 0 <= i < n ==> fs[..n][i] == fs[i];
  }

  lemma UnknownKeyBlank(key: string)
    ensures AllBlank(Unless(key in CANONICAL_GOVERNANCE_VISIBILITY_FIELDS, key)) <==> CanonicalOrBlank(key)
  {
    if key !in CANONICAL_GOVERNANCE_VISIBILITY_FIELDS {
      assert [key][0] == key;
    }
  }

  ghost predicate AllBlank(values: seq<string>) {
    forall i :: 0 <= i < |values| ==> Blank(values[i])
  }

  lemma AllBlankAppend(xs: seq<string>, ys: seq<string>)
    ensures AllBlank(xs + ys) <==> AllBlank(xs) && AllBlank(ys)
  {
    if AllBlank(xs + ys) {
      forall i | 0 <= i < |xs| ensures Blank(xs[i]) {
        assert (xs + ys)[i] == xs[i];
      }
      forall i | 0 <= i < |ys| ensures Blank(ys[i]) {
        assert (xs + ys)[|xs| + i] == ys[i];
      }
    }
  }

  lemma {:induction false} UnknownKeysBlank(fs: seq<Field>)
    ensures AllBlank(UnknownKeys(fs)) <==> CanonicalOrBlankKeys(fs)
  {
    if fs != [] {
      var n := |fs| - 1;
      UnknownKeysBlank(fs[..n]);
      AllBlankAppend(UnknownKeys(fs[..n]), Unless(fs[n].key in CANONICAL_GOVERNANCE_VISIBILITY_FIELDS, fs[n].key));
      UnknownKeyBlank(fs[n].key);
      CanonicalOrBlankSnoc(fs);
    }
  }

  /** A surface about which the consistency record has nothing to say. */
  ghost predicate Unremarkable(surface: Json) {
    surface.Obj? && FixedFieldsGood(surface) && CanonicalOrBlankKeys(surface.fields)
  }

  /**
   Nothing is reported exactly for good fixed fields and keys that are canonical or blank:
   blank keys are the only faults that de-duplication hides.
   */
  lemma NothingReportedExact(surface: Json)
    requires surface.Obj?
    ensures NothingReported(surface) <==> Unremarkable(surface)
  {
    FixedFieldsExact(surface);
    NoneReportedNoneVisible(SchemaViolations(surface));
    UnknownKeysBlank(surface.fields);
    var missing, unknown := MissingFields(surface.fields, BASE_FIELDS), UnknownKeys(surface.fields);
    AllBlankAppend(missing + FixedFieldViolations(surface), unknown);
    if NothingReported(surface) {
      ReportedFixed(surface);
    }
    if FixedFieldsGood(surface) {
      NoFixedFieldMissing(surface);
    }
  }

  ghost predicate AllUnremarkable(items: seq<Json>) {
    forall i :: 0 <= i < |items| ==> Unremarkable(items[i])
  }

  lemma AllUnreportedExact(items: seq<Json>)
    requires forall i :: 0 <= i < |items| ==> items[i].Obj?
    ensures AllUnreported(items) <==> AllUnremarkable(items)
  {
    forall i | 0 <= i < |items| ensures NothingReported(items[i]) <==> Unremarkable(items[i]) {
      NothingReportedExact(items[i]);
    }
  }

  /**
   The consistency record allows exactly the nonempty lists in which every surface has good
   fixed fields and only canonical or blank keys. The comparisons of types and versions
   across surfaces never change the verdict.
   */
  lemma ConsistencyExact(values: seq<Json>)
    ensures var items := Mappings(values);
            ConsistencyViolations(items) == [] <==> items != [] && AllUnremarkable(items)
  {
    var items := Mappings(values);
    ReportsNone(items);
    AllUnreportedExact(items);
    if AllUnreported(items) {
      UnreportedAllTyped(items);
      TypedAgree(items);
    }
  }

  /** Every surface passes its own schema check. */
  ghost predicate AllCanonical(items: seq<Json>) {
    forall i :: 0 <= i < |items| ==> SchemaViolations(items[i]) == []
  }

  /** A key that is not canonical and that no report shows. */
  ghost predicate HasHiddenKey(surface: Json) {
    surface.Obj? &&
    exists i :: 0 <= i < |surface.fields|
      && surface.fields[i].key !in CANONICAL_GOVERNANCE_VISIBILITY_FIELDS && Blank(surface.fields[i].key)
  }

  ghost predicate SomeHiddenKey(items: seq<Json>) {
    exists i :: 0 <= i < |items| && HasHiddenKey(items[i])
  }

  lemma CanonicalUnlessHidden(surface: Json)
    ensures SchemaViolations(surface) == [] <==> Unremarkable(surface) && !HasHiddenKey(surface)
  {
    SchemaExact(surface);
  }

  lemma AllCanonicalUnlessHidden(items: seq<Json>)
    ensures AllCanonical(items) <==> AllUnremarkable(items) && !SomeHiddenKey(items)
  {
    forall i | 0 <= i < |items|
      ensures SchemaViolations(items[i]) == [] <==> Unremarkable(items[i]) && !HasHiddenKey(items[i])
    {
      CanonicalUnlessHidden(items[i]);
    }
  }

  /**
   The record and the schema checks disagree about a nonempty list exactly when the fixed
   fields of every surface are good, every key that is not canonical is blank, and there is
   such a key. The record is then the one that allows.
   */
  lemma DisagreementExact(values: seq<Json>)
    requires Mappings(values) != []
    ensures var items := Mappings(values);
            && ((ConsistencyViolations(items) == []) != AllCanonical(items) <==>
                  AllUnremarkable(items) && SomeHiddenKey(items))
            && (AllCanonical(items) ==> ConsistencyViolations(items) == [])
  {
    ConsistencyExact(values);
    AllCanonicalUnlessHidden(Mappings(values));
  }

  lemma BaseHasRequired(domain: string, extras: seq<Field>)
    requires !Blank(domain)
    ensures MissingFields(BasePart(domain) + extras, BASE_FIELDS) == []
  {
    var fs := BasePart(domain) + extras;
    assert fs[0].key == "visibility_contract_id" && fs[1].key == "visibility_type" && fs[2].key == "schema_version";
    assert fs[3].key == "operation_domain" && fs[4].key == "content_safe";
    assert fs[5].key == "semantic_reinterpretation_performed";
    MissingFieldsNone(fs, BASE_FIELDS);
  }

  lemma BaseIsFixed(domain: string, extras: seq<Field>)
    requires Strip(domain) in GOVERNANCE_VISIBILITY_DOMAINS
    ensures FixedFieldViolations(Obj(BasePart(domain) + extras)) == []
  {
    BaseIsGood(domain, extras);
    FixedFieldsExact(Obj(BasePart(domain) + extras));
  }

  lemma BaseIsGood(domain: string, extras: seq<Field>)
    requires Strip(domain) in GOVERNANCE_VISIBILITY_DOMAINS
    ensures FixedFieldsGood(Obj(BasePart(domain) + extras))
  {
    BaseLookups(domain, extras);
    FindBase(BasePart(domain), extras, 3);
    StripTwice(domain);
  }

  lemma ExtraKey(domain: string, f: Field)
    requires Strip(domain) in GOVERNANCE_VISIBILITY_DOMAINS
    requires f.key !in CANONICAL_GOVERNANCE_VISIBILITY_FIELDS
    ensures SchemaViolations(Obj(BasePart(domain) + [f])) == [f.key]
  {
    var base := BasePart(domain);
    BaseHasRequired(domain, [f]);
    BaseIsFixed(domain, [f]);
    BaseCanonical(domain);
    UnknownKeysNone(base);
    assert (base + [f])[..|base|] == base;
  }

  lemma SpaceNotCanonical()
    ensures " " !in CANONICAL_GOVERNANCE_VISIBILITY_FIELDS
  {
  }

  /**
   What is reported is not all that is wrong: a surface whose one fault is a whitespace key
   fails the schema check, and the consistency record allows it all the same.
   */
  lemma BlankKeyDisagreement(domain: string, value: Json)
    requires Strip(domain) in GOVERNANCE_VISIBILITY_DOMAINS
    ensures var surface := Obj(BasePart(domain) + [Field(" ", value)]);
            SchemaViolations(surface) == [" "] && ConsistencyViolations(Mappings([surface])) == []
  {
    var surface := Obj(BasePart(domain) + [Field(" ", value)]);
    SpaceNotCanonical();
    ExtraKey(domain, Field(" ", value));
    OnlyKeyHidden(domain, value);
    assert Mappings([surface]) == [surface];
    ConsistencyExact([surface]);
  }

  lemma OnlyKeyHidden(domain: string, value: Json)
    requires Strip(domain) in GOVERNANCE_VISIBILITY_DOMAINS
    ensures Unremarkable(Obj(BasePart(domain) + [Field(" ", value)]))
  {
    var base := BasePart(domain);
    BaseIsGood(domain, [Field(" ", value)]);
    BaseCanonical(domain);
    StripFacts(" ");
  }

  predicate Less(a: string, b: string) {
    b != "" && (a == "" || a[0] < b[0] || (a[0] == b[0] && Less(a[1..], b[1..])))
  }

  function Insert(sorted: seq<string>, text: string): seq<string> {
    if sorted == [] then [text]
    else if sorted[0] == text then sorted
    else if Less(text, sorted[0]) then [text] + sorted
    else [sorted[0]] + Insert(sorted[1..], text)
  }

  /** `sorted(set(values))`. */
  function SortedSet(values: seq<string>): seq<string> {
    if values == [] then [] else Insert(SortedSet(values[1..]), values[0])
  }

  function ConsistencyHead(source: string, allowed: bool): seq<Field> {
    [ Field("contract_id", Str(GOVERNANCE_VISIBILITY_CONTRACT_ID)),
      Field("diagnostic_type", Str(CONSISTENCY_TYPE)),
      Field("source", Str(if Blank(source) then "visibility_consistency" else Strip(source))),
      Field("allowed", Bool(allowed)) ]
  }

  const CONSISTENCY_FLAGS := [
    Field("content_safe", Bool(true)),
    Field("observational_only", Bool(true)),
    Field("planner_semantic_authority", Bool(false)),
    Field("semantic_reinterpretation_performed", Bool(false)),
    Field("hidden_context_injection_performed", Bool(false)),
    Field("hidden_routing_performed", Bool(false)),
    Field("planner_mutation_performed", Bool(false)),
    Field("memory_write_performed", Bool(false)),
    Field("governance_state_mutation_performed", Bool(false)),
    Field("workflow_state_mutation_performed", Bool(false)),
    Field("retrieval_policy_mutation_performed", Bool(false))
  ]

  function Skipped(allowed: bool): Json {
    TextList(if allowed then [] else ["visibility_consistency_violation"])
  }

  function ConsistencyTail(allowed: bool, count: nat, blocked: Json, domains: Json): seq<Field> {
    [ Field("checked_surface_count", Num(count)),
      Field("blocked_fields", blocked),
      Field("skipped_reasons", Skipped(allowed)),
      Field("reason", Str(if allowed then "Visibility surfaces are schema-consistent and observational."
                          else "Visibility surfaces have inconsistent schema projections.")),
      Field("observed_operation_domains", domains),
      Field("canonical_visibility_type", Str(GOVERNANCE_VISIBILITY_TYPE)) ]
  }

  function ConsistencyRecord(source: string, count: nat, blocked: seq<string>, reported: seq<string>,
                             domains: seq<string>): Json
  {
    Obj(ConsistencyHead(source, blocked == []) + CONSISTENCY_FLAGS
        + ConsistencyTail(blocked == [], count, TextList(reported), TextList(domains)))
  }

  function ConsistencyOf(values: seq<Json>, source: string): Json {
    var items := Mappings(values);
    var blocked := ConsistencyViolations(items);
    ConsistencyRecord(source, |items|, blocked, Unique(blocked), SortedSet(Texts(items, "operation_domain")))
  }

  /** `build_visibility_consistency_diagnostic`: the record, or `None` if its own assertion raises. */
  function BuildConsistency(values: seq<Json>, source: string): Option<Json> {
    var record := ConsistencyOf(values, source);
    if AttachmentAllowed(record, "operator_report") then Some(record) else None
  }

  const CONSISTENCY_KEYS := {
    "contract_id", "diagnostic_type", "source", "allowed", "content_safe", "observational_only",
    "semantic_reinterpretation_performed", "hidden_context_injection_performed", "hidden_routing_performed",
    "planner_mutation_performed", "memory_write_performed", "governance_state_mutation_performed",
    "workflow_state_mutation_performed", "retrieval_policy_mutation_performed", "checked_surface_count",
    "blocked_fields", "skipped_reasons", "reason", "observed_operation_domains", "canonical_visibility_type"
  }

  const OUTCOME_KEYS := {
    "checked_surface_count", "blocked_fields", "skipped_reasons", "reason", "observed_operation_domains",
    "canonical_visibility_type"
  }

  lemma OutcomeSpared(rule: Rule)
    requires Spares(rule, CONSISTENCY_KEYS)
    ensures Spares(rule, OUTCOME_KEYS)
  {
  }

  lemma ConsistencyContentSpared()
    ensures Spares(CONTENT_RULE, CONSISTENCY_KEYS)
  {
  }

  lemma ConsistencyAuthoritySpared()
    ensures Spares(SEMANTIC_RULE, CONSISTENCY_KEYS)
  {
  }

  lemma ConsistencyFlagsAreDiagnostic()
    ensures DiagnosticFlags(CONSISTENCY_FLAGS)
  {
    assert FirstAt(CONSISTENCY_FLAGS, 1, Field("observational_only", Bool(true)));
    assert FirstAt(CONSISTENCY_FLAGS, 4, Field("hidden_context_injection_performed", Bool(false)));
    assert FirstAt(CONSISTENCY_FLAGS, 2, Field("planner_semantic_authority", Bool(false)));
  }

  lemma ConsistencyHeadShape(source: string, allowed: bool, rule: Rule)
    requires Spares(rule, CONSISTENCY_KEYS)
    ensures var head := ConsistencyHead(source, allowed);
            && Unwatched(head) && QuietAll(head, rule)
            && FirstAt(head, 1, Field("diagnostic_type", Str(CONSISTENCY_TYPE)))
  {
  }

  lemma ConsistencyFlagsQuiet(rule: Rule)
    requires Spares(rule, CONSISTENCY_KEYS)
    ensures QuietAll(CONSISTENCY_FLAGS, rule)
  {
  }

  lemma ConsistencyTailUnwatched(allowed: bool, count: nat, blocked: Json, domains: Json)
    ensures Unwatched(ConsistencyTail(allowed, count, blocked, domains))
  {
    var tail := ConsistencyTail(allowed, count, blocked, domains);
    forall i | 0 <= i < |tail| ensures tail[i].key !in WATCHED_KEYS {
      OutcomeKeyUnwatched(tail[i].key);
    }
  }

  lemma OutcomeKeyUnwatched(key: string)
    requires key in OUTCOME_KEYS
    ensures key !in WATCHED_KEYS
  {
  }

  lemma ConsistencyTailShape(allowed: bool, count: nat, blocked: Json, domains: Json, rule: Rule)
    requires Spares(rule, OUTCOME_KEYS) && Quiet(blocked, rule) && Quiet(domains, rule)
    ensures var tail := ConsistencyTail(allowed, count, blocked, domains);
            Unwatched(tail) && QuietAll(tail, rule)
  {
    ConsistencyTailUnwatched(allowed, count, blocked, domains);
    TextListQuiet(if allowed then [] else ["visibility_consistency_violation"], rule);
  }

  lemma ConsistencyShape(source: string, allowed: bool, count: nat, reported: seq<string>, domains: seq<string>,
                         rule: Rule)
    requires Spares(rule, CONSISTENCY_KEYS)
    ensures var head := ConsistencyHead(source, allowed);
            && Unwatched(head) && QuietAll(head, rule)
            && FirstAt(head, 1, Field("diagnostic_type", Str(CONSISTENCY_TYPE)))
    ensures QuietAll(CONSISTENCY_FLAGS, rule)
    ensures var tail := ConsistencyTail(allowed, count, TextList(reported), TextList(domains));
            Unwatched(tail) && QuietAll(tail, rule)
  {
    ConsistencyHeadShape(source, allowed, rule);
    ConsistencyFlagsQuiet(rule);
    TextListQuiet(reported, rule);
    TextListQuiet(domains, rule);
    OutcomeSpared(rule);
    ConsistencyTailShape(allowed, count, TextList(reported), TextList(domains), rule);
  }

  lemma ConsistencyRecordClean(source: string, count: nat, blocked: seq<string>, reported: seq<string>,
                               domains: seq<string>)
    ensures CleanDiagnostic(ConsistencyRecord(source, count, blocked, reported, domains))
  {
    var allowed := blocked == [];
    ConsistencyContentSpared();
    ConsistencyAuthoritySpared();
    ConsistencyShape(source, allowed, count, reported, domains, CONTENT_RULE);
    ConsistencyShape(source, allowed, count, reported, domains, SEMANTIC_RULE);
    ConsistencyFlagsAreDiagnostic();
    NotBlankAt(CONSISTENCY_TYPE, 0);
    CleanDiagnosticRecord(ConsistencyHead(source, allowed), CONSISTENCY_FLAGS,
                          ConsistencyTail(allowed, count, TextList(reported), TextList(domains)), CONSISTENCY_TYPE);
  }

  lemma ConsistencyAllowedField(source: string, count: nat, blocked: seq<string>, reported: seq<string>,
                                domains: seq<string>)
    ensures Get(ConsistencyRecord(source, count, blocked, reported, domains), "allowed") == Bool(blocked == [])
  {
    LookupFirst(ConsistencyRecord(source, count, blocked, reported, domains).fields, 3,
                Field("allowed", Bool(blocked == [])));
  }

  /** The builder's assertion about its own record never fires, whatever the surfaces are. */
  lemma ConsistencyAssertionNeverFires(values: seq<Json>, source: string)
    ensures BuildConsistency(values, source) == Some(ConsistencyOf(values, source))
    ensures Get(ConsistencyOf(values, source), "allowed") == Bool(ConsistencyViolations(Mappings(values)) == [])
  {
    var items := Mappings(values);
    var blocked := ConsistencyViolations(items);
    var domains := SortedSet(Texts(items, "operation_domain"));
    ConsistencyRecordClean(source, |items|, blocked, Unique(blocked), domains);
    ConsistencyAllowedField(source, |items|, blocked, Unique(blocked), domains);
    OperatorReportTakes(ConsistencyOf(values, source));
  }
}
