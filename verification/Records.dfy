/**
 Diagnostic and visibility records: how the governance modules build them, and what makes
 the surface validators accept one.
 */
module Records {
  import opened BoundaryTerms
  import opened JsonValues
  import opened Positions
  import opened Text
  import opened ValidatorSupport
  import opened VisibilityIsolation
  import opened Wrappers

  function TextOrNull(text: Option<string>): Json {
    if text.Some? then Str(text.value) else Null
  }

  /** The record has the field. */
  ghost predicate Has(record: Json, key: string, value: Json) {
    record.Obj? && Field(key, value) in record.fields
  }

  function TextList(texts: seq<string>): Json {
    Arr(true, seq(|texts|, i requires 0 <= i < |texts| => Str(texts[i])))
  }

  /** `validator_lineage`. */
  function Lineage(owner: string, validator: string, contractId: string, source: string, children: seq<string>): Json {
    Obj([
      Field("support_version", Str("stage170_validator_support_v1")),
      Field("owner", Str(owner)),
      Field("validator", Str(validator)),
      Field("contract_id", Str(contractId)),
      Field("source", TextOrNull(SafeString(source))),
      Field("explicit_validator_owner", Bool(true)),
      Field("hidden_orchestration_performed", Bool(false)),
      Field("semantic_reinterpretation_performed", Bool(false)),
      Field("memory_write_performed", Bool(false)),
      Field("parent_validators", TextList([])),
      Field("child_validators", TextList(children)),
      Field("lineage_path", TextList([owner + "." + validator] + children))
    ])
  }

  function Prefixed(prefix: string, fields: seq<string>): (r: seq<string>)
    ensures |r| == |fields|
    ensures forall i :: 0 <= i < |r| ==> r[i] == prefix + fields[i]
  {
    seq(|fields|, i requires 0 <= i < |fields| => prefix + fields[i])
  }

  lemma TextListQuiet(texts: seq<string>, rule: Rule)
    ensures Quiet(TextList(texts), rule)
  {
  }

  /** A rule that reports none of `keys`, and the authority flag only when it is not False. */
  ghost predicate Spares(rule: Rule, keys: set<string>) {
    && keys !! rule.fields
    && ("planner_semantic_authority" in rule.fields ==> "planner_semantic_authority" in rule.falseAllowed)
  }

  const LINEAGE_KEYS := {
    "support_version", "owner", "validator", "contract_id", "source", "explicit_validator_owner",
    "hidden_orchestration_performed", "semantic_reinterpretation_performed", "memory_write_performed",
    "parent_validators", "child_validators", "lineage_path"
  }

  lemma LineageContentSpared()
    ensures Spares(CONTENT_RULE, LINEAGE_KEYS)
  {
  }

  lemma LineageAuthoritySpared()
    ensures Spares(SEMANTIC_RULE, LINEAGE_KEYS)
  {
  }

  lemma LineageQuiet(owner: string, validator: string, contractId: string, source: string, children: seq<string>,
                     rule: Rule)
    requires Spares(rule, LINEAGE_KEYS)
    ensures Quiet(Lineage(owner, validator, contractId, source, children), rule)
  {
    TextListQuiet([], rule);
    TextListQuiet(children, rule);
    TextListQuiet([owner + "." + validator] + children, rule);
  }

  /** Field `i` is the first with its key, so a lookup finds it. */
  ghost predicate FirstAt(fs: seq<Field>, i: int, f: Field) {
    0 <= i < |fs| && fs[i] == f && forall j :: 0 <= j < i ==> fs[j].key != f.key
  }

  lemma {:induction false} LookupFirst(fs: seq<Field>, i: nat, f: Field)
    requires FirstAt(fs, i, f)
    ensures Lookup(fs, f.key) == f.value
  {
    if i > 0 {
      assert fs[0].key != f.key;
      LookupFirst(fs[1..], i - 1, f);
    }
  }

  lemma {:induction false} LookupAppend(a: seq<Field>, b: seq<Field>, key: string)
    ensures Lookup(a + b, key) == if HasKey(a, key) then Lookup(a, key) else Lookup(b, key)
  {
    if a == [] {
      assert a + b == b;
    } else {
      assert (a + b)[1..] == a[1..] + b;
      LookupAppend(a[1..], b, key);
      assert HasKey(a, key) <==> a[0].key == key || HasKey(a[1..], key) by {
        if i :| 0 <= i < |a| && a[i].key == key && i > 0 {
          assert a[1..][i - 1].key == key;
        }
        if i :| 0 <= i < |a[1..]| && a[1..][i].key == key {
          assert a[i + 1].key == key;
        }
      }
    }
  }

  // What the diagnostic validator looks up besides the type.
  const WATCHED_KEYS := [
    "observational_only", "hidden_context_injection_performed", "planner_semantic_authority",
    "artifact_mutation_performed", "candidate_mutation_performed", "db_write_performed",
    "governance_state_mutation_performed", "memory_write_performed", "workflow_state_mutation_performed"
  ]

  /** None of the watched keys occurs. */
  ghost predicate Unwatched(fs: seq<Field>) {
    forall i :: 0 <= i < |fs| ==> fs[i].key !in WATCHED_KEYS
  }

  /** The flags every diagnostic of these modules carries. */
  ghost predicate DiagnosticFlags(fs: seq<Field>) {
    && (exists i :: FirstAt(fs, i, Field("observational_only", Bool(true))))
    && (exists i :: FirstAt(fs, i, Field("hidden_context_injection_performed", Bool(false))))
    && (exists i :: FirstAt(fs, i, Field("planner_semantic_authority", Bool(false))))
    && forall i :: 0 <= i < |fs| && fs[i].key in MUTATION_FLAGS ==> fs[i].value == Bool(false)
  }

  /** No field is reported by the rule, at any depth. */
  ghost predicate QuietAll(fs: seq<Field>, rule: Rule) {
    forall i :: 0 <= i < |fs| ==> QuietField(fs[i], rule)
  }

  lemma LookupFlag(head: seq<Field>, flags: seq<Field>, tail: seq<Field>, i: nat, f: Field)
    requires Unwatched(head) && FirstAt(flags, i, f) && f.key in WATCHED_KEYS
    ensures Get(Obj(head + flags + tail), f.key) == f.value
  {
    LookupFirst(flags, i, f);
    assert HasKey(flags, f.key);
    LookupAppend(head, flags, f.key);
    LookupAppend(head + flags, tail, f.key);
    assert (head + flags)[|head| + i].key == f.key;
  }

  lemma RecordLookups(head: seq<Field>, flags: seq<Field>, tail: seq<Field>, kind: Field)
    requires kind.key == "diagnostic_type" && FirstAt(head, 1, kind)
    requires Unwatched(head) && Unwatched(tail) && DiagnosticFlags(flags)
    ensures var record := Obj(head + flags + tail);
            && Get(record, "diagnostic_type") == kind.value
            && Get(record, "observational_only") == Bool(true)
            && Get(record, "hidden_context_injection_performed") == Bool(false)
            && Get(record, "planner_semantic_authority") == Bool(false)
  {
    LookupFirst(head, 1, kind);
    LookupAppend(head, flags, "diagnostic_type");
    LookupAppend(head + flags, tail, "diagnostic_type");
    assert (head + flags)[1].key == head[1].key;
    var j :| FirstAt(flags, j, Field("observational_only", Bool(true)));
    LookupFlag(head, flags, tail, j, flags[j]);
    var k :| FirstAt(flags, k, Field("hidden_context_injection_performed", Bool(false)));
    LookupFlag(head, flags, tail, k, flags[k]);
    var l :| FirstAt(flags, l, Field("planner_semantic_authority", Bool(false)));
    LookupFlag(head, flags, tail, l, flags[l]);
  }

  lemma RecordFlagsFalse(head: seq<Field>, flags: seq<Field>, tail: seq<Field>)
    requires Unwatched(head) && Unwatched(tail) && DiagnosticFlags(flags)
    ensures FlagsFalse(Obj(head + flags + tail))
  {
    var fs := head + flags + tail;
    forall f | f in MUTATION_FLAGS && HasKey(fs, f) ensures Get(Obj(fs), f) == Bool(false) {
      var n := LookupFinds(fs, f);
      FlagKeysWatched(f);
    }
  }

  /** The parts of a record, as far as one rule is concerned. */
  ghost predicate Shaped(head: seq<Field>, flags: seq<Field>, tail: seq<Field>, kind: string, rule: Rule) {
    && FirstAt(head, 1, Field("diagnostic_type", Str(kind)))
    && Unwatched(head) && Unwatched(tail)
    && QuietAll(head, rule) && QuietAll(flags, rule) && QuietAll(tail, rule)
  }

  lemma ShapedRecordClean(head: seq<Field>, flags: seq<Field>, tail: seq<Field>, kind: string)
    requires !Blank(kind) && DiagnosticFlags(flags)
    requires Shaped(head, flags, tail, kind, CONTENT_RULE) && Shaped(head, flags, tail, kind, SEMANTIC_RULE)
    ensures CleanDiagnostic(Obj(head + flags + tail))
  {
    CleanDiagnosticRecord(head, flags, tail, kind);
  }

  /**
   A record made of identity fields, constant flags and outcome fields is a clean
   diagnostic, whatever it reports.
   */
  lemma CleanDiagnosticRecord(head: seq<Field>, flags: seq<Field>, tail: seq<Field>, kind: string)
    requires FirstAt(head, 1, Field("diagnostic_type", Str(kind))) && !Blank(kind)
    requires Unwatched(head) && Unwatched(tail) && DiagnosticFlags(flags)
    requires QuietAll(head, CONTENT_RULE) && QuietAll(flags, CONTENT_RULE) && QuietAll(tail, CONTENT_RULE)
    requires QuietAll(head, SEMANTIC_RULE) && QuietAll(flags, SEMANTIC_RULE) && QuietAll(tail, SEMANTIC_RULE)
    ensures CleanDiagnostic(Obj(head + flags + tail))
  {
    RecordLookups(head, flags, tail, Field("diagnostic_type", Str(kind)));
    RecordFlagsFalse(head, flags, tail);
  }

  lemma FlagKeysWatched(f: string)
    requires f in MUTATION_FLAGS
    ensures f in WATCHED_KEYS
  {
  }
}
