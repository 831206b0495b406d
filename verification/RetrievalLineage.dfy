/**
 Lineage of normalised retrieval results (runtime/artifacts/external_retrieval_lineage.py).
 A dictionary that is only read by fixed keys is a record here; a missing key reads as
 `Null`, as `dict.get` yields `None`.
 */
module RetrievalLineage {
  import opened JsonValues
  import opened Sequences
  import opened Text
  import opened Validation
  import opened Wrappers

  /** The flags of the stages that come after retrieval. */
  datatype Stages = Stages(summarization: Json, domainNormalization: Json, ranking: Json, selection: Json,
                           delivery: Json)
  {
    predicate AllFalse() {
      && IsFalse(summarization) && IsFalse(domainNormalization) && IsFalse(ranking) && IsFalse(selection)
      && IsFalse(delivery)
    }
  }

  const NO_STAGES := Stages(Bool(false), Bool(false), Bool(false), Bool(false), Bool(false))

  function StageChecks(s: Stages, code: string, at: string): seq<Check> {
    [ Check(IsFalse(s.summarization), code, at + ".summarization_performed"),
      Check(IsFalse(s.domainNormalization), code, at + ".domain_normalization_performed"),
      Check(IsFalse(s.ranking), code, at + ".ranking_performed"),
      Check(IsFalse(s.selection), code, at + ".selection_performed"),
      Check(IsFalse(s.delivery), code, at + ".delivery_performed") ]
  }

  const LINEAGE_TYPE := "normalized_external_retrieval_result"
  const NORMALIZATION_STAGE := "external_search_provider_response_normalization"

  const NORMALIZATION_STEPS := [
    Str("required_result_field_validation"), Str("provider_field_whitelist_copy"),
    Str("source_ref_materialization"), Str("citation_materialization")
  ]

  datatype Lineage =
    | NotAnObject(value: Json)
    | Lineage(kind: Json, stage: Json, providerId: Json, resultId: Json, rawIndex: Json, rawRef: Json, source: Json,
              citation: Json, steps: Json, derived: Stages)

  /** The value of a lineage field: a list, or something else such as `None`. */
  datatype LineageList = NotAList(value: Json) | Items(items: seq<Lineage>)

  /** `build_normalized_external_retrieval_result_lineage`. */
  function BuildLineage(providerId: Json, resultId: Json, index: int, rawRef: Json, source: Json, citation: Json)
    : Lineage
  {
    Lineage(Str(LINEAGE_TYPE), Str(NORMALIZATION_STAGE), TextOrNull(SafeText(providerId)),
            TextOrNull(SafeText(resultId)), Num(index), TextOrNull(SafeText(rawRef)), source, citation,
            Arr(true, NORMALIZATION_STEPS), NO_STAGES)
  }

  predicate NaturalIndex(v: Json) {
    v.Num? && v.n >= 0
  }

  predicate GoodSteps(steps: Json) {
    && steps.Arr? && steps.isList && steps.items != []
    && forall i :: 0 <= i < |steps.items| ==> HasText(steps.items[i])
  }

  function ItemChecks(item: Lineage, at: string): seq<Check>
    requires item.Lineage?
  {
    [ Check(item.kind == Str(LINEAGE_TYPE), "invalid_lineage_type", at + ".lineage_type"),
      Check(item.stage == Str(NORMALIZATION_STAGE), "invalid_normalization_stage", at + ".normalization_stage"),
      Check(HasText(item.providerId), "missing_lineage_field", at + ".provider_id"),
      Check(HasText(item.resultId), "missing_lineage_field", at + ".provider_result_id"),
      Check(HasText(item.rawRef), "missing_lineage_field", at + ".raw_result_ref"),
      Check(NaturalIndex(item.rawIndex), "invalid_raw_result_index", at + ".raw_result_index"),
      Check(item.source.Obj?, "invalid_lineage_ref", at + ".source_ref"),
      Check(item.citation.Obj?, "invalid_lineage_ref", at + ".citation_ref"),
      Check(GoodSteps(item.steps), "invalid_normalization_steps", at + ".normalization_steps") ]
    + StageChecks(item.derived, "derived_stage_flag_not_allowed", at)
  }

  function ItemProblems(item: Lineage, at: string): seq<Problem> {
    if item.Lineage? then Failures(ItemChecks(item, at)) else [Problem("invalid_lineage_item", at)]
  }

  function Reports(items: seq<Lineage>, field: string): (r: seq<seq<Problem>>)
    ensures |r| == |items|
    ensures forall i :: 0 <= i < |r| ==> r[i] == ItemProblems(items[i], field + "[" + Decimal(i) + "]")
  {
    seq(|items|, i requires 0 <= i < |items| => ItemProblems(items[i], field + "[" + Decimal(i) + "]"))
  }

  /** `validate_normalized_external_retrieval_result_lineage`. */
  function LineageProblems(value: LineageList, field: string, required: bool): seq<Problem> {
    match value
    case NotAList(v) => if v == Null && !required then [] else [Problem("invalid_result_lineage", field)]
    case Items(items) => Flatten(Reports(items, field))
  }

  method ValidateLineage(value: LineageList, field: string, required: bool) returns (problems: seq<Problem>)
    ensures problems == LineageProblems(value, field, required)
  {
    match value
    case NotAList(v) =>
      problems := if v == Null && !required then [] else [Problem("invalid_result_lineage", field)];
    case Items(items) =>
      problems := [];
      for i := 0 to |items|
        invariant problems == Flatten(Reports(items[..i], field))
      {
        var found := ItemProblems(items[i], field + "[" + Decimal(i) + "]");
        assert Reports(items[..i + 1], field) == Reports(items[..i], field) + [found];
        FlattenSnoc(Reports(items[..i], field), found);
        problems := problems + found;
      }
      assert items[..|items|] == items;
  }

  /** What an accepted lineage item looks like. */
  predicate GoodItem(item: Lineage) {
    && item.Lineage?
    && item.kind == Str(LINEAGE_TYPE) && item.stage == Str(NORMALIZATION_STAGE)
    && HasText(item.providerId) && HasText(item.resultId) && HasText(item.rawRef)
    && NaturalIndex(item.rawIndex) && item.source.Obj? && item.citation.Obj? && GoodSteps(item.steps)
    && item.derived.AllFalse()
  }

  /** Steps are accepted as a nonempty list of strings, each with some other character than whitespace. */
  lemma StepsExactly(steps: Json)
    ensures GoodSteps(steps) <==>
              && steps.Arr? && steps.isList && |steps.items| > 0
              && forall step :: step in steps.items ==>
                   step.Str? && exists i :: 0 <= i < |step.s| && !IsSpace(step.s[i])
  {
    if steps.Arr? {
      forall k | 0 <= k < |steps.items|
        ensures HasText(steps.items[k]) <==>
                  steps.items[k].Str? && exists i :: 0 <= i < |steps.items[k].s| && !IsSpace(steps.items[k].s[i])
      {
        var _, _ := SafeTextExact(steps.items[k]);
      }
    }
  }

  lemma ItemGood(item: Lineage, at: string)
    ensures ItemProblems(item, at) == [] <==> GoodItem(item)
  {
    if item.Lineage? {
      var checks := ItemChecks(item, at);
      FailuresNone(checks);
      if AllPass(checks) {
        assert checks[0].passes && checks[1].passes && checks[2].passes && checks[3].passes && checks[4].passes;
        assert checks[5].passes && checks[6].passes && checks[7].passes && checks[8].passes && checks[9].passes;
        assert checks[10].passes && checks[11].passes && checks[12].passes && checks[13].passes;
      }
    }
  }

  /** A lineage list is accepted exactly when every item is. */
  lemma ItemsGood(items: seq<Lineage>, field: string)
    ensures Flatten(Reports(items, field)) == [] <==> forall i :: 0 <= i < |items| ==> GoodItem(items[i])
  {
    var reports := Reports(items, field);
    FlattenNone(reports);
    forall i | 0 <= i < |items| ensures reports[i] == [] <==> GoodItem(items[i]) {
      ItemGood(items[i], field + "[" + Decimal(i) + "]");
    }
  }

  lemma StepsGood()
    ensures GoodSteps(Arr(true, NORMALIZATION_STEPS))
  {
    NotBlankAt("required_result_field_validation", 0);
    NotBlankAt("provider_field_whitelist_copy", 0);
    NotBlankAt("source_ref_materialization", 0);
    NotBlankAt("citation_materialization", 0);
  }

  /** The builder's item is accepted exactly for nonblank ids, a natural index and two objects. */
  lemma BuiltItemExact(providerId: Json, resultId: Json, index: int, rawRef: Json, source: Json, citation: Json)
    ensures GoodItem(BuildLineage(providerId, resultId, index, rawRef, source, citation)) <==>
              && HasText(providerId) && HasText(resultId) && HasText(rawRef)
              && index >= 0 && source.Obj? && citation.Obj?
  {
    StepsGood();
    SafeTextNotBlank(providerId);
    SafeTextNotBlank(resultId);
    SafeTextNotBlank(rawRef);
  }
}
