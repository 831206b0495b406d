/**
 The bounded merge of result sets (`merge_external_search_result_sets` of
 runtime/artifacts/external_search.py).
 */
module ExternalSearchMerge {
  import opened ExternalSearch
  import opened JsonValues
  import opened RetrievalLineage
  import opened Sequences
  import opened Text
  import opened Validation
  import opened ValidatorSupport
  import opened Wrappers

  datatype Limits = Limits(sets: nat, perSet: nat, total: nat)

  function PositiveOr(v: Json, default: nat): nat {
    if PositiveInt(v) then v.n else default
  }

  /** `_bounded_merge_limits`. */
  function BoundedLimits(maxSets: Json, maxPerSet: Json, maxTotal: Json): (l: Limits)
    ensures l.sets > 0 && l.perSet > 0 && l.total > 0
  {
    Limits(PositiveOr(maxSets, 3), PositiveOr(maxPerSet, 5), PositiveOr(maxTotal, 10))
  }

  function Min(a: nat, b: nat): nat {
    if a < b then a else b
  }

  function Prefix<T>(items: seq<T>, count: nat): seq<T> {
    items[..Min(|items|, count)]
  }

  /** `_deepcopy_object_prefix` of a list of objects. */
  function ObjectPrefix(v: Json, count: nat): seq<Json> {
    if v.Arr? && v.isList then Prefix(v.items, count) else []
  }

  function LineagePrefix(lineage: LineageList, count: nat): seq<Lineage> {
    if lineage.Items? then Prefix(lineage.items, count) else []
  }

  /** The nonblank texts of a list. */
  function Texts(items: seq<Json>): seq<string> {
    if items == [] then []
    else Texts(items[..|items| - 1]) + (if HasText(items[|items| - 1]) then [items[|items| - 1].s] else [])
  }

  /** Iterating over the receipt refs: an explicit `None` raises. */
  function ReceiptTexts(refs: Option<Json>): Option<seq<string>> {
    if refs.None? then Some([])
    else if refs.value.Arr? then Some(Texts(refs.value.items))
    else None
  }

  /** What the loop has collected so far. */
  datatype Progress = Progress(raw: seq<Json>, sources: seq<Json>, citations: seq<Json>, lineage: seq<Lineage>,
                               receipts: seq<string>, records: seq<InputRecord>, skipped: seq<string>)

  const START := Progress([], [], [], [], [], [], [])

  function Skip(p: Progress, reason: string): Progress {
    p.(skipped := p.skipped + [reason])
  }

  /** How many results of a valid set are taken. */
  function Taken(p: Progress, set': Artifact, limits: Limits): nat
    requires set'.Artifact? && set'.rawResults.Arr? && |p.raw| <= limits.total
  {
    Min(Min(|set'.rawResults.items|, limits.perSet), limits.total - |p.raw|)
  }

  /** A valid set for which there is still room. */
  function Accept(p: Progress, set': Artifact, index: nat, limits: Limits, receipts: seq<string>): Progress
    requires Valid(set') && |p.raw| < limits.total
  {
    var count := Taken(p, set', limits);
    Progress(
      p.raw + Prefix(set'.rawResults.items, count),
      p.sources + ObjectPrefix(set'.sourceRefs, count),
      p.citations + ObjectPrefix(set'.citations, count),
      p.lineage + LineagePrefix(set'.lineage, count),
      p.receipts + receipts,
      p.records + [InputRecord(index, set'.artifactType, set'.searchId, set'.query, count, |p.raw|, |p.raw| + count)],
      p.skipped + (if |set'.rawResults.items| > count then ["result_count_bounded"] else []))
  }

  /** The loop from set `index` on: the final progress, or `None` for a `TypeError`. */
  function MergeFrom(sets: seq<Artifact>, limits: Limits, index: nat, p: Progress): Option<Progress>
    requires index <= |sets|
    decreases |sets| - index
  {
    if index == |sets| then Some(p)
    else if !Valid(sets[index]) then MergeFrom(sets, limits, index + 1, Skip(p, "invalid_result_set"))
    else if |p.raw| >= limits.total then Some(Skip(p, "total_result_count_bounded"))
    else
      var receipts := ReceiptTexts(sets[index].receiptRefs);
      if receipts.None? then None
      else MergeFrom(sets, limits, index + 1, Accept(p, sets[index], index, limits, receipts.value))
  }

  function Bounded(sets: seq<Artifact>, limits: Limits): seq<Artifact> {
    Prefix(sets, limits.sets)
  }

  /** Before the loop: note when there are more sets than allowed. */
  function Opening(sets: seq<Artifact>, limits: Limits): Progress {
    if |sets| > limits.sets then Skip(START, "result_set_count_bounded") else START
  }

  function Collect(sets: seq<Artifact>, limits: Limits): Option<Progress> {
    MergeFrom(Bounded(sets, limits), limits, 0, Opening(sets, limits))
  }

  function TextList(texts: seq<string>): Json {
    Arr(true, seq(|texts|, i requires 0 <= i < |texts| => Str(texts[i])))
  }

  function Patched(p: Provenance, patch: ProvenancePatch): Provenance
    requires p.Provenance?
  {
    p.(provider := if patch.provider.Some? then patch.provider.value else p.provider,
       derived := if patch.derived.Some? then patch.derived.value else p.derived,
       receiptRefs := if patch.receiptRefs.Some? then patch.receiptRefs.value else p.receiptRefs)
  }

  /** `build_external_search_result_set`. */
  function BuildResultSet(searchId: Json, query: Json, raw: seq<Json>, sources: seq<Json>, citations: seq<Json>,
                          receipts: seq<string>, lineage: seq<Lineage>, patch: ProvenancePatch, metadata: Metadata)
    : Artifact
  {
    var refs := TextList(StrippedTexts(receipts));
    Artifact(
      Str(RESULT_SET_ARTIFACT), Str(RESULT_SET_ARTIFACT), Validation.TextOrNull(Validation.SafeText(searchId)),
      Validation.TextOrNull(Validation.SafeText(query)), Bool(false), Bool(false), {}, Arr(true, raw),
      Arr(true, sources), Arr(true, citations), Arr(true, []), Some(refs), Items(lineage),
      Patched(Provenance(Str("pre_provider_integration"), Bool(false), NO_PROVIDER_STAGES, NO_STAGES, refs), patch),
      NO_AUTHORITY, metadata)
  }

  /** `_merge_metadata`. */
  function MergeMetadata(limits: Limits, p: Progress): Metadata {
    Metadata(Str(MERGE_TYPE), Bool(true), LimitValues(Num(limits.sets), Num(limits.perSet), Num(limits.total)),
             InputSets(p.records), Num(|p.records|), Num(|p.raw|), Bool(false), NO_STAGES,
             TextList(Unique(p.skipped)))
  }

  function Finish(searchId: Json, limits: Limits, p: Progress): Artifact {
    BuildResultSet(
      searchId, Str("merged external search result sets"), p.raw, p.sources, p.citations, p.receipts, p.lineage,
      ProvenancePatch(Some(NO_PROVIDER_STAGES), Some(NO_STAGES), Some(TextList(Unique(p.receipts)))),
      MergeMetadata(limits, p))
  }

  /** `merge_external_search_result_sets`; `sets` is `None` for anything but a list or tuple. */
  function Merge(searchId: Json, sets: Option<seq<Artifact>>, limits: Limits): Option<Artifact> {
    if sets.None? then Some(Finish(searchId, limits, Skip(START, "result_sets_missing")))
    else
      var p := Collect(sets.value, limits);
      if p.Some? then Some(Finish(searchId, limits, p.value)) else None
  }

  /** The validator reports nothing. */
  method Accepted(a: Artifact) returns (valid: bool)
    ensures valid <==> Valid(a)
  {
    var errors := ValidateResultSet(a);
    valid := errors == [];
  }

  method MergeResultSets(searchId: Json, sets: seq<Artifact>, limits: Limits) returns (merged: Option<Artifact>)
    ensures merged == Merge(searchId, Some(sets), limits)
  {
    var bounded := Bounded(sets, limits);
    var p := Opening(sets, limits);
    var index := 0;
    while index < |bounded|
      invariant index <= |bounded|
      invariant MergeFrom(bounded, limits, index, p) == Collect(sets, limits)
    {
      var valid := Accepted(bounded[index]);
      if !valid {
        p := Skip(p, "invalid_result_set");
      } else if |p.raw| >= limits.total {
        p := Skip(p, "total_result_count_bounded");
        return Some(Finish(searchId, limits, p));
      } else {
        var receipts := ReceiptTexts(bounded[index].receiptRefs);
        if receipts.None? {
          return None;
        }
        p := Accept(p, bounded[index], index, limits, receipts.value);
      }
      index := index + 1;
    }
    merged := Some(Finish(searchId, limits, p));
  }
}
