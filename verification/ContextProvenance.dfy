/** The checker over trace, plan and rendered block (runtime/context_provenance.py). */
module ContextProvenance {
  import opened ContextBudgeting
  import opened ContextInjection
  import opened ContextRendering
  import opened ContextTrace
  import opened JsonValues
  import opened KeyedLookup
  import opened Sums
  import opened Text
  import opened Wrappers

  datatype ProvenanceError =
    | RetrievalExecutionNotFalse
    | ProvenanceOnlyNotTrue
    | InjectionPerformed
    | PreviewOnlyNotTrue
    | RenderedInjectionPerformed
    | UnmatchedRenderedItem(source: string)
    | RenderedItemNotAttributable(source: string)
    | TokenEstimateInconsistent(source: string)
    | TruncationInconsistent(source: string)
    | RenderedTokenTotalInconsistent

  datatype ProvenanceItem = ProvenanceItem(
    source: string, planned: bool, attributable: bool, tokenEstimate: int, truncationConsistent: bool)

  datatype Report = Report(
    matched: seq<ProvenanceItem>, unmatched: seq<ProvenanceItem>,
    errors: seq<ProvenanceError>, tokenConsistency: bool)

  function TraceSources(items: seq<PlannedItem>): seq<string> {
    seq(|items|, i requires 0 <= i < |items| => items[i].sourceName)
  }

  function PlanSources(items: seq<InjectedItem>): seq<string> {
    seq(|items|, i requires 0 <= i < |items| => items[i].source)
  }

  function HeaderErrors(trace: Trace, plan: Plan, block: Block): seq<ProvenanceError> {
    (if trace.retrievalExecution == Bool(false) then [] else [RetrievalExecutionNotFalse])
    + (if plan.provenanceOnly then [] else [ProvenanceOnlyNotTrue])
    + (if plan.injectionPerformed then [InjectionPerformed] else [])
    + (if block.previewOnly then [] else [PreviewOnlyNotTrue])
    + (if block.injectionPerformed then [RenderedInjectionPerformed] else [])
  }

  /** The planned item of a rendered one, when both keyed lookups find its source. */
  function PlanItemFor(trace: Trace, plan: Plan, item: RenderedItem): Option<InjectedItem> {
    var k := LastIndex(PlanSources(plan.items), item.source);
    if item.source in TraceSources(trace.plannedItems) && k >= 0 then Some(plan.items[k]) else None
  }

  predicate TruncationConsistent(item: RenderedItem, planned: InjectedItem) {
    !(item.truncated && item.tokenEstimate >= planned.tokenCount)
  }

  function ItemErrors(item: RenderedItem, planned: Option<InjectedItem>): seq<ProvenanceError> {
    match planned
    case None => [UnmatchedRenderedItem(item.source)]
    case Some(p) =>
      (if item.attributable then [] else [RenderedItemNotAttributable(item.source)])
      + (if item.tokenEstimate > p.tokenCount then [TokenEstimateInconsistent(item.source)] else [])
      + (if TruncationConsistent(item, p) then [] else [TruncationInconsistent(item.source)])
  }

  function AllItemErrors(trace: Trace, plan: Plan, items: seq<RenderedItem>): seq<ProvenanceError> {
    if items == [] then []
    else
      var last := items[|items| - 1];
      AllItemErrors(trace, plan, items[..|items| - 1]) + ItemErrors(last, PlanItemFor(trace, plan, last))
  }

  function ItemRecord(trace: Trace, item: RenderedItem, planned: Option<InjectedItem>): ProvenanceItem {
    match planned
    case None => ProvenanceItem(item.source, item.source in TraceSources(trace.plannedItems),
                                item.attributable, item.tokenEstimate, false)
    case Some(p) => ProvenanceItem(item.source, true, item.attributable, item.tokenEstimate,
                                   TruncationConsistent(item, p))
  }

  /** The records of the matched (or of the unmatched) rendered items, in order. */
  function Records(trace: Trace, plan: Plan, items: seq<RenderedItem>, matched: bool): seq<ProvenanceItem> {
    if items == [] then []
    else
      var last := items[|items| - 1];
      var planned := PlanItemFor(trace, plan, last);
      Records(trace, plan, items[..|items| - 1], matched)
      + if planned.Some? == matched then [ItemRecord(trace, last, planned)] else []
  }

  predicate TokenError(e: ProvenanceError) {
    e.TokenEstimateInconsistent? || e.RenderedTokenTotalInconsistent?
  }

  predicate NoTokenError(errors: seq<ProvenanceError>) {
    forall i :: 0 <= i < |errors| ==> !TokenError(errors[i])
  }

  /** Everything `validate_context_provenance` reports. */
  function ErrorsOf(trace: Trace, plan: Plan, block: Block): seq<ProvenanceError> {
    HeaderErrors(trace, plan, block)
    + AllItemErrors(trace, plan, block.items)
    + (if Sum(Estimates(block.items)) > plan.totalEstimatedTokens then [RenderedTokenTotalInconsistent] else [])
  }

  function ReportOf(trace: Trace, plan: Plan, block: Block): Report {
    var errors := ErrorsOf(trace, plan, block);
    Report(Records(trace, plan, block.items, true), Records(trace, plan, block.items, false), errors,
           NoTokenError(errors))
  }

  /** The loop of `validate_context_provenance` over the rendered items. */
  method CheckItems(trace: Trace, plan: Plan, items: seq<RenderedItem>)
    returns (errors: seq<ProvenanceError>, matched: seq<ProvenanceItem>, unmatched: seq<ProvenanceItem>,
             tokenConsistency: bool, total: int)
    ensures errors == AllItemErrors(trace, plan, items)
    ensures matched == Records(trace, plan, items, true) && unmatched == Records(trace, plan, items, false)
    ensures tokenConsistency == NoTokenError(errors) && total == Sum(Estimates(items))
  {
    errors, matched, unmatched := [], [], [];
    tokenConsistency, total := true, 0;
    for i := 0 to |items|
      invariant errors == AllItemErrors(trace, plan, items[..i])
      invariant matched == Records(trace, plan, items[..i], true)
      invariant unmatched == Records(trace, plan, items[..i], false)
      invariant tokenConsistency == NoTokenError(errors)
      invariant total == Sum(Estimates(items)[..i])
    {
      var planned := PlanItemFor(trace, plan, items[i]);
      var found := ItemErrors(items[i], planned);
      PrefixStep(trace, plan, items, i);
      NoTokenErrorAppend(errors, found);
      total := total + items[i].tokenEstimate;
      errors := errors + found;
      tokenConsistency := tokenConsistency && NoTokenError(found);
      if planned.Some? {
        matched := matched + [ItemRecord(trace, items[i], planned)];
      } else {
        unmatched := unmatched + [ItemRecord(trace, items[i], planned)];
      }
    }
    assert items[..|items|] == items;
    assert Estimates(items)[..|items|] == Estimates(items);
  }

  /** `validate_context_provenance`. */
  method ValidateContextProvenance(trace: Trace, plan: Plan, block: Block) returns (report: Report)
    ensures report == ReportOf(trace, plan, block)
  {
    var header := HeaderErrors(trace, plan, block);
    var errors, matched, unmatched, tokenConsistency, total := CheckItems(trace, plan, block.items);
    HeaderHasNoTokenError(trace, plan, block);
    NoTokenErrorAppend(header, errors);
    errors := header + errors;
    var totals := if total > plan.totalEstimatedTokens then [RenderedTokenTotalInconsistent] else [];
    NoTokenErrorAppend(errors, totals);
    assert totals != [] ==> TokenError(totals[0]);
    report := Report(matched, unmatched, errors + totals, tokenConsistency && totals == []);
  }

  lemma HeaderHasNoTokenError(trace: Trace, plan: Plan, block: Block)
    ensures NoTokenError(HeaderErrors(trace, plan, block))
  {
  }

  lemma PrefixStep(trace: Trace, plan: Plan, items: seq<RenderedItem>, i: nat)
    requires i < |items|
    ensures var planned := PlanItemFor(trace, plan, items[i]);
            && AllItemErrors(trace, plan, items[..i + 1])
               == AllItemErrors(trace, plan, items[..i]) + ItemErrors(items[i], planned)
            && Records(trace, plan, items[..i + 1], planned.Some?)
               == Records(trace, plan, items[..i], planned.Some?) + [ItemRecord(trace, items[i], planned)]
            && Records(trace, plan, items[..i + 1], !planned.Some?)
               == Records(trace, plan, items[..i], !planned.Some?)
            && Sum(Estimates(items)[..i + 1]) == Sum(Estimates(items)[..i]) + items[i].tokenEstimate
  {
    assert items[..i + 1][..i] == items[..i];
    assert Estimates(items)[..i + 1] == Estimates(items)[..i] + [items[i].tokenEstimate];
    SumSnoc(Estimates(items)[..i], items[i].tokenEstimate);
  }

  lemma NoTokenErrorAppend(xs: seq<ProvenanceError>, ys: seq<ProvenanceError>)
    ensures NoTokenError(xs + ys) == (NoTokenError(xs) && NoTokenError(ys))
  {
    forall i | 0 <= i < |xs| ensures xs[i] == (xs + ys)[i] {}
    forall i | 0 <= i < |ys| ensures ys[i] == (xs + ys)[|xs| + i] {}
  }

  /** How far a budget estimate is above the planned count of the same item. */
  lemma EstimateAgainstCount(item: PlannedItem)
    requires item.sourceType in ALLOWED_SOURCE_TYPES
    ensures var injected := ToInjectionItem(item);
            var estimate := EstimateTokens(injected, None).tokens;
            && 1 <= injected.tokenCount <= estimate <= injected.tokenCount + 1
            && (estimate == injected.tokenCount ==> estimate == 1)
  {
    var source, kind, reason := item.sourceName, item.sourceType, item.inclusionReason;
    AllowedTypesAreWords(kind);
    WordCountOne(kind);
    WordCountJoin(source, reason);
    WordCountJoin(source, kind);
    WordCountJoin(source + " " + kind, reason);
  }

  lemma AllowedTypesAreWords(kind: string)
    requires kind in ALLOWED_SOURCE_TYPES
    ensures kind != "" && SpaceFree(kind)
  {
  }
}
