/** What the provenance checker reports, error by error and record by record. */
module ProvenanceReports {
  import opened ContextInjection
  import opened ContextProvenance
  import opened ContextRendering
  import opened ContextTrace
  import opened JsonValues
  import opened KeyedLookup
  import opened Sequences
  import opened Sums
  import opened Wrappers

  ghost predicate InTrace(trace: Trace, source: string) {
    exists t :: 0 <= t < |trace.plannedItems| && trace.plannedItems[t].sourceName == source
  }

  /** Plan item `k` is the last one of this source, and the trace has the source too. */
  ghost predicate PlannedAs(trace: Trace, plan: Plan, source: string, k: nat) {
    && k < |plan.items| && plan.items[k].source == source && InTrace(trace, source)
    && forall j :: k < j < |plan.items| ==> plan.items[j].source != source
  }

  ghost predicate InPlan(plan: Plan, source: string) {
    exists k :: 0 <= k < |plan.items| && plan.items[k].source == source
  }

  ghost predicate Matched(trace: Trace, plan: Plan, item: RenderedItem) {
    InTrace(trace, item.source) && InPlan(plan, item.source)
  }

  lemma TraceSourcesExactly(trace: Trace, source: string)
    ensures source in TraceSources(trace.plannedItems) <==> InTrace(trace, source)
  {
    if InTrace(trace, source) {
      var t :| 0 <= t < |trace.plannedItems| && trace.plannedItems[t].sourceName == source;
      assert TraceSources(trace.plannedItems)[t] == source;
    }
  }

  lemma LookupExactly(trace: Trace, plan: Plan, item: RenderedItem) returns (k: nat)
    ensures PlanItemFor(trace, plan, item).Some? <==> Matched(trace, plan, item)
    ensures Matched(trace, plan, item) ==>
              PlannedAs(trace, plan, item.source, k) && PlanItemFor(trace, plan, item) == Some(plan.items[k])
  {
    var sources := PlanSources(plan.items);
    var at := LastIndex(sources, item.source);
    TraceSourcesExactly(trace, item.source);
    assert forall j :: 0 <= j < |plan.items| ==> sources[j] == plan.items[j].source;
    k := if at >= 0 then at else 0;
  }

  /** The rendered item gives rise to the error. */
  ghost predicate Causes(trace: Trace, plan: Plan, item: RenderedItem, e: ProvenanceError) {
    match e
    case UnmatchedRenderedItem(source) => source == item.source && !Matched(trace, plan, item)
    case RenderedItemNotAttributable(source) =>
      source == item.source && Matched(trace, plan, item) && !item.attributable
    case TokenEstimateInconsistent(source) =>
      source == item.source && exists k: nat ::
        PlannedAs(trace, plan, source, k) && item.tokenEstimate > plan.items[k].tokenCount
    case TruncationInconsistent(source) =>
      source == item.source && item.truncated && exists k: nat ::
        PlannedAs(trace, plan, source, k) && item.tokenEstimate >= plan.items[k].tokenCount
    case _ => false
  }

  lemma ItemErrorsExactly(trace: Trace, plan: Plan, item: RenderedItem, e: ProvenanceError)
    ensures e in ItemErrors(item, PlanItemFor(trace, plan, item)) <==> Causes(trace, plan, item, e)
  {
    var k := LookupExactly(trace, plan, item);
    forall i: nat | PlannedAs(trace, plan, item.source, i) ensures i == k && Matched(trace, plan, item) {
    }
  }

  ghost function ErrorsFor(trace: Trace, plan: Plan): RenderedItem -> seq<ProvenanceError> {
    (item: RenderedItem) => ItemErrors(item, PlanItemFor(trace, plan, item))
  }

  lemma {:induction false} ItemByItem(trace: Trace, plan: Plan, items: seq<RenderedItem>)
    ensures AllItemErrors(trace, plan, items) == FlatMap(items, ErrorsFor(trace, plan))
  {
    if items != [] {
      ItemByItem(trace, plan, items[..|items| - 1]);
    }
  }

  /** What the header and the totals give rise to. */
  ghost predicate HeaderCauses(trace: Trace, plan: Plan, block: Block, e: ProvenanceError) {
    match e
    case RetrievalExecutionNotFalse => trace.retrievalExecution != Bool(false)
    case ProvenanceOnlyNotTrue => !plan.provenanceOnly
    case InjectionPerformed => plan.injectionPerformed
    case PreviewOnlyNotTrue => !block.previewOnly
    case RenderedInjectionPerformed => block.injectionPerformed
    case RenderedTokenTotalInconsistent => Sum(Estimates(block.items)) > plan.totalEstimatedTokens
    case _ => false
  }

  lemma HeaderExactly(trace: Trace, plan: Plan, block: Block, e: ProvenanceError)
    ensures e in ErrorsOf(trace, plan, block) <==>
              HeaderCauses(trace, plan, block, e) || e in AllItemErrors(trace, plan, block.items)
  {
  }

  /** An error is reported exactly when the header, the totals or one of the rendered items gives rise to it. */
  lemma ErrorsExactly(trace: Trace, plan: Plan, block: Block, e: ProvenanceError)
    ensures e in ErrorsOf(trace, plan, block) <==>
              || HeaderCauses(trace, plan, block, e)
              || exists i :: 0 <= i < |block.items| && Causes(trace, plan, block.items[i], e)
  {
    HeaderExactly(trace, plan, block, e);
    ItemByItem(trace, plan, block.items);
    FlatMapMember(block.items, ErrorsFor(trace, plan), e);
    forall i | 0 <= i < |block.items|
      ensures e in ErrorsFor(trace, plan)(block.items[i]) <==> Causes(trace, plan, block.items[i], e)
    {
      ItemErrorsExactly(trace, plan, block.items[i], e);
    }
  }

  /** What the report says of a rendered item. */
  ghost predicate Records(r: ProvenanceItem, trace: Trace, plan: Plan, item: RenderedItem, matched: bool) {
    && Matched(trace, plan, item) == matched
    && r.source == item.source && r.attributable == item.attributable && r.tokenEstimate == item.tokenEstimate
    && (r.planned <==> InTrace(trace, item.source))
    && (r.truncationConsistent <==>
          matched && !Causes(trace, plan, item, TruncationInconsistent(item.source)))
  }

  lemma RecordExactly(trace: Trace, plan: Plan, item: RenderedItem)
    ensures Records(ItemRecord(trace, item, PlanItemFor(trace, plan, item)), trace, plan, item,
                    Matched(trace, plan, item))
  {
    var k := LookupExactly(trace, plan, item);
    TraceSourcesExactly(trace, item.source);
    forall i: nat | PlannedAs(trace, plan, item.source, i) ensures i == k && Matched(trace, plan, item) {
    }
  }

  /** The records, in order, of exactly the rendered items that are matched, or are not. */
  ghost predicate RecordsOf(records: seq<ProvenanceItem>, trace: Trace, plan: Plan, items: seq<RenderedItem>,
                            matched: bool)
  {
    if items == [] then records == []
    else
      var last := items[|items| - 1];
      if Matched(trace, plan, last) == matched
      then
        && records != [] && Records(records[|records| - 1], trace, plan, last, matched)
        && RecordsOf(records[..|records| - 1], trace, plan, items[..|items| - 1], matched)
      else RecordsOf(records, trace, plan, items[..|items| - 1], matched)
  }

  lemma {:induction false} RecordsExactly(trace: Trace, plan: Plan, items: seq<RenderedItem>, matched: bool)
    ensures RecordsOf(ContextProvenance.Records(trace, plan, items, matched), trace, plan, items, matched)
  {
    if items != [] {
      var init, last := items[..|items| - 1], items[|items| - 1];
      RecordsExactly(trace, plan, init, matched);
      RecordExactly(trace, plan, last);
      var k := LookupExactly(trace, plan, last);
      var before, all := ContextProvenance.Records(trace, plan, init, matched),
                         ContextProvenance.Records(trace, plan, items, matched);
      if Matched(trace, plan, last) == matched {
        assert all[..|all| - 1] == before;
      } else {
        assert all == before;
      }
    }
  }

  /**
   The report: one record for each rendered item, under matched or unmatched, in order, and
   token consistency exactly when no rendered item and not the total exceeds what was planned.
   */
  lemma ReportExactly(trace: Trace, plan: Plan, block: Block)
    ensures var report := ReportOf(trace, plan, block);
            && RecordsOf(report.matched, trace, plan, block.items, true)
            && RecordsOf(report.unmatched, trace, plan, block.items, false)
            && report.errors == ErrorsOf(trace, plan, block)
            && (report.tokenConsistency <==>
                  && Sum(Estimates(block.items)) <= plan.totalEstimatedTokens
                  && forall i, s :: 0 <= i < |block.items| ==>
                       !Causes(trace, plan, block.items[i], TokenEstimateInconsistent(s)))
  {
    RecordsExactly(trace, plan, block.items, true);
    RecordsExactly(trace, plan, block.items, false);
    var errors := ErrorsOf(trace, plan, block);
    forall e: ProvenanceError | TokenError(e)
      ensures e in errors <==>
                if e.TokenEstimateInconsistent?
                then exists i :: 0 <= i < |block.items| && Causes(trace, plan, block.items[i], e)
                else Sum(Estimates(block.items)) > plan.totalEstimatedTokens
    {
      ErrorsExactly(trace, plan, block, e);
    }
    assert NoTokenError(errors) <==> forall e :: e in errors ==> !TokenError(e);
    if Sum(Estimates(block.items)) > plan.totalEstimatedTokens {
      assert RenderedTokenTotalInconsistent in errors;
    }
  }
}
