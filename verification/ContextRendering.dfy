/** The rendered preview of a plan, without its text (runtime/context_rendering.py). */
module ContextRendering {
  import opened ContextBudgeting
  import opened ContextInjection
  import opened KeyedLookup
  import opened Wrappers

  datatype RenderedItem = RenderedItem(
    source: string, truncated: bool, attributable: bool, tokenEstimate: int, previewOnly: bool)

  datatype Block = Block(
    items: seq<RenderedItem>, estimatedTokens: int, truncationApplied: bool,
    previewOnly: bool, injectionPerformed: bool, errors: seq<BudgetError>)

  /** `render_context_item_preview`. */
  function RenderItem(item: InjectedItem, plan: Option<TruncationPlan>): RenderedItem {
    if plan.Some? && plan.value.truncationRequired
    then RenderedItem(item.source, true, item.attributable, plan.value.targetTokens, true)
    else RenderedItem(item.source, false, item.attributable, item.tokenCount, true)
  }

  function TruncationSources(plans: seq<TruncationPlan>): seq<string> {
    seq(|plans|, i requires 0 <= i < |plans| => plans[i].source)
  }

  /** `truncation_by_source.get(source)`. */
  function TruncationFor(plans: seq<TruncationPlan>, source: string): Option<TruncationPlan> {
    var i := LastIndex(TruncationSources(plans), source);
    if i < 0 then None else Some(plans[i])
  }

  function RenderItems(items: seq<InjectedItem>, plans: seq<TruncationPlan>): seq<RenderedItem> {
    seq(|items|, i requires 0 <= i < |items| => RenderItem(items[i], TruncationFor(plans, items[i].source)))
  }

  function Estimates(items: seq<RenderedItem>): seq<int> {
    seq(|items|, i requires 0 <= i < |items| => items[i].tokenEstimate)
  }

  /** `render_context_preview`: without a budget nothing is validated or cut. */
  function RenderPreview(plan: Plan, maxTokens: Option<int>): Block {
    match maxTokens
    case None =>
      var items := RenderItems(plan.items, []);
      Block(items, Sums.Sum(Estimates(items)), AnyTruncated(items), true, false, [])
    case Some(limit) =>
      var v := BudgetOf(plan, limit, DropTail, map[]);
      var items := RenderItems(plan.items, v.truncationPlans);
      Block(items, v.totalEstimatedTokens, AnyTruncated(items), true, false, v.errors)
  }

  predicate AnyTruncated(items: seq<RenderedItem>) {
    exists i :: 0 <= i < |items| && items[i].truncated
  }

  /** `_plans_by_source`: a later plan of the same source replaces an earlier one. */
  method PlansBySource(plans: seq<TruncationPlan>) returns (bySource: map<string, TruncationPlan>)
    ensures forall s :: TruncationFor(plans, s) == if s in bySource then Some(bySource[s]) else None
  {
    bySource := map[];
    for i := 0 to |plans|
      invariant forall s :: TruncationFor(plans[..i], s) == if s in bySource then Some(bySource[s]) else None
    {
      assert TruncationSources(plans[..i + 1])[..i] == TruncationSources(plans[..i]);
      bySource := bySource[plans[i].source := plans[i]];
    }
    assert plans[..|plans|] == plans;
  }

  /** The rendered items with their token sum, and whether any was cut. */
  method RenderAll(items: seq<InjectedItem>, plans: seq<TruncationPlan>)
    returns (rendered: seq<RenderedItem>, total: int, truncated: bool)
    ensures rendered == RenderItems(items, plans)
    ensures total == Sums.Sum(Estimates(rendered)) && truncated == AnyTruncated(rendered)
  {
    var bySource := PlansBySource(plans);
    rendered, total, truncated := [], 0, false;
    for i := 0 to |items|
      invariant rendered == RenderItems(items[..i], plans)
      invariant total == Sums.Sum(Estimates(rendered))
      invariant truncated == AnyTruncated(rendered)
    {
      var source := items[i].source;
      var item := RenderItem(items[i], if source in bySource then Some(bySource[source]) else None);
      AddRendered(rendered, item);
      rendered := rendered + [item];
      total, truncated := total + item.tokenEstimate, truncated || item.truncated;
    }
    assert items[..|items|] == items;
  }

  lemma AddRendered(items: seq<RenderedItem>, item: RenderedItem)
    ensures Sums.Sum(Estimates(items + [item])) == Sums.Sum(Estimates(items)) + item.tokenEstimate
    ensures AnyTruncated(items + [item]) <==> AnyTruncated(items) || item.truncated
  {
    assert Estimates(items + [item]) == Estimates(items) + [item.tokenEstimate];
    Sums.SumSnoc(Estimates(items), item.tokenEstimate);
    assert (items + [item])[|items|] == item;
    assert forall k :: 0 <= k < |items| ==> (items + [item])[k] == items[k];
  }

  /** `render_context_preview`. */
  method RenderContextPreview(plan: Plan, maxTokens: Option<int>) returns (block: Block)
    ensures block == RenderPreview(plan, maxTokens)
  {
    match maxTokens
    case None =>
      var items, total, truncated := RenderAll(plan.items, []);
      block := Block(items, total, truncated, true, false, []);
    case Some(limit) =>
      var v := ValidateContextBudget(plan, limit, DropTail, map[]);
      var items, _, truncated := RenderAll(plan.items, v.truncationPlans);
      block := Block(items, v.totalEstimatedTokens, truncated, true, false, v.errors);
  }
}
