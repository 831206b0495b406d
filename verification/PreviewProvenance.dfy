/**
 The preview of a plan against the provenance checker: what the checker reports for every
 trace, policy and budget.
 */
module PreviewProvenance {
  import opened ContextBudgeting
  import opened ContextInjection
  import opened ContextProvenance
  import opened ContextRendering
  import opened ContextTrace
  import opened JsonValues
  import opened KeyedLookup
  import opened Sums
  import opened Text
  import opened Wrappers

  /** What every trace of the planner satisfies (`TracesAreWellPlanned`). */
  ghost predicate WellPlanned(trace: Trace) {
    && DistinctSources(trace.plannedItems)
    && (forall i :: 0 <= i < |trace.plannedItems| ==> trace.plannedItems[i].attributable)
    && trace.retrievalExecution == Bool(false)
  }

  lemma CandidatesAttributable(agent: string, capability: string, resources: seq<string>, policy: ContextPolicy)
    ensures forall item :: item in CandidateItems(agent, capability, resources, policy) ==> item.attributable
  {
  }

  lemma TracesAttributable(agent: string, capability: string, binding: Binding, i: nat)
    requires i < |TracePlannedContext(agent, capability, binding).plannedItems|
    ensures TracePlannedContext(agent, capability, binding).plannedItems[i].attributable
  {
    if binding.Resolved? {
      var policy := ValidateContextPolicy(binding.policy).0;
      if policy.Some? {
        CandidatesAttributable(agent, capability, binding.resources, policy.value);
      }
    }
  }

  lemma TracesAreWellPlanned(agent: string, capability: string, binding: Binding)
    ensures WellPlanned(TracePlannedContext(agent, capability, binding))
  {
    TraceSourcesDistinct(agent, capability, binding);
    forall i | 0 <= i < |TracePlannedContext(agent, capability, binding).plannedItems|
      ensures TracePlannedContext(agent, capability, binding).plannedItems[i].attributable
    {
      TracesAttributable(agent, capability, binding, i);
    }
  }

  function BudgetTokens(plan: Plan): seq<int> {
    TokensOf(EstimatesOf(plan.items, map[]))
  }

  /** What the estimates of a plan's items look like next to their counts. */
  ghost predicate Costed(items: seq<InjectedItem>) {
    var tokens := TokensOf(EstimatesOf(items, map[]));
    forall i :: 0 <= i < |items| ==>
      && 1 <= items[i].tokenCount <= tokens[i] <= items[i].tokenCount + 1
      && (tokens[i] == items[i].tokenCount ==> tokens[i] == 1)
  }

  /** The facts about a plan that the checker's verdict depends on. */
  ghost predicate Sound(trace: Trace, plan: Plan) {
    && DistinctPlanSources(plan.items)
    && Costed(plan.items)
    && (forall i :: 0 <= i < |plan.items| ==>
          plan.items[i].attributable && plan.items[i].source in TraceSources(trace.plannedItems))
    && plan.totalEstimatedTokens == Sum(Tokens(plan.items))
    && plan.provenanceOnly && !plan.injectionPerformed
    && trace.retrievalExecution == Bool(false)
  }

  lemma PlansAreSound(trace: Trace, policy: InjectionPolicy)
    requires WellPlanned(trace)
    ensures Sound(trace, PlanOf(trace, policy))
  {
    var plan := PlanOf(trace, policy);
    PlanSourcesDistinct(trace, policy);
    if PolicyErrors(policy) == [] {
      PlanIsMaximalPrefix(trace, policy);
    }
    forall i | 0 <= i < |plan.items|
      ensures plan.items[i].attributable && plan.items[i].source in TraceSources(trace.plannedItems)
      ensures var estimate := EstimatesOf(plan.items, map[])[i].tokens;
              && 1 <= plan.items[i].tokenCount <= estimate <= plan.items[i].tokenCount + 1
              && (estimate == plan.items[i].tokenCount ==> estimate == 1)
    {
      PlannedItemFacts(trace, policy, i);
    }
  }

  lemma PlannedItemFacts(trace: Trace, policy: InjectionPolicy, i: nat)
    requires WellPlanned(trace) && i < |PlanOf(trace, policy).items|
    ensures var item := PlanOf(trace, policy).items[i];
            var estimate := EstimateTokens(item, None).tokens;
            && item.attributable && item.source in TraceSources(trace.plannedItems)
            && 1 <= item.tokenCount <= estimate <= item.tokenCount + 1
            && (estimate == item.tokenCount ==> estimate == 1)
  {
    var item := PlanOf(trace, policy).items[i];
    PlanFromTrace(trace, policy, i);
    var k :| 0 <= k < |trace.plannedItems|
             && item == ToInjectionItem(trace.plannedItems[k]) && item.sourceType in policy.allowedSourceTypes;
    assert TraceSources(trace.plannedItems)[k] == item.source;
    AllowedTypesSupported(policy, item.sourceType);
    EstimateAgainstCount(trace.plannedItems[k]);
  }

  lemma AllowedTypesSupported(policy: InjectionPolicy, kind: string)
    requires PolicyErrors(policy) == [] && kind in policy.allowedSourceTypes
    ensures kind in ALLOWED_SOURCE_TYPES
  {
    var i :| 0 <= i < |policy.allowedSourceTypes| && policy.allowedSourceTypes[i] == kind;
  }

  /** The budget cuts entry `k` exactly to its planned count, one below its estimate. */
  ghost predicate CutAtPlannedCount(plan: Plan, budget: Option<int>, k: int) {
    && budget.Some? && budget.value > 0
    && 0 <= k < |plan.items|
    && Sum(BudgetTokens(plan)[..k]) + plan.items[k].tokenCount == budget.value
    && plan.items[k].tokenCount < BudgetTokens(plan)[k]
  }

  predicate OverBudget(plan: Plan, budget: Option<int>) {
    budget.Some? && budget.value > 0 && Sum(BudgetTokens(plan)) > budget.value
  }

  lemma TruncationAt(items: seq<InjectedItem>, maxTokens: int, i: nat)
    requires DistinctPlanSources(items) && maxTokens > 0 && i < |items|
    ensures var estimates := EstimatesOf(items, map[]);
            TruncationFor(TruncationPlansOf(estimates, maxTokens, DropTail), items[i].source)
            == Some(PlanFor(estimates[i], DropTailTarget(TokensOf(estimates), maxTokens, i)))
  {
    var plans := TruncationPlansOf(EstimatesOf(items, map[]), maxTokens, DropTail);
    var sources := TruncationSources(plans);
    assert forall j :: 0 <= j < |sources| ==> sources[j] == items[j].source;
    LastIndexUnique(sources, i);
  }

  /** What position `i` of the preview holds, without a lookup by source. */
  function Shown(plan: Plan, budget: Option<int>, i: nat): RenderedItem
    requires i < |plan.items|
  {
    var item, tokens := plan.items[i], BudgetTokens(plan);
    if OverBudget(plan, budget) && DropTailTarget(tokens, budget.value, i) < tokens[i]
    then RenderedItem(item.source, true, item.attributable, DropTailTarget(tokens, budget.value, i), true)
    else RenderedItem(item.source, false, item.attributable, item.tokenCount, true)
  }

  lemma RenderedAt(plan: Plan, budget: Option<int>, i: nat)
    requires DistinctPlanSources(plan.items) && i < |plan.items|
    ensures |RenderPreview(plan, budget).items| == |plan.items|
    ensures RenderPreview(plan, budget).items[i] == Shown(plan, budget, i)
  {
    if OverBudget(plan, budget) {
      TruncationAt(plan.items, budget.value, i);
    }
  }

  /** The keyed lookup of a rendered item finds the plan item at its position. */
  lemma LookupAtPosition(trace: Trace, plan: Plan, i: nat, item: RenderedItem)
    requires Sound(trace, plan) && i < |plan.items| && item.source == plan.items[i].source
    ensures PlanItemFor(trace, plan, item) == Some(plan.items[i])
  {
    var sources := PlanSources(plan.items);
    assert forall j :: 0 <= j < |sources| ==> sources[j] == plan.items[j].source;
    LastIndexUnique(sources, i);
  }

  lemma CutImpliesOverBudget(plan: Plan, budget: Option<int>, k: nat)
    requires Costed(plan.items) && CutAtPlannedCount(plan, budget, k)
    ensures OverBudget(plan, budget)
  {
    SumDominates(BudgetTokens(plan), k);
  }

  lemma ShownEstimate(plan: Plan, budget: Option<int>, i: nat)
    requires Costed(plan.items) && i < |plan.items|
    ensures var item := Shown(plan, budget, i);
            && item.tokenEstimate <= plan.items[i].tokenCount
            && (TruncationConsistent(item, plan.items[i]) <==> !CutAtPlannedCount(plan, budget, i))
  {
    if CutAtPlannedCount(plan, budget, i) {
      CutImpliesOverBudget(plan, budget, i);
    }
  }

  lemma ItemVerdict(trace: Trace, plan: Plan, budget: Option<int>, i: nat)
    requires Sound(trace, plan) && i < |plan.items|
    ensures var item := Shown(plan, budget, i);
            && ItemErrors(item, PlanItemFor(trace, plan, item))
               == (if CutAtPlannedCount(plan, budget, i) then [TruncationInconsistent(plan.items[i].source)] else [])
            && item.tokenEstimate <= plan.items[i].tokenCount
  {
    LookupAtPosition(trace, plan, i, Shown(plan, budget, i));
    ShownEstimate(plan, budget, i);
  }

  /** The budget runs out inside one entry only. */
  lemma OneCut(plan: Plan, budget: Option<int>, j: nat, k: nat)
    requires Costed(plan.items) && CutAtPlannedCount(plan, budget, j) && CutAtPlannedCount(plan, budget, k)
    ensures j == k
  {
    if j != k {
      var a, b := if j < k then j else k, if j < k then k else j;
      var tokens := BudgetTokens(plan);
      assert tokens[..b][..a] == tokens[..a];
      SumDominates(tokens[..b], a);
    }
  }

  /** The position the budget cuts at its planned count, or -1. */
  lemma CutPosition(plan: Plan, budget: Option<int>) returns (cut: int)
    requires Costed(plan.items)
    ensures -1 <= cut < |plan.items|
    ensures forall k :: CutAtPlannedCount(plan, budget, k) <==> k == cut && cut >= 0
  {
    if k :| CutAtPlannedCount(plan, budget, k) {
      cut := k;
      forall j | CutAtPlannedCount(plan, budget, j) ensures j == k {
        OneCut(plan, budget, j, k);
      }
    } else {
      cut := -1;
    }
  }

  /** When at most one item has an error, that error is all there is. */
  lemma {:induction false} SingleError(trace: Trace, plan: Plan, items: seq<RenderedItem>, cut: int,
                                       error: ProvenanceError)
    requires forall i :: 0 <= i < |items| ==>
               ItemErrors(items[i], PlanItemFor(trace, plan, items[i])) == if i == cut then [error] else []
    ensures AllItemErrors(trace, plan, items) == if 0 <= cut < |items| then [error] else []
    decreases |items|
  {
    if items != [] {
      SingleError(trace, plan, items[..|items| - 1], cut, error);
    }
  }

  /** Rendering never shows more tokens than the plan counted. */
  lemma TotalWithinPlan(trace: Trace, plan: Plan, budget: Option<int>)
    requires Sound(trace, plan)
    ensures Sum(Estimates(RenderPreview(plan, budget).items)) <= plan.totalEstimatedTokens
  {
    var items := RenderPreview(plan, budget).items;
    forall i | 0 <= i < |plan.items|
      ensures |items| == |plan.items| && items[i].tokenEstimate <= plan.items[i].tokenCount
    {
      RenderedAt(plan, budget, i);
      ShownEstimate(plan, budget, i);
    }
    SumMonotone(Estimates(items), Tokens(plan.items));
  }

  lemma PreviewItemErrors(trace: Trace, plan: Plan, budget: Option<int>, cut: int, error: ProvenanceError)
    requires Sound(trace, plan)
    requires forall k :: CutAtPlannedCount(plan, budget, k) <==> k == cut && cut >= 0
    requires cut >= 0 ==> cut < |plan.items| && error == TruncationInconsistent(plan.items[cut].source)
    ensures AllItemErrors(trace, plan, RenderPreview(plan, budget).items) == if cut >= 0 then [error] else []
  {
    var items := RenderPreview(plan, budget).items;
    forall i | 0 <= i < |items|
      ensures ItemErrors(items[i], PlanItemFor(trace, plan, items[i])) == if i == cut then [error] else []
    {
      RenderedAt(plan, budget, i);
      ItemVerdict(trace, plan, budget, i);
    }
    SingleError(trace, plan, items, cut, error);
    if cut >= 0 {
      RenderedAt(plan, budget, cut);
    }
  }

  lemma ErrorsAreItemErrors(trace: Trace, plan: Plan, block: Block)
    requires HeaderErrors(trace, plan, block) == []
    requires Sum(Estimates(block.items)) <= plan.totalEstimatedTokens
    ensures ErrorsOf(trace, plan, block) == AllItemErrors(trace, plan, block.items)
  {
  }

  lemma CleanHeader(trace: Trace, plan: Plan, budget: Option<int>)
    requires Sound(trace, plan)
    ensures HeaderErrors(trace, plan, RenderPreview(plan, budget)) == []
  {
  }

  /**
   Token consistency holds, and the only error there can be is one truncation
   inconsistency, reported exactly when the budget cuts an item to its planned count.
   */
  ghost predicate SharpVerdict(trace: Trace, plan: Plan, budget: Option<int>) {
    var report := ReportOf(trace, plan, RenderPreview(plan, budget));
    && report.tokenConsistency
    && |report.errors| <= 1
    && (report.errors == [] <==> forall k :: !CutAtPlannedCount(plan, budget, k))
    && (forall k :: CutAtPlannedCount(plan, budget, k) ==>
          report.errors == [TruncationInconsistent(plan.items[k].source)])
  }

  lemma SoundPlansGetSharpVerdicts(trace: Trace, plan: Plan, budget: Option<int>)
    requires Sound(trace, plan)
    ensures SharpVerdict(trace, plan, budget)
  {
    var cut := CutPosition(plan, budget);
    var error := if cut >= 0 then TruncationInconsistent(plan.items[cut].source) else ProvenanceOnlyNotTrue;
    var block := RenderPreview(plan, budget);
    PreviewItemErrors(trace, plan, budget, cut, error);
    TotalWithinPlan(trace, plan, budget);
    CleanHeader(trace, plan, budget);
    ErrorsAreItemErrors(trace, plan, block);
    assert ErrorsOf(trace, plan, block) == if cut >= 0 then [error] else [];
    assert cut >= 0 ==> CutAtPlannedCount(plan, budget, cut);
  }

  /** The preview against the checker, for every well-planned trace, policy and budget. */
  lemma PreviewVerdict(trace: Trace, policy: InjectionPolicy, budget: Option<int>)
    requires WellPlanned(trace)
    ensures SharpVerdict(trace, PlanOf(trace, policy), budget)
  {
    PlansAreSound(trace, policy);
    SoundPlansGetSharpVerdicts(trace, PlanOf(trace, policy), budget);
  }

  /** The same for every trace the planner can produce, with no assumption left. */
  lemma PlannerPreviewVerdict(agent: string, capability: string, binding: Binding,
                              policy: InjectionPolicy, budget: Option<int>)
    ensures var trace := TracePlannedContext(agent, capability, binding);
            SharpVerdict(trace, PlanOf(trace, policy), budget)
  {
    TracesAreWellPlanned(agent, capability, binding);
    PreviewVerdict(TracePlannedContext(agent, capability, binding), policy, budget);
  }

  /** Without a positive budget there is no error, whatever the plan. */
  lemma UncutPreviewIsClean(trace: Trace, policy: InjectionPolicy, budget: Option<int>)
    requires WellPlanned(trace)
    requires budget.None? || budget.value <= 0
    ensures ReportOf(trace, PlanOf(trace, policy), RenderPreview(PlanOf(trace, policy), budget)).errors == []
  {
    var plan := PlanOf(trace, policy);
    PreviewVerdict(trace, policy, budget);
    assert forall k :: !CutAtPlannedCount(plan, budget, k);
  }

  /** The error does occur: a two-word item under a budget of two tokens. */
  lemma TruncationInconsistencyWitness()
    ensures var item := PlannedItem("memory", "a", "b", true, true, true);
            var trace := Trace([item], [], Bool(false));
            var policy := InjectionPolicy(true, 1, 9, ["memory"], false, "block", "trace");
            var plan := PlanOf(trace, policy);
            && WellPlanned(trace)
            && ReportOf(trace, plan, RenderPreview(plan, Some(2))).errors == [TruncationInconsistent("a")]
  {
    var item := PlannedItem("memory", "a", "b", true, true, true);
    var trace := Trace([item], [], Bool(false));
    var policy := InjectionPolicy(true, 1, 9, ["memory"], false, "block", "trace");
    var plan := PlanOf(trace, policy);
    WitnessPlan(trace, policy, item);
    assert CutAtPlannedCount(plan, Some(2), 0);
    PreviewVerdict(trace, policy, Some(2));
  }

  lemma WitnessPlan(trace: Trace, policy: InjectionPolicy, item: PlannedItem)
    requires item == PlannedItem("memory", "a", "b", true, true, true)
    requires trace == Trace([item], [], Bool(false))
    requires policy == InjectionPolicy(true, 1, 9, ["memory"], false, "block", "trace")
    ensures PlanOf(trace, policy).items == [ToInjectionItem(item)]
    ensures ToInjectionItem(item).tokenCount == 2
    ensures BudgetTokens(PlanOf(trace, policy)) == [3]
  {
    WitnessWords(item);
    assert policy.allowedSourceTypes[0] in ALLOWED_SOURCE_TYPES;
    NotBlankAt(policy.injectAs, 0);
    NotBlankAt(policy.provenanceVisibility, 0);
    assert PolicyErrors(policy) == [];
    assert Bounded(trace, policy) == [item];
  }

  lemma WitnessWords(item: PlannedItem)
    requires item == PlannedItem("memory", "a", "b", true, true, true)
    ensures ToInjectionItem(item).tokenCount == 2
    ensures EstimateTokens(ToInjectionItem(item), None).tokens == 3
  {
    WordCountOne("a");
    WordCountOne("b");
    WordCountOne("memory");
    WordCountJoin("a", "b");
    WordCountJoin("a", "memory");
    WordCountJoin("a" + " " + "memory", "b");
  }
}
