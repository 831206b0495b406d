/** The bounded injection plan (runtime/context_injection.py). */
module ContextInjection {
  import opened ContextTrace
  import opened Sums
  import opened Text

  const ALLOWED_SOURCE_TYPES := ["agent_resource", "recent_artifacts", "memory", "contract"]

  datatype InjectionPolicy = InjectionPolicy(
    enabled: bool, maxItems: int, maxTokens: int, allowedSourceTypes: seq<string>,
    approvalSensitive: bool, injectAs: string, provenanceVisibility: string)

  datatype InjectedItem = InjectedItem(
    source: string, sourceType: string, inclusionReason: string, tokenCount: int,
    attributable: bool, injected: bool)

  datatype InjectionError =
    | InvalidInjectionPolicy
    | TraceError(error: PlanningError)
    | ApprovalSensitiveInjectionDisabled
    | InjectionDisabled
    | SourceTypeFiltered
    | MaxItemsEnforced
    | MaxTokensEnforced

  datatype Plan = Plan(
    items: seq<InjectedItem>, totalEstimatedTokens: int, injectionPerformed: bool,
    provenanceOnly: bool, errors: seq<InjectionError>)

  function PolicyErrors(policy: InjectionPolicy): seq<InjectionError> {
    (if policy.maxItems < 0 then [InvalidInjectionPolicy] else [])
    + (if policy.maxTokens <= 0 then [InvalidInjectionPolicy] else [])
    + (if exists i :: 0 <= i < |policy.allowedSourceTypes| && policy.allowedSourceTypes[i] !in ALLOWED_SOURCE_TYPES
       then [InvalidInjectionPolicy] else [])
    + (if Blank(policy.injectAs) then [InvalidInjectionPolicy] else [])
    + (if Blank(policy.provenanceVisibility) then [InvalidInjectionPolicy] else [])
  }

  /** `_estimated_tokens`. */
  function EstimatedTokens(text: string): (n: int)
    ensures n >= 1
  {
    if WordCount(text) > 1 then WordCount(text) else 1
  }

  function ToInjectionItem(item: PlannedItem): InjectedItem {
    InjectedItem(item.sourceName, item.sourceType, item.inclusionReason,
                 EstimatedTokens(item.sourceName + " " + item.inclusionReason),
                 item.attributable, false)
  }

  function OfAllowedType(items: seq<PlannedItem>, allowed: seq<string>): (r: seq<PlannedItem>)
    ensures |r| <= |items|
  {
    if items == [] then []
    else (if items[0].sourceType in allowed then [items[0]] else [])
         + OfAllowedType(items[1..], allowed)
  }

  function Bounded(trace: Trace, policy: InjectionPolicy): seq<PlannedItem> {
    var filtered := OfAllowedType(trace.plannedItems, policy.allowedSourceTypes);
    if 0 <= policy.maxItems < |filtered| then filtered[..policy.maxItems] else filtered
  }

  function Tokens(items: seq<InjectedItem>): seq<int> {
    seq(|items|, i requires 0 <= i < |items| => items[i].tokenCount)
  }

  function ToInjectionItems(items: seq<PlannedItem>): seq<InjectedItem> {
    seq(|items|, i requires 0 <= i < |items| => ToInjectionItem(items[i]))
  }

  /** How many leading counts fit: the loop stops for good at the first overflow. */
  function FittingCount(tokens: seq<int>, used: int, maxTokens: int): (n: nat)
    ensures n <= |tokens|
  {
    if tokens == [] || used + tokens[0] > maxTokens then 0
    else 1 + FittingCount(tokens[1..], used + tokens[0], maxTokens)
  }

  lemma {:induction false} FittingBound(tokens: seq<int>, used: int, maxTokens: int)
    ensures var n := FittingCount(tokens, used, maxTokens);
            && (used <= maxTokens ==> used + Sum(tokens[..n]) <= maxTokens)
            && (n < |tokens| ==> used + Sum(tokens[..n]) + tokens[n] > maxTokens)
    decreases |tokens|
  {
    var n := FittingCount(tokens, used, maxTokens);
    if n > 0 {
      FittingBound(tokens[1..], used + tokens[0], maxTokens);
      assert tokens[..n] == [tokens[0]] + tokens[1..][..n - 1];
      SumAppend([tokens[0]], tokens[1..][..n - 1]);
      assert [tokens[0]][..0] == [];
    }
  }

  function TraceErrors(trace: Trace): seq<InjectionError> {
    seq(|trace.errors|, i requires 0 <= i < |trace.errors| => TraceError(trace.errors[i]))
  }

  function PlanErrors(trace: Trace, policy: InjectionPolicy): seq<InjectionError> {
    var filtered := OfAllowedType(trace.plannedItems, policy.allowedSourceTypes);
    var bounded := Bounded(trace, policy);
    TraceErrors(trace)
    + (if policy.approvalSensitive then [ApprovalSensitiveInjectionDisabled] else [])
    + (if policy.enabled then [] else [InjectionDisabled])
    + (if |filtered| < |trace.plannedItems| then [SourceTypeFiltered] else [])
    + (if |filtered| > |bounded| then [MaxItemsEnforced] else [])
  }

  /** What `build_context_injection_plan` returns. */
  function PlanOf(trace: Trace, policy: InjectionPolicy): Plan {
    if PolicyErrors(policy) != [] then
      Plan([], 0, false, true, PolicyErrors(policy) + TraceErrors(trace))
    else
      var bounded := Bounded(trace, policy);
      var items := ToInjectionItems(bounded);
      var n := FittingCount(Tokens(items), 0, policy.maxTokens);
      Plan(items[..n], Sum(Tokens(items)[..n]), false, true,
           PlanErrors(trace, policy) + (if n < |items| then [MaxTokensEnforced] else []))
  }

  /** The loop of `build_context_injection_plan` over the bounded candidates. */
  method TakeWithinBudget(bounded: seq<PlannedItem>, maxTokens: int)
    returns (planned: seq<InjectedItem>, total: int, overflow: bool)
    ensures var items := ToInjectionItems(bounded);
            var n := FittingCount(Tokens(items), 0, maxTokens);
            planned == items[..n] && total == Sum(Tokens(items)[..n]) && overflow == (n < |items|)
  {
    ghost var items := ToInjectionItems(bounded);
    ghost var tokens := Tokens(items);
    ghost var n := FittingCount(tokens, 0, maxTokens);
    planned, total, overflow := [], 0, false;
    var i := 0;
    while i < |bounded|
      invariant 0 <= i <= |bounded|
      invariant planned == items[..i] && total == Sum(tokens[..i]) && !overflow
      invariant n == i + FittingCount(tokens[i..], total, maxTokens)
    {
      var item := ToInjectionItem(bounded[i]);
      assert item == items[i] && item.tokenCount == tokens[i];
      if total + item.tokenCount > maxTokens {
        overflow := true;
        break;
      }
      PrefixStep(items, tokens, i);
      planned := planned + [item];
      total := total + item.tokenCount;
      i := i + 1;
    }
  }

  /** `build_context_injection_plan`. */
  method BuildContextInjectionPlan(trace: Trace, policy: InjectionPolicy) returns (plan: Plan)
    ensures plan == PlanOf(trace, policy)
  {
    var errors := PolicyErrors(policy);
    if errors != [] {
      return Plan([], 0, false, true, errors + TraceErrors(trace));
    }
    errors := PlanErrors(trace, policy);
    var planned, total, overflow := TakeWithinBudget(Bounded(trace, policy), policy.maxTokens);
    if overflow {
      errors := errors + [MaxTokensEnforced];
    }
    plan := Plan(planned, total, false, true, errors);
  }

  lemma PrefixStep(items: seq<InjectedItem>, tokens: seq<int>, i: nat)
    requires i < |items| == |tokens|
    ensures items[..i + 1] == items[..i] + [items[i]]
    ensures tokens[i..][1..] == tokens[i + 1..]
    ensures Sum(tokens[..i + 1]) == Sum(tokens[..i]) + tokens[i]
  {
    assert tokens[..i + 1] == tokens[..i] + [tokens[i]];
    SumSnoc(tokens[..i], tokens[i]);
  }

  /**
   The plan is the longest prefix of the bounded candidates within both limits: it is
   within the item and token budgets, its total is the sum of its counts, and it stops
   only because the candidates, the item limit or the token limit ran out.
   */
  lemma PlanIsMaximalPrefix(trace: Trace, policy: InjectionPolicy)
    requires PolicyErrors(policy) == []
    ensures var plan, candidates := PlanOf(trace, policy), ToInjectionItems(Bounded(trace, policy));
            var n := |plan.items|;
            && n <= |candidates| && n <= policy.maxItems
            && plan.items == candidates[..n]
            && plan.totalEstimatedTokens == Sum(Tokens(plan.items)) <= policy.maxTokens
            && (n < |candidates| ==>
                  plan.totalEstimatedTokens + candidates[n].tokenCount > policy.maxTokens)
            && (MaxTokensEnforced in plan.errors <==> n < |candidates|)
  {
    var candidates := ToInjectionItems(Bounded(trace, policy));
    var tokens := Tokens(candidates);
    FittingBound(tokens, 0, policy.maxTokens);
    var n := FittingCount(tokens, 0, policy.maxTokens);
    assert Tokens(candidates[..n]) == tokens[..n];
    NoTokenErrorBefore(trace, policy);
  }

  lemma NoTokenErrorBefore(trace: Trace, policy: InjectionPolicy)
    ensures MaxTokensEnforced !in PlanErrors(trace, policy)
  {
  }

  /** Every planned item comes from a trace item and carries its count. */
  ghost predicate FromTrace(trace: Trace, allowed: seq<string>, item: InjectedItem) {
    exists k :: 0 <= k < |trace.plannedItems|
      && item == ToInjectionItem(trace.plannedItems[k]) && item.sourceType in allowed
  }

  /** Where the k-th item of the allowed type sits in `items`, in increasing order. */
  function AllowedPositions(items: seq<PlannedItem>, allowed: seq<string>, from: nat): (r: seq<nat>)
    requires from <= |items|
    ensures forall k :: 0 <= k < |r| ==> from <= r[k] < |items| && items[r[k]].sourceType in allowed
    ensures forall j, k :: 0 <= j < k < |r| ==> r[j] < r[k]
    ensures |r| == |OfAllowedType(items[from..], allowed)|
    ensures forall k :: 0 <= k < |r| ==> OfAllowedType(items[from..], allowed)[k] == items[r[k]]
    decreases |items| - from
  {
    if from == |items| then []
    else
      assert items[from..][1..] == items[from + 1..];
      (if items[from].sourceType in allowed then [from] else [])
      + AllowedPositions(items, allowed, from + 1)
  }

  lemma PlanFromTrace(trace: Trace, policy: InjectionPolicy, i: nat)
    requires i < |PlanOf(trace, policy).items|
    ensures FromTrace(trace, policy.allowedSourceTypes, PlanOf(trace, policy).items[i])
  {
    var positions := AllowedPositions(trace.plannedItems, policy.allowedSourceTypes, 0);
    assert trace.plannedItems[0..] == trace.plannedItems;
    var k := positions[i];
    assert PlanOf(trace, policy).items[i] == ToInjectionItem(trace.plannedItems[k]);
  }

  ghost predicate DistinctPlanSources(items: seq<InjectedItem>) {
    forall i, j :: 0 <= i < j < |items| ==> items[i].source != items[j].source
  }

  /** Distinct trace sources stay distinct in the plan. */
  lemma PlanSourcesDistinct(trace: Trace, policy: InjectionPolicy)
    requires DistinctSources(trace.plannedItems)
    ensures DistinctPlanSources(PlanOf(trace, policy).items)
  {
    var items := PlanOf(trace, policy).items;
    var positions := AllowedPositions(trace.plannedItems, policy.allowedSourceTypes, 0);
    assert trace.plannedItems[0..] == trace.plannedItems;
    forall i, j | 0 <= i < j < |items| ensures items[i].source != items[j].source {
      assert items[i].source == trace.plannedItems[positions[i]].sourceName;
      assert items[j].source == trace.plannedItems[positions[j]].sourceName;
    }
  }
}
