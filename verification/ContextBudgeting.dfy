/** Token estimates and truncation plans (runtime/context_budgeting.py). */
module ContextBudgeting {
  import opened ContextInjection
  import opened Sums
  import opened Text
  import opened Wrappers

  datatype Strategy = DropTail | TruncateEach | Unsupported(name: string)

  datatype BudgetError = InvalidMaxTokens | UnsupportedTruncationStrategy

  datatype Estimate = Estimate(source: string, tokens: nat, contentAvailable: bool)

  datatype TruncationPlan = TruncationPlan(
    source: string, originalTokens: int, targetTokens: int, truncationRequired: bool)

  datatype BudgetValidation = BudgetValidation(
    totalEstimatedTokens: int, overBudget: bool, estimates: seq<Estimate>,
    truncationPlans: seq<TruncationPlan>, errors: seq<BudgetError>)

  /** `estimate_context_tokens`: unlike the plan, the metadata text counts the source type. */
  function EstimateTokens(item: InjectedItem, content: Option<string>): Estimate {
    match content
    case Some(text) => Estimate(item.source, WordCount(text), true)
    case None =>
      Estimate(item.source,
               WordCount(item.source + " " + item.sourceType + " " + item.inclusionReason), false)
  }

  function EstimatesOf(items: seq<InjectedItem>, content: map<string, string>): seq<Estimate> {
    seq(|items|, i requires 0 <= i < |items| =>
      EstimateTokens(items[i], if items[i].source in content then Some(content[items[i].source]) else None))
  }

  /**
   An estimate counts the words of the content where there is some, and else those of the source,
   its type and the reason together.
   */
  lemma EstimateExactly(items: seq<InjectedItem>, content: map<string, string>, i: nat)
    requires i < |items|
    ensures var estimate, item := EstimatesOf(items, content)[i], items[i];
            && |EstimatesOf(items, content)| == |items| && estimate.source == item.source
            && (estimate.contentAvailable <==> item.source in content)
            && estimate.tokens == if item.source in content then WordCount(content[item.source])
                                  else WordCount(item.source) + WordCount(item.sourceType)
                                       + WordCount(item.inclusionReason)
  {
    WordCountJoin(items[i].source + " " + items[i].sourceType, items[i].inclusionReason);
    WordCountJoin(items[i].source, items[i].sourceType);
  }

  function TokensOf(estimates: seq<Estimate>): seq<int> {
    seq(|estimates|, i requires 0 <= i < |estimates| => estimates[i].tokens)
  }

  function Min(a: int, b: int): int { if a <= b then a else b }

  function Max(a: int, b: int): int { if a >= b then a else b }

  /** What `drop_tail` leaves of entry `i`: the budget not used by the entries before it. */
  function DropTailTarget(tokens: seq<int>, maxTokens: int, i: nat): int
    requires i < |tokens|
  {
    Min(tokens[i], Max(0, maxTokens - Sum(tokens[..i])))
  }

  function PerItemTarget(count: nat, maxTokens: int): int
    requires maxTokens > 0
  {
    Max(1, maxTokens / Max(1, count))
  }

  function Target(tokens: seq<int>, maxTokens: int, strategy: Strategy, i: nat): int
    requires maxTokens > 0 && i < |tokens|
  {
    if strategy.DropTail? then DropTailTarget(tokens, maxTokens, i)
    else Min(tokens[i], PerItemTarget(|tokens|, maxTokens))
  }

  /** The targets of all entries. */
  function Targets(tokens: seq<int>, maxTokens: int, strategy: Strategy): seq<int>
    requires maxTokens > 0
  {
    seq(|tokens|, i requires 0 <= i < |tokens| => Target(tokens, maxTokens, strategy, i))
  }

  function PlanFor(estimate: Estimate, target: int): TruncationPlan {
    TruncationPlan(estimate.source, estimate.tokens, target, target < estimate.tokens)
  }

  /** Each estimate's plan, with the target its strategy gives it. */
  function TruncationPlansOf(estimates: seq<Estimate>, maxTokens: int, strategy: Strategy): seq<TruncationPlan>
    requires maxTokens > 0
  {
    var targets := Targets(TokensOf(estimates), maxTokens, strategy);
    seq(|estimates|, i requires 0 <= i < |estimates| => PlanFor(estimates[i], targets[i]))
  }

  lemma DropTailStep(estimates: seq<Estimate>, maxTokens: int, i: nat)
    requires maxTokens > 0 && i < |estimates|
    ensures var plans, tokens := TruncationPlansOf(estimates, maxTokens, DropTail), TokensOf(estimates);
            && plans[..i + 1]
               == plans[..i] + [PlanFor(estimates[i], Min(tokens[i], Max(0, maxTokens - Sum(tokens[..i]))))]
            && Sum(tokens[..i + 1]) == Sum(tokens[..i]) + tokens[i]
  {
    var tokens := TokensOf(estimates);
    assert tokens[..i + 1] == tokens[..i] + [tokens[i]];
    SumSnoc(tokens[..i], tokens[i]);
  }

  /** The `drop_tail` loop of `plan_context_truncation`. */
  method DropTailPlans(estimates: seq<Estimate>, maxTokens: int) returns (plans: seq<TruncationPlan>)
    requires maxTokens > 0
    ensures plans == TruncationPlansOf(estimates, maxTokens, DropTail)
  {
    ghost var tokens := TokensOf(estimates);
    plans := [];
    var remaining := maxTokens;
    for i := 0 to |estimates|
      invariant remaining == Max(0, maxTokens - Sum(tokens[..i]))
      invariant plans == TruncationPlansOf(estimates, maxTokens, DropTail)[..i]
    {
      var target := Min(estimates[i].tokens, Max(0, remaining));
      DropTailStep(estimates, maxTokens, i);
      plans := plans + [PlanFor(estimates[i], target)];
      remaining := remaining - target;
    }
  }

  /** The `truncate_each` loop of `plan_context_truncation`. */
  method TruncateEachPlans(estimates: seq<Estimate>, maxTokens: int) returns (plans: seq<TruncationPlan>)
    requires maxTokens > 0
    ensures plans == TruncationPlansOf(estimates, maxTokens, TruncateEach)
  {
    plans := [];
    var perItem := PerItemTarget(|estimates|, maxTokens);
    for i := 0 to |estimates|
      invariant plans == TruncationPlansOf(estimates, maxTokens, TruncateEach)[..i]
    {
      plans := plans + [PlanFor(estimates[i], Min(estimates[i].tokens, perItem))];
    }
  }

  lemma ShareExactly(count: nat, maxTokens: int)
    requires maxTokens > 0 && count > 0
    ensures var share := PerItemTarget(count, maxTokens);
            share >= 1 && maxTokens < (share + 1) * count && (share == 1 || share * count <= maxTokens)
  {
    var quotient, rest := maxTokens / count, maxTokens % count;
    assert maxTokens == quotient * count + rest;
    assert (quotient + 1) * count == quotient * count + count;
    if quotient == 0 {
      assert (1 + 1) * count == count + count;
    }
  }

  /**
   Truncating each: there is one share for all entries, the largest that all of them together can
   take within the budget, but one at least; smaller entries keep their size.
   */
  lemma TruncateEachExactly(estimates: seq<Estimate>, maxTokens: int) returns (share: nat)
    requires maxTokens > 0 && estimates != []
    ensures share >= 1 && maxTokens < (share + 1) * |estimates| && (share == 1 || share * |estimates| <= maxTokens)
    ensures var plans := TruncationPlansOf(estimates, maxTokens, TruncateEach);
            && |plans| == |estimates|
            && forall i :: 0 <= i < |plans| ==>
                 && plans[i].source == estimates[i].source && plans[i].originalTokens == estimates[i].tokens
                 && plans[i].targetTokens == (if estimates[i].tokens <= share then estimates[i].tokens else share)
                 && (plans[i].truncationRequired <==> estimates[i].tokens > share)
  {
    share := PerItemTarget(|estimates|, maxTokens);
    ShareExactly(|estimates|, maxTokens);
  }

  /** `plan_context_truncation`. */
  method PlanContextTruncation(estimates: seq<Estimate>, maxTokens: int, strategy: Strategy)
    returns (plans: seq<TruncationPlan>, errors: seq<BudgetError>)
    ensures maxTokens <= 0 ==> plans == [] && errors == [InvalidMaxTokens]
    ensures maxTokens > 0 && strategy.Unsupported? ==> plans == [] && errors == [UnsupportedTruncationStrategy]
    ensures maxTokens > 0 && !strategy.Unsupported? ==>
              errors == [] && plans == TruncationPlansOf(estimates, maxTokens, strategy)
  {
    if maxTokens <= 0 {
      return [], [InvalidMaxTokens];
    }
    match strategy
    case Unsupported(_) =>
      return [], [UnsupportedTruncationStrategy];
    case DropTail =>
      plans := DropTailPlans(estimates, maxTokens);
      errors := [];
    case TruncateEach =>
      plans := TruncateEachPlans(estimates, maxTokens);
      errors := [];
  }

  /** Drop-tail keeps exactly the budget, or everything when it fits. */
  lemma {:induction false} DropTailSum(tokens: seq<int>, maxTokens: int)
    requires maxTokens > 0 && forall i :: 0 <= i < |tokens| ==> 0 <= tokens[i]
    ensures Sum(Targets(tokens, maxTokens, DropTail)) == Min(Sum(tokens), maxTokens)
    decreases |tokens|
  {
    if tokens != [] {
      var n := |tokens| - 1;
      var before := tokens[..n];
      forall i | 0 <= i < n
        ensures DropTailTarget(before, maxTokens, i) == DropTailTarget(tokens, maxTokens, i)
      {
        assert before[..i] == tokens[..i];
      }
      assert Targets(tokens, maxTokens, DropTail)[..n] == Targets(before, maxTokens, DropTail);
      DropTailSum(before, maxTokens);
    }
  }

  /** Once one entry is cut, every later entry gets nothing: prefix, one partial, zeros. */
  lemma DropTailShape(tokens: seq<int>, maxTokens: int, i: nat, j: nat)
    requires maxTokens > 0 && forall k :: 0 <= k < |tokens| ==> 0 <= tokens[k]
    requires i < j < |tokens|
    requires DropTailTarget(tokens, maxTokens, i) < tokens[i]
    ensures DropTailTarget(tokens, maxTokens, j) == 0
  {
    assert tokens[..j][..i] == tokens[..i];
    SumDominates(tokens[..j], i);
  }

  /** `truncate_each` may pass the budget only when there are more items than tokens. */
  lemma TruncateEachSum(tokens: seq<int>, maxTokens: int)
    requires maxTokens > 0 && forall i :: 0 <= i < |tokens| ==> 0 <= tokens[i]
    ensures Sum(Targets(tokens, maxTokens, TruncateEach)) <= Max(maxTokens, |tokens|)
  {
    var n, per := |tokens|, PerItemTarget(|tokens|, maxTokens);
    SumMonotone(Targets(tokens, maxTokens, TruncateEach), seq(n, i => per));
    SumConstant(n, per);
    if n > 0 && maxTokens / n >= 1 {
      assert n * (maxTokens / n) <= maxTokens;
    }
  }

  lemma {:induction false} SumConstant(n: nat, x: int)
    ensures Sum(seq(n, i => x)) == n * x
  {
    if n > 0 {
      assert seq(n, i => x)[..n - 1] == seq(n - 1, i => x);
      SumConstant(n - 1, x);
    }
  }

  function BudgetErrors(maxTokens: int, strategy: Strategy): seq<BudgetError> {
    (if maxTokens <= 0 then [InvalidMaxTokens] else [])
    + (if strategy.Unsupported? then [UnsupportedTruncationStrategy] else [])
  }

  /** What `validate_context_budget` reports. */
  function BudgetOf(plan: Plan, maxTokens: int, strategy: Strategy, content: map<string, string>): BudgetValidation {
    var estimates := EstimatesOf(plan.items, content);
    var total := Sum(TokensOf(estimates));
    var overBudget := maxTokens > 0 && total > maxTokens;
    BudgetValidation(
      total, overBudget, estimates,
      if overBudget && !strategy.Unsupported? then TruncationPlansOf(estimates, maxTokens, strategy) else [],
      BudgetErrors(maxTokens, strategy))
  }

  /** `validate_context_budget`. */
  method ValidateContextBudget(plan: Plan, maxTokens: int, strategy: Strategy, content: map<string, string>)
    returns (v: BudgetValidation)
    ensures v == BudgetOf(plan, maxTokens, strategy, content)
  {
    var errors := if maxTokens <= 0 then [InvalidMaxTokens] else [];
    var estimates, total := [], 0;
    ghost var all := EstimatesOf(plan.items, content);
    for i := 0 to |plan.items|
      invariant estimates == all[..i]
      invariant total == Sum(TokensOf(estimates))
    {
      var item := plan.items[i];
      var estimate :=
        EstimateTokens(item, if item.source in content then Some(content[item.source]) else None);
      assert estimate == all[i];
      assert TokensOf(estimates + [estimate]) == TokensOf(estimates) + [estimate.tokens];
      SumSnoc(TokensOf(estimates), estimate.tokens);
      estimates := estimates + [estimate];
      total := total + estimate.tokens;
    }
    assert estimates == all;
    var overBudget := maxTokens > 0 && total > maxTokens;
    var plans := [];
    if overBudget {
      var truncationErrors;
      plans, truncationErrors := PlanContextTruncation(estimates, maxTokens, strategy);
      errors := errors + truncationErrors;
    } else if strategy.Unsupported? {
      errors := errors + [UnsupportedTruncationStrategy];
    }
    assert errors == BudgetErrors(maxTokens, strategy);
    v := BudgetValidation(total, overBudget, estimates, plans, errors);
  }
}
