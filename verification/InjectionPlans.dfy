/** The injection plan, said about the trace and the policy it is built from. */
module InjectionPlans {
  import opened ContextInjection
  import opened ContextTrace
  import opened Sequences
  import opened Sums
  import opened Text

  ghost predicate PolicyFine(p: InjectionPolicy) {
    && p.maxItems >= 0 && p.maxTokens >= 1 && !Blank(p.injectAs) && !Blank(p.provenanceVisibility)
    && forall t :: t in p.allowedSourceTypes ==> t in {"agent_resource", "recent_artifacts", "memory", "contract"}
  }

  lemma PolicyExactly(p: InjectionPolicy)
    ensures PolicyErrors(p) == [] <==> PolicyFine(p)
    ensures forall e :: e in PolicyErrors(p) ==> e == InvalidInjectionPolicy
  {
    if i :| 0 <= i < |p.allowedSourceTypes| && p.allowedSourceTypes[i] !in ALLOWED_SOURCE_TYPES {
      assert p.allowedSourceTypes[i] in p.allowedSourceTypes;
    }
  }

  /** The item as the plan carries it: it costs the words of its name and reason, and one at least. */
  ghost predicate Carries(item: InjectedItem, planned: PlannedItem) {
    var words := WordCount(planned.sourceName + " " + planned.inclusionReason);
    && item.source == planned.sourceName && item.sourceType == planned.sourceType
    && item.inclusionReason == planned.inclusionReason && item.attributable == planned.attributable
    && !item.injected && item.tokenCount == if words == 0 then 1 else words
  }

  ghost predicate RisingPlaces(places: seq<nat>, bound: nat) {
    && (forall k :: 0 <= k < |places| ==> places[k] < bound)
    && forall j, k :: 0 <= j < k < |places| ==> places[j] < places[k]
  }

  ghost function OfType(allowed: seq<string>): PlannedItem -> bool {
    (item: PlannedItem) => item.sourceType in allowed
  }

  ghost predicate Allowed(trace: Trace, policy: InjectionPolicy, k: nat) {
    k < |trace.plannedItems| && trace.plannedItems[k].sourceType in policy.allowedSourceTypes
  }

  /** The planned items are the allowed trace items at these places, and no allowed one between them is missing. */
  ghost predicate TakenAt(plan: Plan, trace: Trace, policy: InjectionPolicy, places: seq<nat>) {
    && |places| == |plan.items| && RisingPlaces(places, |trace.plannedItems|)
    && (forall k :: 0 <= k < |places| ==>
          Allowed(trace, policy, places[k]) && Carries(plan.items[k], trace.plannedItems[places[k]]))
    && forall j: nat, k :: Allowed(trace, policy, j) && j !in places && 0 <= k < |places| ==> places[k] < j
  }

  lemma {:induction false} AllowedListed(items: seq<PlannedItem>, allowed: seq<string>, from: nat, j: nat)
    requires from <= j < |items| && items[j].sourceType in allowed
    ensures j in AllowedPositions(items, allowed, from)
    decreases |items| - from
  {
    if from < j {
      AllowedListed(items, allowed, from + 1, j);
    }
  }

  /** In a rising list that has every allowed place, what is missing from a prefix comes after it. */
  lemma PrefixOfPlaces(all: seq<nat>, n: nat, j: nat, k: nat)
    requires RisingPlaces(all, if all == [] then 0 else all[|all| - 1] + 1) && n <= |all| && k < n
    requires j in all && j !in all[..n]
    ensures all[k] < j
  {
    var i :| 0 <= i < |all| && all[i] == j;
    forall m | 0 <= m < n ensures all[m] in all[..n] {
      assert all[..n][m] == all[m];
    }
  }

  lemma Converted(planned: PlannedItem)
    ensures Carries(ToInjectionItem(planned), planned)
  {
  }

  lemma ItemAt(trace: Trace, policy: InjectionPolicy, k: nat)
    requires PolicyErrors(policy) == [] && k < |PlanOf(trace, policy).items|
    ensures var all := AllowedPositions(trace.plannedItems, policy.allowedSourceTypes, 0);
            k < |all| && PlanOf(trace, policy).items[k] == ToInjectionItem(trace.plannedItems[all[k]])
  {
    var all := AllowedPositions(trace.plannedItems, policy.allowedSourceTypes, 0);
    assert trace.plannedItems[0..] == trace.plannedItems;
    PlanIsMaximalPrefix(trace, policy);
    assert Bounded(trace, policy)[k] == trace.plannedItems[all[k]];
  }

  lemma PrefixTaken(plan: Plan, trace: Trace, policy: InjectionPolicy, all: seq<nat>)
    requires |plan.items| <= |all| && RisingPlaces(all, |trace.plannedItems|)
    requires forall k :: 0 <= k < |all| ==> Allowed(trace, policy, all[k])
    requires forall k :: 0 <= k < |plan.items| ==> Carries(plan.items[k], trace.plannedItems[all[k]])
    requires forall j: nat :: Allowed(trace, policy, j) ==> j in all
    ensures TakenAt(plan, trace, policy, all[..|plan.items|])
  {
    var places := all[..|plan.items|];
    forall j: nat, k | Allowed(trace, policy, j) && j !in places && 0 <= k < |places| ensures places[k] < j {
      PrefixOfPlaces(all, |plan.items|, j, k);
    }
  }

  /**
   What a plan takes: the first allowed trace items, in order and each with its own name, type,
   reason, attribution and cost, and none twice.
   */
  lemma PlanTakesExactly(trace: Trace, policy: InjectionPolicy) returns (places: seq<nat>)
    requires PolicyFine(policy)
    ensures TakenAt(PlanOf(trace, policy), trace, policy, places)
  {
    PolicyExactly(policy);
    var all := AllowedPositions(trace.plannedItems, policy.allowedSourceTypes, 0);
    var n := |PlanOf(trace, policy).items|;
    if n > 0 {
      ItemAt(trace, policy, n - 1);
    }
    forall k | 0 <= k < n ensures Carries(PlanOf(trace, policy).items[k], trace.plannedItems[all[k]]) {
      ItemAt(trace, policy, k);
      Converted(trace.plannedItems[all[k]]);
    }
    forall j: nat | Allowed(trace, policy, j) ensures j in all {
      AllowedListed(trace.plannedItems, policy.allowedSourceTypes, 0, j);
    }
    PrefixTaken(PlanOf(trace, policy), trace, policy, all);
    places := all[..n];
  }

  lemma {:induction false} AllowedCounted(items: seq<PlannedItem>, allowed: seq<string>)
    ensures |OfAllowedType(items, allowed)| == Count(items, OfType(allowed))
  {
    if items != [] {
      AllowedCounted(items[1..], allowed);
    }
  }

  lemma {:induction false} CountAll<T>(entries: seq<T>, holds: T -> bool)
    ensures Count(entries, holds) == |entries| <==> forall j :: 0 <= j < |entries| ==> holds(entries[j])
  {
    if entries != [] {
      CountAll(entries[1..], holds);
      CountNone(entries[1..], holds);
      assert forall j :: 1 <= j < |entries| ==> entries[j] == entries[1..][j - 1];
    }
  }

  ghost predicate Told(errors: seq<InjectionError>, trace: Trace) {
    forall e :: TraceError(e) in errors <==> e in trace.errors
  }

  lemma TraceErrorsTold(trace: Trace)
    ensures Told(TraceErrors(trace), trace)
    ensures forall e :: e in TraceErrors(trace) ==> e.TraceError?
  {
    forall e ensures TraceError(e) in TraceErrors(trace) <==> e in trace.errors {
      if e in trace.errors {
        var k :| 0 <= k < |trace.errors| && trace.errors[k] == e;
        assert TraceErrors(trace)[k] == TraceError(e);
      }
    }
  }

  lemma DroppedSome(items: seq<PlannedItem>, allowed: seq<string>)
    ensures |OfAllowedType(items, allowed)| < |items| <==>
              exists k :: 0 <= k < |items| && items[k].sourceType !in allowed
  {
    AllowedCounted(items, allowed);
    CountNone(items, OfType(allowed));
    CountAll(items, OfType(allowed));
  }

  lemma DropReported(trace: Trace, policy: InjectionPolicy)
    ensures SourceTypeFiltered in PlanErrors(trace, policy) <==>
              |OfAllowedType(trace.plannedItems, policy.allowedSourceTypes)| < |trace.plannedItems|
  {
    TraceErrorsTold(trace);
  }

  lemma CapReported(trace: Trace, policy: InjectionPolicy)
    requires policy.maxItems >= 0
    ensures MaxItemsEnforced in PlanErrors(trace, policy) <==>
              |OfAllowedType(trace.plannedItems, policy.allowedSourceTypes)| > policy.maxItems
  {
    TraceErrorsTold(trace);
  }

  lemma SwitchesReported(trace: Trace, policy: InjectionPolicy)
    ensures ApprovalSensitiveInjectionDisabled in PlanErrors(trace, policy) <==> policy.approvalSensitive
    ensures InjectionDisabled in PlanErrors(trace, policy) <==> !policy.enabled
    ensures InvalidInjectionPolicy !in PlanErrors(trace, policy)
  {
    TraceErrorsTold(trace);
  }

  lemma TraceReported(trace: Trace, policy: InjectionPolicy)
    ensures Told(PlanErrors(trace, policy), trace)
  {
    TraceErrorsTold(trace);
    forall e ensures TraceError(e) in PlanErrors(trace, policy) <==> TraceError(e) in TraceErrors(trace) {
    }
  }

  /**
   What a plan reports: the errors of the trace, the switches of the policy, whether items of
   other types were dropped, and whether the item limit or the token limit cut something.
   */
  lemma PlanReportsExactly(trace: Trace, policy: InjectionPolicy)
    requires PolicyFine(policy)
    ensures var plan := PlanOf(trace, policy);
            && Told(plan.errors, trace) && InvalidInjectionPolicy !in plan.errors
            && (ApprovalSensitiveInjectionDisabled in plan.errors <==> policy.approvalSensitive)
            && (InjectionDisabled in plan.errors <==> !policy.enabled)
            && (SourceTypeFiltered in plan.errors <==>
                  exists k :: 0 <= k < |trace.plannedItems|
                              && trace.plannedItems[k].sourceType !in policy.allowedSourceTypes)
            && (MaxItemsEnforced in plan.errors <==>
                  Count(trace.plannedItems, OfType(policy.allowedSourceTypes)) > policy.maxItems)
            && plan.provenanceOnly && !plan.injectionPerformed
  {
    PolicyExactly(policy);
    DropReported(trace, policy);
    DroppedSome(trace.plannedItems, policy.allowedSourceTypes);
    CapReported(trace, policy);
    AllowedCounted(trace.plannedItems, policy.allowedSourceTypes);
    SwitchesReported(trace, policy);
    TraceReported(trace, policy);
    SameButTokens(trace, policy);
  }

  lemma SameButTokens(trace: Trace, policy: InjectionPolicy)
    requires PolicyErrors(policy) == []
    ensures forall e :: e != MaxTokensEnforced ==>
              (e in PlanOf(trace, policy).errors <==> e in PlanErrors(trace, policy))
  {
  }

  /** A policy that is not fine gives an empty plan that says so, with the errors of the trace. */
  lemma RefusedExactly(trace: Trace, policy: InjectionPolicy)
    requires !PolicyFine(policy)
    ensures var plan := PlanOf(trace, policy);
            && plan.items == [] && plan.totalEstimatedTokens == 0
            && plan.provenanceOnly && !plan.injectionPerformed
            && Told(plan.errors, trace) && InvalidInjectionPolicy in plan.errors
            && forall e :: e in plan.errors ==> e == InvalidInjectionPolicy || e.TraceError?
  {
    PolicyExactly(policy);
    TraceErrorsTold(trace);
    assert PolicyErrors(policy)[0] in PolicyErrors(policy);
  }
}
