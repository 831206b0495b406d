/** Which context sources are planned, said about the raw binding: its policy, resources and capability. */
module ContextPlanning {
  import opened ContextTrace
  import opened JsonValues
  import opened Wrappers

  ghost predicate SetTo(policy: Json, key: string, value: bool) {
    Get(policy, key) == Bool(value)
  }

  /** The key is missing, or its value is a boolean. */
  ghost predicate FlagFine(policy: Json, key: string)
    requires policy.Obj?
  {
    HasKey(policy.fields, key) ==> SetTo(policy, key, true) || SetTo(policy, key, false)
  }

  /** The key is missing, or its value is a list of strings. */
  ghost predicate ScopesFine(policy: Json)
    requires policy.Obj?
  {
    HasKey(policy.fields, "resource_scopes") ==>
      match Get(policy, "resource_scopes")
      case Arr(isList, items) => isList && forall i :: 0 <= i < |items| ==> items[i].Str?
      case _ => false
  }

  /** The key is missing, or its value is a natural number. */
  ghost predicate MaximumFine(policy: Json)
    requires policy.Obj?
  {
    HasKey(policy.fields, "max_context_items") ==>
      match Get(policy, "max_context_items")
      case Num(n) => n >= 0
      case _ => false
  }

  ghost predicate KeysFine(policy: Json)
    requires policy.Obj?
  {
    forall i :: 0 <= i < |policy.fields| ==>
      policy.fields[i].key in {"include_guest_context", "include_recent_artifacts", "include_user_preferences",
                               "resource_scopes", "max_context_items"}
  }

  ghost predicate ValuesFine(policy: Json)
    requires policy.Obj?
  {
    && FlagFine(policy, "include_guest_context") && FlagFine(policy, "include_recent_artifacts")
    && FlagFine(policy, "include_user_preferences") && ScopesFine(policy) && MaximumFine(policy)
  }

  /** How many items the policy allows; a missing maximum allows none. */
  ghost function Maximum(policy: Json): nat {
    match Get(policy, "max_context_items")
    case Num(n) => if n >= 0 then n else 0
    case _ => 0
  }

  ghost function ArtifactFor(capability: string): Option<string> {
    match capability
    case "draft_email" => Some("email_draft")
    case "create_lower_third" => Some("lower_third")
    case "producer_note" => Some("producer_note")
    case _ => None
  }

  ghost function If<T>(wanted: bool, x: T): seq<T> {
    if wanted then [x] else []
  }

  /** The sources the policy asks for and that are there, in the order in which they are planned. */
  ghost function Wanted(agent: string, capability: string, resources: seq<string>, policy: Json): seq<PlannedItem> {
    var artifact := ArtifactFor(capability);
    If(SetTo(policy, "include_guest_context", true) && "guest_db" in resources,
       PlannedItem("agent_resource", agent + ".guest_db",
                   "Binding context_policy includes bounded guest context.", true, true, true))
    + If(SetTo(policy, "include_recent_artifacts", true) && artifact.Some?,
         var name := if artifact.Some? then artifact.value else "";
         PlannedItem("recent_artifacts", name,
                     "Binding context_policy includes recent " + name + " artifacts.", true, true, true))
    + If(SetTo(policy, "include_user_preferences", true),
         PlannedItem("memory", "user_preferences",
                     "Binding context_policy includes user preference memory.", true, true, true))
  }

  ghost function Complaints(capability: string, resources: seq<string>, policy: Json): seq<PlanningError> {
    If(SetTo(policy, "include_guest_context", true) && "guest_db" !in resources, MissingRequiredResource)
    + If(SetTo(policy, "include_recent_artifacts", true) && ArtifactFor(capability).None?,
         UnsupportedRecentArtifactContext)
  }

  lemma WrongValuesReported(policy: Json)
    requires policy.Obj?
    ensures InvalidContextPolicy in ContextPolicyErrors(policy) <==> !ValuesFine(policy)
  {
  }

  lemma UnknownKeysReported(policy: Json)
    requires policy.Obj?
    ensures UnsupportedContextPolicyFields in ContextPolicyErrors(policy) <==> !KeysFine(policy)
  {
  }

  /** The validator's errors: one code for unknown keys, one for wrong values, and none else. */
  lemma PolicyErrorsExactly(policy: Json)
    requires policy.Obj?
    ensures UnsupportedContextPolicyFields in ContextPolicyErrors(policy) <==> !KeysFine(policy)
    ensures InvalidContextPolicy in ContextPolicyErrors(policy) <==> !ValuesFine(policy)
    ensures forall e :: e in ContextPolicyErrors(policy) ==> e in {UnsupportedContextPolicyFields, InvalidContextPolicy}
  {
    UnknownKeysReported(policy);
    WrongValuesReported(policy);
  }

  /** A policy is used exactly when all keys are known and all values fit; then it says what its fields say. */
  lemma PolicyExactly(policy: Json)
    requires policy.Obj?
    ensures KeysFine(policy) && ValuesFine(policy) ==>
              ValidateContextPolicy(policy)
              == (Some(ContextPolicy(SetTo(policy, "include_guest_context", true),
                                     SetTo(policy, "include_recent_artifacts", true),
                                     SetTo(policy, "include_user_preferences", true), Maximum(policy))), [])
    ensures !(KeysFine(policy) && ValuesFine(policy)) ==>
              ValidateContextPolicy(policy) == (None, ContextPolicyErrors(policy))
  {
    PolicyErrorsExactly(policy);
    if ContextPolicyErrors(policy) != [] {
      assert ContextPolicyErrors(policy)[0] in ContextPolicyErrors(policy);
    }
  }

  lemma CandidatesExactly(agent: string, capability: string, resources: seq<string>, policy: Json)
    ensures var p := ContextPolicy(SetTo(policy, "include_guest_context", true),
                                   SetTo(policy, "include_recent_artifacts", true),
                                   SetTo(policy, "include_user_preferences", true), Maximum(policy));
            && CandidateItems(agent, capability, resources, p) == Wanted(agent, capability, resources, policy)
            && CandidateErrors(capability, resources, p) == Complaints(capability, resources, policy)
  {
    assert RecentArtifact(capability) == ArtifactFor(capability);
  }

  /**
   What is planned for a binding that resolves: with a usable policy the first of the wanted
   sources, as many as the maximum allows, with an error for each that cannot be had and one
   if some are left over; with any other policy nothing, and errors that say why.
   */
  lemma PlannedExactly(agent: string, capability: string, resources: seq<string>, policy: Json)
    ensures var trace := TracePlannedContext(agent, capability, Resolved(resources, policy));
            var wanted := Wanted(agent, capability, resources, policy);
            if policy == Null then trace == Trace([], [MissingContextPolicy], Bool(false))
            else if !policy.Obj? then trace == Trace([], [InvalidContextPolicy], Bool(false))
            else if !KeysFine(policy) || !ValuesFine(policy)
            then trace == Trace([], ContextPolicyErrors(policy), Bool(false))
            else if |wanted| <= Maximum(policy)
            then trace == Trace(wanted, Complaints(capability, resources, policy), Bool(false))
            else trace == Trace(wanted[..Maximum(policy)],
                                Complaints(capability, resources, policy) + [MaxContextItemsEnforced], Bool(false))
  {
    if policy.Obj? {
      PolicyExactly(policy);
      CandidatesExactly(agent, capability, resources, policy);
    }
  }

  /** A binding that does not resolve plans nothing and passes its error on. */
  lemma UnresolvedExactly(agent: string, capability: string, code: string)
    ensures TracePlannedContext(agent, capability, Unresolved(code)) == Trace([], [BindingFailed(code)], Bool(false))
  {
  }

  /** A wanted source is left out exactly when as many as the maximum come before it. */
  lemma SourcePlannedExactly(agent: string, capability: string, resources: seq<string>, policy: Json, k: nat)
    requires policy.Obj? && KeysFine(policy) && ValuesFine(policy)
    requires k < |Wanted(agent, capability, resources, policy)|
    ensures Wanted(agent, capability, resources, policy)[k]
            in TracePlannedContext(agent, capability, Resolved(resources, policy)).plannedItems
            <==> k < Maximum(policy)
  {
    PlannedExactly(agent, capability, resources, policy);
    CandidatesExactly(agent, capability, resources, policy);
    var wanted := Wanted(agent, capability, resources, policy);
    CandidatesDistinct(agent, capability, resources,
                       ContextPolicy(SetTo(policy, "include_guest_context", true),
                                     SetTo(policy, "include_recent_artifacts", true),
                                     SetTo(policy, "include_user_preferences", true), Maximum(policy)));
    if k < Maximum(policy) <= |wanted| {
      assert wanted[..Maximum(policy)][k] == wanted[k];
    }
  }
}
