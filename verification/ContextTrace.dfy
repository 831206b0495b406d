/** Planning of context items from an agent binding (runtime/context_trace.py). */
module ContextTrace {
  import opened JsonValues
  import opened Wrappers

  datatype PlannedItem = PlannedItem(
    sourceType: string, sourceName: string, inclusionReason: string,
    isBounded: bool, attributable: bool, plannedOnly: bool)

  // Error codes only: messages and details are not modelled.
  datatype PlanningError =
    | BindingFailed(code: string)
    | MissingContextPolicy
    | InvalidContextPolicy
    | UnsupportedContextPolicyFields
    | MissingRequiredResource
    | UnsupportedRecentArtifactContext
    | MaxContextItemsEnforced

  datatype ContextPolicy = ContextPolicy(
    includeGuestContext: bool, includeRecentArtifacts: bool,
    includeUserPreferences: bool, maxContextItems: nat)

  datatype Trace = Trace(
    plannedItems: seq<PlannedItem>, errors: seq<PlanningError>, retrievalExecution: Json)

  // What resolving an agent's binding yields; `policy` is the raw `context_policy`.
  datatype Binding =
    | Unresolved(code: string)
    | Resolved(resources: seq<string>, policy: Json)

  const SUPPORTED_CONTEXT_POLICY_FIELDS := {
    "include_guest_context", "include_recent_artifacts", "include_user_preferences",
    "resource_scopes", "max_context_items"
  }

  predicate BoolWhenPresent(policy: Json, key: string)
    requires policy.Obj?
  {
    HasKey(policy.fields, key) ==> Get(policy, key).Bool?
  }

  function ContextPolicyErrors(policy: Json): seq<PlanningError>
    requires policy.Obj?
  {
    var scopes := Get(policy, "resource_scopes");
    var maxItems := Get(policy, "max_context_items");
    (if exists i :: 0 <= i < |policy.fields| && policy.fields[i].key !in SUPPORTED_CONTEXT_POLICY_FIELDS
     then [UnsupportedContextPolicyFields] else [])
    + (if BoolWhenPresent(policy, "include_guest_context") then [] else [InvalidContextPolicy])
    + (if BoolWhenPresent(policy, "include_recent_artifacts") then [] else [InvalidContextPolicy])
    + (if BoolWhenPresent(policy, "include_user_preferences") then [] else [InvalidContextPolicy])
    + (if !HasKey(policy.fields, "resource_scopes")
          || (scopes.Arr? && scopes.isList && forall i :: 0 <= i < |scopes.items| ==> scopes.items[i].Str?)
       then [] else [InvalidContextPolicy])
    + (if !HasKey(policy.fields, "max_context_items") || (maxItems.Num? && maxItems.n >= 0)
       then [] else [InvalidContextPolicy])
  }

  function ValidateContextPolicy(policy: Json): (r: (Option<ContextPolicy>, seq<PlanningError>))
    ensures r.0.None? <==> r.1 != []
  {
    if policy == Null then (None, [MissingContextPolicy])
    else if !policy.Obj? then (None, [InvalidContextPolicy])
    else
      var errors := ContextPolicyErrors(policy);
      if errors != [] then (None, errors)
      else
        var maxItems := Get(policy, "max_context_items");
        (Some(ContextPolicy(
           Get(policy, "include_guest_context") == Bool(true),
           Get(policy, "include_recent_artifacts") == Bool(true),
           Get(policy, "include_user_preferences") == Bool(true),
           if maxItems.Num? && maxItems.n >= 0 then maxItems.n else 0)), [])
  }

  function Planned(sourceType: string, sourceName: string, reason: string): PlannedItem {
    PlannedItem(sourceType, sourceName, reason, true, true, true)
  }

  /** `RECENT_ARTIFACT_BY_CAPABILITY`. */
  function RecentArtifact(capability: string): Option<string> {
    if capability == "draft_email" then Some("email_draft")
    else if capability == "create_lower_third" then Some("lower_third")
    else if capability == "producer_note" then Some("producer_note")
    else None
  }

  const GUEST_REASON := "Binding context_policy includes bounded guest context."
  const PREFERENCES_REASON := "Binding context_policy includes user preference memory."

  function GuestItems(agent: string, resources: seq<string>, policy: ContextPolicy): seq<PlannedItem> {
    if policy.includeGuestContext && "guest_db" in resources
    then [Planned("agent_resource", agent + ".guest_db", GUEST_REASON)] else []
  }

  function RecentItems(capability: string, policy: ContextPolicy): seq<PlannedItem> {
    var artifact := RecentArtifact(capability);
    if policy.includeRecentArtifacts && artifact.Some?
    then [Planned("recent_artifacts", artifact.value,
                  "Binding context_policy includes recent " + artifact.value + " artifacts.")]
    else []
  }

  function PreferenceItems(policy: ContextPolicy): seq<PlannedItem> {
    if policy.includeUserPreferences then [Planned("memory", "user_preferences", PREFERENCES_REASON)] else []
  }

  function CandidateItems(agent: string, capability: string, resources: seq<string>, policy: ContextPolicy)
    : seq<PlannedItem>
  {
    GuestItems(agent, resources, policy) + RecentItems(capability, policy) + PreferenceItems(policy)
  }

  function CandidateErrors(capability: string, resources: seq<string>, policy: ContextPolicy)
    : seq<PlanningError>
  {
    (if policy.includeGuestContext && "guest_db" !in resources then [MissingRequiredResource] else [])
    + (if policy.includeRecentArtifacts && RecentArtifact(capability).None?
       then [UnsupportedRecentArtifactContext] else [])
  }

  /** `trace_planned_context`, with the resolved binding as a parameter. */
  function TracePlannedContext(agent: string, capability: string, binding: Binding): Trace {
    match binding
    case Unresolved(code) => Trace([], [BindingFailed(code)], Bool(false))
    case Resolved(resources, raw) =>
      var (policy, errors) := ValidateContextPolicy(raw);
      if policy.None? then Trace([], errors, Bool(false))
      else
        var candidates := CandidateItems(agent, capability, resources, policy.value);
        var n := if policy.value.maxContextItems < |candidates| then policy.value.maxContextItems else |candidates|;
        Trace(candidates[..n],
              CandidateErrors(capability, resources, policy.value)
              + (if n < |candidates| then [MaxContextItemsEnforced] else []),
              Bool(false))
  }

  ghost predicate DistinctSources(items: seq<PlannedItem>) {
    forall i, j :: 0 <= i < j < |items| ==> items[i].sourceName != items[j].sourceName
  }

  /** Whatever the agent is called, its guest source ends unlike the fixed ones. */
  lemma GuestSourceIsItsOwn(agent: string, other: string)
    requires other != "" && other[|other| - 1] != 'b'
    ensures agent + ".guest_db" != other
  {
    var guest := agent + ".guest_db";
    assert guest[|guest| - 1] == ".guest_db"[8] == 'b';
  }

  lemma ArtifactSources(capability: string)
    requires RecentArtifact(capability).Some?
    ensures var a := RecentArtifact(capability).value;
            a != "" && a[|a| - 1] != 'b' && a != "user_preferences"
  {
  }

  lemma CandidatesDistinct(agent: string, capability: string, resources: seq<string>, policy: ContextPolicy)
    ensures DistinctSources(CandidateItems(agent, capability, resources, policy))
  {
    var guest, recent, prefs :=
      GuestItems(agent, resources, policy), RecentItems(capability, policy), PreferenceItems(policy);
    GuestSourceIsItsOwn(agent, "user_preferences");
    var artifact := RecentArtifact(capability);
    if artifact.Some? {
      ArtifactSources(capability);
      GuestSourceIsItsOwn(agent, artifact.value);
    }
    assert DistinctSources(guest + recent);
    assert DistinctSources(guest + recent + prefs);
  }

  /** Every trace the planner can build has pairwise distinct sources. */
  lemma TraceSourcesDistinct(agent: string, capability: string, binding: Binding)
    ensures DistinctSources(TracePlannedContext(agent, capability, binding).plannedItems)
  {
    if binding.Resolved? {
      var policy := ValidateContextPolicy(binding.policy).0;
      if policy.Some? {
        CandidatesDistinct(agent, capability, binding.resources, policy.value);
      }
    }
  }

  /** `_candidate_items`. */
  method CollectCandidates(agent: string, capability: string, resources: seq<string>, policy: ContextPolicy)
    returns (items: seq<PlannedItem>, errors: seq<PlanningError>)
    ensures items == CandidateItems(agent, capability, resources, policy)
    ensures errors == CandidateErrors(capability, resources, policy)
    ensures DistinctSources(items)
  {
    CandidatesDistinct(agent, capability, resources, policy);
    items, errors := [], [];
    if policy.includeGuestContext {
      if "guest_db" in resources {
        items := items + [Planned("agent_resource", agent + ".guest_db", GUEST_REASON)];
      } else {
        errors := errors + [MissingRequiredResource];
      }
    }
    if policy.includeRecentArtifacts {
      var artifact := RecentArtifact(capability);
      if artifact.Some? {
        items := items + [Planned("recent_artifacts", artifact.value,
                                  "Binding context_policy includes recent " + artifact.value + " artifacts.")];
      } else {
        errors := errors + [UnsupportedRecentArtifactContext];
      }
    }
    if policy.includeUserPreferences {
      items := items + [Planned("memory", "user_preferences", PREFERENCES_REASON)];
    }
  }
}
