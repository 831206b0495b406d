/** The gate chain of `compose_bounded_context` (runtime/context_composer.py). */
module ContextComposer {
  import opened ContextCollection
  import opened ContextInjection
  import opened ContextProvenance
  import opened ContextRendering
  import opened ContextTrace
  import opened JsonValues
  import opened KeyedLookup
  import opened PreviewProvenance
  import opened Sums
  import opened Text
  import opened Wrappers

  // The environment flags the composer reads; the third is the one the contract names.
  datatype Flags = Flags(
    injectionEnabled: bool, rollback: bool, contractRollback: bool,
    capabilityFilter: Option<set<string>>, externalReads: bool)

  datatype Contract = Contract(
    enabled: bool, capabilityScope: seq<string>, sourceName: string, sourceType: string,
    maxItems: int, maxTokens: int, requiresProvenanceValidation: bool)

  datatype Registry = LoadFailed | Matching(contracts: seq<Contract>)

  datatype AdapterKind = Synthetic | GuestFixture | GuestReadOnly | DeclaredGuestReadOnly | OtherKind

  datatype AdapterOutput = Raised | NotAList | Items(items: AdapterItems)

  datatype Adapter = Adapter(
    enabled: bool, kind: AdapterKind, externalReadsAllowed: bool, hasFactory: bool, created: bool,
    output: AdapterOutput)

  datatype SkipReason =
    | ContextInjectionDisabled
    | RollbackEnabled
    | RegistryLoadFailed
    | NoMatchingInjectionContract
    | InjectionContractDisabled
    | CapabilityNotAllowed
    | RequiredSourceNotPlanned
    | AdapterMappingUnavailable
    | AdapterNotImplemented
    | ExternalContextReadsDisabled
    | AdapterException
    | AdapterNoItem
    | InvalidResolvedItem(field: ItemField)
    | TokenBudgetExceeded
    | CollectionNoItems
    | RendererNoOutput
    | ProvenanceFailed(error: ProvenanceError)

  predicate SelfCheckReason(reason: SkipReason) {
    reason.InvalidResolvedItem? || reason.CollectionNoItems? || reason.ProvenanceFailed?
  }

  datatype Composition = Composition(
    items: seq<ResolvedItem>, renderedBlocks: seq<Json>, injectionPerformed: bool, skipped: seq<SkipReason>)

  function Skip(reason: SkipReason): Composition {
    Composition([], [], false, [reason])
  }

  predicate CapabilityAllowed(flags: Flags, capability: Option<string>, contract: Contract) {
    && capability.Some?
    && capability.value in contract.capabilityScope
    && (flags.capabilityFilter.Some? ==> capability.value in flags.capabilityFilter.value)
  }

  function PolicyFor(contract: Contract): InjectionPolicy {
    InjectionPolicy(true, contract.maxItems, contract.maxTokens, [contract.sourceType], false,
                    "bounded_context_block", "telemetry_and_trace")
  }

  function Matches(items: seq<InjectedItem>, contract: Contract): (r: seq<InjectedItem>)
    ensures forall i :: 0 <= i < |r| ==> r[i] in items && r[i].source == contract.sourceName
  {
    if items == [] then []
    else
      (if items[0].source == contract.sourceName && items[0].sourceType == contract.sourceType
          && items[0].attributable && !items[0].injected
       then [items[0]] else [])
      + Matches(items[1..], contract)
  }

  function Selected(plan: Plan, contract: Contract): (r: seq<InjectedItem>)
    ensures forall i :: 0 <= i < |r| ==> r[i] in plan.items && r[i].source == contract.sourceName
  {
    var matches := Matches(plan.items, contract);
    if 0 <= contract.maxItems < |matches| then matches[..contract.maxItems] else matches
  }

  predicate Supported(adapter: Adapter) {
    (adapter.kind.Synthetic? || adapter.kind.GuestFixture? || adapter.kind.GuestReadOnly?) && adapter.hasFactory
  }

  /** `validate_adapter_output`. */
  function ValidItems(items: AdapterItems): (r: seq<ResolvedItem>)
    ensures forall i :: 0 <= i < |r| ==> Valid(r[i])
  {
    if items == [] then []
    else (if items[0].Some? && Valid(items[0].value) then [items[0].value] else []) + ValidItems(items[1..])
  }

  function ResolvedItems(output: AdapterOutput): (r: seq<ResolvedItem>)
    ensures forall i :: 0 <= i < |r| ==> Valid(r[i])
  {
    if output.Items? then ValidItems(output.items) else []
  }

  /** `render_context_item`: an exact comparison, unlike the validator's stripped one. */
  function RenderedText(item: ResolvedItem): Option<Json> {
    if InvalidFieldsOf(item) != [] || !RenderingPolicyOk(item.renderingPolicy) || SourceContractErrors(item) != []
    then None
    else if item.renderingPolicy in [Str("inline_notice"), Str("bounded_context_block")] then Some(item.content)
    else None
  }

  function BlockFor(contract: Contract, item: ResolvedItem, planned: InjectedItem): Block {
    var tokens := TokenEstimate(item);
    var shown := if tokens <= planned.tokenCount then tokens else planned.tokenCount;
    Block([RenderedItem(contract.sourceName, false, true, shown, true)], tokens, false, true, false, [])
  }

  function TokenEstimate(item: ResolvedItem): int {
    if item.estimatedTokens.Num? then item.estimatedTokens.n else 0
  }

  function InvalidFields(errors: seq<ItemField>): seq<SkipReason> {
    seq(|errors|, i requires 0 <= i < |errors| => InvalidResolvedItem(errors[i]))
  }

  function ProvenanceFailures(errors: seq<ProvenanceError>): seq<SkipReason> {
    seq(|errors|, i requires 0 <= i < |errors| => ProvenanceFailed(errors[i]))
  }

  /** The checks after the adapter has answered with one item. */
  function ComposeItem(contract: Contract, trace: Trace, plan: Plan, planned: InjectedItem, item: ResolvedItem)
    : Composition
  {
    var fields := InvalidFieldsOf(item);
    if fields != [] then Composition([], [], false, InvalidFields(fields))
    else if TokenEstimate(item) > contract.maxTokens then Skip(TokenBudgetExceeded)
    else
      var accepted := CollectionOf([Some(item)], contract.maxItems, contract.maxTokens);
      if |accepted| != 1 || accepted[0].None? then Skip(CollectionNoItems)
      else
        var text := RenderedText(accepted[0].value);
        if text.None? then Skip(RendererNoOutput)
        else
          var errors := ErrorsOf(trace, plan, BlockFor(contract, accepted[0].value, planned));
          if contract.requiresProvenanceValidation && errors != []
          then Composition([], [], false, ProvenanceFailures(errors))
          else Composition([accepted[0].value], [text.value], true, [])
  }

  /** The same with the three checks of the composer's own work left out. */
  function ComposeItemUnchecked(contract: Contract, item: ResolvedItem): Composition {
    if TokenEstimate(item) > contract.maxTokens then Skip(TokenBudgetExceeded)
    else
      var text := RenderedText(item);
      if text.None? then Skip(RendererNoOutput)
      else Composition([item], [text.value], true, [])
  }

  /** The adapter gates: the reason to stop, or the items of the adapter that are valid. */
  function AdapterGate(flags: Flags, adapter: Option<Adapter>): (r: (Option<SkipReason>, seq<ResolvedItem>))
    ensures r.0.None? ==> |r.1| == 1 && Valid(r.1[0])
    ensures r.0.Some? ==> !SelfCheckReason(r.0.value)
  {
    if adapter.None? || !adapter.value.enabled then (Some(AdapterMappingUnavailable), [])
    else
      var a := adapter.value;
      if a.kind.DeclaredGuestReadOnly? then (Some(AdapterNotImplemented), [])
      else if a.externalReadsAllowed && !flags.externalReads then (Some(ExternalContextReadsDisabled), [])
      else if !Supported(a) || !a.created then (Some(AdapterMappingUnavailable), [])
      else if a.output.Raised? then (Some(AdapterException), [])
      else
        var items := ResolvedItems(a.output);
        if |items| != 1 then (Some(AdapterNoItem), []) else (None, items)
  }

  /** The gates before a contract is known to apply. */
  function ContractGate(flags: Flags, capability: Option<string>, registry: Registry)
    : (r: (Option<SkipReason>, Option<Contract>))
    ensures r.0.None? ==> r.1.Some? && registry.Matching? && registry.contracts != [] && r.1.value == registry.contracts[0]
    ensures r.0.Some? ==> r.1.None? && !SelfCheckReason(r.0.value)
  {
    if !flags.injectionEnabled then (Some(ContextInjectionDisabled), None)
    else if flags.rollback then (Some(RollbackEnabled), None)
    else if registry.LoadFailed? then (Some(RegistryLoadFailed), None)
    else if registry.contracts == [] then (Some(NoMatchingInjectionContract), None)
    else
      var contract := registry.contracts[0];
      if flags.contractRollback then (Some(RollbackEnabled), None)
      else if !contract.enabled then (Some(InjectionContractDisabled), None)
      else if !CapabilityAllowed(flags, capability, contract) then (Some(CapabilityNotAllowed), None)
      else (None, Some(contract))
  }

  function TraceFor(agent: string, capability: Option<string>, binding: Binding): Trace {
    TracePlannedContext(agent, if capability.Some? then capability.value else "", binding)
  }

  /** `compose_bounded_context`. */
  function Compose(flags: Flags, agent: string, capability: Option<string>, registry: Registry,
                   binding: Binding, adapter: Option<Adapter>): Composition
  {
    var (closed, contract) := ContractGate(flags, capability, registry);
    if closed.Some? then Skip(closed.value)
    else
      var trace := TraceFor(agent, capability, binding);
      var plan := PlanOf(trace, PolicyFor(contract.value));
      var selected := Selected(plan, contract.value);
      if |selected| != 1 then Skip(RequiredSourceNotPlanned)
      else
        var (stopped, items) := AdapterGate(flags, adapter);
        if stopped.Some? then Skip(stopped.value)
        else ComposeItem(contract.value, trace, plan, selected[0], items[0])
  }

  /** What is left to decide without the self-checks, given what the gates found. */
  function Decide(closed: Option<SkipReason>, contract: Option<Contract>, planned: bool,
                  stopped: Option<SkipReason>, items: seq<ResolvedItem>): Composition
    requires closed.None? ==> contract.Some?
    requires stopped.None? ==> |items| == 1
  {
    if closed.Some? then Skip(closed.value)
    else if !planned then Skip(RequiredSourceNotPlanned)
    else if stopped.Some? then Skip(stopped.value)
    else ComposeItemUnchecked(contract.value, items[0])
  }

  /** Whether exactly one planned item is the contract's source. */
  predicate SourcePlanned(agent: string, capability: Option<string>, binding: Binding, contract: Contract) {
    |Selected(PlanOf(TraceFor(agent, capability, binding), PolicyFor(contract)), contract)| == 1
  }

  /** The composer without its late self-checks. */
  function ComposeUnchecked(flags: Flags, agent: string, capability: Option<string>, registry: Registry,
                            binding: Binding, adapter: Option<Adapter>): Composition
  {
    var (closed, contract) := ContractGate(flags, capability, registry);
    var (stopped, items) := AdapterGate(flags, adapter);
    var planned := contract.Some? && SourcePlanned(agent, capability, binding, contract.value);
    Decide(closed, contract, planned, stopped, items)
  }

  /** A plan that selected something was built under positive limits. */
  lemma SelectionNeedsLimits(trace: Trace, contract: Contract)
    requires Selected(PlanOf(trace, PolicyFor(contract)), contract) != []
    ensures contract.maxItems > 0 && contract.maxTokens > 0
  {
    var plan := PlanOf(trace, PolicyFor(contract));
    assert Selected(plan, contract)[0] in plan.items;
    assert plan.items != [];
    PlanIsMaximalPrefix(trace, PolicyFor(contract));
  }

  /** The block the composer builds itself passes the provenance checker. */
  lemma OwnBlockIsClean(trace: Trace, plan: Plan, contract: Contract, planned: InjectedItem, item: ResolvedItem)
    requires Sound(trace, plan)
    requires planned in plan.items && planned.source == contract.sourceName
    requires TokenEstimate(item) >= 0
    ensures ErrorsOf(trace, plan, BlockFor(contract, item, planned)) == []
  {
    var block := BlockFor(contract, item, planned);
    var shown := block.items[0];
    var k :| 0 <= k < |plan.items| && plan.items[k] == planned;
    LookupAtPosition(trace, plan, k, shown);
    assert ItemErrors(shown, Some(planned)) == [];
    OneRenderedItem(trace, plan, shown);
    SumDominates(Tokens(plan.items), k);
    assert Tokens(plan.items)[k] == planned.tokenCount;
    assert Estimates(block.items) == [shown.tokenEstimate];
    assert [shown.tokenEstimate][..0] == [];
    ErrorsAreItemErrors(trace, plan, block);
  }

  lemma OneRenderedItem(trace: Trace, plan: Plan, item: RenderedItem)
    ensures AllItemErrors(trace, plan, [item]) == ItemErrors(item, PlanItemFor(trace, plan, item))
  {
    assert [item][..0] == [];
    assert AllItemErrors(trace, plan, []) == [];
  }

  lemma LateChecksPass(contract: Contract, trace: Trace, plan: Plan, planned: InjectedItem, item: ResolvedItem)
    requires Sound(trace, plan) && planned in plan.items && planned.source == contract.sourceName
    requires contract.maxItems > 0 && contract.maxTokens > 0
    requires Valid(item)
    ensures ComposeItem(contract, trace, plan, planned, item) == ComposeItemUnchecked(contract, item)
  {
    NoInvalidFieldsIffValid(item);
    if TokenEstimate(item) <= contract.maxTokens {
      SingleItemAccepted(Some(item), item.estimatedTokens.n, contract.maxItems, contract.maxTokens);
      OwnBlockIsClean(trace, plan, contract, planned, item);
    }
  }

  /**
   The composer never contradicts itself: for all inputs its item check, its collection
   check and its provenance check change nothing, so none of their skips can be returned.
   */
  lemma LateChecksNeverFire(flags: Flags, agent: string, capability: Option<string>, registry: Registry,
                            binding: Binding, adapter: Option<Adapter>)
    ensures Compose(flags, agent, capability, registry, binding, adapter)
         == ComposeUnchecked(flags, agent, capability, registry, binding, adapter)
  {
    var (closed, found) := ContractGate(flags, capability, registry);
    if closed.None? {
      var contract := found.value;
      var trace := TraceFor(agent, capability, binding);
      var plan := PlanOf(trace, PolicyFor(contract));
      var selected := Selected(plan, contract);
      var (stopped, items) := AdapterGate(flags, adapter);
      if |selected| == 1 && stopped.None? {
        SelectionNeedsLimits(trace, contract);
        TracesAreWellPlanned(agent, if capability.Some? then capability.value else "", binding);
        PlansAreSound(trace, PolicyFor(contract));
        LateChecksPass(contract, trace, plan, selected[0], items[0]);
      }
    }
  }

  /** What a returned composition looks like, injected or skipped. */
  ghost predicate Consistent(r: Composition, registry: Registry) {
    && (r.injectionPerformed <==> r.skipped == [])
    && (r.injectionPerformed ==>
          && |r.items| == |r.renderedBlocks| == 1 && Valid(r.items[0])
          && r.renderedBlocks[0] == r.items[0].content
          && registry.Matching? && registry.contracts != []
          && r.items[0].estimatedTokens.n <= registry.contracts[0].maxTokens)
    && (!r.injectionPerformed ==>
          r.items == [] && r.renderedBlocks == [] && |r.skipped| == 1 && !SelfCheckReason(r.skipped[0]))
  }

  lemma ItemConsistent(contract: Contract, item: ResolvedItem, registry: Registry)
    requires Valid(item) && registry.Matching? && registry.contracts != [] && registry.contracts[0] == contract
    ensures Consistent(ComposeItemUnchecked(contract, item), registry)
  {
  }

  /**
   For all inputs: injection is performed exactly when nothing was skipped; then one valid
   item within the contract's token limit and its text are returned, and otherwise nothing
   is. A skip has one reason, and never one of the composer's self-checks.
   */
  lemma CompositionConsistent(flags: Flags, agent: string, capability: Option<string>, registry: Registry,
                              binding: Binding, adapter: Option<Adapter>)
    ensures Consistent(Compose(flags, agent, capability, registry, binding, adapter), registry)
  {
    LateChecksNeverFire(flags, agent, capability, registry, binding, adapter);
    UncheckedConsistent(flags, agent, capability, registry, binding, adapter);
  }

  lemma DecisionConsistent(closed: Option<SkipReason>, contract: Option<Contract>, planned: bool,
                           stopped: Option<SkipReason>, items: seq<ResolvedItem>, registry: Registry)
    requires closed.None? ==> contract.Some? && registry.Matching? && registry.contracts != []
                              && registry.contracts[0] == contract.value
    requires stopped.None? ==> |items| == 1 && Valid(items[0])
    requires closed.Some? ==> !SelfCheckReason(closed.value)
    requires stopped.Some? ==> !SelfCheckReason(stopped.value)
    ensures Consistent(Decide(closed, contract, planned, stopped, items), registry)
  {
    if closed.None? && planned && stopped.None? {
      ItemConsistent(contract.value, items[0], registry);
    }
  }

  lemma UncheckedConsistent(flags: Flags, agent: string, capability: Option<string>, registry: Registry,
                            binding: Binding, adapter: Option<Adapter>)
    ensures Consistent(ComposeUnchecked(flags, agent, capability, registry, binding, adapter), registry)
  {
    var (closed, contract) := ContractGate(flags, capability, registry);
    var (stopped, items) := AdapterGate(flags, adapter);
    var planned := contract.Some? && SourcePlanned(agent, capability, binding, contract.value);
    DecisionConsistent(closed, contract, planned, stopped, items, registry);
  }
}
