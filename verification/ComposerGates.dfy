/**
 What lets `compose_bounded_context` inject, said about its inputs: sixteen gates in order, and
 the reason each of them gives when it is the first one closed.
 */
module ComposerGates {
  import opened ContextCollection
  import opened ContextComposer
  import opened ContextInjection
  import opened ContextTrace
  import opened JsonValues
  import opened Sequences
  import opened Wrappers

  /** Everything the composer is given. */
  datatype Inputs = Inputs(
    flags: Flags, agent: string, capability: Option<string>, registry: Registry, binding: Binding,
    adapter: Option<Adapter>)

  const GATES := 16

  /** Why the composer skips when gate `g` is the first one closed. */
  function ReasonOf(g: nat): SkipReason
    requires g < GATES
  {
    match g
    case 0 => ContextInjectionDisabled
    case 1 => RollbackEnabled
    case 2 => RegistryLoadFailed
    case 3 => NoMatchingInjectionContract
    case 4 => RollbackEnabled
    case 5 => InjectionContractDisabled
    case 6 => CapabilityNotAllowed
    case 7 => RequiredSourceNotPlanned
    case 8 => AdapterMappingUnavailable
    case 9 => AdapterNotImplemented
    case 10 => ExternalContextReadsDisabled
    case 11 => AdapterMappingUnavailable
    case 12 => AdapterException
    case 13 => AdapterNoItem
    case 14 => TokenBudgetExceeded
    case _ => RendererNoOutput
  }

  /** The first contract found decides; without one this is never asked. */
  ghost predicate OfContract(q: Inputs, holds: Contract -> bool) {
    q.registry.Matching? && q.registry.contracts != [] && holds(q.registry.contracts[0])
  }

  ghost predicate OfAdapter(q: Inputs, holds: Adapter -> bool) {
    q.adapter.Some? && holds(q.adapter.value)
  }

  /** The plan made for the contract: its limits, and its source type alone. */
  ghost function PlanMade(q: Inputs, contract: Contract): Plan {
    PlanOf(TracePlannedContext(q.agent, if q.capability.Some? then q.capability.value else "", q.binding),
           InjectionPolicy(true, contract.maxItems, contract.maxTokens, [contract.sourceType], false,
                           "bounded_context_block", "telemetry_and_trace"))
  }

  /** The planned item is the contract's source, can be attributed and is not injected yet. */
  ghost predicate IsSource(item: InjectedItem, contract: Contract) {
    && item.source == contract.sourceName && item.sourceType == contract.sourceType
    && item.attributable && !item.injected
  }

  ghost function SourceOf(contract: Contract): InjectedItem -> bool {
    (item: InjectedItem) => IsSource(item, contract)
  }

  /** Exactly one planned item is the contract's source. */
  ghost predicate OneSource(q: Inputs, contract: Contract) {
    exists k: nat :: OnlyAt(PlanMade(q, contract).items, SourceOf(contract), k)
  }

  ghost predicate IsValid(item: Option<ResolvedItem>) {
    item.Some? && Valid(item.value)
  }

  /** The only valid item the adapter returned, if there is exactly one. */
  ghost function Answer(q: Inputs): (item: Option<ResolvedItem>)
    ensures item.Some? ==> Valid(item.value)
  {
    if q.adapter.Some? && q.adapter.value.output.Items? then OnlyValid(q.adapter.value.output.items) else None
  }

  ghost function OnlyValid(items: AdapterItems): (item: Option<ResolvedItem>)
    ensures item.Some? <==> exists k: nat :: OnlyAt(items, IsValid, k)
    ensures forall k: nat :: OnlyAt(items, IsValid, k) ==> item == items[k]
    ensures item.Some? ==> Valid(item.value)
  {
    if exists k: nat :: OnlyAt(items, IsValid, k) then
      var k: nat :| OnlyAt(items, IsValid, k);
      items[k]
    else None
  }

  ghost predicate Fits(item: ResolvedItem, contract: Contract) {
    item.estimatedTokens.Num? && item.estimatedTokens.n <= contract.maxTokens
  }

  /** The rendering policy is, to the letter, one that puts text into the prompt. */
  ghost predicate Shows(item: ResolvedItem) {
    item.renderingPolicy in {Str("inline_notice"), Str("bounded_context_block")}
  }

  ghost predicate CapabilityOpen(q: Inputs, contract: Contract) {
    && q.capability.Some? && q.capability.value in contract.capabilityScope
    && (q.flags.capabilityFilter.Some? ==> q.capability.value in q.flags.capabilityFilter.value)
  }

  /** Gate `g` is open. */
  ghost predicate Open(q: Inputs, g: nat)
    requires g < GATES
  {
    match g
    case 0 => q.flags.injectionEnabled
    case 1 => !q.flags.rollback
    case 2 => !q.registry.LoadFailed?
    case 3 => q.registry.Matching? && q.registry.contracts != []
    case 4 => !q.flags.contractRollback
    case 5 => OfContract(q, (c: Contract) => c.enabled)
    case 6 => OfContract(q, (c: Contract) => CapabilityOpen(q, c))
    case 7 => OfContract(q, (c: Contract) => OneSource(q, c))
    case 8 => OfAdapter(q, (a: Adapter) => a.enabled)
    case 9 => OfAdapter(q, (a: Adapter) => !a.kind.DeclaredGuestReadOnly?)
    case 10 => OfAdapter(q, (a: Adapter) => a.externalReadsAllowed ==> q.flags.externalReads)
    case 11 => OfAdapter(q, (a: Adapter) =>
                 a.kind in {Synthetic, GuestFixture, GuestReadOnly} && a.hasFactory && a.created)
    case 12 => OfAdapter(q, (a: Adapter) => !a.output.Raised?)
    case 13 => Answer(q).Some?
    case 14 => OfContract(q, (c: Contract) => Answer(q).Some? && Fits(Answer(q).value, c))
    case _ => Answer(q).Some? && Shows(Answer(q).value)
  }

  function Composed(q: Inputs): Composition {
    Compose(q.flags, q.agent, q.capability, q.registry, q.binding, q.adapter)
  }

  lemma {:induction false} MatchesCounted(items: seq<InjectedItem>, contract: Contract)
    ensures |Matches(items, contract)| == Count(items, SourceOf(contract))
  {
    if items != [] {
      MatchesCounted(items[1..], contract);
    }
  }

  /** A plan never has more items than its limit, so the selection is never cut. */
  lemma NeverCut(q: Inputs, contract: Contract)
    ensures Selected(PlanMade(q, contract), contract) == Matches(PlanMade(q, contract).items, contract)
  {
    MatchesCounted(PlanMade(q, contract).items, contract);
    CountNone(PlanMade(q, contract).items, SourceOf(contract));
    if PolicyErrors(PolicyFor(contract)) == [] {
      PlanIsMaximalPrefix(TraceFor(q.agent, q.capability, q.binding), PolicyFor(contract));
    }
  }

  lemma SelectedExactly(q: Inputs, contract: Contract)
    ensures SourcePlanned(q.agent, q.capability, q.binding, contract) <==> OneSource(q, contract)
  {
    NeverCut(q, contract);
    MatchesCounted(PlanMade(q, contract).items, contract);
    CountOne(PlanMade(q, contract).items, SourceOf(contract));
  }

  lemma {:induction false} ValidItemsCounted(items: AdapterItems)
    ensures |ValidItems(items)| == Count(items, IsValid)
  {
    if items != [] {
      ValidItemsCounted(items[1..]);
    }
  }

  lemma {:induction false} ValidItemListed(items: AdapterItems, k: nat)
    requires k < |items| && IsValid(items[k])
    ensures items[k].value in ValidItems(items)
  {
    if k > 0 {
      ValidItemListed(items[1..], k - 1);
    }
  }

  /** The adapter's answer is used exactly when it holds one valid item, and that item is used. */
  lemma AnswerExactly(items: AdapterItems)
    ensures |ValidItems(items)| == 1 <==> exists k: nat :: OnlyAt(items, IsValid, k)
    ensures forall k: nat :: OnlyAt(items, IsValid, k) ==> Some(ValidItems(items)[0]) == items[k]
  {
    ValidItemsCounted(items);
    CountOne(items, IsValid);
    forall k: nat | OnlyAt(items, IsValid, k) ensures |ValidItems(items)| == 1 && Some(ValidItems(items)[0]) == items[k] {
      ValidItemListed(items, k);
    }
  }

  ghost predicate OpenBelow(q: Inputs, g: nat)
    requires g <= GATES
  {
    forall i: nat :: i < g ==> Open(q, i)
  }

  ghost predicate FirstClosed(q: Inputs, g: nat) {
    g < GATES && OpenBelow(q, g) && !Open(q, g)
  }

  lemma ContractGates(q: Inputs, g: nat)
    requires g <= 7 && OpenBelow(q, g)
    ensures g < 7 && !Open(q, g) ==> ContractGate(q.flags, q.capability, q.registry).0 == Some(ReasonOf(g))
    ensures g == 7 ==>
              && q.registry.Matching? && q.registry.contracts != []
              && ContractGate(q.flags, q.capability, q.registry) == (None, Some(q.registry.contracts[0]))
  {
    assert g > 0 ==> Open(q, 0);
    assert g > 1 ==> Open(q, 1);
    assert g > 2 ==> Open(q, 2);
    assert g > 3 ==> Open(q, 3);
    assert g > 4 ==> Open(q, 4);
    assert g > 5 ==> Open(q, 5);
    assert g > 6 ==> Open(q, 6);
  }

  lemma AdapterGates(q: Inputs, g: nat)
    requires 8 <= g < 13 && OpenBelow(q, g) && !Open(q, g)
    ensures AdapterGate(q.flags, q.adapter).0 == Some(ReasonOf(g))
  {
    assert g > 8 ==> Open(q, 8);
    assert g > 9 ==> Open(q, 9);
    assert g > 10 ==> Open(q, 10);
    assert g > 11 ==> Open(q, 11);
  }

  lemma AdapterAnswers(q: Inputs)
    requires OpenBelow(q, 13)
    ensures q.adapter.Some?
    ensures var items := ResolvedItems(q.adapter.value.output);
            AdapterGate(q.flags, q.adapter) == if |items| != 1 then (Some(AdapterNoItem), []) else (None, items)
  {
    assert Open(q, 8) && Open(q, 9) && Open(q, 10) && Open(q, 11) && Open(q, 12);
  }

  /** What the composer gets from the adapter is its only valid item. */
  lemma AnswerExact(q: Inputs)
    requires q.adapter.Some?
    ensures |ResolvedItems(q.adapter.value.output)| == 1 <==> Answer(q).Some?
    ensures Answer(q).Some? ==> ResolvedItems(q.adapter.value.output) == [Answer(q).value]
  {
    var output := q.adapter.value.output;
    if output.Items? {
      AnswerExactly(output.items);
    }
  }

  /** What becomes of a valid item. */
  lemma ItemGates(contract: Contract, item: ResolvedItem)
    requires Valid(item)
    ensures ComposeItemUnchecked(contract, item)
         == if !Fits(item, contract) then Skip(TokenBudgetExceeded)
            else if !Shows(item) then Skip(RendererNoOutput)
            else Composition([item], [item.content], true, [])
  {
    NoInvalidFieldsIffValid(item);
  }

  /** Once a contract applies, the plan and then the adapter decide. */
  lemma ContractApplies(q: Inputs, contract: Contract)
    requires ContractGate(q.flags, q.capability, q.registry) == (None, Some(contract))
    ensures var (stopped, items) := AdapterGate(q.flags, q.adapter);
            Composed(q) == if !OneSource(q, contract) then Skip(RequiredSourceNotPlanned)
                           else if stopped.Some? then Skip(stopped.value)
                           else ComposeItemUnchecked(contract, items[0])
  {
    SelectedExactly(q, contract);
    LateChecksNeverFire(q.flags, q.agent, q.capability, q.registry, q.binding, q.adapter);
  }

  /** After the first eight gates the composer asks the adapter. */
  lemma AdapterAsked(q: Inputs)
    requires OpenBelow(q, 8)
    ensures q.registry.Matching? && q.registry.contracts != []
    ensures var (stopped, items) := AdapterGate(q.flags, q.adapter);
            Composed(q) == if stopped.Some? then Skip(stopped.value)
                           else ComposeItemUnchecked(q.registry.contracts[0], items[0])
  {
    ContractGates(q, 7);
    assert Open(q, 7);
    ContractApplies(q, q.registry.contracts[0]);
  }

  lemma SourceMissing(q: Inputs, contract: Contract)
    requires q.registry.Matching? && q.registry.contracts != [] && q.registry.contracts[0] == contract
    ensures OneSource(q, contract) ==> Open(q, 7)
  {
    if OneSource(q, contract) {
      var k: nat :| OnlyAt(PlanMade(q, contract).items, SourceOf(contract), k);
    }
  }

  lemma NothingPlanned(q: Inputs, contract: Contract)
    requires ContractGate(q.flags, q.capability, q.registry) == (None, Some(contract))
    ensures !OneSource(q, contract) ==> Composed(q) == Skip(RequiredSourceNotPlanned)
  {
    ContractApplies(q, contract);
  }

  lemma SourceStops(q: Inputs, g: nat)
    ensures g == 7 && FirstClosed(q, g) ==> Composed(q) == Skip(ReasonOf(g))
  {
    if g == 7 && FirstClosed(q, g) {
      ContractGates(q, 7);
      SourceMissing(q, q.registry.contracts[0]);
      NothingPlanned(q, q.registry.contracts[0]);
    }
  }

  lemma ContractStops(q: Inputs, g: nat)
    ensures g < 7 && FirstClosed(q, g) ==> Composed(q) == Skip(ReasonOf(g))
  {
    if g < 7 && FirstClosed(q, g) {
      ContractGates(q, g);
    }
  }

  lemma AdapterStops(q: Inputs, g: nat)
    ensures 8 <= g < 13 && FirstClosed(q, g) ==> Composed(q) == Skip(ReasonOf(g))
  {
    if 8 <= g < 13 && FirstClosed(q, g) {
      AdapterAsked(q);
      AdapterGates(q, g);
    }
  }

  /** What becomes of an answer. */
  ghost function Verdict(answer: Option<ResolvedItem>, contract: Contract): Composition {
    if answer.None? then Skip(AdapterNoItem)
    else if !Fits(answer.value, contract) then Skip(TokenBudgetExceeded)
    else if !Shows(answer.value) then Skip(RendererNoOutput)
    else Composition([answer.value], [answer.value.content], true, [])
  }

  /** With the adapter gates open, its answer decides. */
  lemma AnswerDecides(q: Inputs)
    requires OpenBelow(q, 13)
    ensures q.registry.Matching? && q.registry.contracts != []
    ensures Composed(q) == Verdict(Answer(q), q.registry.contracts[0])
  {
    AdapterAsked(q);
    AdapterAnswers(q);
    AnswerExact(q);
    if Answer(q).Some? {
      ItemGates(q.registry.contracts[0], Answer(q).value);
    }
  }

  lemma OpenEarlier(q: Inputs, g: nat, h: nat)
    requires h <= g <= GATES && OpenBelow(q, g)
    ensures OpenBelow(q, h)
  {
  }

  ghost predicate LateOpen(answer: Option<ResolvedItem>, contract: Contract, g: nat) {
    answer.Some? && (g == 14 ==> Fits(answer.value, contract)) && (g == 15 ==> Shows(answer.value))
  }

  lemma LateExactly(q: Inputs, g: nat)
    requires 13 <= g < GATES && q.registry.Matching? && q.registry.contracts != []
    ensures Open(q, g) <==> LateOpen(Answer(q), q.registry.contracts[0], g)
  {
  }

  lemma LateVerdict(answer: Option<ResolvedItem>, contract: Contract, g: nat)
    requires 13 <= g < GATES && !LateOpen(answer, contract, g)
    requires forall i: nat :: 13 <= i < g ==> LateOpen(answer, contract, i)
    ensures Verdict(answer, contract) == Skip(ReasonOf(g))
  {
    assert g > 13 ==> LateOpen(answer, contract, 13);
    assert g > 14 ==> LateOpen(answer, contract, 14);
  }

  lemma LateGates(q: Inputs, g: nat)
    requires 13 <= g && q.registry.Matching? && q.registry.contracts != []
    ensures FirstClosed(q, g) ==> Verdict(Answer(q), q.registry.contracts[0]) == Skip(ReasonOf(g))
  {
    if FirstClosed(q, g) {
      forall i: nat | 13 <= i < GATES ensures Open(q, i) <==> LateOpen(Answer(q), q.registry.contracts[0], i) {
        LateExactly(q, i);
      }
      LateVerdict(Answer(q), q.registry.contracts[0], g);
    }
  }

  lemma AnswerStops(q: Inputs, g: nat)
    ensures 13 <= g && FirstClosed(q, g) ==> Composed(q) == Skip(ReasonOf(g))
  {
    if 13 <= g && FirstClosed(q, g) {
      OpenEarlier(q, g, 13);
      AnswerDecides(q);
      LateGates(q, g);
    }
  }

  lemma GateStops(q: Inputs, g: nat)
    ensures FirstClosed(q, g) ==> Composed(q) == Skip(ReasonOf(g))
  {
    if g < 7 {
      ContractStops(q, g);
    } else if g == 7 {
      SourceStops(q, g);
    } else if g < 13 {
      AdapterStops(q, g);
    } else {
      AnswerStops(q, g);
    }
  }

  /** The first closed gate decides: nothing is injected, and its reason is the only one given. */
  lemma FirstClosedGateDecides(q: Inputs, g: nat)
    requires FirstClosed(q, g)
    ensures Composed(q) == Composition([], [], false, [ReasonOf(g)])
  {
    GateStops(q, g);
  }

  /** With every gate open the adapter's only valid item is injected, with its content as the prompt text. */
  lemma OpenGatesInject(q: Inputs)
    requires OpenBelow(q, GATES)
    ensures Answer(q).Some?
    ensures Composed(q) == Composition([Answer(q).value], [Answer(q).value.content], true, [])
  {
    assert Open(q, 13) && Open(q, 14) && Open(q, 15);
    AnswerDecides(q);
  }

  lemma {:induction false} FirstClosedFrom(q: Inputs, from: nat) returns (g: nat)
    requires from <= GATES && OpenBelow(q, from) && !OpenBelow(q, GATES)
    ensures FirstClosed(q, g)
    decreases GATES - from
  {
    if from == GATES {
      assert false;
    } else if Open(q, from) {
      g := FirstClosedFrom(q, from + 1);
    } else {
      g := from;
    }
  }

  /**
   The composer injects exactly when every gate is open. Otherwise it gives the reason of the
   first closed gate, and no other.
   */
  lemma InjectsExactly(q: Inputs)
    ensures Composed(q).injectionPerformed <==> forall g: nat :: g < GATES ==> Open(q, g)
    ensures !Composed(q).injectionPerformed ==>
              exists g: nat :: FirstClosed(q, g) && Composed(q).skipped == [ReasonOf(g)]
  {
    if OpenBelow(q, GATES) {
      OpenGatesInject(q);
    } else {
      var g := FirstClosedFrom(q, 0);
      FirstClosedGateDecides(q, g);
    }
  }

  /** Either rollback flag stops every injection, whatever else is set. */
  lemma RollbackStopsInjection(q: Inputs)
    ensures q.flags.rollback || q.flags.contractRollback ==> !Composed(q).injectionPerformed
  {
    InjectsExactly(q);
    assert Open(q, 1) ==> !q.flags.rollback;
    assert Open(q, 4) ==> !q.flags.contractRollback;
  }
}
