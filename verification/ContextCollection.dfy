/**
 Resolved context items, their validator (runtime/context_types.py) and the greedy bounded
 collection (runtime/context_collection.py). Fields hold raw values, as adapters return them.
 */
module ContextCollection {
  import opened GreedySelection
  import opened JsonValues
  import opened Sums
  import opened Text
  import opened Wrappers

  datatype Provenance = Provenance(
    sourceContractId: Json, retrievalExecuted: Json, attribution: Json, generatedAt: Json)

  datatype ResolvedItem = ResolvedItem(
    id: Json, sourceContractId: Json, content: Json, contentType: Json,
    provenance: Option<Provenance>, estimatedTokens: Json, trustLevel: Json,
    renderingPolicy: Json, metadata: Json)

  datatype ItemField =
    | Id | SourceContractId | Content | ContentType | TrustLevel | RenderingPolicy
    | ProvenanceField | ProvenanceSourceContractId | RetrievalExecuted | Attribution | GeneratedAt
    | EstimatedTokensField | Metadata

  const ALLOWED_RENDERING_POLICIES := ["inline_notice", "bounded_context_block", "cite_only", "hidden_from_prompt"]

  predicate NonBlank(v: Json) {
    v.Str? && !Blank(v.s)
  }

  function ProvenanceErrors(provenance: Option<Provenance>): seq<ItemField> {
    match provenance
    case None => [ProvenanceField]
    case Some(p) =>
      (if NonBlank(p.sourceContractId) then [] else [ProvenanceSourceContractId])
      + (if p.retrievalExecuted.Bool? then [] else [RetrievalExecuted])
      + (if NonBlank(p.attribution) then [] else [Attribution])
      + (if p.generatedAt == Null || p.generatedAt.Str? then [] else [GeneratedAt])
  }

  function SourceContractErrors(item: ResolvedItem): seq<ItemField> {
    match item.provenance
    case None => [ProvenanceField]
    case Some(p) => if item.sourceContractId == p.sourceContractId then [] else [SourceContractId]
  }

  predicate RenderingPolicyOk(policy: Json) {
    NonBlank(policy) && Strip(policy.s) in ALLOWED_RENDERING_POLICIES
  }

  /** `validate_resolved_context_item`: the fields in error. */
  function InvalidFieldsOf(item: ResolvedItem): seq<ItemField> {
    (if NonBlank(item.id) then [] else [Id])
    + (if NonBlank(item.sourceContractId) then [] else [SourceContractId])
    + (if NonBlank(item.content) then [] else [Content])
    + (if NonBlank(item.contentType) then [] else [ContentType])
    + (if NonBlank(item.trustLevel) then [] else [TrustLevel])
    + (if NonBlank(item.renderingPolicy) then [] else [RenderingPolicy])
    + ProvenanceErrors(item.provenance)
    + SourceContractErrors(item)
    + (if RenderingPolicyOk(item.renderingPolicy) then [] else [RenderingPolicy])
    + (if item.estimatedTokens.Num? && item.estimatedTokens.n >= 0 then [] else [EstimatedTokensField])
    + (if item.metadata.Obj? then [] else [Metadata])
  }

  predicate ValidProvenance(p: Provenance) {
    && NonBlank(p.sourceContractId) && p.retrievalExecuted.Bool? && NonBlank(p.attribution)
    && (p.generatedAt == Null || p.generatedAt.Str?)
  }

  /** What a valid item is, field by field. */
  predicate Valid(item: ResolvedItem) {
    && NonBlank(item.id) && NonBlank(item.sourceContractId) && NonBlank(item.content)
    && NonBlank(item.contentType) && NonBlank(item.trustLevel)
    && item.provenance.Some? && ValidProvenance(item.provenance.value)
    && item.sourceContractId == item.provenance.value.sourceContractId
    && RenderingPolicyOk(item.renderingPolicy)
    && item.estimatedTokens.Num? && item.estimatedTokens.n >= 0
    && item.metadata.Obj?
  }

  /** The validator reports no field exactly for the valid items. */
  lemma NoInvalidFieldsIffValid(item: ResolvedItem)
    ensures InvalidFieldsOf(item) == [] <==> Valid(item)
  {
  }

  /** A string with some other character than whitespace. */
  ghost predicate Written(v: Json) {
    v.Str? && exists i :: 0 <= i < |v.s| && !IsSpace(v.s[i])
  }

  /** What is wrong with a field that is reported. */
  ghost predicate Wrong(item: ResolvedItem, f: ItemField) {
    match f
    case Id => !Written(item.id)
    case SourceContractId =>
      || !Written(item.sourceContractId)
      || (item.provenance.Some? && item.provenance.value.sourceContractId != item.sourceContractId)
    case Content => !Written(item.content)
    case ContentType => !Written(item.contentType)
    case TrustLevel => !Written(item.trustLevel)
    case RenderingPolicy =>
      || !item.renderingPolicy.Str?
      || Strip(item.renderingPolicy.s) !in {"inline_notice", "bounded_context_block", "cite_only", "hidden_from_prompt"}
    case ProvenanceField => item.provenance.None?
    case ProvenanceSourceContractId => item.provenance.Some? && !Written(item.provenance.value.sourceContractId)
    case RetrievalExecuted => item.provenance.Some? && !item.provenance.value.retrievalExecuted.Bool?
    case Attribution => item.provenance.Some? && !Written(item.provenance.value.attribution)
    case GeneratedAt =>
      && item.provenance.Some?
      && item.provenance.value.generatedAt != Null && !item.provenance.value.generatedAt.Str?
    case EstimatedTokensField => !item.estimatedTokens.Num? || item.estimatedTokens.n < 0
    case Metadata => !item.metadata.Obj?
  }

  lemma NonBlankExactly(v: Json)
    ensures NonBlank(v) <==> Written(v)
  {
    if v.Str? {
      StripFacts(v.s);
    }
  }

  lemma PolicyNamesExactly(v: Json)
    ensures RenderingPolicyOk(v) <==>
              v.Str? && Strip(v.s) in {"inline_notice", "bounded_context_block", "cite_only", "hidden_from_prompt"}
  {
  }

  ghost function HeadFields(id: bool, contract: bool, content: bool, kind: bool, trust: bool, policy: bool)
    : seq<ItemField>
  {
    (if id then [] else [Id]) + (if contract then [] else [SourceContractId]) + (if content then [] else [Content])
    + (if kind then [] else [ContentType]) + (if trust then [] else [TrustLevel])
    + (if policy then [] else [RenderingPolicy])
  }

  lemma HeadListed(id: bool, contract: bool, content: bool, kind: bool, trust: bool, policy: bool, f: ItemField)
    ensures f in HeadFields(id, contract, content, kind, trust, policy) <==>
              || (f == Id && !id) || (f == SourceContractId && !contract) || (f == Content && !content)
              || (f == ContentType && !kind) || (f == TrustLevel && !trust) || (f == RenderingPolicy && !policy)
  {
  }

  lemma AllListed(head: seq<ItemField>, provenance: seq<ItemField>, contract: seq<ItemField>, policy: bool,
                  tokens: bool, metadata: bool, f: ItemField)
    ensures f in head + provenance + contract + (if policy then [] else [RenderingPolicy])
                 + (if tokens then [] else [EstimatedTokensField]) + (if metadata then [] else [Metadata]) <==>
              || f in head || f in provenance || f in contract || (f == RenderingPolicy && !policy)
              || (f == EstimatedTokensField && !tokens) || (f == Metadata && !metadata)
  {
  }

  ghost function Head(item: ResolvedItem): seq<ItemField> {
    HeadFields(NonBlank(item.id), NonBlank(item.sourceContractId), NonBlank(item.content),
               NonBlank(item.contentType), NonBlank(item.trustLevel), NonBlank(item.renderingPolicy))
  }

  lemma PartsListed(item: ResolvedItem, f: ItemField)
    ensures f in InvalidFieldsOf(item) <==>
              || f in Head(item) || f in ProvenanceErrors(item.provenance) || f in SourceContractErrors(item)
              || (f == RenderingPolicy && !RenderingPolicyOk(item.renderingPolicy))
              || (f == EstimatedTokensField && !(item.estimatedTokens.Num? && item.estimatedTokens.n >= 0))
              || (f == Metadata && !item.metadata.Obj?)
  {
    AllListed(Head(item), ProvenanceErrors(item.provenance), SourceContractErrors(item),
              RenderingPolicyOk(item.renderingPolicy), item.estimatedTokens.Num? && item.estimatedTokens.n >= 0,
              item.metadata.Obj?, f);
  }

  lemma HeadWrong(item: ResolvedItem, f: ItemField)
    ensures f in Head(item) <==>
              || (f == Id && !Written(item.id)) || (f == SourceContractId && !Written(item.sourceContractId))
              || (f == Content && !Written(item.content)) || (f == ContentType && !Written(item.contentType))
              || (f == TrustLevel && !Written(item.trustLevel)) || (f == RenderingPolicy && !Written(item.renderingPolicy))
  {
    NonBlankExactly(item.id);
    NonBlankExactly(item.sourceContractId);
    NonBlankExactly(item.content);
    NonBlankExactly(item.contentType);
    NonBlankExactly(item.trustLevel);
    NonBlankExactly(item.renderingPolicy);
    HeadListed(NonBlank(item.id), NonBlank(item.sourceContractId), NonBlank(item.content),
               NonBlank(item.contentType), NonBlank(item.trustLevel), NonBlank(item.renderingPolicy), f);
  }

  predicate OfProvenance(f: ItemField) {
    || f.ProvenanceField? || f.ProvenanceSourceContractId? || f.RetrievalExecuted? || f.Attribution?
    || f.GeneratedAt?
  }

  lemma ProvenanceWrong(item: ResolvedItem, f: ItemField)
    ensures f in ProvenanceErrors(item.provenance) <==> OfProvenance(f) && Wrong(item, f)
    ensures f in SourceContractErrors(item) <==>
              || (f == ProvenanceField && item.provenance.None?)
              || (f == SourceContractId && item.provenance.Some?
                  && item.provenance.value.sourceContractId != item.sourceContractId)
  {
    if item.provenance.Some? {
      NonBlankExactly(item.provenance.value.sourceContractId);
      NonBlankExactly(item.provenance.value.attribution);
    }
  }

  /** The validator reports exactly the fields that are wrong. */
  lemma FieldsReportedExactly(item: ResolvedItem, f: ItemField)
    ensures f in InvalidFieldsOf(item) <==> Wrong(item, f)
  {
    PartsListed(item, f);
    HeadWrong(item, f);
    ProvenanceWrong(item, f);
    if f == RenderingPolicy {
      PolicyNamesExactly(item.renderingPolicy);
      NonBlankExactly(item.renderingPolicy);
    }
  }

  // The adapter's list, where `None` stands for an object of another type.
  type AdapterItems = seq<Option<ResolvedItem>>

  /** What a candidate costs, if it is an item that passes validation. */
  function Cost(item: Option<ResolvedItem>): (r: Option<nat>)
    ensures r.Some? <==> item.Some? && Valid(item.value)
    ensures r.Some? ==> item.value.estimatedTokens == Num(r.value)
  {
    if item.Some? && Valid(item.value) then Some(item.value.estimatedTokens.n) else None
  }

  function Costs(items: AdapterItems): seq<Option<nat>> {
    seq(|items|, i requires 0 <= i < |items| => Cost(items[i]))
  }

  /** What `validate_context_item_collection` returns. */
  function CollectionOf(items: AdapterItems, maxItems: int, maxTokens: int): AdapterItems {
    if maxItems <= 0 || maxTokens <= 0 then []
    else ItemsAt(items, Taken(Costs(items), |items|, maxItems, maxTokens))
  }

  /** `validate_context_item_collection`. */
  method ValidateContextItemCollection(items: AdapterItems, maxItems: int, maxTokens: int)
    returns (accepted: AdapterItems)
    ensures accepted == CollectionOf(items, maxItems, maxTokens)
  {
    accepted := [];
    if maxItems > 0 && maxTokens > 0 {
      accepted := SelectGreedily(items, Costs(items), maxItems, maxTokens);
    }
  }

  /**
   The collection is a subsequence of the valid items within both limits; item `i` is
   accepted exactly when it is valid, the cap was not yet reached, and it fits.
   */
  lemma CollectionExact(items: AdapterItems, maxItems: int, maxTokens: int, i: nat)
    requires maxItems > 0 && maxTokens > 0 && i < |items|
    ensures var costs := Costs(items);
            var all := Taken(costs, |items|, maxItems, maxTokens);
            var before := Taken(costs, i, maxItems, maxTokens);
            && CollectionOf(items, maxItems, maxTokens) == ItemsAt(items, all)
            && |all| <= maxItems && Sum(CostsAt(costs, all)) <= maxTokens
            && (i in all <==>
                  && items[i].Some? && Valid(items[i].value)
                  && |before| < maxItems
                  && Sum(CostsAt(costs, before)) + items[i].value.estimatedTokens.n <= maxTokens)
  {
    GreedyExact(Costs(items), maxItems, maxTokens, i);
    assert Costs(items)[i] == Cost(items[i]);
  }

  /** One valid item within the token limit is accepted as it is. */
  lemma SingleItemAccepted(item: Option<ResolvedItem>, cost: nat, maxItems: int, maxTokens: int)
    requires Cost(item) == Some(cost) && maxItems > 0 && 0 < maxTokens && cost <= maxTokens
    ensures CollectionOf([item], maxItems, maxTokens) == [item]
  {
    assert Costs([item]) == [Some(cost)];
    SingleTaken(cost, maxItems, maxTokens);
  }
}
