/**
 Executing a search provider and recording a receipt for whatever it does
 (runtime/adapters/external_search_provider_execution.py).
 */
module ProviderExecution {
  import opened ExecutionReceipt
  import opened JsonValues
  import opened ReceiptBuilder
  import opened RetrievalLineage
  import opened Sequences
  import opened Text
  import opened Validation
  import opened Wrappers

  datatype Config = Config(providerId: string, providerType: string, mode: string, enabled: bool, live: bool,
                           maxResults: int, timeoutMs: int, costAllowed: bool)

  /** The adapter request; a policy dictionary that was not given is `Null`. */
  datatype AdapterRequest = AdapterRequest(searchId: Json, query: string, maxResults: Json, freshness: Json,
                                           source: Json, bounds: Json)

  datatype ProviderRequest = ProviderRequest(searchId: Json, query: string, maxResults: nat, freshness: Json,
                                             source: Json, bounds: Json)

  /** What a call to the provider can do. */
  datatype Reply = Raised(errorClass: string) | Returned(response: Json)

  /** A provider with arbitrary behaviour, which may depend on all calls so far. */
  class Provider {
    const providerId: Json
    const providerType: Json
    const behaviour: seq<ProviderRequest> -> Reply
    var calls: seq<ProviderRequest>

    constructor (providerId: Json, providerType: Json, behaviour: seq<ProviderRequest> -> Reply)
      ensures this.providerId == providerId && this.providerType == providerType && this.behaviour == behaviour
      ensures calls == []
    {
      this.providerId, this.providerType, this.behaviour, calls := providerId, providerType, behaviour, [];
    }

    method Execute(request: ProviderRequest) returns (reply: Reply)
      modifies this
      ensures calls == old(calls) + [request]
      ensures reply == behaviour(calls)
    {
      calls := calls + [request];
      reply := behaviour(calls);
    }
  }

  function Smaller(a: int, b: int): int {
    if a < b then a else b
  }

  /** The requested maximum: the request's own, else that of its result bounds. */
  function RequestedMax(r: AdapterRequest): Json {
    if r.maxResults != Null || !r.bounds.Obj? then r.maxResults
    else
      var bounded := Get(r.bounds, "max_results");
      if bounded.Num? || bounded.Bool? then bounded else Null
  }

  /** `_normalize_provider_request`: the request with its maximum clamped. */
  function NormalizeRequest(r: AdapterRequest, contractMax: int, config: Option<Config>): (n: ProviderRequest)
    ensures n.maxResults >= 1
    ensures config.Some? && contractMax >= 1 && config.value.maxResults >= 1 ==>
              n.maxResults <= contractMax && n.maxResults <= config.value.maxResults
  {
    var configMax := if config.Some? then config.value.maxResults else contractMax;
    var most := Smaller(contractMax, configMax);
    var requested := if PositiveRequest(RequestedMax(r)) then RequestedMax(r).n else most;
    var clamped := Smaller(requested, most);
    ProviderRequest(r.searchId, Strip(r.query), if clamped < 1 then 1 else clamped, r.freshness, r.source, r.bounds)
  }

  predicate PositiveRequest(v: Json) {
    v.Num? && v.n >= 1
  }

  /** One accepted result. */
  datatype Result = Result(resultId: string, providerId: string, title: string, url: string,
                           snippet: Option<string>, publishedAt: Option<string>)

  datatype Response = Response(raw: seq<Result>, refs: seq<Json>, citations: seq<Json>, rejected: seq<nat>,
                               lineage: seq<Lineage>)

  /** `_response_items`. */
  function ResponseItems(response: Json): seq<Json> {
    var results := if response.Obj? then Get(response, "results") else response;
    if results.Arr? && results.isList then results.items else []
  }

  function FirstText(a: Option<string>, b: Option<string>): Option<string> {
    if a.Some? then a else b
  }

  /** `_normalize_result_item`: `None` when the url or the title is missing. */
  function NormalizeItem(item: Json, providerId: string, index: nat): Option<Result> {
    var url, title := SafeText(Get(item, "url")), SafeText(Get(item, "title"));
    if !item.Obj? || url.None? || title.None? then None
    else
      var own := FirstText(SafeText(Get(item, "provider_result_id")), SafeText(Get(item, "id")));
      Some(Result(
        if own.Some? then own.value else providerId + "-" + Decimal(index + 1), providerId, title.value, url.value,
        FirstText(SafeText(Get(item, "snippet")), SafeText(Get(item, "content"))),
        SafeText(Get(item, "published_at"))))
  }

  function Reference(r: Result): Json {
    Obj([Field("provider_result_id", Str(r.resultId)), Field("url", Str(r.url)), Field("title", Str(r.title))])
  }

  function LineageOf(r: Result, providerId: string, index: nat): Lineage {
    BuildLineage(Str(providerId), Str(r.resultId), index,
                 Str("provider_response.results[" + Decimal(index) + "]"), Reference(r), Reference(r))
  }

  function Extended(r: Response, item: Json, providerId: string, index: nat): Response {
    var result := NormalizeItem(item, providerId, index);
    if result.None? then r.(rejected := r.rejected + [index])
    else
      Response(r.raw + [result.value], r.refs + [Reference(result.value)], r.citations + [Reference(result.value)],
               r.rejected, r.lineage + [LineageOf(result.value, providerId, index)])
  }

  function NormalizeItems(items: seq<Json>, providerId: string): Response {
    if items == [] then Response([], [], [], [], [])
    else
      var n := |items| - 1;
      Extended(NormalizeItems(items[..n], providerId), items[n], providerId, n)
  }

  function First(items: seq<Json>, count: nat): seq<Json> {
    if |items| < count then items else items[..count]
  }

  /** What `normalize_external_search_provider_response` returns. */
  function NormalizeResponse(response: Json, providerId: string, maxResults: nat): Response {
    NormalizeItems(First(ResponseItems(response), maxResults), providerId)
  }

  method Normalize(response: Json, providerId: string, maxResults: nat) returns (r: Response)
    ensures r == NormalizeResponse(response, providerId, maxResults)
  {
    var items := First(ResponseItems(response), maxResults);
    r := Response([], [], [], [], []);
    for index := 0 to |items|
      invariant r == NormalizeItems(items[..index], providerId)
    {
      assert items[..index + 1][..index] == items[..index];
      r := Extended(r, items[index], providerId, index);
    }
    assert items[..|items|] == items;
  }

  function IndexOf(l: Lineage): int {
    if l.Lineage? && l.rawIndex.Num? then l.rawIndex.n else -1
  }

  /** An accepted lineage item that names the result and its place among the first `count`. */
  ghost predicate Traces(l: Lineage, r: Result, count: nat) {
    GoodItem(l) && l.resultId == Str(Strip(r.resultId)) && 0 <= IndexOf(l) < count
  }

  /** The lists of a response run in parallel, and every item of the reply is kept or rejected. */
  ghost predicate Aligned(r: Response, count: nat) {
    && |r.raw| == |r.refs| == |r.citations| == |r.lineage| && |r.raw| + |r.rejected| == count
    && (forall i :: 0 <= i < |r.raw| ==> r.refs[i] == Reference(r.raw[i]) && r.citations[i] == Reference(r.raw[i]))
    && (forall i :: 0 <= i < |r.raw| ==> Traces(r.lineage[i], r.raw[i], count))
    && (forall i, j :: 0 <= i < j < |r.raw| ==> IndexOf(r.lineage[i]) < IndexOf(r.lineage[j]))
    && forall i :: 0 <= i < |r.rejected| ==> r.rejected[i] < count
  }

  lemma ResultIdNotBlank(item: Json, providerId: string, index: nat)
    requires NormalizeItem(item, providerId, index).Some?
    ensures !Blank(NormalizeItem(item, providerId, index).value.resultId)
  {
    var id := NormalizeItem(item, providerId, index).value.resultId;
    SafeTextNotBlank(Get(item, "provider_result_id"));
    SafeTextNotBlank(Get(item, "id"));
    var fallback := providerId + "-" + Decimal(index + 1);
    NotBlankAt(fallback, |providerId|);
  }

  lemma LineageGood(item: Json, providerId: string, index: nat)
    requires NormalizeItem(item, providerId, index).Some? && !Blank(providerId)
    ensures var r := NormalizeItem(item, providerId, index).value;
            && GoodItem(LineageOf(r, providerId, index))
            && LineageOf(r, providerId, index).resultId == Str(Strip(r.resultId))
  {
    var r := NormalizeItem(item, providerId, index).value;
    var rawRef := "provider_response.results[" + Decimal(index) + "]";
    ResultIdNotBlank(item, providerId, index);
    NotBlankAt(rawRef, 0);
    BuiltItemExact(Str(providerId), Str(r.resultId), index, Str(rawRef), Reference(r), Reference(r));
  }

  lemma TracesFurther(l: Lineage, r: Result, count: nat)
    requires Traces(l, r, count)
    ensures Traces(l, r, count + 1)
  {
  }

  lemma RejectedStaysAligned(r: Response, count: nat)
    requires Aligned(r, count)
    ensures Aligned(r.(rejected := r.rejected + [count]), count + 1)
  {
    forall i | 0 <= i < |r.raw| ensures Traces(r.lineage[i], r.raw[i], count + 1) {
      TracesFurther(r.lineage[i], r.raw[i], count);
    }
  }

  lemma AcceptedStaysAligned(r: Response, count: nat, result: Result, lineage: Lineage)
    requires Aligned(r, count) && Traces(lineage, result, count + 1) && IndexOf(lineage) == count
    ensures Aligned(Response(r.raw + [result], r.refs + [Reference(result)], r.citations + [Reference(result)],
                             r.rejected, r.lineage + [lineage]), count + 1)
  {
    forall i | 0 <= i < |r.raw| ensures Traces(r.lineage[i], r.raw[i], count + 1) {
      TracesFurther(r.lineage[i], r.raw[i], count);
    }
  }

  /** Normalisation keeps results, references, citations and lineage in step. */
  lemma {:induction false} ItemsAligned(items: seq<Json>, providerId: string)
    requires !Blank(providerId)
    ensures Aligned(NormalizeItems(items, providerId), |items|)
  {
    if items != [] {
      var n := |items| - 1;
      var before := NormalizeItems(items[..n], providerId);
      ItemsAligned(items[..n], providerId);
      var result := NormalizeItem(items[n], providerId, n);
      if result.Some? {
        LineageGood(items[n], providerId, n);
        AcceptedStaysAligned(before, n, result.value, LineageOf(result.value, providerId, n));
      } else {
        RejectedStaysAligned(before, n);
      }
    }
  }

  /** A response never holds more results than asked for, and all of them can be traced. */
  lemma ResponseAligned(response: Json, providerId: string, maxResults: nat)
    requires !Blank(providerId)
    ensures var r := NormalizeResponse(response, providerId, maxResults);
            && Aligned(r, |First(ResponseItems(response), maxResults)|)
            && |r.raw| <= maxResults
  {
    ItemsAligned(First(ResponseItems(response), maxResults), providerId);
  }

  /** The dry-run decision: whether execution may go on, and why not. */
  datatype DryRun = DryRun(allowed: bool, reason: string)

  /** The authorization decision: its audit record and its reasons against live execution. */
  datatype Authorization = Authorization(record: Json, liveReasons: seq<string>)

  /** Wall-clock readings of one execution. */
  datatype Clock = Clock(started: nat, completed: nat, created: nat, durationMs: int)

  /** Everything an execution is given besides the provider. */
  datatype Context = Context(request: AdapterRequest, providerId: string, config: Option<Config>,
                             authorization: Authorization, requestErrors: seq<string>, dryRun: DryRun,
                             contractMax: int, clock: Clock)

  const MODE_ALLOWED := "allowed"

  function Reason(applies: bool, reason: string): seq<string> {
    if applies then [reason] else []
  }

  function ConfigReasons(config: Option<Config>, providerId: string): seq<string> {
    if config.None? then ["missing_provider_execution_config"]
    else
      Reason(config.value.providerId != providerId, "provider_config_id_mismatch")
      + Reason(!config.value.enabled, "provider_execution_config_disabled")
      + Reason(config.value.mode != MODE_ALLOWED, "provider_execution_mode_not_allowed")
      + Reason(!config.value.live, "provider_config_disallows_live_execution")
      + Reason(!config.value.costAllowed, "provider_config_disallows_cost")
  }

  function AllReasons(c: Context, actualId: Json): seq<string> {
    Reason(!c.dryRun.allowed, if c.dryRun.reason == "" then "blocked_by_dry_run" else c.dryRun.reason)
    + Reason(c.requestErrors != [], "invalid_external_search_request")
    + ConfigReasons(c.config, c.providerId)
    + Reason(SafeText(actualId) != Some(c.providerId), "provider_id_mismatch")
    + c.authorization.liveReasons
  }

  /** `_execution_disabled_reasons`. */
  function DisabledReasons(c: Context, actualId: Json): seq<string> {
    OnceEach(AllReasons(c, actualId))
  }

  predicate ConfigReady(config: Option<Config>, providerId: string) {
    && config.Some? && config.value.providerId == providerId && config.value.enabled
    && config.value.mode == MODE_ALLOWED && config.value.live && config.value.costAllowed
  }

  /** Everything is in place for a live call. */
  predicate Ready(c: Context, actualId: Json) {
    && c.dryRun.allowed && c.requestErrors == [] && ConfigReady(c.config, c.providerId)
    && SafeText(actualId) == Some(c.providerId) && c.authorization.liveReasons == []
  }

  lemma SameEmpty(a: seq<string>, b: seq<string>)
    requires forall x :: x in a <==> x in b
    ensures a == [] <==> b == []
  {
    assert a != [] ==> a[0] in b;
    assert b != [] ==> b[0] in a;
  }

  /** There is no reason against execution exactly when everything is in place. */
  lemma DisabledExactly(c: Context, actualId: Json)
    ensures DisabledReasons(c, actualId) == [] <==> Ready(c, actualId)
  {
    OnceEachInOrder(AllReasons(c, actualId));
    SameEmpty(DisabledReasons(c, actualId), AllReasons(c, actualId));
    assert |AllReasons(c, actualId)|
        == |Reason(!c.dryRun.allowed, if c.dryRun.reason == "" then "blocked_by_dry_run" else c.dryRun.reason)|
           + |Reason(c.requestErrors != [], "invalid_external_search_request")|
           + |ConfigReasons(c.config, c.providerId)|
           + |Reason(SafeText(actualId) != Some(c.providerId), "provider_id_mismatch")|
           + |c.authorization.liveReasons|;
    assert ConfigReasons(c.config, c.providerId) == [] <==> ConfigReady(c.config, c.providerId);
  }

  /** The result of an execution; `reply` is `None` when the provider was not called. */
  datatype Execution = Execution(status: string, called: bool, response: Option<Response>, error: Option<string>,
                                 disabled: seq<string>)

  function Describe(c: Context, actualId: Json, reply: Option<Reply>): Execution {
    match reply
    case None => Execution(DISABLED, false, None, None, DisabledReasons(c, actualId))
    case Some(Raised(errorClass)) => Execution(FAILED, true, None, Some(errorClass), [])
    case Some(Returned(response)) =>
      var r := NormalizeResponse(response, c.providerId,
                                 NormalizeRequest(c.request, c.contractMax, c.config).maxResults);
      if r.raw == [] then Execution(FAILED, true, Some(r), Some("ExternalSearchProviderNormalizationError"), [])
      else Execution(COMPLETED, true, Some(r), None, [])
  }

  function Stamp(time: nat): string {
    Decimal(time) + "Z"
  }

  /** `_receipt_result_metadata`. */
  function ResultCounts(e: Execution): Counts {
    if e.response.None? then Counts(Num(0), Num(0), Num(0), Num(0), [])
    else Counts(Num(|e.response.value.raw|), Num(|e.response.value.refs|), Num(|e.response.value.citations|),
                Num(|e.response.value.rejected|), [])
  }

  /** `_receipt_failure`. */
  function ReceiptFailure(c: Context, e: Execution): Failure {
    Failure(Bool(e.status == DISABLED || e.status == FAILED),
            TextItemsOf(OnceEach(e.disabled + c.requestErrors)),
            if e.error.Some? then Str(e.error.value) else Null, [])
  }

  function TextItemsOf(texts: seq<string>): Json {
    Arr(true, seq(|texts|, i requires 0 <= i < |texts| => Str(texts[i])))
  }

  function ReceiptBounds(c: Context): Bounds {
    Bounds(RequestedMax(c.request), Num(NormalizeRequest(c.request, c.contractMax, c.config).maxResults),
           if c.config.Some? then Num(c.config.value.timeoutMs) else Null,
           Bool(c.request.freshness != Null), Bool(c.request.source != Null), Bool(c.request.bounds != Null),
           [])
  }

  /** What `_with_execution_receipt` hands to the receipt builder. */
  function DraftFor(c: Context, providerType: Json, e: Execution): Draft {
    Draft(c.request.searchId, c.request.searchId, Str(c.providerId),
          if c.config.Some? then Str(c.config.value.providerType) else TextOrNull(SafeText(providerType)),
          c.authorization.record, Str(e.status), e.called, e.called, false,
          Timing(Str(Stamp(c.clock.started)), Str(Stamp(c.clock.completed)),
                 Num(if c.clock.durationMs < 0 then 0 else c.clock.durationMs), []),
          ReceiptBounds(c), ResultCounts(e), ReceiptFailure(c, e), Null, Stamp(c.clock.created))
  }

  lemma StampNotBlank(time: nat)
    ensures HasText(Str(Stamp(time)))
  {
    NotBlankAt(Stamp(time), |Stamp(time)| - 1);
  }

  lemma StatusNotBlank(e: Execution)
    requires e.status in ALLOWED_EXECUTION_STATES
    ensures HasText(Str(e.status)) && Strip(e.status) == e.status
  {
    NotBlankAt(e.status, 0);
    StripFacts(e.status);
  }

  lemma DraftAcceptable(c: Context, providerType: Json, e: Execution)
    requires e.status in ALLOWED_EXECUTION_STATES
    ensures Acceptable(DraftFor(c, providerType, e)) <==>
              Recordable(c.authorization.record) && (e.status == FAILED ==> e.error.Some? && !Blank(e.error.value))
  {
    StatusNotBlank(e);
    StampNotBlank(c.clock.started);
    StampNotBlank(c.clock.completed);
  }

  lemma DraftBuilt(c: Context, providerType: Json, e: Execution)
    requires e.status in ALLOWED_EXECUTION_STATES
    ensures BuildReceipt(DraftFor(c, providerType, e)).Some? <==> HasText(c.request.searchId)
  {
    StatusNotBlank(e);
  }

  /** Only a raised error can leave a failed execution without a readable error class. */
  lemma DescribedError(c: Context, actualId: Json, reply: Option<Reply>)
    ensures var e := Describe(c, actualId, reply);
            && e.status in ALLOWED_EXECUTION_STATES
            && ((e.status == FAILED ==> e.error.Some? && !Blank(e.error.value)) <==>
                  (reply.Some? && reply.value.Raised? ==> !Blank(reply.value.errorClass)))
  {
    NotBlankAt("ExternalSearchProviderNormalizationError", 0);
  }

  /**
   Whatever the provider does, or if it is not called, the receipt is built for a nonblank
   search id, and its validator accepts it exactly when the authorization record has the
   required keys and hides no forbidden key, and a raised error has a nonblank class name.
   */
  lemma EveryOutcomeReceipted(c: Context, actualId: Json, providerType: Json, reply: Option<Reply>)
    ensures var built := BuildReceipt(DraftFor(c, providerType, Describe(c, actualId, reply)));
            && (built.Some? <==> HasText(c.request.searchId))
            && (built.Some? ==>
                  (ReceiptProblems(built.value) == [] <==>
                     Recordable(c.authorization.record)
                     && (reply.Some? && reply.value.Raised? ==> !Blank(reply.value.errorClass))))
  {
    var e := Describe(c, actualId, reply);
    DescribedError(c, actualId, reply);
    DraftBuilt(c, providerType, e);
    DraftAcceptable(c, providerType, e);
    if HasText(c.request.searchId) {
      BuiltReceiptExact(DraftFor(c, providerType, e));
    }
  }

  /**
   `execute_external_search_provider`: the provider is called once, with the clamped request,
   exactly when nothing speaks against it; the receipt is `None` for a blank search id.
   */
  method ExecuteProvider(c: Context, provider: Provider) returns (e: Execution, receipt: Option<Receipt>)
    modifies provider
    ensures provider.calls == old(provider.calls)
              + if Ready(c, provider.providerId) then [NormalizeRequest(c.request, c.contractMax, c.config)] else []
    ensures e == Describe(c, provider.providerId,
                          if Ready(c, provider.providerId) then Some(provider.behaviour(provider.calls)) else None)
    ensures receipt == BuildReceipt(DraftFor(c, provider.providerType, e))
  {
    DisabledExactly(c, provider.providerId);
    if DisabledReasons(c, provider.providerId) != [] {
      e := Describe(c, provider.providerId, None);
    } else {
      var request := NormalizeRequest(c.request, c.contractMax, c.config);
      var reply := provider.Execute(request);
      match reply
      case Raised(errorClass) => e := Execution(FAILED, true, None, Some(errorClass), []);
      case Returned(response) =>
        var r := Normalize(response, c.providerId, request.maxResults);
        if r.raw == [] {
          e := Execution(FAILED, true, Some(r), Some("ExternalSearchProviderNormalizationError"), []);
        } else {
          e := Execution(COMPLETED, true, Some(r), None, []);
        }
    }
    receipt := BuildReceipt(DraftFor(c, provider.providerType, e));
  }
}
