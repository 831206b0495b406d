/** What an execution and its receipt say about what the provider did. */
module ProviderReceipts {
  import opened ExecutionReceipt
  import opened JsonValues
  import opened ProviderExecution
  import opened ProviderResults
  import opened ReceiptBuilder
  import opened Sequences
  import opened Text
  import opened Validation
  import opened ValidatorSupport
  import opened Wrappers

  /** The limits that apply to a request: those of the contract and the configuration, and its own. */
  ghost function Caps(r: AdapterRequest, contractMax: int, config: Option<Config>): set<int> {
    {contractMax} + (if config.Some? then {config.value.maxResults} else {})
    + (if Asked(r).Num? && Asked(r).n >= 1 then {Asked(r).n} else {})
  }

  /** The maximum a request asks for: its own, or else a number or boolean among its result bounds. */
  ghost function Asked(r: AdapterRequest): Json {
    if r.maxResults != Null then r.maxResults
    else if r.bounds.Obj? && (Get(r.bounds, "max_results").Num? || Get(r.bounds, "max_results").Bool?)
    then Get(r.bounds, "max_results")
    else Null
  }

  /**
   The request a provider gets: the stripped query, the policies as they are, and the least of
   the limits that apply, but one at least.
   */
  lemma RequestExactly(r: AdapterRequest, contractMax: int, config: Option<Config>)
    ensures var n, caps := NormalizeRequest(r, contractMax, config), Caps(r, contractMax, config);
            && n.searchId == r.searchId && n.query == Strip(r.query) && n.freshness == r.freshness
            && n.source == r.source && n.bounds == r.bounds
            && n.maxResults >= 1 && (n.maxResults in caps || (n.maxResults == 1 && exists c :: c in caps && c < 1))
            && forall c :: c in caps && c >= 1 ==> n.maxResults <= c
  {
    assert contractMax in Caps(r, contractMax, config);
  }

  ghost predicate SomeUsable(items: seq<Json>) {
    exists k :: 0 <= k < |items| && Usable(items[k])
  }

  lemma KeptSome(r: Response, items: seq<Json>, providerId: string, kept: seq<nat>)
    requires Sorted(r, items, providerId, kept)
    ensures r.raw != [] <==> SomeUsable(items)
  {
    if r.raw != [] {
      assert kept[0] in kept;
    }
    if k :| 0 <= k < |items| && Usable(items[k]) {
      var n: nat := k;
      assert n in kept;
    }
  }

  /** How an execution ended. */
  ghost predicate Ended(e: Execution, status: string, called: bool, error: Option<string>) {
    e.status == status && e.called == called && e.error == error
  }

  /**
   How an execution is described: not called, with the reasons; called and raised, with the
   class of the error; called and answered, which counts as completed exactly when one of the
   items considered is usable.
   */
  lemma DescribedExactly(c: Context, actualId: Json, reply: Option<Reply>)
    ensures var e := Describe(c, actualId, reply);
            match reply
            case None =>
              Ended(e, "provider_execution_disabled", false, None) && e.response == None
              && e.disabled == DisabledReasons(c, actualId)
            case Some(Raised(errorClass)) =>
              Ended(e, "provider_execution_failed", true, Some(errorClass)) && e.response == None && e.disabled == []
            case Some(Returned(response)) =>
              var most := NormalizeRequest(c.request, c.contractMax, c.config).maxResults;
              && e.response == Some(NormalizeResponse(response, c.providerId, most)) && e.disabled == []
              && if SomeUsable(Considered(response, most))
                 then Ended(e, "provider_execution_completed", true, None)
                 else Ended(e, "provider_execution_failed", true, Some("ExternalSearchProviderNormalizationError"))
  {
    if reply.Some? && reply.value.Returned? {
      var most := NormalizeRequest(c.request, c.contractMax, c.config).maxResults;
      var kept := ResponseExactly(reply.value.response, c.providerId, most);
      KeptSome(NormalizeResponse(reply.value.response, c.providerId, most), Considered(reply.value.response, most),
               c.providerId, kept);
    }
  }

  /** Which reason is given for which closed gate. */
  ghost predicate Gives(c: Context, actualId: Json, reason: string) {
    || (!c.dryRun.allowed && reason == (if c.dryRun.reason == "" then "blocked_by_dry_run" else c.dryRun.reason))
    || (c.requestErrors != [] && reason == "invalid_external_search_request")
    || (c.config.None? && reason == "missing_provider_execution_config")
    || (c.config.Some? && ConfigGives(c.config.value, c.providerId, reason))
    || (SafeText(actualId) != Some(c.providerId) && reason == "provider_id_mismatch")
    || reason in c.authorization.liveReasons
  }

  ghost predicate ConfigGives(config: Config, providerId: string, reason: string) {
    || (config.providerId != providerId && reason == "provider_config_id_mismatch")
    || (!config.enabled && reason == "provider_execution_config_disabled")
    || (config.mode != "allowed" && reason == "provider_execution_mode_not_allowed")
    || (!config.live && reason == "provider_config_disallows_live_execution")
    || (!config.costAllowed && reason == "provider_config_disallows_cost")
  }

  lemma ConfigReasonsExactly(config: Option<Config>, providerId: string, reason: string)
    ensures reason in ConfigReasons(config, providerId) <==>
              if config.None? then reason == "missing_provider_execution_config"
              else ConfigGives(config.value, providerId, reason)
  {
  }

  /** Every closed gate gives its reason, each reason once, and nothing else does. */
  lemma ReasonsExactly(c: Context, actualId: Json, reason: string)
    ensures reason in DisabledReasons(c, actualId) <==> Gives(c, actualId, reason)
    ensures NoDuplicates(DisabledReasons(c, actualId))
  {
    OnceEachInOrder(AllReasons(c, actualId));
    ConfigReasonsExactly(c.config, c.providerId, reason);
  }

  /** A natural number as it is, and nothing for any other value. */
  ghost function NumberIn(v: Json): Json {
    if v.Num? && v.n >= 0 then v else Null
  }

  /** The receipt names the search, the provider and the state, and whether the provider was called. */
  ghost predicate Identifies(r: Receipt, search: string, provider: Option<string>, created: string, e: Execution) {
    && r.Receipt? && r.searchId == Str(search) && r.requestId == Str(search) && r.providerId == TextOrNull(provider)
    && r.state == Str(e.status)
    && r.performed == Bool(e.called) && r.externalCall == Bool(e.called) && r.cost == Bool(false)
    && r.resultRef == Null && r.createdAt == Str(created)
    && r.receiptId == Str("external-search-execution:" + search + ":"
                          + (if provider.Some? then provider.value else "provider-unknown") + ":" + created)
    && r.receiptRef == Str("receipt:" + r.receiptId.s)
  }

  /** The parts of a built receipt. */
  lemma BuiltParts(d: Draft)
    requires BuildReceipt(d).Some?
    ensures var r := BuildReceipt(d).value;
            && r.Receipt? && r.providerType == TextOrNull(SafeText(d.providerType))
            && r.requestId == TextOrNull(SafeText(d.requestId)) && r.searchId == TextOrNull(SafeText(d.searchId))
            && r.timing == SafeTiming(d.timing) && r.bounds == SafeBounds(d.bounds)
            && r.counts == SafeCounts(d.counts) && r.failure == SafeFailure(d.failure)
  {
  }

  lemma BuiltHead(d: Draft, search: string, provider: Option<string>, state: string)
    requires SafeText(d.requestId) == Some(search) && d.searchId == d.requestId && SafeText(d.providerId) == provider
    requires SafeText(d.state) == Some(state)
    ensures BuildReceipt(d).Some?
    ensures var r := BuildReceipt(d).value;
            && r.Receipt? && r.searchId == Str(search) && r.requestId == Str(search)
            && r.providerId == TextOrNull(provider) && r.state == Str(state)
            && r.performed == Bool(d.performed) && r.externalCall == Bool(d.externalCall) && r.cost == Bool(d.cost)
            && r.resultRef == TextOrNull(SafeText(d.resultRef)) && r.createdAt == Str(d.created)
            && r.receiptId == Str("external-search-execution:" + search + ":"
                                  + (if provider.Some? then provider.value else "provider-unknown") + ":" + d.created)
            && r.receiptRef == Str("receipt:" + r.receiptId.s)
  {
  }

  lemma DraftIdentifies(d: Draft, search: string, provider: Option<string>, e: Execution)
    requires SafeText(d.requestId) == Some(search) && d.searchId == d.requestId && SafeText(d.providerId) == provider
    requires SafeText(d.state) == Some(e.status)
    requires d.performed == e.called && d.externalCall == e.called && !d.cost && d.resultRef == Null
    ensures BuildReceipt(d).Some? && Identifies(BuildReceipt(d).value, search, provider, d.created, e)
  {
    BuiltHead(d, search, provider, e.status);
  }

  lemma ReceiptIdentifies(c: Context, providerType: Json, e: Execution)
    requires HasText(c.request.searchId) && e.status in ALLOWED_EXECUTION_STATES
    ensures BuildReceipt(DraftFor(c, providerType, e)).Some?
    ensures Identifies(BuildReceipt(DraftFor(c, providerType, e)).value, SafeText(c.request.searchId).value,
                       SafeString(c.providerId), Stamp(c.clock.created), e)
  {
    StatusNotBlank(e);
    DraftIdentifies(DraftFor(c, providerType, e), SafeText(c.request.searchId).value, SafeString(c.providerId), e);
  }

  /** The receipt counts the results, refs, citations and rejected items of the response. */
  ghost predicate Counts(r: Receipt, e: Execution) {
    && r.Receipt? && r.counts.Counts?
    && r.counts.raw == Num(if e.response.Some? then |e.response.value.raw| else 0)
    && r.counts.source == Num(if e.response.Some? then |e.response.value.refs| else 0)
    && r.counts.citation == Num(if e.response.Some? then |e.response.value.citations| else 0)
    && r.counts.rejected == Num(if e.response.Some? then |e.response.value.rejected| else 0)
  }

  /** The receipt says what was asked for, what the provider was asked for, and within which bounds. */
  ghost predicate Bounds(r: Receipt, c: Context) {
    && r.Receipt? && r.bounds.Bounds?
    && r.bounds.requested == NumberIn(Asked(c.request))
    && r.bounds.normalized == Num(NormalizeRequest(c.request, c.contractMax, c.config).maxResults)
    && r.bounds.timeout == (if c.config.Some? then NumberIn(Num(c.config.value.timeoutMs)) else Null)
    && r.bounds.freshness == Bool(c.request.freshness != Null) && r.bounds.source == Bool(c.request.source != Null)
    && r.bounds.result == Bool(c.request.bounds != Null)
  }

  lemma CountsSafe(e: Execution)
    ensures SafeCounts(ResultCounts(e)) == ResultCounts(e)
  {
  }

  lemma ReceiptCounts(c: Context, providerType: Json, e: Execution)
    requires BuildReceipt(DraftFor(c, providerType, e)).Some?
    ensures Counts(BuildReceipt(DraftFor(c, providerType, e)).value, e)
  {
    BuiltParts(DraftFor(c, providerType, e));
    CountsSafe(e);
  }

  lemma ReceiptBounds(c: Context, providerType: Json, e: Execution)
    requires BuildReceipt(DraftFor(c, providerType, e)).Some?
    ensures Bounds(BuildReceipt(DraftFor(c, providerType, e)).value, c)
  {
    BuiltParts(DraftFor(c, providerType, e));
  }

  /** The receipt says when it ran, and in how many milliseconds, none for a clock that went back. */
  ghost predicate Times(r: Receipt, clock: Clock) {
    && r.Receipt? && r.timing.Timing?
    && r.timing.startedAt == Str(Decimal(clock.started) + "Z")
    && r.timing.completedAt == Str(Decimal(clock.completed) + "Z")
    && r.timing.durationMs == Num(if clock.durationMs < 0 then 0 else clock.durationMs)
  }

  lemma DigitNotSpace(c: char)
    requires IsDigit(c) || c == 'Z'
    ensures !IsSpace(c)
  {
  }

  lemma EndsTrimmed(s: string)
    requires s != "" && !IsSpace(s[0]) && !IsSpace(s[|s| - 1])
    ensures SafeText(Str(s)) == Some(s)
  {
    NotBlankAt(s, 0);
    StripFacts(s);
  }

  lemma StampTrimmed(time: nat)
    ensures SafeText(Str(Stamp(time))) == Some(Stamp(time))
  {
    DecimalDigits(time);
    var s := Stamp(time);
    DigitNotSpace(s[0]);
    DigitNotSpace(s[|s| - 1]);
    EndsTrimmed(s);
  }

  lemma ReceiptTimes(c: Context, providerType: Json, e: Execution)
    requires BuildReceipt(DraftFor(c, providerType, e)).Some?
    ensures Times(BuildReceipt(DraftFor(c, providerType, e)).value, c.clock)
  {
    BuiltParts(DraftFor(c, providerType, e));
    StampTrimmed(c.clock.started);
    StampTrimmed(c.clock.completed);
  }

  /** The receipt says whether the execution failed, with the readable reasons and the class of the error. */
  ghost predicate Failed(r: Receipt, c: Context, e: Execution, reasons: seq<string>) {
    && r.Receipt? && r.failure.Failure?
    && r.failure.failed == Bool(e.status != "provider_execution_completed")
    && r.failure.errorClass == (if e.error.Some? then TextOrNull(SafeString(e.error.value)) else Null)
    && r.failure.reasons == Arr(true, seq(|reasons|, i requires 0 <= i < |reasons| => Str(reasons[i])))
  }

  lemma {:induction false} ReasonsStripped(texts: seq<string>, items: seq<Json>)
    requires |items| == |texts| && forall i :: 0 <= i < |texts| ==> items[i] == Str(texts[i])
    ensures var stripped := StrippedTexts(texts);
            SafeReasons(items) == seq(|stripped|, i requires 0 <= i < |stripped| => Str(stripped[i]))
  {
    if texts != [] {
      var n := |texts| - 1;
      ReasonsStripped(texts[..n], items[..n]);
    }
  }

  lemma FailureSafe(c: Context, e: Execution)
    requires e.status in ALLOWED_EXECUTION_STATES
    ensures var f, reasons := SafeFailure(ReceiptFailure(c, e)), StrippedTexts(OnceEach(e.disabled + c.requestErrors));
            && f.Failure? && f.failed == Bool(e.status != "provider_execution_completed")
            && f.errorClass == (if e.error.Some? then TextOrNull(SafeString(e.error.value)) else Null)
            && f.reasons == Arr(true, seq(|reasons|, i requires 0 <= i < |reasons| => Str(reasons[i])))
  {
    var texts := OnceEach(e.disabled + c.requestErrors);
    ReasonsStripped(texts, TextItemsOf(texts).items);
  }

  /** The receipt names the type of the configured provider, or else that of the provider itself. */
  lemma ReceiptNamesType(c: Context, providerType: Json, e: Execution)
    requires BuildReceipt(DraftFor(c, providerType, e)).Some?
    ensures var r := BuildReceipt(DraftFor(c, providerType, e)).value;
            r.Receipt? && r.providerType == if c.config.Some? then TextOrNull(SafeString(c.config.value.providerType))
                                            else TextOrNull(SafeText(providerType))
  {
    BuiltParts(DraftFor(c, providerType, e));
    if c.config.None? && HasText(providerType) {
      SafeTextTwice(providerType);
    }
  }

  lemma SafeTextTwice(v: Json)
    requires HasText(v)
    ensures SafeText(Str(SafeText(v).value)) == SafeText(v)
  {
    SafeTextNotBlank(v);
    StripFacts(v.s);
    StripFacts(Strip(v.s));
  }

  lemma ReceiptFailed(c: Context, providerType: Json, e: Execution)
    requires BuildReceipt(DraftFor(c, providerType, e)).Some? && e.status in ALLOWED_EXECUTION_STATES
    ensures Failed(BuildReceipt(DraftFor(c, providerType, e)).value, c, e,
                   StrippedTexts(OnceEach(e.disabled + c.requestErrors)))
  {
    BuiltParts(DraftFor(c, providerType, e));
    FailureSafe(c, e);
  }

  /**
   A receipt is faithful: for every execution with a readable search id it identifies the search
   and the provider, says whether the provider was called and how it ended, and gives the
   bounds, counts, times, reasons and error of that very execution.
   */
  lemma ReceiptTellsExactly(c: Context, actualId: Json, providerType: Json, reply: Option<Reply>)
    requires HasText(c.request.searchId)
    ensures var e := Describe(c, actualId, reply);
            var built := BuildReceipt(DraftFor(c, providerType, e));
            && built.Some?
            && Identifies(built.value, SafeText(c.request.searchId).value, SafeString(c.providerId),
                          Decimal(c.clock.created) + "Z", e)
            && built.value.providerType
               == (if c.config.Some? then TextOrNull(SafeString(c.config.value.providerType))
                   else TextOrNull(SafeText(providerType)))
            && Counts(built.value, e) && Bounds(built.value, c)
            && Times(built.value, c.clock)
            && Failed(built.value, c, e, StrippedTexts(OnceEach(e.disabled + c.requestErrors)))
  {
    var e := Describe(c, actualId, reply);
    DescribedError(c, actualId, reply);
    ReceiptIdentifies(c, providerType, e);
    ReceiptNamesType(c, providerType, e);
    ReceiptCounts(c, providerType, e);
    ReceiptBounds(c, providerType, e);
    ReceiptTimes(c, providerType, e);
    ReceiptFailed(c, providerType, e);
  }

  /** A number that can be counted, or else zero. */
  ghost function CountIn(v: Json): Json {
    if v.Num? && v.n >= 0 then v else Num(0)
  }

  /** A value that counts as true in Python. */
  ghost predicate Holds(v: Json) {
    !(v in {Null, Bool(false), Num(0), Str("")} || (v.Arr? && v.items == []) || (v.Obj? && v.fields == []))
  }

  lemma HoldsExactly(v: Json)
    ensures ReceiptBuilder.Truthy(v) <==> Holds(v)
  {
  }

  /**
   Whatever a caller passes for the details of a receipt, numbers that are no natural numbers
   become zero or are dropped, flags become booleans, texts are stripped, and parts that are no
   dictionaries are replaced by empty ones.
   */
  lemma DetailsExactly(d: Draft)
    requires BuildReceipt(d).Some?
    ensures var r := BuildReceipt(d).value;
            && r.Receipt?
            && r.timing == (if d.timing.BadTiming? then Timing(Null, Null, Num(0), [])
                            else Timing(TextOrNull(SafeText(d.timing.startedAt)),
                                        TextOrNull(SafeText(d.timing.completedAt)), CountIn(d.timing.durationMs), []))
            && r.counts == (if d.counts.BadCounts? then ExecutionReceipt.Counts(Num(0), Num(0), Num(0), Num(0), [])
                            else ExecutionReceipt.Counts(CountIn(d.counts.raw), CountIn(d.counts.source),
                                                         CountIn(d.counts.citation), CountIn(d.counts.rejected), []))
            && r.bounds == (if d.bounds.BadBounds?
                            then ExecutionReceipt.Bounds(Null, Null, Null, Bool(false), Bool(false), Bool(false), [])
                            else ExecutionReceipt.Bounds(
                                   NumberIn(d.bounds.requested), NumberIn(d.bounds.normalized),
                                   NumberIn(d.bounds.timeout), Bool(Holds(d.bounds.freshness)),
                                   Bool(Holds(d.bounds.source)), Bool(Holds(d.bounds.result)), []))
  {
    BuiltParts(d);
    if d.bounds.Bounds? {
      HoldsExactly(d.bounds.freshness);
      HoldsExactly(d.bounds.source);
      HoldsExactly(d.bounds.result);
    }
  }

  /** The failure of a receipt: a boolean, the readable reasons of a list, and a readable class. */
  lemma FailureExactly(f: Failure)
    ensures SafeFailure(f)
         == if f.BadFailure? then Failure(Bool(false), Arr(true, []), Null, [])
            else Failure(Bool(Holds(f.failed)), Arr(true, ReasonsIn(f.reasons)), TextOrNull(SafeText(f.errorClass)), [])
  {
    if f.Failure? {
      HoldsExactly(f.failed);
      if f.reasons.Arr? {
        ReadableReasons(f.reasons.items);
      }
    }
  }

  ghost function ReasonsIn(v: Json): seq<Json> {
    if v.Arr? && v.isList then FlatMap(v.items, ReasonIn) else []
  }

  ghost function ReasonIn(v: Json): seq<Json> {
    if v.Str? && !Blank(v.s) then [Str(Strip(v.s))] else []
  }

  lemma {:induction false} ReadableReasons(items: seq<Json>)
    ensures SafeReasons(items) == FlatMap(items, ReasonIn)
  {
    if items != [] {
      ReadableReasons(items[..|items| - 1]);
    }
  }
}
