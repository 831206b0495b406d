/** What a normalised provider response takes from the items of the reply, field by field. */
module ProviderResults {
  import opened JsonValues
  import opened ProviderExecution
  import opened RetrievalLineage
  import opened Text
  import opened Validation
  import opened Wrappers

  /** The list a reply offers: the reply itself, or its "results". */
  ghost function Offered(reply: Json): seq<Json> {
    match reply
    case Arr(isList, items) => if isList then items else []
    case Obj(_) =>
      var results := Get(reply, "results");
      if results.Arr? && results.isList then results.items else []
    case _ => []
  }

  ghost function Considered(reply: Json, maxResults: nat): seq<Json> {
    var items := Offered(reply);
    if maxResults < |items| then items[..maxResults] else items
  }

  /** A dictionary with a url and a title that can be read. */
  ghost predicate Usable(item: Json) {
    item.Obj? && HasText(Get(item, "url")) && HasText(Get(item, "title"))
  }

  /** The text under the first of two keys that has one. */
  ghost function UnderEither(item: Json, first: string, second: string): Option<string> {
    if HasText(Get(item, first)) then SafeText(Get(item, first)) else SafeText(Get(item, second))
  }

  ghost function IdOf(item: Json, providerId: string, k: nat): string {
    var own := UnderEither(item, "provider_result_id", "id");
    if own.Some? then own.value else providerId + "-" + Decimal(k + 1)
  }

  /** The result is item `k`, each field under its own name. */
  ghost predicate Describes(r: Result, item: Json, providerId: string, k: nat) {
    && r.resultId == IdOf(item, providerId, k) && r.providerId == providerId
    && Some(r.title) == SafeText(Get(item, "title")) && Some(r.url) == SafeText(Get(item, "url"))
    && r.snippet == UnderEither(item, "snippet", "content") && r.publishedAt == SafeText(Get(item, "published_at"))
  }

  /** The source ref or citation of item `k`. */
  ghost predicate Refers(ref: Json, item: Json, providerId: string, k: nat) {
    && HasText(Get(item, "url")) && HasText(Get(item, "title"))
    && ref == Obj([ Field("provider_result_id", Str(IdOf(item, providerId, k))),
                    Field("url", Str(SafeText(Get(item, "url")).value)),
                    Field("title", Str(SafeText(Get(item, "title")).value)) ])
  }

  /** The lineage says that the result is item `k` of the reply. */
  ghost predicate Locates(l: Lineage, item: Json, providerId: string, k: nat) {
    && l.Lineage? && l.kind == Str(LINEAGE_TYPE) && l.stage == Str(NORMALIZATION_STAGE)
    && l.providerId == TextOrNull(SafeString(providerId)) && l.resultId == Str(Strip(IdOf(item, providerId, k)))
    && l.rawIndex == Num(k) && l.rawRef == Str("provider_response.results[" + Decimal(k) + "]")
    && Refers(l.source, item, providerId, k) && Refers(l.citation, item, providerId, k)
  }

  /** Everything about result `i` belongs to item `k`. */
  ghost predicate TakenFrom(r: Response, i: nat, item: Json, providerId: string, k: nat) {
    && i < |r.raw| && i < |r.refs| && i < |r.citations| && i < |r.lineage|
    && Describes(r.raw[i], item, providerId, k) && Refers(r.refs[i], item, providerId, k)
    && Refers(r.citations[i], item, providerId, k) && Locates(r.lineage[i], item, providerId, k)
  }

  ghost predicate Rising(places: seq<nat>) {
    forall i, j :: 0 <= i < j < |places| ==> places[i] < places[j]
  }

  /** The places, in order, of exactly the items that are usable, or not. */
  ghost predicate PlacesOf(places: seq<nat>, items: seq<Json>, usable: bool) {
    Rising(places) && forall k: nat :: k in places <==> k < |items| && Usable(items[k]) == usable
  }

  /** Result `i` is taken from the usable item at `kept[i]`, and the other items are rejected. */
  ghost predicate Sorted(r: Response, items: seq<Json>, providerId: string, kept: seq<nat>) {
    && |kept| == |r.raw| == |r.refs| == |r.citations| == |r.lineage|
    && PlacesOf(kept, items, true) && PlacesOf(r.rejected, items, false)
    && forall i :: 0 <= i < |kept| ==> kept[i] < |items| && TakenFrom(r, i, items[kept[i]], providerId, kept[i])
  }

  lemma ItemExactly(item: Json, providerId: string, k: nat)
    ensures NormalizeItem(item, providerId, k).Some? <==> Usable(item)
    ensures Usable(item) ==> Describes(NormalizeItem(item, providerId, k).value, item, providerId, k)
    ensures Usable(item) ==> Refers(Reference(NormalizeItem(item, providerId, k).value), item, providerId, k)
  {
  }

  lemma LineageExactly(item: Json, providerId: string, k: nat)
    requires Usable(item)
    ensures Locates(LineageOf(NormalizeItem(item, providerId, k).value, providerId, k), item, providerId, k)
  {
    var r := NormalizeItem(item, providerId, k).value;
    ItemExactly(item, providerId, k);
    ResultIdNotBlank(item, providerId, k);
    var rawRef := "provider_response.results[" + Decimal(k) + "]";
    assert !IsSpace(rawRef[0]) && rawRef[|rawRef| - 1] == ']';
    NotBlankAt(rawRef, 0);
    StripFacts(rawRef);
  }

  lemma PlacesSnoc(places: seq<nat>, items: seq<Json>, usable: bool, last: Json)
    requires PlacesOf(places, items, usable)
    ensures PlacesOf(if Usable(last) == usable then places + [|items|] else places, items + [last], usable)
  {
    forall i | 0 <= i < |places| ensures places[i] < |items| {
      assert places[i] in places;
    }
  }

  lemma TakenStill(r: Response, r': Response, i: nat, item: Json, providerId: string, k: nat)
    requires TakenFrom(r, i, item, providerId, k)
    requires r.raw <= r'.raw && r.refs <= r'.refs && r.citations <= r'.citations && r.lineage <= r'.lineage
    ensures TakenFrom(r', i, item, providerId, k)
  {
  }

  lemma RejectedSorts(r: Response, items: seq<Json>, providerId: string, kept: seq<nat>, last: Json)
    requires Sorted(r, items, providerId, kept) && !Usable(last)
    ensures Sorted(Extended(r, last, providerId, |items|), items + [last], providerId, kept)
  {
    var next := Extended(r, last, providerId, |items|);
    ItemExactly(last, providerId, |items|);
    PlacesSnoc(kept, items, true, last);
    PlacesSnoc(r.rejected, items, false, last);
    forall i | 0 <= i < |kept|
      ensures TakenFrom(next, i, (items + [last])[kept[i]], providerId, kept[i])
    {
      TakenStill(r, next, i, items[kept[i]], providerId, kept[i]);
    }
  }

  lemma NewTaken(r: Response, n: nat, providerId: string, last: Json)
    requires Usable(last) && |r.raw| == |r.refs| == |r.citations| == |r.lineage|
    ensures TakenFrom(Extended(r, last, providerId, n), |r.raw|, last, providerId, n)
  {
    ItemExactly(last, providerId, n);
    LineageExactly(last, providerId, n);
  }

  lemma AcceptedSorts(r: Response, items: seq<Json>, providerId: string, kept: seq<nat>, last: Json)
    requires Sorted(r, items, providerId, kept) && Usable(last)
    ensures Sorted(Extended(r, last, providerId, |items|), items + [last], providerId, kept + [|items|])
  {
    var next := Extended(r, last, providerId, |items|);
    ItemExactly(last, providerId, |items|);
    PlacesSnoc(kept, items, true, last);
    PlacesSnoc(r.rejected, items, false, last);
    NewTaken(r, |items|, providerId, last);
    forall i | 0 <= i < |kept|
      ensures TakenFrom(next, i, (items + [last])[kept[i]], providerId, kept[i])
    {
      TakenStill(r, next, i, items[kept[i]], providerId, kept[i]);
    }
  }

  lemma {:induction false} ItemsSorted(items: seq<Json>, providerId: string) returns (kept: seq<nat>)
    ensures Sorted(NormalizeItems(items, providerId), items, providerId, kept)
  {
    if items == [] {
      kept := [];
    } else {
      var init, last := items[..|items| - 1], items[|items| - 1];
      assert items == init + [last];
      kept := ItemsSorted(init, providerId);
      var before := NormalizeItems(init, providerId);
      if Usable(last) {
        AcceptedSorts(before, init, providerId, kept, last);
        kept := kept + [|init|];
      } else {
        RejectedSorts(before, init, providerId, kept, last);
      }
    }
  }

  lemma ConsideredExactly(reply: Json, maxResults: nat)
    ensures First(ResponseItems(reply), maxResults) == Considered(reply, maxResults)
  {
  }

  /**
   For every reply: of the first `maxResults` items offered, exactly those without a readable
   url or title are rejected. Every other one gives one result, in order, which has its title,
   url, id, snippet and date each under their own names, with a source ref, a citation and a
   lineage item for the same item and place.
   */
  lemma ResponseExactly(reply: Json, providerId: string, maxResults: nat) returns (kept: seq<nat>)
    ensures Sorted(NormalizeResponse(reply, providerId, maxResults), Considered(reply, maxResults), providerId, kept)
  {
    ConsideredExactly(reply, maxResults);
    kept := ItemsSorted(Considered(reply, maxResults), providerId);
  }
}
