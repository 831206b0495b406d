/** Merged artifacts are valid result sets, and merging in groups changes nothing. */
module MergeClosure {
  import opened ExternalSearch
  import opened ExternalSearchMerge
  import opened JsonValues
  import opened MergeOrigins
  import opened MergeRefinement
  import opened RetrievalLineage
  import opened Sequences
  import opened Text
  import opened Validation
  import opened ValidatorSupport
  import opened Wrappers

  ghost predicate Objects(items: seq<Json>) {
    forall i :: 0 <= i < |items| ==> items[i].Obj?
  }

  ghost predicate GoodItems(items: seq<Lineage>) {
    forall i :: 0 <= i < |items| ==> GoodItem(items[i])
  }

  /** What the loop collects is fit for a result set. */
  ghost predicate Fit(p: Progress) {
    Objects(p.raw) && Objects(p.sources) && Objects(p.citations) && GoodItems(p.lineage) && |p.lineage| == |p.raw|
  }

  lemma AcceptKeepsFit(p: Progress, a: Artifact, index: nat, limits: Limits, receipts: seq<string>)
    requires Valid(a) && |p.raw| < limits.total && Fit(p)
    ensures Fit(Accept(p, a, index, limits, receipts))
  {
    var count := Taken(p, a, limits);
    TakenTogether(a, count);
    assert Objects(ObjectPrefix(a.sourceRefs, count)) && Objects(ObjectPrefix(a.citations, count));
    assert GoodItems(LineagePrefix(a.lineage, count));
  }

  lemma {:induction false} FitKept(sets: seq<Artifact>, limits: Limits, index: nat, p: Progress)
    requires index <= |sets| && Fit(p) && MergeFrom(sets, limits, index, p).Some?
    ensures Fit(MergeFrom(sets, limits, index, p).value)
    decreases |sets| - index
  {
    if index < |sets| {
      if !Valid(sets[index]) {
        FitKept(sets, limits, index + 1, Skip(p, "invalid_result_set"));
      } else if |p.raw| < limits.total {
        var receipts := ReceiptTexts(sets[index].receiptRefs).value;
        AcceptKeepsFit(p, sets[index], index, limits, receipts);
        FitKept(sets, limits, index + 1, Accept(p, sets[index], index, limits, receipts));
      }
    }
  }

  ghost predicate NonBlanks(texts: seq<string>) {
    forall i :: 0 <= i < |texts| ==> !Blank(texts[i])
  }

  lemma TextsListed(texts: seq<string>)
    requires NonBlanks(texts)
    ensures TextItems(ExternalSearchMerge.TextList(texts))
  {
    forall i | 0 <= i < |texts| ensures HasText(Str(texts[i])) {
      assert !Blank(texts[i]);
    }
  }

  lemma StripNotBlank(text: string)
    requires !Blank(text)
    ensures !Blank(Strip(text))
  {
    StripFacts(text);
    StripFacts(Strip(text));
  }

  lemma {:induction false} StrippedNonBlank(texts: seq<string>)
    ensures NonBlanks(StrippedTexts(texts))
  {
    if texts != [] {
      var n := |texts| - 1;
      StrippedNonBlank(texts[..n]);
      if !Blank(texts[n]) {
        StripNotBlank(texts[n]);
      }
    }
  }

  lemma UniqueNonBlank(texts: seq<string>)
    ensures NonBlanks(Unique(texts))
  {
    UniqueExact(texts);
    var found := Unique(texts);
    forall i | 0 <= i < |found| ensures !Blank(found[i]) {
      assert found[i] in found;
      var k :| 0 <= k < |texts| && !Blank(texts[k]) && Strip(texts[k]) == found[i];
      StripNotBlank(texts[k]);
    }
  }

  lemma MergeMetadataGood(limits: Limits, p: Progress)
    requires limits.sets > 0 && limits.perSet > 0 && limits.total > 0
    ensures GoodMetadata(MergeMetadata(limits, p), Arr(true, p.raw))
  {
    UniqueNonBlank(p.skipped);
    TextsListed(Unique(p.skipped));
  }

  lemma FinishHead(searchId: Json, limits: Limits, p: Progress)
    ensures GoodHead(Finish(searchId, limits, p)) <==> HasText(searchId)
  {
    SafeTextNotBlank(searchId);
    NotBlankAt("merged external search result sets", 0);
    SafeTextNotBlank(Str("merged external search result sets"));
  }

  lemma FinishRefs(p: Progress)
    ensures TextItems(ExternalSearchMerge.TextList(StrippedTexts(p.receipts)))
    ensures TextItems(ExternalSearchMerge.TextList(Unique(p.receipts)))
  {
    StrippedNonBlank(p.receipts);
    TextsListed(StrippedTexts(p.receipts));
    UniqueNonBlank(p.receipts);
    TextsListed(Unique(p.receipts));
  }

  lemma FinishLists(searchId: Json, limits: Limits, p: Progress)
    requires Fit(p)
    ensures GoodLists(Finish(searchId, limits, p))
  {
    FinishRefs(p);
  }

  lemma FinishLineage(searchId: Json, limits: Limits, p: Progress)
    requires Fit(p)
    ensures var a := Finish(searchId, limits, p);
            GoodLineage(a.rawResults, a.lineage)
  {
  }

  lemma FinishNested(searchId: Json, limits: Limits, p: Progress)
    ensures var a := Finish(searchId, limits, p);
            GoodAuthority(a.authority) && GoodProvenance(a.provenance) && NoForbiddenKey(a.otherKeys)
  {
    FinishRefs(p);
  }

  lemma FinishValid(searchId: Json, limits: Limits, p: Progress)
    requires Fit(p) && limits.sets > 0 && limits.perSet > 0 && limits.total > 0
    ensures Valid(Finish(searchId, limits, p)) <==> HasText(searchId)
  {
    FinishHead(searchId, limits, p);
    FinishLists(searchId, limits, p);
    FinishLineage(searchId, limits, p);
    FinishNested(searchId, limits, p);
    MergeMetadataGood(limits, p);
  }

  /**
   Closure: whatever the inputs and the requested limits, a merge that returns validates
   without errors exactly when its search id is not blank.
   */
  lemma MergedValidates(searchId: Json, sets: Option<seq<Artifact>>, maxSets: Json, maxPerSet: Json, maxTotal: Json)
    requires Merge(searchId, sets, BoundedLimits(maxSets, maxPerSet, maxTotal)).Some?
    ensures Problems(Merge(searchId, sets, BoundedLimits(maxSets, maxPerSet, maxTotal)).value) == [] <==>
              HasText(searchId)
  {
    var limits := BoundedLimits(maxSets, maxPerSet, maxTotal);
    ProblemsExact(Merge(searchId, sets, limits).value);
    if sets.None? {
      FinishValid(searchId, limits, Skip(START, "result_sets_missing"));
    } else {
      FitKept(Bounded(sets.value, limits), limits, 0, Opening(sets.value, limits));
      FinishValid(searchId, limits, Collect(sets.value, limits).value);
    }
  }

  /** The results of the valid sets, in order. */
  function ValidResults(sets: seq<Artifact>): seq<Json> {
    if sets == [] then []
    else
      var a := sets[|sets| - 1];
      ValidResults(sets[..|sets| - 1]) + (if Valid(a) then a.rawResults.items else [])
  }

  /** No limit cuts anything and no valid set makes the loop raise. */
  ghost predicate Unbound(sets: seq<Artifact>, limits: Limits) {
    && |sets| <= limits.sets && |ValidResults(sets)| <= limits.total
    && forall i :: 0 <= i < |sets| && Valid(sets[i]) ==>
         |sets[i].rawResults.items| <= limits.perSet && sets[i].receiptRefs != Some(Null)
  }

  lemma {:induction false} UncutResults(sets: seq<Artifact>, limits: Limits)
    requires forall i :: 0 <= i < |sets| && Valid(sets[i]) ==> |sets[i].rawResults.items| <= limits.perSet
    ensures AllResults(sets, limits) == ValidResults(sets)
  {
    if sets == [] {
      assert Contributions(sets, limits) == [];
    } else {
      var n := |sets| - 1;
      UncutResults(sets[..n], limits);
      assert Contributions(sets, limits)[..n] == Contributions(sets[..n], limits);
    }
  }

  /** A merge that no limit binds returns all results of its valid sets. */
  lemma UnboundMerge(searchId: Json, sets: seq<Artifact>, limits: Limits)
    requires Unbound(sets, limits)
    ensures Merge(searchId, Some(sets), limits).Some?
    ensures Merge(searchId, Some(sets), limits).value.rawResults == Arr(true, ValidResults(sets))
  {
    assert Bounded(sets, limits) == sets;
    MergeRaisesExactly(searchId, sets, limits);
    MergedRaw(searchId, sets, limits);
    UncutResults(sets, limits);
  }

  function MergedGroups(searchId: Json, groups: seq<seq<Artifact>>, limits: Limits): (r: seq<Artifact>)
    requires forall i :: 0 <= i < |groups| ==> Merge(searchId, Some(groups[i]), limits).Some?
    ensures |r| == |groups|
    ensures forall i :: 0 <= i < |r| ==> r[i] == Merge(searchId, Some(groups[i]), limits).value
  {
    seq(|groups|, i requires 0 <= i < |groups| => Merge(searchId, Some(groups[i]), limits).value)
  }

  lemma {:induction false} ValidResultsAppend(a: seq<Artifact>, b: seq<Artifact>)
    ensures ValidResults(a + b) == ValidResults(a) + ValidResults(b)
    decreases |b|
  {
    if b == [] {
      assert a + b == a;
    } else {
      var n := |b| - 1;
      assert (a + b)[..|a| + n] == a + b[..n];
      ValidResultsAppend(a, b[..n]);
    }
  }

  /** The results of the groups, merged one by one, are those of the flat list. */
  lemma {:induction false} GroupedResults(groups: seq<seq<Artifact>>, merged: seq<Artifact>)
    requires |merged| == |groups|
    requires forall i :: 0 <= i < |groups| ==>
               Valid(merged[i]) && merged[i].rawResults == Arr(true, ValidResults(groups[i]))
    ensures ValidResults(merged) == ValidResults(Flatten(groups))
  {
    if groups != [] {
      var n := |groups| - 1;
      GroupedResults(groups[..n], merged[..n]);
      ValidResultsAppend(Flatten(groups[..n]), groups[n]);
    }
  }

  /**
   Regrouping: when no limit binds anywhere, merging the merges of groups gives the same
   results as merging all sets at once.
   */
  lemma RegroupedMerge(searchId: Json, groups: seq<seq<Artifact>>, limits: Limits)
    requires HasText(searchId) && limits.sets > 0 && limits.perSet > 0 && limits.total > 0
    requires Unbound(Flatten(groups), limits) && |groups| <= limits.sets
    requires forall i :: 0 <= i < |groups| ==>
               Unbound(groups[i], limits) && |ValidResults(groups[i])| <= limits.perSet
    ensures forall i :: 0 <= i < |groups| ==> Merge(searchId, Some(groups[i]), limits).Some?
    ensures var outer := Merge(searchId, Some(MergedGroups(searchId, groups, limits)), limits);
            var flat := Merge(searchId, Some(Flatten(groups)), limits);
            outer.Some? && flat.Some? && outer.value.rawResults == flat.value.rawResults
  {
    forall i | 0 <= i < |groups| ensures Merge(searchId, Some(groups[i]), limits).Some? {
      UnboundMerge(searchId, groups[i], limits);
    }
    var merged := MergedGroups(searchId, groups, limits);
    forall i | 0 <= i < |groups|
      ensures Valid(merged[i]) && merged[i].rawResults == Arr(true, ValidResults(groups[i]))
      ensures merged[i].receiptRefs != Some(Null)
    {
      UnboundMerge(searchId, groups[i], limits);
      FitKept(Bounded(groups[i], limits), limits, 0, Opening(groups[i], limits));
      FinishValid(searchId, limits, Collect(groups[i], limits).value);
    }
    GroupedResults(groups, merged);
    UnboundMerge(searchId, merged, limits);
    UnboundMerge(searchId, Flatten(groups), limits);
  }
}
