/** What the bounded merge computes, when it raises, and why its output validates. */
module MergeRefinement {
  import opened ExternalSearch
  import opened ExternalSearchMerge
  import opened JsonValues
  import opened RetrievalLineage
  import opened Sequences
  import opened Text
  import opened Validation
  import opened ValidatorSupport
  import opened Wrappers

  /** What one input set can contribute: a prefix of its results, or nothing when it is invalid. */
  function Contribution(a: Artifact, limits: Limits): seq<Json> {
    if Valid(a) then Prefix(a.rawResults.items, limits.perSet) else []
  }

  function Contributions(sets: seq<Artifact>, limits: Limits): (r: seq<seq<Json>>)
    ensures |r| == |sets|
    ensures forall i :: 0 <= i < |r| ==> r[i] == Contribution(sets[i], limits)
  {
    seq(|sets|, i requires 0 <= i < |sets| => Contribution(sets[i], limits))
  }

  /** The results of all sets, each cut to the per-set limit, in input order. */
  function AllResults(sets: seq<Artifact>, limits: Limits): seq<Json> {
    Flatten(Contributions(sets, limits))
  }

  lemma FlattenCons<T>(first: seq<T>, rest: seq<seq<T>>)
    ensures Flatten([first] + rest) == first + Flatten(rest)
  {
    FlattenAppend([first], rest);
    assert [first][..0] == [];
  }

  lemma AllResultsFrom(sets: seq<Artifact>, limits: Limits, index: nat)
    requires index < |sets|
    ensures AllResults(sets[index..], limits)
         == Contribution(sets[index], limits) + AllResults(sets[index + 1..], limits)
  {
    assert Contributions(sets[index..], limits)
        == [Contribution(sets[index], limits)] + Contributions(sets[index + 1..], limits);
    FlattenCons(Contribution(sets[index], limits), Contributions(sets[index + 1..], limits));
  }

  /** Cutting early does not change what a later cut at the same length keeps. */
  lemma PrefixStep<T>(have: seq<T>, part: seq<T>, rest: seq<T>, count: nat)
    ensures Prefix(Prefix(have + part, count) + rest, count) == Prefix(have + (part + rest), count)
  {
    assert have + (part + rest) == have + part + rest;
  }

  lemma AcceptRaw(p: Progress, a: Artifact, index: nat, limits: Limits, receipts: seq<string>)
    requires Valid(a) && |p.raw| < limits.total
    ensures Accept(p, a, index, limits, receipts).raw == Prefix(p.raw + Contribution(a, limits), limits.total)
  {
  }

  /** From set `index` on, the results are cut once, to the total limit. */
  ghost predicate RawIsCut(sets: seq<Artifact>, limits: Limits, index: nat, p: Progress)
    requires index <= |sets|
  {
    MergeFrom(sets, limits, index, p).Some? ==>
      MergeFrom(sets, limits, index, p).value.raw
      == Prefix(p.raw + AllResults(sets[index..], limits), limits.total)
  }

  lemma RawAtEnd(sets: seq<Artifact>, limits: Limits, p: Progress)
    requires |p.raw| <= limits.total
    ensures RawIsCut(sets, limits, |sets|, p)
  {
    assert Contributions(sets[|sets|..], limits) == [];
    assert p.raw + [] == p.raw;
  }

  lemma RawSkipped(sets: seq<Artifact>, limits: Limits, index: nat, p: Progress)
    requires index < |sets| && !Valid(sets[index])
    requires RawIsCut(sets, limits, index + 1, Skip(p, "invalid_result_set"))
    ensures RawIsCut(sets, limits, index, p)
  {
    AllResultsFrom(sets, limits, index);
    assert AllResults(sets[index..], limits) == AllResults(sets[index + 1..], limits);
  }

  lemma RawFull(sets: seq<Artifact>, limits: Limits, index: nat, p: Progress)
    requires index < |sets| && Valid(sets[index]) && |p.raw| == limits.total
    ensures RawIsCut(sets, limits, index, p)
  {
  }

  lemma RawAccepted(sets: seq<Artifact>, limits: Limits, index: nat, p: Progress, receipts: seq<string>)
    requires index < |sets| && Valid(sets[index]) && |p.raw| < limits.total
    requires ReceiptTexts(sets[index].receiptRefs) == Some(receipts)
    requires RawIsCut(sets, limits, index + 1, Accept(p, sets[index], index, limits, receipts))
    ensures RawIsCut(sets, limits, index, p)
  {
    AllResultsFrom(sets, limits, index);
    AcceptRaw(p, sets[index], index, limits, receipts);
    PrefixStep(p.raw, Contribution(sets[index], limits), AllResults(sets[index + 1..], limits), limits.total);
  }

  lemma {:induction false} RawFrom(sets: seq<Artifact>, limits: Limits, index: nat, p: Progress)
    requires index <= |sets| && |p.raw| <= limits.total
    ensures RawIsCut(sets, limits, index, p)
    decreases |sets| - index
  {
    if index == |sets| {
      RawAtEnd(sets, limits, p);
    } else if !Valid(sets[index]) {
      RawFrom(sets, limits, index + 1, Skip(p, "invalid_result_set"));
      RawSkipped(sets, limits, index, p);
    } else if |p.raw| == limits.total {
      RawFull(sets, limits, index, p);
    } else {
      var receipts := ReceiptTexts(sets[index].receiptRefs);
      if receipts.Some? {
        AcceptRaw(p, sets[index], index, limits, receipts.value);
        RawFrom(sets, limits, index + 1, Accept(p, sets[index], index, limits, receipts.value));
        RawAccepted(sets, limits, index, p, receipts.value);
      }
    }
  }

  /**
   Refinement: the merged results are the first `total` of the concatenated per-set prefixes
   of the valid sets among the first `sets`.
   */
  lemma MergedRaw(searchId: Json, sets: seq<Artifact>, limits: Limits)
    requires Merge(searchId, Some(sets), limits).Some?
    ensures Merge(searchId, Some(sets), limits).value.rawResults
         == Arr(true, Prefix(AllResults(Bounded(sets, limits), limits), limits.total))
  {
    var bounded, opening := Bounded(sets, limits), Opening(sets, limits);
    RawFrom(bounded, limits, 0, opening);
    assert bounded[0..] == bounded;
    assert opening.raw + AllResults(bounded, limits) == AllResults(bounded, limits);
  }

  /** The set that makes the loop raise: valid, reached with room left, refs explicitly `None`. */
  ghost predicate Breaks(sets: seq<Artifact>, limits: Limits, index: nat, have: nat, j: nat) {
    && index <= j < |sets| && Valid(sets[j]) && sets[j].receiptRefs == Some(Null)
    && have + |AllResults(sets[index..j], limits)| < limits.total
  }

  lemma AllResultsUpTo(sets: seq<Artifact>, limits: Limits, index: nat, j: nat)
    requires index < j <= |sets|
    ensures |AllResults(sets[index..j], limits)|
         == |Contribution(sets[index], limits)| + |AllResults(sets[index + 1..j], limits)|
  {
    var upTo := sets[..j];
    assert upTo[index..] == sets[index..j] && upTo[index + 1..] == sets[index + 1..j];
    AllResultsFrom(upTo, limits, index);
  }

  lemma NothingBefore(sets: seq<Artifact>, limits: Limits, index: nat)
    requires index <= |sets|
    ensures AllResults(sets[index..index], limits) == []
  {
    assert Contributions(sets[index..index], limits) == [];
  }

  ghost predicate SomeBreak(sets: seq<Artifact>, limits: Limits, index: nat, have: nat) {
    exists j :: index <= j < |sets| && Breaks(sets, limits, index, have, j)
  }

  /** A set that keeps the loop going moves the question to the next index. */
  lemma BreaksLater(sets: seq<Artifact>, limits: Limits, index: nat, have: nat, have': nat)
    requires index < |sets| && !Breaks(sets, limits, index, have, index)
    requires have' == Min(have + |Contribution(sets[index], limits)|, limits.total)
    ensures SomeBreak(sets, limits, index, have) <==> SomeBreak(sets, limits, index + 1, have')
  {
    forall j | index < j < |sets|
      ensures Breaks(sets, limits, index, have, j) <==> Breaks(sets, limits, index + 1, have', j)
    {
      AllResultsUpTo(sets, limits, index, j);
    }
    if j :| index <= j < |sets| && Breaks(sets, limits, index, have, j) {
      assert Breaks(sets, limits, index + 1, have', j);
    }
    var later := index + 1;
    if j :| later <= j < |sets| && Breaks(sets, limits, later, have', j) {
      assert Breaks(sets, limits, index, have, j);
    }
  }

  lemma {:induction false} RaisesFrom(sets: seq<Artifact>, limits: Limits, index: nat, p: Progress)
    requires index <= |sets| && |p.raw| <= limits.total
    ensures MergeFrom(sets, limits, index, p).None? <==> SomeBreak(sets, limits, index, |p.raw|)
    decreases |sets| - index
  {
    if index < |sets| {
      NothingBefore(sets, limits, index);
      if !Valid(sets[index]) {
        var next := Skip(p, "invalid_result_set");
        RaisesFrom(sets, limits, index + 1, next);
        BreaksLater(sets, limits, index, |p.raw|, |next.raw|);
      } else if |p.raw| < limits.total {
        var receipts := ReceiptTexts(sets[index].receiptRefs);
        if receipts.None? {
          assert Breaks(sets, limits, index, |p.raw|, index);
        } else {
          var next := Accept(p, sets[index], index, limits, receipts.value);
          AcceptRaw(p, sets[index], index, limits, receipts.value);
          RaisesFrom(sets, limits, index + 1, next);
          BreaksLater(sets, limits, index, |p.raw|, |next.raw|);
        }
      }
    }
  }

  /**
   The merge raises exactly when a valid set with an explicit `None` for its receipt refs is
   reached while there is room for more results.
   */
  lemma MergeRaisesExactly(searchId: Json, sets: seq<Artifact>, limits: Limits)
    ensures var bounded := Bounded(sets, limits);
            Merge(searchId, Some(sets), limits).None? <==>
              exists j :: 0 <= j < |bounded| && Valid(bounded[j]) && bounded[j].receiptRefs == Some(Null)
                          && |AllResults(bounded[..j], limits)| < limits.total
  {
    var bounded := Bounded(sets, limits);
    RaisesFrom(bounded, limits, 0, Opening(sets, limits));
    assert forall j :: 0 <= j < |bounded| ==> bounded[0..j] == bounded[..j];
    if j :| 0 <= j < |bounded| && Valid(bounded[j]) && bounded[j].receiptRefs == Some(Null)
            && |AllResults(bounded[..j], limits)| < limits.total {
      assert Breaks(bounded, limits, 0, 0, j);
    }
  }
}
