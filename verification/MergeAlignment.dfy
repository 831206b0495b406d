/**
 Source refs and citations beside the merged results. The validator never counts them, so a
 merge keeps them in step with the results only under a condition.
 */
module MergeAlignment {
  import opened ExternalSearch
  import opened ExternalSearchMerge
  import opened JsonValues
  import opened MergeOrigins
  import opened MergeRefinement
  import opened RetrievalLineage
  import opened Sequences
  import opened Text
  import opened Validation
  import opened Wrappers

  /** The lists that are cut to the number of results taken. */
  datatype Side = SourceRefs | Citations

  function ItemsOf(v: Json): seq<Json> {
    if v.Arr? && v.isList then v.items else []
  }

  function SideOf(a: Artifact, side: Side): seq<Json> {
    if a.NotAnArtifact? then []
    else
      match side
      case SourceRefs => ItemsOf(a.sourceRefs)
      case Citations => ItemsOf(a.citations)
  }

  function ResultsOf(a: Artifact): seq<Json> {
    if a.NotAnArtifact? then [] else ItemsOf(a.rawResults)
  }

  function Merged(p: Progress, side: Side): seq<Json> {
    match side
    case SourceRefs => p.sources
    case Citations => p.citations
  }

  /** What stands beside the results in the set a record names. */
  function SideAt(r: InputRecord, sets: seq<Artifact>, side: Side): seq<Json> {
    if r.InputRecord? && r.index < |sets| then SideOf(sets[r.index], side) else []
  }

  /** What of it a merge takes. */
  function GivenBy(r: InputRecord, sets: seq<Artifact>, side: Side): seq<Json> {
    if r.InputRecord? then Prefix(SideAt(r, sets, side), r.accepted) else []
  }

  /** What the recorded sets gave, one after the other. */
  function Contributed(records: seq<InputRecord>, sets: seq<Artifact>, side: Side): seq<Json> {
    if records == [] then []
    else Contributed(records[..|records| - 1], sets, side) + GivenBy(records[|records| - 1], sets, side)
  }

  /** The invariant of the loop. */
  ghost predicate Supplied(p: Progress, sets: seq<Artifact>, side: Side) {
    Merged(p, side) == Contributed(p.records, sets, side)
  }

  lemma AcceptSupplies(p: Progress, sets: seq<Artifact>, index: nat, limits: Limits, receipts: seq<string>, side: Side)
    requires index < |sets| && Valid(sets[index]) && |p.raw| < limits.total && Supplied(p, sets, side)
    ensures Supplied(Accept(p, sets[index], index, limits, receipts), sets, side)
  {
    var q := Accept(p, sets[index], index, limits, receipts);
    assert q.records[..|p.records|] == p.records;
  }

  lemma {:induction false} SupplyKept(sets: seq<Artifact>, limits: Limits, index: nat, p: Progress, side: Side)
    requires index <= |sets| && Supplied(p, sets, side) && MergeFrom(sets, limits, index, p).Some?
    ensures Supplied(MergeFrom(sets, limits, index, p).value, sets, side)
    decreases |sets| - index
  {
    if index < |sets| {
      if !Valid(sets[index]) {
        SupplyKept(sets, limits, index + 1, Skip(p, "invalid_result_set"), side);
      } else if |p.raw| < limits.total {
        var receipts := ReceiptTexts(sets[index].receiptRefs).value;
        AcceptSupplies(p, sets, index, limits, receipts, side);
        SupplyKept(sets, limits, index + 1, Accept(p, sets[index], index, limits, receipts), side);
      }
    }
  }

  /** Set `j` is reached while there is room for more results. */
  ghost predicate Reached(sets: seq<Artifact>, limits: Limits, j: nat)
    requires j <= |sets|
  {
    |AllResults(sets[..j], limits)| < limits.total
  }

  /** How many results a valid set gives when it is reached. */
  ghost function Share(sets: seq<Artifact>, limits: Limits, j: nat): nat
    requires j < |sets| && Reached(sets, limits, j)
  {
    Min(Min(|ResultsOf(sets[j])|, limits.perSet), limits.total - |AllResults(sets[..j], limits)|)
  }

  lemma AllResultsSnoc(sets: seq<Artifact>, limits: Limits, n: nat)
    requires n < |sets|
    ensures AllResults(sets[..n + 1], limits) == AllResults(sets[..n], limits) + Contribution(sets[n], limits)
  {
    assert Contributions(sets[..n + 1], limits) == Contributions(sets[..n], limits) + [Contribution(sets[n], limits)];
    FlattenSnoc(Contributions(sets[..n], limits), Contribution(sets[n], limits));
  }

  lemma NoFewerResults(sets: seq<Artifact>, limits: Limits, n: nat, m: nat)
    requires n <= m <= |sets|
    ensures |AllResults(sets[..n], limits)| <= |AllResults(sets[..m], limits)|
  {
    assert Contributions(sets[..m], limits) == Contributions(sets[..n], limits) + Contributions(sets[n..m], limits);
    FlattenAppend(Contributions(sets[..n], limits), Contributions(sets[n..m], limits));
  }

  /** The record of a set that was reached, with the results it gave. */
  ghost predicate Fair(r: InputRecord, sets: seq<Artifact>, limits: Limits) {
    && r.InputRecord? && r.index < |sets| && Valid(sets[r.index])
    && Reached(sets, limits, r.index) && r.accepted == Share(sets, limits, r.index)
  }

  ghost predicate Listed(records: seq<InputRecord>, j: nat) {
    exists i :: 0 <= i < |records| && records[i].InputRecord? && records[i].index == j
  }

  /** The records are those of the valid sets below `upTo` that were reached. */
  ghost predicate Accounted(records: seq<InputRecord>, sets: seq<Artifact>, limits: Limits, upTo: nat)
    requires upTo <= |sets|
  {
    && (forall i :: 0 <= i < |records| ==> Fair(records[i], sets, limits))
    && (forall j: nat :: j < upTo && Valid(sets[j]) && Reached(sets, limits, j) ==> Listed(records, j))
  }

  /** The invariant of the loop before set `index`. */
  ghost predicate InAccount(p: Progress, sets: seq<Artifact>, limits: Limits, index: nat)
    requires index <= |sets|
  {
    && Accounted(p.records, sets, limits, index)
    && |p.raw| == Min(|AllResults(sets[..index], limits)|, limits.total)
  }

  lemma ListedGrows(records: seq<InputRecord>, r: InputRecord, j: nat)
    requires r.InputRecord? && (r.index == j || Listed(records, j))
    ensures Listed(records + [r], j)
  {
    var all := records + [r];
    if r.index == j {
      assert all[|records|] == r;
    } else {
      var i :| 0 <= i < |records| && records[i].InputRecord? && records[i].index == j;
      assert all[i] == records[i];
    }
  }

  lemma SkipAccounts(p: Progress, sets: seq<Artifact>, limits: Limits, index: nat, reason: string)
    requires index < |sets| && !Valid(sets[index]) && InAccount(p, sets, limits, index)
    ensures InAccount(Skip(p, reason), sets, limits, index + 1)
  {
    AllResultsSnoc(sets, limits, index);
  }

  lemma AcceptAccounts(p: Progress, sets: seq<Artifact>, limits: Limits, index: nat, receipts: seq<string>)
    requires index < |sets| && Valid(sets[index]) && |p.raw| < limits.total && InAccount(p, sets, limits, index)
    ensures InAccount(Accept(p, sets[index], index, limits, receipts), sets, limits, index + 1)
  {
    var q := Accept(p, sets[index], index, limits, receipts);
    var r := q.records[|p.records|];
    AllResultsSnoc(sets, limits, index);
    assert q.records == p.records + [r];
    assert Fair(r, sets, limits);
    forall i | 0 <= i < |q.records| ensures Fair(q.records[i], sets, limits) {
      assert i < |p.records| ==> q.records[i] == p.records[i];
    }
    forall j: nat | j < index + 1 && Valid(sets[j]) && Reached(sets, limits, j) ensures Listed(q.records, j) {
      ListedGrows(p.records, r, j);
    }
  }

  lemma FullAccounts(p: Progress, sets: seq<Artifact>, limits: Limits, index: nat)
    requires index <= |sets| && |p.raw| >= limits.total && InAccount(p, sets, limits, index)
    ensures Accounted(p.records, sets, limits, |sets|)
  {
    forall j: nat | index <= j < |sets| ensures !Reached(sets, limits, j) {
      NoFewerResults(sets, limits, index, j);
    }
  }

  lemma {:induction false} RecordsAccount(sets: seq<Artifact>, limits: Limits, index: nat, p: Progress)
    requires index <= |sets| && InAccount(p, sets, limits, index) && MergeFrom(sets, limits, index, p).Some?
    ensures Accounted(MergeFrom(sets, limits, index, p).value.records, sets, limits, |sets|)
    decreases |sets| - index
  {
    if index < |sets| {
      if !Valid(sets[index]) {
        SkipAccounts(p, sets, limits, index, "invalid_result_set");
        RecordsAccount(sets, limits, index + 1, Skip(p, "invalid_result_set"));
      } else if |p.raw| >= limits.total {
        FullAccounts(p, sets, limits, index);
      } else {
        var receipts := ReceiptTexts(sets[index].receiptRefs).value;
        AcceptAccounts(p, sets, limits, index, receipts);
        RecordsAccount(sets, limits, index + 1, Accept(p, sets[index], index, limits, receipts));
      }
    }
  }

  /**
   Who contributes, in terms of the inputs: the records are those of the valid sets reached
   with room left, and each gave the least of its own number, the per-set limit and the room.
   */
  lemma ContributorsExactly(sets: seq<Artifact>, limits: Limits)
    requires Collect(sets, limits).Some?
    ensures var b := Bounded(sets, limits);
            Accounted(Collect(sets, limits).value.records, b, limits, |b|)
  {
    var b := Bounded(sets, limits);
    assert Contributions(b[..0], limits) == [];
    RecordsAccount(b, limits, 0, Opening(sets, limits));
  }

  /** If the set gives results, it has one for each of them. */
  ghost predicate Covered(sets: seq<Artifact>, limits: Limits, side: Side, j: nat)
    requires j < |sets|
  {
    Valid(sets[j]) && Reached(sets, limits, j) ==> Share(sets, limits, j) <= |SideOf(sets[j], side)|
  }

  /** Every set below `upTo` that gives results has one for each of them. */
  ghost predicate Sufficient(sets: seq<Artifact>, limits: Limits, side: Side, upTo: nat)
    requires upTo <= |sets|
  {
    forall j: nat :: j < upTo ==> Covered(sets, limits, side, j)
  }

  /** The set has one for each of its results that were taken. */
  ghost predicate Enough(r: InputRecord, sets: seq<Artifact>, side: Side) {
    r.InputRecord? && r.accepted <= |SideAt(r, sets, side)|
  }

  ghost predicate AllEnough(records: seq<InputRecord>, sets: seq<Artifact>, side: Side) {
    forall i :: 0 <= i < |records| ==> Enough(records[i], sets, side)
  }

  lemma FairEnough(r: InputRecord, sets: seq<Artifact>, limits: Limits, side: Side)
    requires Fair(r, sets, limits)
    ensures Enough(r, sets, side) <==> Covered(sets, limits, side, r.index)
  {
  }

  lemma UnlistedCovered(records: seq<InputRecord>, sets: seq<Artifact>, limits: Limits, side: Side, j: nat)
    requires Accounted(records, sets, limits, |sets|) && j < |sets| && !Listed(records, j)
    ensures Covered(sets, limits, side, j)
  {
  }

  /** The first `n` records are those of the sets below the next one. */
  ghost predicate Split(records: seq<InputRecord>, n: nat, upTo: nat)
    requires n <= |records|
  {
    forall i :: 0 <= i < |records| ==> records[i].InputRecord? && (records[i].index < upTo <==> i < n)
  }

  lemma EnoughIsSufficient(records: seq<InputRecord>, n: nat, sets: seq<Artifact>, limits: Limits, side: Side,
                           upTo: nat)
    requires n <= |records| && upTo <= |sets| && Split(records, n, upTo)
    requires Accounted(records, sets, limits, |sets|)
    ensures AllEnough(records[..n], sets, side) <==> Sufficient(sets, limits, side, upTo)
  {
    forall i | 0 <= i < n
      ensures records[i].InputRecord? && records[i].index < upTo
      ensures Enough(records[..n][i], sets, side) <==> Covered(sets, limits, side, records[i].index)
    {
      assert Fair(records[i], sets, limits);
      FairEnough(records[i], sets, limits, side);
    }
    if AllEnough(records[..n], sets, side) {
      forall j: nat | j < upTo ensures Covered(sets, limits, side, j) {
        if Listed(records, j) {
          var i :| 0 <= i < |records| && records[i].InputRecord? && records[i].index == j;
          assert i < n;
        } else {
          UnlistedCovered(records, sets, limits, side, j);
        }
      }
    }
  }

  /** The merged list has, beside the results of the record, what the set has beside them. */
  ghost predicate Beside(r: InputRecord, sets: seq<Artifact>, side: Side, merged: seq<Json>) {
    r.InputRecord? && r.start <= r.end <= |merged| && merged[r.start..r.end] == GivenBy(r, sets, side)
  }

  ghost predicate AllBeside(records: seq<InputRecord>, sets: seq<Artifact>, side: Side, merged: seq<Json>) {
    forall i :: 0 <= i < |records| ==> Beside(records[i], sets, side, merged)
  }

  lemma AllEnoughSnoc(records: seq<InputRecord>, sets: seq<Artifact>, side: Side)
    requires records != []
    ensures AllEnough(records, sets, side) <==>
              AllEnough(records[..|records| - 1], sets, side) && Enough(records[|records| - 1], sets, side)
  {
    var n := |records| - 1;
    assert forall i :: 0 <= i < n ==> records[..n][i] == records[i];
  }

  lemma {:induction false} ContributedLength(records: seq<InputRecord>, total: nat, sets: seq<Artifact>, side: Side)
    requires Tiles(records, total)
    ensures |Contributed(records, sets, side)| <= total
    ensures |Contributed(records, sets, side)| == total <==> AllEnough(records, sets, side)
  {
    if records != [] {
      var n := |records| - 1;
      ContributedLength(records[..n], records[n].start, sets, side);
      AllEnoughSnoc(records, sets, side);
    }
  }

  lemma BesideGrows(r: InputRecord, sets: seq<Artifact>, side: Side, merged: seq<Json>, more: seq<Json>)
    requires Beside(r, sets, side, merged)
    ensures Beside(r, sets, side, merged + more)
  {
    assert (merged + more)[r.start..r.end] == merged[r.start..r.end];
  }

  lemma LastBeside(merged: seq<Json>, r: InputRecord, sets: seq<Artifact>, side: Side)
    requires Enough(r, sets, side) && r.start == |merged| && r.end == r.start + r.accepted
    ensures Beside(r, sets, side, merged + GivenBy(r, sets, side))
  {
  }

  lemma AllBesideSnoc(records: seq<InputRecord>, sets: seq<Artifact>, side: Side, merged: seq<Json>, more: seq<Json>)
    requires records != [] && AllBeside(records[..|records| - 1], sets, side, merged)
    requires Beside(records[|records| - 1], sets, side, merged + more)
    ensures AllBeside(records, sets, side, merged + more)
  {
    var n := |records| - 1;
    forall i | 0 <= i < n ensures Beside(records[i], sets, side, merged + more) {
      assert records[..n][i] == records[i];
      BesideGrows(records[i], sets, side, merged, more);
    }
  }

  lemma {:induction false} EnoughAligns(records: seq<InputRecord>, total: nat, sets: seq<Artifact>, side: Side)
    requires Tiles(records, total) && AllEnough(records, sets, side)
    ensures AllBeside(records, sets, side, Contributed(records, sets, side))
  {
    if records != [] {
      var init, last := records[..|records| - 1], records[|records| - 1];
      var before := Contributed(init, sets, side);
      AllEnoughSnoc(records, sets, side);
      ContributedLength(init, last.start, sets, side);
      EnoughAligns(init, last.start, sets, side);
      LastBeside(before, last, sets, side);
      AllBesideSnoc(records, sets, side, before, GivenBy(last, sets, side));
    }
  }

  lemma BesideNeedsEnough(r: InputRecord, sets: seq<Artifact>, side: Side, merged: seq<Json>)
    requires Beside(r, sets, side, merged) && r.end == r.start + r.accepted
    ensures Enough(r, sets, side)
  {
    assert |merged[r.start..r.end]| == r.accepted;
  }

  lemma AllBesideNeedsEnough(p: Progress, sets: seq<Artifact>, side: Side)
    requires AllRecorded(p, sets) && AllBeside(p.records, sets, side, Merged(p, side))
    ensures AllEnough(p.records, sets, side)
  {
    forall i | 0 <= i < |p.records| ensures Enough(p.records[i], sets, side) {
      assert Recorded(p.records[i], sets, p.raw, p.lineage);
      BesideNeedsEnough(p.records[i], sets, side, Merged(p, side));
    }
  }

  /** What the loop leaves, for one side. */
  ghost predicate MergedAs(p: Progress, sets: seq<Artifact>, limits: Limits, side: Side) {
    Traced(p, sets, |sets|) && Supplied(p, sets, side) && Accounted(p.records, sets, limits, |sets|)
  }

  lemma MergeFacts(sets: seq<Artifact>, limits: Limits, side: Side)
    requires Collect(sets, limits).Some?
    ensures MergedAs(Collect(sets, limits).value, Bounded(sets, limits), limits, side)
  {
    MergeIsTraced(sets, limits);
    ContributorsExactly(sets, limits);
    SupplyKept(Bounded(sets, limits), limits, 0, Opening(sets, limits), side);
  }

  /**
   When source refs or citations stay in step with the merged results, in terms of the inputs.
   There are never more of them than results. There are as many, and each stands beside the
   result it has beside it in its own set, exactly when every valid set that is reached with
   room left has one for each result it gives.
   */
  lemma InStepExactly(sets: seq<Artifact>, limits: Limits, side: Side)
    requires Collect(sets, limits).Some?
    ensures var p, b := Collect(sets, limits).value, Bounded(sets, limits);
            && |Merged(p, side)| <= |p.raw|
            && (|Merged(p, side)| == |p.raw| <==> Sufficient(b, limits, side, |b|))
            && (AllBeside(p.records, b, side, Merged(p, side)) <==> Sufficient(b, limits, side, |b|))
  {
    MergeFacts(sets, limits, side);
    var p, b := Collect(sets, limits).value, Bounded(sets, limits);
    assert p.records[..|p.records|] == p.records;
    assert Split(p.records, |p.records|, |b|);
    EnoughIsSufficient(p.records, |p.records|, b, limits, side, |b|);
    ContributedLength(p.records, |p.raw|, b, side);
    if AllEnough(p.records, b, side) {
      EnoughAligns(p.records, |p.raw|, b, side);
    }
    if AllBeside(p.records, b, side, Merged(p, side)) {
      AllBesideNeedsEnough(p, b, side);
    }
  }

  lemma {:induction false} TilesPrefix(records: seq<InputRecord>, total: nat, i: nat)
    requires Tiles(records, total) && i < |records|
    ensures records[i].InputRecord? && Tiles(records[..i], records[i].start)
  {
    var n := |records| - 1;
    if i < n {
      TilesPrefix(records[..n], records[n].start, i);
      assert records[..n][..i] == records[..i];
    }
  }

  /** What comes after the block of one record. */
  lemma {:induction false} ContributedAround(records: seq<InputRecord>, i: nat, sets: seq<Artifact>, side: Side)
    returns (rest: seq<Json>)
    requires i < |records|
    ensures Contributed(records, sets, side)
         == Contributed(records[..i], sets, side) + GivenBy(records[i], sets, side) + rest
  {
    var n := |records| - 1;
    if i == n {
      rest := [];
    } else {
      var more := ContributedAround(records[..n], i, sets, side);
      assert records[..n][..i] == records[..i];
      rest := more + GivenBy(records[n], sets, side);
      Regroup(Contributed(records[..i], sets, side) + GivenBy(records[i], sets, side), more,
              GivenBy(records[n], sets, side));
    }
  }

  lemma Regroup(a: seq<Json>, b: seq<Json>, c: seq<Json>)
    ensures (a + b) + c == a + (b + c)
  {
  }

  /** Where the entries of the set that record `i` names stand in the merged list. */
  ghost predicate BlockAt(p: Progress, sets: seq<Artifact>, limits: Limits, side: Side, i: nat, at: nat)
    requires i < |p.records|
  {
    var r := p.records[i];
    var given := GivenBy(r, sets, side);
    && r.InputRecord? && r.index < |sets| && at <= r.start
    && at + |given| <= |Merged(p, side)| && Merged(p, side)[at..at + |given|] == given
    && (at == r.start <==> Sufficient(sets, limits, side, r.index))
  }

  /**
   The entries of one contributing set end up in one block, which begins where the results of
   the set begin exactly when every set that gives results before it has one for each of
   them. Otherwise the block begins earlier, beside results of other sets.
   */
  lemma BlockPlacedExactly(sets: seq<Artifact>, limits: Limits, side: Side, i: nat) returns (at: nat)
    requires Collect(sets, limits).Some? && i < |Collect(sets, limits).value.records|
    ensures BlockAt(Collect(sets, limits).value, Bounded(sets, limits), limits, side, i, at)
  {
    MergeFacts(sets, limits, side);
    at := BlockPlaced(Collect(sets, limits).value, Bounded(sets, limits), limits, side, i);
  }

  lemma BlockPlaced(p: Progress, sets: seq<Artifact>, limits: Limits, side: Side, i: nat) returns (at: nat)
    requires i < |p.records|
    ensures MergedAs(p, sets, limits, side) ==> BlockAt(p, sets, limits, side, i, at)
  {
    at := BlockOf(p, sets, limits, side, i);
    EnoughBefore(p, sets, limits, side, i);
  }

  lemma EnoughBefore(p: Progress, sets: seq<Artifact>, limits: Limits, side: Side, i: nat)
    requires i < |p.records|
    ensures MergedAs(p, sets, limits, side) ==>
              && p.records[i].InputRecord? && p.records[i].index < |sets|
              && (AllEnough(p.records[..i], sets, side) <==> Sufficient(sets, limits, side, p.records[i].index))
  {
    if MergedAs(p, sets, limits, side) {
      RecordSplits(p.records, i, sets);
      EnoughIsSufficient(p.records, i, sets, limits, side, p.records[i].index);
    }
  }

  lemma RecordSplits(records: seq<InputRecord>, i: nat, sets: seq<Artifact>)
    requires i < |records| && Ascending(records, |sets|)
    ensures records[i].InputRecord? && records[i].index < |sets| && Split(records, i, records[i].index)
  {
  }

  lemma BlockOf(p: Progress, sets: seq<Artifact>, limits: Limits, side: Side, i: nat) returns (at: nat)
    requires i < |p.records|
    ensures MergedAs(p, sets, limits, side) ==>
              var given := GivenBy(p.records[i], sets, side);
              && p.records[i].InputRecord? && at <= p.records[i].start
              && at + |given| <= |Merged(p, side)| && Merged(p, side)[at..at + |given|] == given
              && (at == p.records[i].start <==> AllEnough(p.records[..i], sets, side))
  {
    at := |Contributed(p.records[..i], sets, side)|;
    if MergedAs(p, sets, limits, side) {
      TilesPrefix(p.records, |p.raw|, i);
      ContributedLength(p.records[..i], p.records[i].start, sets, side);
      var rest := ContributedAround(p.records, i, sets, side);
      BlockIn(Contributed(p.records[..i], sets, side), GivenBy(p.records[i], sets, side), rest);
    }
  }

  lemma BlockIn(before: seq<Json>, block: seq<Json>, rest: seq<Json>)
    ensures (before + block + rest)[|before|..|before| + |block|] == block
  {
  }

  /** It is enough that no valid set has fewer of them than results. */
  lemma CoveredSetsStayInStep(sets: seq<Artifact>, limits: Limits, side: Side)
    requires Collect(sets, limits).Some?
    requires forall i :: 0 <= i < |sets| && Valid(sets[i]) ==> |ResultsOf(sets[i])| <= |SideOf(sets[i], side)|
    ensures var p := Collect(sets, limits).value;
            AllBeside(p.records, Bounded(sets, limits), side, Merged(p, side)) && |Merged(p, side)| == |p.raw|
  {
    var b := Bounded(sets, limits);
    InStepExactly(sets, limits, side);
    forall j: nat | j < |b| ensures Covered(b, limits, side, j) {
      assert b[j] == sets[j];
    }
  }

  /** A set with one result and the given source refs. */
  function OneResult(sources: seq<Json>): Artifact {
    Artifact(
      Str(RESULT_SET_ARTIFACT), Str(RESULT_SET_ARTIFACT), Str("search"), Str("query"), Bool(false), Bool(false), {},
      Arr(true, [Obj([])]), Arr(true, sources), Arr(true, []), Null, None,
      Items([BuildLineage(Str("provider"), Str("result"), 0, Str("raw"), Obj([]), Obj([]))]),
      Provenance(Str("pre_provider_integration"), Bool(false), NO_PROVIDER_STAGES, NO_STAGES, Null), NO_AUTHORITY,
      NoMetadata)
  }

  lemma Words()
    ensures HasText(Str("search")) && HasText(Str("query")) && HasText(Str("provider"))
    ensures HasText(Str("result")) && HasText(Str("raw"))
  {
    NotBlankAt("search", 0);
    NotBlankAt("query", 0);
    NotBlankAt("provider", 0);
    NotBlankAt("result", 0);
    NotBlankAt("raw", 0);
  }

  lemma OneResultValid(sources: seq<Json>)
    requires forall i :: 0 <= i < |sources| ==> sources[i].Obj?
    ensures Valid(OneResult(sources))
  {
    Words();
    BuiltItemExact(Str("provider"), Str("result"), 0, Str("raw"), Obj([]), Obj([]));
  }

  /** After a set with one result and the given source refs. */
  lemma OneResultAccepted(p: Progress, sources: seq<Json>, index: nat, limits: Limits)
    requires (forall i :: 0 <= i < |sources| ==> sources[i].Obj?) && |sources| <= 1
    requires |p.raw| < limits.total && limits.perSet > 0
    ensures Valid(OneResult(sources))
    ensures var q := Accept(p, OneResult(sources), index, limits, []);
            q.raw == p.raw + [Obj([])] && q.sources == p.sources + sources
  {
    OneResultValid(sources);
    assert Prefix([Obj([])], 1) == [Obj([])] && Prefix(sources, 1) == sources;
  }

  /** A set without source refs before one that has them: the first merged ref belongs to the second result. */
  lemma MisalignedWitness(ref: Json)
    requires ref.Obj?
    ensures var sets, limits := [OneResult([]), OneResult([ref])], Limits(3, 5, 10);
            && Collect(sets, limits).Some?
            && |Collect(sets, limits).value.raw| == 2 && Collect(sets, limits).value.sources == [ref]
  {
    var sets, limits := [OneResult([]), OneResult([ref])], Limits(3, 5, 10);
    OneResultAccepted(START, [], 0, limits);
    var first := Accept(START, sets[0], 0, limits, []);
    OneResultAccepted(first, [ref], 1, limits);
    var second := Accept(first, sets[1], 1, limits, []);
    assert Bounded(sets, limits) == sets;
    assert MergeFrom(sets, limits, 2, second) == Some(second);
    assert MergeFrom(sets, limits, 1, first) == Some(second);
  }
}
