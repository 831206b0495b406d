/** Where merged results come from, and why the merged artifact validates. */
module MergeOrigins {
  import opened ExternalSearch
  import opened ExternalSearchMerge
  import opened JsonValues
  import opened RetrievalLineage
  import opened Text
  import opened Validation
  import opened ValidatorSupport
  import opened Wrappers

  /** The recorded ranges tile the first `total` positions in order, starting at 0. */
  ghost predicate Tiles(records: seq<InputRecord>, total: nat) {
    if records == [] then total == 0
    else
      var last := records[|records| - 1];
      && last.InputRecord? && last.end == total && last.start + last.accepted == last.end
      && Tiles(records[..|records| - 1], last.start)
  }

  /** What one record says is true of the merged lists. */
  ghost predicate Recorded(r: InputRecord, sets: seq<Artifact>, raw: seq<Json>, lineage: seq<Lineage>) {
    && r.InputRecord? && r.index < |sets| && Valid(sets[r.index])
    && r.start + r.accepted == r.end <= |raw| && |raw| == |lineage|
    && r.accepted <= |sets[r.index].rawResults.items|
    && raw[r.start..r.end] == sets[r.index].rawResults.items[..r.accepted]
    && (r.accepted > 0 ==>
          && sets[r.index].lineage.Items? && r.accepted <= |sets[r.index].lineage.items|
          && lineage[r.start..r.end] == sets[r.index].lineage.items[..r.accepted])
    && r.searchId == sets[r.index].searchId && r.query == sets[r.index].query
    && r.artifactType == sets[r.index].artifactType
  }

  /** The records come from ever later input sets. */
  ghost predicate Ascending(records: seq<InputRecord>, bound: nat) {
    && (forall i :: 0 <= i < |records| ==> records[i].InputRecord? && records[i].index < bound)
    && forall i, j :: 0 <= i < j < |records| ==>
         records[i].InputRecord? && records[j].InputRecord? && records[i].index < records[j].index
  }

  ghost predicate AllRecorded(p: Progress, sets: seq<Artifact>) {
    && |p.lineage| == |p.raw|
    && forall i :: 0 <= i < |p.records| ==> Recorded(p.records[i], sets, p.raw, p.lineage)
  }

  /** The invariant of the loop before set `index`. */
  ghost predicate Traced(p: Progress, sets: seq<Artifact>, index: nat) {
    Tiles(p.records, |p.raw|) && Ascending(p.records, index) && AllRecorded(p, sets)
  }

  lemma RecordedGrows(r: InputRecord, sets: seq<Artifact>, raw: seq<Json>, lineage: seq<Lineage>, raw': seq<Json>,
                      lineage': seq<Lineage>)
    requires Recorded(r, sets, raw, lineage) && |raw'| == |lineage'|
    ensures Recorded(r, sets, raw + raw', lineage + lineage')
  {
    assert (raw + raw')[r.start..r.end] == raw[r.start..r.end];
    assert (lineage + lineage')[r.start..r.end] == lineage[r.start..r.end];
  }

  /** With a valid set, as many lineage items as results are taken. */
  lemma TakenTogether(a: Artifact, count: nat)
    requires Valid(a) && count <= |a.rawResults.items|
    ensures |LineagePrefix(a.lineage, count)| == count
    ensures count > 0 ==> a.lineage.Items? && count <= |a.lineage.items|
                          && LineagePrefix(a.lineage, count) == a.lineage.items[..count]
  {
    if count > 0 {
      assert a.rawResults.items != [];
    }
  }

  lemma NewRecorded(p: Progress, sets: seq<Artifact>, index: nat, limits: Limits, receipts: seq<string>)
    requires index < |sets| && Valid(sets[index]) && |p.raw| < limits.total && |p.lineage| == |p.raw|
    ensures var q := Accept(p, sets[index], index, limits, receipts);
            && |q.lineage| == |q.raw|
            && Recorded(q.records[|p.records|], sets, q.raw, q.lineage)
  {
    var a := sets[index];
    var count := Taken(p, a, limits);
    TakenTogether(a, count);
    var q := Accept(p, a, index, limits, receipts);
    assert q.raw[|p.raw|..|p.raw| + count] == Prefix(a.rawResults.items, count);
    assert q.lineage[|p.raw|..|p.raw| + count] == LineagePrefix(a.lineage, count);
  }

  lemma AcceptKeepsTrace(p: Progress, sets: seq<Artifact>, index: nat, limits: Limits, receipts: seq<string>)
    requires index < |sets| && Valid(sets[index]) && |p.raw| < limits.total && Traced(p, sets, index)
    ensures Traced(Accept(p, sets[index], index, limits, receipts), sets, index + 1)
  {
    var q := Accept(p, sets[index], index, limits, receipts);
    var count := Taken(p, sets[index], limits);
    NewRecorded(p, sets, index, limits, receipts);
    assert q.records[..|p.records|] == p.records;
    forall i | 0 <= i < |p.records| ensures Recorded(q.records[i], sets, q.raw, q.lineage) {
      TakenTogether(sets[index], count);
      RecordedGrows(p.records[i], sets, p.raw, p.lineage, Prefix(sets[index].rawResults.items, count),
                    LineagePrefix(sets[index].lineage, count));
    }
  }

  lemma {:induction false} TraceKept(sets: seq<Artifact>, limits: Limits, index: nat, p: Progress)
    requires index <= |sets| && Traced(p, sets, index) && MergeFrom(sets, limits, index, p).Some?
    ensures Traced(MergeFrom(sets, limits, index, p).value, sets, |sets|)
    decreases |sets| - index
  {
    if index < |sets| {
      if !Valid(sets[index]) {
        TraceKept(sets, limits, index + 1, Skip(p, "invalid_result_set"));
      } else if |p.raw| < limits.total {
        var receipts := ReceiptTexts(sets[index].receiptRefs).value;
        AcceptKeepsTrace(p, sets, index, limits, receipts);
        TraceKept(sets, limits, index + 1, Accept(p, sets[index], index, limits, receipts));
      }
    }
  }

  /**
   The input records of a merge tile its results in order; each names a later valid input
   set than the one before and says exactly which prefix of its results and lineage it gave.
   */
  lemma MergeIsTraced(sets: seq<Artifact>, limits: Limits)
    requires Collect(sets, limits).Some?
    ensures var p := Collect(sets, limits).value;
            Traced(p, Bounded(sets, limits), |Bounded(sets, limits)|)
  {
    TraceKept(Bounded(sets, limits), limits, 0, Opening(sets, limits));
  }

  /** In a tiling every position lies in one of the ranges. */
  lemma {:induction false} TileOf(records: seq<InputRecord>, total: nat, k: nat) returns (i: nat)
    requires Tiles(records, total) && k < total
    ensures i < |records| && records[i].InputRecord? && records[i].start <= k < records[i].end
  {
    var n := |records| - 1;
    if records[n].start <= k {
      i := n;
    } else {
      i := TileOf(records[..n], records[n].start, k);
    }
  }

  /** Each merged result and the lineage beside it come from one position of one input set. */
  lemma SameOrigin(sets: seq<Artifact>, limits: Limits, k: nat) returns (j: nat, position: nat)
    requires Collect(sets, limits).Some?
    requires k < |Collect(sets, limits).value.raw|
    ensures |Collect(sets, limits).value.lineage| == |Collect(sets, limits).value.raw|
    ensures j < |Bounded(sets, limits)|
    ensures var p, a := Collect(sets, limits).value, Bounded(sets, limits)[j];
            && Valid(a) && a.lineage.Items?
            && position < |a.rawResults.items| && position < |a.lineage.items|
            && p.raw[k] == a.rawResults.items[position] && p.lineage[k] == a.lineage.items[position]
  {
    MergeIsTraced(sets, limits);
    var p := Collect(sets, limits).value;
    var i := TileOf(p.records, |p.raw|, k);
    var r := p.records[i];
    assert Recorded(r, Bounded(sets, limits), p.raw, p.lineage);
    j, position := r.index, k - r.start;
    assert p.raw[r.start..r.end][position] == p.raw[k];
    assert p.lineage[r.start..r.end][position] == p.lineage[k];
  }
}
