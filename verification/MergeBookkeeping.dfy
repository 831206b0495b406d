/**
 Everything a merge writes, said about its input sets: lists, lineage, receipt refs, records and
 skip reasons are those of the valid sets reached with room left, one set after the other.
 */
module MergeBookkeeping {
  import opened ExternalSearch
  import opened ExternalSearchMerge
  import opened JsonValues
  import opened MergeAlignment
  import opened MergeRefinement
  import opened RetrievalLineage
  import opened Sequences
  import opened Text
  import opened Validation
  import opened ValidatorSupport
  import opened Wrappers

  /** The set is valid and reached while there is room for more results. */
  ghost predicate Gives(sets: seq<Artifact>, limits: Limits, j: nat) {
    j < |sets| && Valid(sets[j]) && Reached(sets, limits, j)
  }

  /** What the sets below `upTo` give, in input order. */
  ghost function Gathered<T>(sets: seq<Artifact>, limits: Limits, upTo: nat,
                             part: (seq<Artifact>, Limits, nat) -> seq<T>): seq<T>
  {
    if upTo == 0 then []
    else Gathered(sets, limits, upTo - 1, part) + part(sets, limits, upTo - 1)
  }

  ghost function Beginning<T>(items: seq<T>, count: nat): seq<T> {
    if count < |items| then items[..count] else items
  }

  ghost function ResultsGiven(sets: seq<Artifact>, limits: Limits, j: nat): seq<Json> {
    if Gives(sets, limits, j) then Beginning(ResultsOf(sets[j]), Share(sets, limits, j)) else []
  }

  ghost function SourcesGiven(sets: seq<Artifact>, limits: Limits, j: nat): seq<Json> {
    if Gives(sets, limits, j) then Beginning(SideOf(sets[j], SourceRefs), Share(sets, limits, j)) else []
  }

  ghost function CitationsGiven(sets: seq<Artifact>, limits: Limits, j: nat): seq<Json> {
    if Gives(sets, limits, j) then Beginning(SideOf(sets[j], Citations), Share(sets, limits, j)) else []
  }

  ghost function LineageGiven(sets: seq<Artifact>, limits: Limits, j: nat): seq<Lineage> {
    if Gives(sets, limits, j) && sets[j].lineage.Items?
    then Beginning(sets[j].lineage.items, Share(sets, limits, j)) else []
  }

  /** The texts among the items, stripped, without the blank ones. */
  ghost function Readable(items: seq<Json>): seq<string> {
    if items == [] then []
    else
      (if items[0].Str? && !Blank(items[0].s) then [Strip(items[0].s)] else []) + Readable(items[1..])
  }

  ghost function ReceiptsGiven(sets: seq<Artifact>, limits: Limits, j: nat): seq<string> {
    if Gives(sets, limits, j) && sets[j].receiptRefs.Some? && sets[j].receiptRefs.value.Arr?
    then Readable(sets[j].receiptRefs.value.items) else []
  }

  /** The record of a set: its identity, its share, and where its results stand in the merge. */
  ghost function RecordGiven(sets: seq<Artifact>, limits: Limits, j: nat): seq<InputRecord> {
    if Gives(sets, limits, j)
    then
      var start, count := |AllResults(sets[..j], limits)|, Share(sets, limits, j);
      [InputRecord(j, sets[j].artifactType, sets[j].searchId, sets[j].query, count, start, start + count)]
    else []
  }

  /** A valid set before `j` found no room, which ended the loop. */
  ghost predicate Ended(sets: seq<Artifact>, limits: Limits, j: nat) {
    j > 0 && (Ended(sets, limits, j - 1)
              || (j <= |sets| && Valid(sets[j - 1]) && !Reached(sets, limits, j - 1)))
  }

  ghost function ReasonsGiven(sets: seq<Artifact>, limits: Limits, j: nat): seq<string> {
    if j >= |sets| || Ended(sets, limits, j) then []
    else if !Valid(sets[j]) then ["invalid_result_set"]
    else if !Reached(sets, limits, j) then ["total_result_count_bounded"]
    else if |ResultsOf(sets[j])| > Share(sets, limits, j) then ["result_count_bounded"]
    else []
  }

  /** The lists of the loop are those of the sets below `upTo`. */
  ghost predicate Listing(p: Progress, sets: seq<Artifact>, limits: Limits, upTo: nat) {
    && p.raw == Gathered(sets, limits, upTo, ResultsGiven)
    && p.sources == Gathered(sets, limits, upTo, SourcesGiven)
    && p.citations == Gathered(sets, limits, upTo, CitationsGiven)
    && p.lineage == Gathered(sets, limits, upTo, LineageGiven)
  }

  ghost predicate Booked(p: Progress, sets: seq<Artifact>, limits: Limits, opening: seq<string>, upTo: nat) {
    && StrippedTexts(p.receipts) == Gathered(sets, limits, upTo, ReceiptsGiven)
    && p.records == Gathered(sets, limits, upTo, RecordGiven)
    && p.skipped == opening + Gathered(sets, limits, upTo, ReasonsGiven)
  }

  /** How far the loop is before set `index`. */
  ghost predicate Room(p: Progress, sets: seq<Artifact>, limits: Limits, index: nat) {
    index <= |sets| && |p.raw| == Min(|AllResults(sets[..index], limits)|, limits.total)
  }

  lemma RoomNext(sets: seq<Artifact>, limits: Limits, index: nat)
    requires index < |sets|
    ensures !Valid(sets[index]) ==> AllResults(sets[..index + 1], limits) == AllResults(sets[..index], limits)
    ensures Valid(sets[index]) ==>
              |AllResults(sets[..index + 1], limits)|
              == |AllResults(sets[..index], limits)| + Min(|ResultsOf(sets[index])|, limits.perSet)
  {
    AllResultsSnoc(sets, limits, index);
  }

  lemma RoomAfterSkip(p: Progress, sets: seq<Artifact>, limits: Limits, index: nat)
    requires Room(p, sets, limits, index) && index < |sets| && !Valid(sets[index])
    ensures Room(Skip(p, "invalid_result_set"), sets, limits, index + 1)
  {
    RoomNext(sets, limits, index);
  }

  lemma NothingGivenAfter<T>(sets: seq<Artifact>, limits: Limits, from: nat, to: nat,
                             part: (seq<Artifact>, Limits, nat) -> seq<T>)
    requires from <= to && forall j: nat :: from <= j < to ==> part(sets, limits, j) == []
    ensures Gathered(sets, limits, to, part) == Gathered(sets, limits, from, part)
  {
    if from < to {
      NothingGivenAfter(sets, limits, from, to - 1, part);
    }
  }

  lemma {:induction false} ReadableSnoc(items: seq<Json>, last: Json)
    ensures Readable(items + [last])
         == Readable(items) + if last.Str? && !Blank(last.s) then [Strip(last.s)] else []
  {
    if items == [] {
      assert [last][1..] == [];
    } else {
      assert (items + [last])[1..] == items[1..] + [last];
      ReadableSnoc(items[1..], last);
    }
  }

  /** Keeping the nonblank texts and stripping them later gives the readable texts. */
  lemma {:induction false} TextsReadable(items: seq<Json>)
    ensures StrippedTexts(Texts(items)) == Readable(items)
  {
    if items != [] {
      var n := |items| - 1;
      TextsReadable(items[..n]);
      ReadableSnoc(items[..n], items[n]);
      assert items == items[..n] + [items[n]];
      if HasText(items[n]) {
        FlatMapSnoc(Texts(items[..n]), items[n].s, StrippedText);
      } else {
        assert Texts(items) == Texts(items[..n]);
      }
    }
  }

  /** How many results a valid set gives with `have` results collected before. */
  ghost function Due(a: Artifact, limits: Limits, have: nat): nat {
    Min(Min(|ResultsOf(a)|, limits.perSet), if have < limits.total then limits.total - have else 0)
  }

  ghost function LineageOf(a: Artifact): seq<Lineage> {
    if a.Artifact? && a.lineage.Items? then a.lineage.items else []
  }

  lemma ValidShape(a: Artifact)
    requires Valid(a)
    ensures a.Artifact? && a.rawResults == Arr(true, ResultsOf(a))
  {
  }

  /** What accepting a set adds. */
  lemma AcceptAddsLists(p: Progress, a: Artifact, index: nat, limits: Limits, receipts: seq<string>)
    requires Valid(a) && |p.raw| < limits.total
    ensures var q, count := Accept(p, a, index, limits, receipts), Due(a, limits, |p.raw|);
            && q.raw == p.raw + Beginning(ResultsOf(a), count)
            && q.sources == p.sources + Beginning(SideOf(a, SourceRefs), count)
            && q.citations == p.citations + Beginning(SideOf(a, Citations), count)
            && q.lineage == p.lineage + Beginning(LineageOf(a), count)
  {
    ValidShape(a);
  }

  lemma AcceptAddsBooks(p: Progress, a: Artifact, index: nat, limits: Limits, receipts: seq<string>)
    requires Valid(a) && |p.raw| < limits.total
    ensures var q, count := Accept(p, a, index, limits, receipts), Due(a, limits, |p.raw|);
            && q.receipts == p.receipts + receipts
            && q.records == p.records + [RecordOf(a, index, count, |p.raw|)]
            && q.skipped == p.skipped + if |ResultsOf(a)| > count then ["result_count_bounded"] else []
  {
    ValidShape(a);
  }

  /** What a set that is reached with room left gives. */
  lemma GivenAt(sets: seq<Artifact>, limits: Limits, j: nat)
    ensures Gives(sets, limits, j) ==>
              var count := Due(sets[j], limits, |AllResults(sets[..j], limits)|);
              && ResultsGiven(sets, limits, j) == Beginning(ResultsOf(sets[j]), count)
              && SourcesGiven(sets, limits, j) == Beginning(SideOf(sets[j], SourceRefs), count)
              && CitationsGiven(sets, limits, j) == Beginning(SideOf(sets[j], Citations), count)
              && LineageGiven(sets, limits, j) == Beginning(LineageOf(sets[j]), count)
  {
  }

  lemma RoomAfterAccept(p: Progress, sets: seq<Artifact>, limits: Limits, index: nat, receipts: seq<string>)
    requires Room(p, sets, limits, index) && index < |sets| && Valid(sets[index]) && |p.raw| < limits.total
    ensures Room(Accept(p, sets[index], index, limits, receipts), sets, limits, index + 1)
  {
    RoomNext(sets, limits, index);
    AcceptAddsLists(p, sets[index], index, limits, receipts);
  }

  lemma ListingAfterAccept(p: Progress, sets: seq<Artifact>, limits: Limits, index: nat, receipts: seq<string>)
    requires Room(p, sets, limits, index) && index < |sets| && Valid(sets[index]) && |p.raw| < limits.total
    requires Listing(p, sets, limits, index)
    ensures Listing(Accept(p, sets[index], index, limits, receipts), sets, limits, index + 1)
  {
    AcceptAddsLists(p, sets[index], index, limits, receipts);
    GivenAt(sets, limits, index);
  }

  lemma ShareIsDue(sets: seq<Artifact>, limits: Limits, j: nat)
    requires j < |sets| && Reached(sets, limits, j)
    ensures Share(sets, limits, j) == Due(sets[j], limits, |AllResults(sets[..j], limits)|)
  {
  }

  function RecordOf(a: Artifact, j: nat, count: nat, start: nat): InputRecord {
    InputRecord(j, if a.Artifact? then a.artifactType else Null, if a.Artifact? then a.searchId else Null,
                if a.Artifact? then a.query else Null, count, start, start + count)
  }

  /** The record of a set that is reached with room left. */
  lemma RecordAt(sets: seq<Artifact>, limits: Limits, j: nat, have: nat)
    ensures Gives(sets, limits, j) && have == |AllResults(sets[..j], limits)| ==>
              RecordGiven(sets, limits, j) == [RecordOf(sets[j], j, Due(sets[j], limits, have), have)]
  {
    if Gives(sets, limits, j) {
      ShareIsDue(sets, limits, j);
    }
  }

  lemma ReasonAt(sets: seq<Artifact>, limits: Limits, j: nat)
    ensures Gives(sets, limits, j) && !Ended(sets, limits, j) ==>
              ReasonsGiven(sets, limits, j)
              == if |ResultsOf(sets[j])| > Due(sets[j], limits, |AllResults(sets[..j], limits)|)
                 then ["result_count_bounded"] else []
  {
  }

  lemma ReceiptsAt(sets: seq<Artifact>, limits: Limits, j: nat, receipts: seq<string>)
    requires j < |sets| && sets[j].Artifact?
    ensures Gives(sets, limits, j) && ReceiptTexts(sets[j].receiptRefs) == Some(receipts) ==>
              ReceiptsGiven(sets, limits, j) == StrippedTexts(receipts)
  {
    var refs := sets[j].receiptRefs;
    if refs.Some? && refs.value.Arr? {
      TextsReadable(refs.value.items);
    }
  }

  /** The books after a step, from what the step added. */
  ghost predicate Adds(p: Progress, q: Progress, receipts: seq<string>, record: seq<InputRecord>,
                       reasons: seq<string>)
  {
    && StrippedTexts(q.receipts) == StrippedTexts(p.receipts) + receipts
    && q.records == p.records + record && q.skipped == p.skipped + reasons
  }

  lemma BookedStep(p: Progress, q: Progress, sets: seq<Artifact>, limits: Limits, opening: seq<string>, index: nat)
    requires Booked(p, sets, limits, opening, index)
    ensures Adds(p, q, ReceiptsGiven(sets, limits, index), RecordGiven(sets, limits, index),
                 ReasonsGiven(sets, limits, index)) ==>
              Booked(q, sets, limits, opening, index + 1)
  {
  }

  lemma TurnGives(p: Progress, sets: seq<Artifact>, limits: Limits, index: nat)
    requires index < |sets| && |p.raw| < limits.total
    ensures Room(p, sets, limits, index) && Valid(sets[index]) ==> Gives(sets, limits, index)
    ensures Room(p, sets, limits, index) ==> |AllResults(sets[..index], limits)| == |p.raw|
  {
  }

  lemma AcceptAddsReceipts(p: Progress, sets: seq<Artifact>, limits: Limits, index: nat, receipts: seq<string>)
    requires index < |sets| && Valid(sets[index]) && |p.raw| < limits.total
    requires ReceiptTexts(sets[index].receiptRefs) == Some(receipts)
    ensures Room(p, sets, limits, index) ==>
              StrippedTexts(Accept(p, sets[index], index, limits, receipts).receipts)
              == StrippedTexts(p.receipts) + ReceiptsGiven(sets, limits, index)
  {
    ValidShape(sets[index]);
    TurnGives(p, sets, limits, index);
    ReceiptsAt(sets, limits, index, receipts);
    FlatMapAppend(p.receipts, receipts, StrippedText);
  }

  lemma AcceptAddsRecord(p: Progress, sets: seq<Artifact>, limits: Limits, index: nat, receipts: seq<string>)
    requires index < |sets| && Valid(sets[index]) && |p.raw| < limits.total
    ensures Room(p, sets, limits, index) ==>
              Accept(p, sets[index], index, limits, receipts).records
              == p.records + RecordGiven(sets, limits, index)
  {
    AcceptAddsBooks(p, sets[index], index, limits, receipts);
    TurnGives(p, sets, limits, index);
    RecordAt(sets, limits, index, |p.raw|);
  }

  lemma AcceptAddsReason(p: Progress, sets: seq<Artifact>, limits: Limits, index: nat, receipts: seq<string>)
    requires index < |sets| && Valid(sets[index]) && |p.raw| < limits.total
    ensures Room(p, sets, limits, index) && !Ended(sets, limits, index) ==>
              Accept(p, sets[index], index, limits, receipts).skipped
              == p.skipped + ReasonsGiven(sets, limits, index)
  {
    AcceptAddsBooks(p, sets[index], index, limits, receipts);
    TurnGives(p, sets, limits, index);
    ReasonAt(sets, limits, index);
  }

  lemma BookedAfterAccept(p: Progress, sets: seq<Artifact>, limits: Limits, opening: seq<string>, index: nat,
                          receipts: seq<string>)
    requires Room(p, sets, limits, index) && index < |sets| && Valid(sets[index]) && |p.raw| < limits.total
    requires Booked(p, sets, limits, opening, index) && !Ended(sets, limits, index)
    requires ReceiptTexts(sets[index].receiptRefs) == Some(receipts)
    ensures Booked(Accept(p, sets[index], index, limits, receipts), sets, limits, opening, index + 1)
  {
    AcceptAddsReceipts(p, sets, limits, index, receipts);
    AcceptAddsRecord(p, sets, limits, index, receipts);
    AcceptAddsReason(p, sets, limits, index, receipts);
    BookedStep(p, Accept(p, sets[index], index, limits, receipts), sets, limits, opening, index);
  }

  lemma NothingGivenAt(sets: seq<Artifact>, limits: Limits, j: nat)
    requires !Gives(sets, limits, j)
    ensures ResultsGiven(sets, limits, j) == [] && SourcesGiven(sets, limits, j) == []
    ensures CitationsGiven(sets, limits, j) == [] && LineageGiven(sets, limits, j) == []
    ensures ReceiptsGiven(sets, limits, j) == [] && RecordGiven(sets, limits, j) == []
  {
  }

  lemma ListingAfterSkip(p: Progress, sets: seq<Artifact>, limits: Limits, index: nat, reason: string)
    requires index < |sets| && !Valid(sets[index]) && Listing(p, sets, limits, index)
    ensures Listing(Skip(p, reason), sets, limits, index + 1)
  {
    NothingGivenAt(sets, limits, index);
  }

  lemma BookedAfterSkip(p: Progress, sets: seq<Artifact>, limits: Limits, opening: seq<string>, index: nat)
    requires index < |sets| && !Valid(sets[index]) && !Ended(sets, limits, index)
    requires Booked(p, sets, limits, opening, index)
    ensures Booked(Skip(p, "invalid_result_set"), sets, limits, opening, index + 1)
  {
    NothingGivenAt(sets, limits, index);
    assert ReasonsGiven(sets, limits, index) == ["invalid_result_set"];
    BookedStep(p, Skip(p, "invalid_result_set"), sets, limits, opening, index);
  }

  lemma {:induction false} EndedStays(sets: seq<Artifact>, limits: Limits, i: nat, j: nat)
    requires i <= j && Ended(sets, limits, i)
    ensures Ended(sets, limits, j)
  {
    if i < j {
      EndedStays(sets, limits, i, j - 1);
    }
  }

  lemma NoRoomNoGift(sets: seq<Artifact>, limits: Limits, index: nat, j: nat)
    requires index <= j && index < |sets| && !Reached(sets, limits, index)
    ensures !Gives(sets, limits, j)
  {
    if j < |sets| {
      NoFewerResults(sets, limits, index, j);
    }
  }

  lemma ListingWhenFull(p: Progress, sets: seq<Artifact>, limits: Limits, index: nat)
    requires index < |sets| && !Reached(sets, limits, index) && Listing(p, sets, limits, index)
    ensures Listing(p, sets, limits, |sets|)
  {
    forall j: nat | index <= j
      ensures ResultsGiven(sets, limits, j) == [] && SourcesGiven(sets, limits, j) == []
      ensures CitationsGiven(sets, limits, j) == [] && LineageGiven(sets, limits, j) == []
    {
      NoRoomNoGift(sets, limits, index, j);
      NothingGivenAt(sets, limits, j);
    }
    NothingGivenAfter(sets, limits, index, |sets|, ResultsGiven);
    NothingGivenAfter(sets, limits, index, |sets|, SourcesGiven);
    NothingGivenAfter(sets, limits, index, |sets|, CitationsGiven);
    NothingGivenAfter(sets, limits, index, |sets|, LineageGiven);
  }

  lemma EndedHere(sets: seq<Artifact>, limits: Limits, index: nat)
    requires index < |sets| && Valid(sets[index]) && !Reached(sets, limits, index)
    ensures Ended(sets, limits, index + 1)
    ensures !Ended(sets, limits, index) ==>
              ReasonsGiven(sets, limits, index) == ["total_result_count_bounded"]
  {
  }

  lemma BooksWhenFull(sets: seq<Artifact>, limits: Limits, index: nat)
    requires index < |sets| && !Reached(sets, limits, index)
    ensures Gathered(sets, limits, |sets|, ReceiptsGiven) == Gathered(sets, limits, index, ReceiptsGiven)
    ensures Gathered(sets, limits, |sets|, RecordGiven) == Gathered(sets, limits, index, RecordGiven)
  {
    forall j: nat | index <= j
      ensures ReceiptsGiven(sets, limits, j) == [] && RecordGiven(sets, limits, j) == []
    {
      NoRoomNoGift(sets, limits, index, j);
      NothingGivenAt(sets, limits, j);
    }
    NothingGivenAfter(sets, limits, index, |sets|, ReceiptsGiven);
    NothingGivenAfter(sets, limits, index, |sets|, RecordGiven);
  }

  lemma ReasonsWhenFull(sets: seq<Artifact>, limits: Limits, index: nat)
    requires index < |sets| && Valid(sets[index]) && !Reached(sets, limits, index) && !Ended(sets, limits, index)
    ensures Gathered(sets, limits, |sets|, ReasonsGiven)
         == Gathered(sets, limits, index, ReasonsGiven) + ["total_result_count_bounded"]
  {
    EndedHere(sets, limits, index);
    forall j: nat | index + 1 <= j ensures ReasonsGiven(sets, limits, j) == [] {
      EndedStays(sets, limits, index + 1, j);
    }
    NothingGivenAfter(sets, limits, index + 1, |sets|, ReasonsGiven);
  }

  lemma BookedWhenFull(p: Progress, sets: seq<Artifact>, limits: Limits, opening: seq<string>, index: nat)
    requires index < |sets| && Valid(sets[index]) && !Reached(sets, limits, index) && !Ended(sets, limits, index)
    requires Booked(p, sets, limits, opening, index)
    ensures Booked(Skip(p, "total_result_count_bounded"), sets, limits, opening, |sets|)
  {
    BooksWhenFull(sets, limits, index);
    ReasonsWhenFull(sets, limits, index);
  }

  lemma NotEnded(sets: seq<Artifact>, limits: Limits, index: nat)
    requires index < |sets| && !Ended(sets, limits, index) && (Valid(sets[index]) ==> Reached(sets, limits, index))
    ensures !Ended(sets, limits, index + 1)
  {
  }

  /** The loop from set `index` on leaves the lists and books of all sets. */
  lemma {:induction false} BooksKept(sets: seq<Artifact>, limits: Limits, opening: seq<string>, index: nat, p: Progress)
    requires index <= |sets| && Room(p, sets, limits, index) && !Ended(sets, limits, index)
    requires Listing(p, sets, limits, index) && Booked(p, sets, limits, opening, index)
    requires MergeFrom(sets, limits, index, p).Some?
    ensures var q := MergeFrom(sets, limits, index, p).value;
            Listing(q, sets, limits, |sets|) && Booked(q, sets, limits, opening, |sets|)
    decreases |sets| - index
  {
    if index < |sets| {
      if !Valid(sets[index]) {
        NotEnded(sets, limits, index);
        RoomAfterSkip(p, sets, limits, index);
        ListingAfterSkip(p, sets, limits, index, "invalid_result_set");
        BookedAfterSkip(p, sets, limits, opening, index);
        BooksKept(sets, limits, opening, index + 1, Skip(p, "invalid_result_set"));
      } else if |p.raw| >= limits.total {
        ListingWhenFull(p, sets, limits, index);
        BookedWhenFull(p, sets, limits, opening, index);
      } else {
        var receipts := ReceiptTexts(sets[index].receiptRefs).value;
        TurnGives(p, sets, limits, index);
        NotEnded(sets, limits, index);
        RoomAfterAccept(p, sets, limits, index, receipts);
        ListingAfterAccept(p, sets, limits, index, receipts);
        BookedAfterAccept(p, sets, limits, opening, index, receipts);
        BooksKept(sets, limits, opening, index + 1, Accept(p, sets[index], index, limits, receipts));
      }
    }
  }

  const REASONS := {
    "result_set_count_bounded", "invalid_result_set", "total_result_count_bounded", "result_count_bounded"
  }

  lemma ReasonPlain(reason: string)
    requires reason in REASONS
    ensures StrippedText(reason) == [reason]
  {
    NotBlankAt(reason, 0);
    StripFacts(reason);
  }

  ghost predicate Plain(texts: seq<string>) {
    forall i :: 0 <= i < |texts| ==> texts[i] in REASONS
  }

  lemma PlainStripped(texts: seq<string>)
    requires Plain(texts)
    ensures StrippedTexts(texts) == texts
  {
    forall i | 0 <= i < |texts| ensures StrippedText(texts[i]) == [texts[i]] {
      ReasonPlain(texts[i]);
    }
    FlatMapIdentity(texts, StrippedText);
  }

  lemma {:induction false} ReasonsPlain(sets: seq<Artifact>, limits: Limits, upTo: nat)
    ensures Plain(Gathered(sets, limits, upTo, ReasonsGiven))
  {
    if upTo > 0 {
      ReasonsPlain(sets, limits, upTo - 1);
    }
  }

  ghost function Strings(texts: seq<string>): Json {
    Arr(true, seq(|texts|, i requires 0 <= i < |texts| => Str(texts[i])))
  }

  ghost function OpeningReasons(sets: seq<Artifact>, limits: Limits): seq<string> {
    if |sets| > limits.sets then ["result_set_count_bounded"] else []
  }

  lemma OpeningBooks(sets: seq<Artifact>, limits: Limits, b: seq<Artifact>)
    ensures var p := Opening(sets, limits);
            && Room(p, b, limits, 0) && Listing(p, b, limits, 0)
            && Booked(p, b, limits, OpeningReasons(sets, limits), 0)
  {
    assert Contributions(b[..0], limits) == [];
  }

  lemma CollectBooks(sets: seq<Artifact>, limits: Limits)
    requires Collect(sets, limits).Some?
    ensures var p, b := Collect(sets, limits).value, Beginning(sets, limits.sets);
            Listing(p, b, limits, |b|) && Booked(p, b, limits, OpeningReasons(sets, limits), |b|)
  {
    assert Bounded(sets, limits) == Beginning(sets, limits.sets);
    OpeningBooks(sets, limits, Bounded(sets, limits));
    BooksKept(Bounded(sets, limits), limits, OpeningReasons(sets, limits), 0, Opening(sets, limits));
  }

  /** The lists of a merged artifact, from its input sets. */
  lemma MergedListsExactly(searchId: Json, sets: seq<Artifact>, limits: Limits)
    requires Merge(searchId, Some(sets), limits).Some?
    ensures var a, b := Merge(searchId, Some(sets), limits).value, Beginning(sets, limits.sets);
            && a.Artifact?
            && a.rawResults == Arr(true, Gathered(b, limits, |b|, ResultsGiven))
            && a.sourceRefs == Arr(true, Gathered(b, limits, |b|, SourcesGiven))
            && a.citations == Arr(true, Gathered(b, limits, |b|, CitationsGiven))
            && a.lineage == Items(Gathered(b, limits, |b|, LineageGiven))
  {
    CollectBooks(sets, limits);
  }

  /**
   The receipts of a merged artifact: the stripped readable receipt texts of exactly the sets
   that give results, in input order, and in the provenance each of them once.
   */
  lemma MergedReceiptsExactly(searchId: Json, sets: seq<Artifact>, limits: Limits) returns (refs: seq<string>)
    requires Merge(searchId, Some(sets), limits).Some?
    ensures var a, b := Merge(searchId, Some(sets), limits).value, Beginning(sets, limits.sets);
            var receipts := Gathered(b, limits, |b|, ReceiptsGiven);
            && a.Artifact? && a.receiptRefs == Some(Strings(receipts))
            && a.provenance.Provenance? && a.provenance.receiptRefs == Strings(refs)
            && EachOnceInOrder(refs, receipts)
  {
    CollectBooks(sets, limits);
    refs := Unique(Collect(sets, limits).value.receipts);
    UniqueKeepsOrder(Collect(sets, limits).value.receipts);
  }

  /**
   The merge metadata: one record for each set that gives results, the counts, the limits, and
   the reason of every set that was skipped or cut, each reason once.
   */
  lemma MergedMetadataExactly(searchId: Json, sets: seq<Artifact>, limits: Limits) returns (reasons: seq<string>)
    requires Merge(searchId, Some(sets), limits).Some?
    ensures var a, b := Merge(searchId, Some(sets), limits).value, Beginning(sets, limits.sets);
            var records := Gathered(b, limits, |b|, RecordGiven);
            && a.Artifact? && a.metadata.Metadata?
            && a.metadata.inputs == InputSets(records) && a.metadata.inputCount == Num(|records|)
            && a.metadata.rawResultCount == Num(|Gathered(b, limits, |b|, ResultsGiven)|)
            && a.metadata.limits == LimitValues(Num(limits.sets), Num(limits.perSet), Num(limits.total))
            && a.metadata.skipped == Strings(reasons)
            && EachOnceInOrder(reasons, OpeningReasons(sets, limits) + Gathered(b, limits, |b|, ReasonsGiven))
  {
    CollectBooks(sets, limits);
    var p, b := Collect(sets, limits).value, Beginning(sets, limits.sets);
    reasons := Unique(p.skipped);
    UniqueKeepsOrder(p.skipped);
    ReasonsPlain(b, limits, |b|);
    PlainStripped(p.skipped);
  }

  /** The head of a merged artifact. */
  lemma MergedHeadExactly(searchId: Json, sets: Option<seq<Artifact>>, limits: Limits)
    requires Merge(searchId, sets, limits).Some?
    ensures var a := Merge(searchId, sets, limits).value;
            && a.Artifact? && a.query == Str("merged external search result sets")
            && a.searchId == (if searchId.Str? && !Blank(searchId.s) then Str(Strip(searchId.s)) else Null)
            && a.externalCall == Bool(false) && a.costIncurred == Bool(false) && a.rejected == Arr(true, [])
  {
    var query := "merged external search result sets";
    NotBlankAt(query, 0);
    StripFacts(query);
  }

  lemma MissingReason()
    ensures Unique(["result_sets_missing"]) == ["result_sets_missing"]
  {
    NotBlankAt("result_sets_missing", 0);
    StripFacts("result_sets_missing");
    assert Unique([]) == [];
  }

  /** Anything but a list or tuple of sets merges to nothing, and says so. */
  lemma MissingSetsExactly(searchId: Json, limits: Limits)
    ensures var merged := Merge(searchId, None, limits);
            && merged.Some? && merged.value.Artifact? && merged.value.rawResults == Arr(true, [])
            && merged.value.sourceRefs == Arr(true, []) && merged.value.citations == Arr(true, [])
            && merged.value.lineage == Items([]) && merged.value.receiptRefs == Some(Arr(true, []))
            && merged.value.metadata.Metadata? && merged.value.metadata.inputs == InputSets([])
            && merged.value.metadata.skipped == Arr(true, [Str("result_sets_missing")])
  {
    MissingReason();
    FinishedSkips(searchId, limits, Skip(START, "result_sets_missing"), ["result_sets_missing"]);
  }

  lemma FinishedSkips(searchId: Json, limits: Limits, p: Progress, reasons: seq<string>)
    requires Unique(p.skipped) == reasons && p.receipts == []
    ensures Finish(searchId, limits, p).metadata.skipped == Strings(reasons)
    ensures Finish(searchId, limits, p).receiptRefs == Some(Arr(true, []))
  {
    assert StrippedTexts(p.receipts) == [];
    assert ExternalSearchMerge.TextList([]) == Arr(true, []);
  }
}
