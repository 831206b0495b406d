/** Ranking index entries by the query terms they contain (runtime/semantic_retrieval.py). */
module SemanticRetrieval {
  import opened JsonValues
  import opened Sequences
  import opened Text
  import opened Wrappers

  const MAX_LIMIT := 5

  /** `str.lower()` of one character, as far as ASCII letters and digits can come out of it. */
  function LowerChar(c: char): string {
    if 'A' <= c <= 'Z' then [c - 'A' + 'a']
    else if c == '\U{212A}' then "k"
    else if c == '\U{130}' then "i\U{307}"
    else [c]
  }

  function Lower(s: string): string {
    FlatMap(s, LowerChar)
  }

  predicate TermChar(c: char) {
    'a' <= c <= 'z' || '0' <= c <= '9'
  }

  /** The finished pieces of a split, and the piece at its end. */
  datatype Split = Split(done: seq<string>, last: string)

  /** Splitting at runs of other characters. */
  function Pieces(s: string): Split {
    if s == "" then Split([], "")
    else
      var before, c := Pieces(s[..|s| - 1]), s[|s| - 1];
      if TermChar(c) then Split(before.done, before.last + [c])
      else if before.last == "" then before
      else Split(before.done + [before.last], "")
  }

  function AllPieces(s: string): seq<string> {
    var split := Pieces(s);
    if split.last == "" then split.done else split.done + [split.last]
  }

  /** What `_normalized_terms` returns. */
  function Terms(text: string): seq<string> {
    OnceEach(AllPieces(Lower(text)))
  }

  /** The loop of `_normalized_terms` over the split pieces, with its set of seen terms. */
  method CollectTerms(text: string) returns (terms: seq<string>)
    ensures terms == Terms(text)
  {
    var pieces := AllPieces(Lower(text));
    terms := [];
    var seen: set<string> := {};
    for i := 0 to |pieces|
      invariant terms == OnceEach(pieces[..i])
      invariant seen == set t | t in terms
    {
      assert pieces[..i + 1][..i] == pieces[..i];
      if pieces[i] !in seen {
        terms := terms + [pieces[i]];
        seen := seen + {pieces[i]};
      }
    }
    assert pieces[..|pieces|] == pieces;
  }

  datatype Entry = Entry(candidateId: string, text: string, tags: seq<string>, categories: seq<string>)

  datatype Match = Match(candidateId: string, score: nat, reasons: seq<string>, matched: seq<string>, entry: Entry)

  function Join(words: seq<string>): string {
    if words == [] then ""
    else if |words| == 1 then words[0]
    else words[0] + " " + Join(words[1..])
  }

  function Among(terms: seq<string>, known: seq<string>): seq<string> {
    if terms == [] then [] else (if terms[0] in known then [terms[0]] else []) + Among(terms[1..], known)
  }

  /** `round(matched / total, 6)` in millionths: to the nearest, ties to even. */
  function Rounded(matched: nat, total: nat): nat
    requires total > 0
  {
    var whole, rest := 1000000 * matched / total, 1000000 * matched % total;
    if 2 * rest < total || (2 * rest == total && whole % 2 == 0) then whole else whole + 1
  }

  function ReasonIf(holds: bool, reason: string): seq<string> {
    if holds then [reason] else []
  }

  predicate AnyIn(terms: seq<string>, known: seq<string>) {
    exists i :: 0 <= i < |terms| && terms[i] in known
  }

  /** `_match_entry`. */
  function MatchEntry(entry: Entry, query: seq<string>): Option<Match>
    requires query != []
  {
    var text, tags, categories := Terms(entry.text), Terms(Join(entry.tags)), Terms(Join(entry.categories));
    var matched := Among(query, text + tags + categories);
    if matched == [] then None
    else
      Some(Match(entry.candidateId, Rounded(|matched|, |query|),
                 ReasonIf(AnyIn(matched, text), "semantic_text_term_overlap")
                 + ReasonIf(AnyIn(matched, tags), "semantic_tag_term_overlap")
                 + ReasonIf(AnyIn(matched, categories), "semantic_category_term_overlap"),
                 matched, entry))
  }

  /** A match with the position of its entry. */
  datatype Record = Record(index: nat, found: Match)

  /** What each entry gives. */
  function Results(entries: seq<Entry>, query: seq<string>): (r: seq<Option<Match>>)
    requires query != []
    ensures |r| == |entries|
    ensures forall i :: 0 <= i < |r| ==> r[i] == MatchEntry(entries[i], query)
  {
    seq(|entries|, i requires 0 <= i < |entries| => MatchEntry(entries[i], query))
  }

  lemma ResultsAppend(a: seq<Entry>, b: seq<Entry>, query: seq<string>)
    requires query != []
    ensures Results(a + b, query) == Results(a, query) + Results(b, query)
  {
  }

  /** The matches with their positions. */
  function Records(results: seq<Option<Match>>): seq<Record> {
    if results == [] then []
    else
      var n := |results| - 1;
      Records(results[..n]) + if results[n].Some? then [Record(n, results[n].value)] else []
  }

  /** The sort key: score descending, then position. */
  predicate Before(a: Record, b: Record) {
    a.found.score > b.found.score || (a.found.score == b.found.score && a.index < b.index)
  }

  function Placed(sorted: seq<Record>, r: Record): seq<Record> {
    if sorted == [] || Before(r, sorted[0]) then [r] + sorted else [sorted[0]] + Placed(sorted[1..], r)
  }

  /** `sorted` by the key. */
  function Ordered(records: seq<Record>): seq<Record> {
    if records == [] then []
    else Placed(Ordered(records[..|records| - 1]), records[|records| - 1])
  }

  /** `_max_results`. */
  function Limit(v: Option<Json>): (limit: nat)
    ensures 1 <= limit <= MAX_LIMIT
  {
    if v.None? || !v.value.Num? then MAX_LIMIT
    else if v.value.n < 1 then 1
    else if v.value.n > MAX_LIMIT then MAX_LIMIT
    else v.value.n
  }

  function First(records: seq<Record>, limit: nat): seq<Match> {
    if records == [] || limit == 0 then [] else [records[0].found] + First(records[1..], limit - 1)
  }

  /** The matches `retrieve_semantic_index_matches` returns for query terms and a well-formed index. */
  function Retrieved(entries: seq<Entry>, query: seq<string>, limit: nat): seq<Match>
    requires query != []
  {
    First(Ordered(Records(Results(entries, query))), limit)
  }

  /** The loop over the index entries. */
  method CollectRecords(entries: seq<Entry>, query: seq<string>) returns (records: seq<Record>)
    requires query != []
    ensures records == Records(Results(entries, query))
  {
    records := [];
    for index := 0 to |entries|
      invariant records == Records(Results(entries[..index], query))
    {
      var found := MatchEntry(entries[index], query);
      ResultsSnoc(entries, query, index);
      RecordsSnoc(Results(entries[..index], query), found);
      if found.Some? {
        records := records + [Record(index, found.value)];
      }
    }
    assert entries[..|entries|] == entries;
  }

  lemma ResultsSnoc(entries: seq<Entry>, query: seq<string>, n: nat)
    requires query != [] && n < |entries|
    ensures Results(entries[..n + 1], query) == Results(entries[..n], query) + [MatchEntry(entries[n], query)]
  {
  }

  /** `retrieve_semantic_index_matches`: no terms, no matches. */
  method Retrieve(queryText: string, entries: seq<Entry>, maxResults: Option<Json>) returns (matches: seq<Match>)
    ensures Terms(queryText) == [] ==> matches == []
    ensures Terms(queryText) != [] ==> matches == Retrieved(entries, Terms(queryText), Limit(maxResults))
  {
    var query := CollectTerms(queryText);
    if query == [] {
      return [];
    }
    var records := CollectRecords(entries, query);
    matches := First(Ordered(records), Limit(maxResults));
  }

  lemma RecordsSnoc(results: seq<Option<Match>>, last: Option<Match>)
    ensures Records(results + [last])
         == Records(results) + if last.Some? then [Record(|results|, last.value)] else []
  {
    assert (results + [last])[..|results|] == results;
  }

  /** Collected terms are nonempty runs of lower-case letters and digits. */
  ghost predicate GoodTerm(t: string) {
    t != "" && forall i :: 0 <= i < |t| ==> TermChar(t[i])
  }

  lemma {:induction false} PiecesGood(s: string)
    ensures forall i :: 0 <= i < |Pieces(s).done| ==> GoodTerm(Pieces(s).done[i])
    ensures forall i :: 0 <= i < |Pieces(s).last| ==> TermChar(Pieces(s).last[i])
  {
    if s != "" {
      PiecesGood(s[..|s| - 1]);
    }
  }

  lemma TermsGood(text: string)
    ensures forall t :: t in Terms(text) ==> GoodTerm(t)
  {
    var s := Lower(text);
    PiecesGood(s);
    OnceEachInOrder(AllPieces(s));
    forall t | t in AllPieces(s) ensures GoodTerm(t) {
      if t in Pieces(s).done {
        var i :| 0 <= i < |Pieces(s).done| && Pieces(s).done[i] == t;
      }
    }
  }

  /** Every record comes before all later ones in the order of the key. */
  ghost predicate Sorted(records: seq<Record>) {
    forall i, j :: 0 <= i < j < |records| ==> Before(records[i], records[j])
  }

  ghost predicate DistinctPositions(records: seq<Record>) {
    forall i, j :: 0 <= i < j < |records| ==> records[i].index < records[j].index
  }

  lemma {:induction false} PlacedSorted(sorted: seq<Record>, r: Record)
    requires Sorted(sorted) && forall i :: 0 <= i < |sorted| ==> sorted[i].index != r.index
    ensures Sorted(Placed(sorted, r)) && multiset(Placed(sorted, r)) == multiset(sorted) + multiset{r}
  {
    if sorted != [] && !Before(r, sorted[0]) {
      var rest := Placed(sorted[1..], r);
      PlacedSorted(sorted[1..], r);
      assert sorted == [sorted[0]] + sorted[1..];
      forall j | 0 <= j < |rest| ensures Before(sorted[0], rest[j]) {
        assert rest[j] in multiset(rest);
        assert rest[j] == r || rest[j] in sorted[1..];
      }
    }
  }

  /** The ranking holds exactly the matches and is sorted by score, then position. */
  lemma {:induction false} OrderedSorted(records: seq<Record>)
    requires DistinctPositions(records)
    ensures Sorted(Ordered(records)) && multiset(Ordered(records)) == multiset(records)
  {
    if records != [] {
      var init, last := records[..|records| - 1], records[|records| - 1];
      OrderedSorted(init);
      assert records == init + [last];
      forall i | 0 <= i < |Ordered(init)| ensures Ordered(init)[i].index != last.index {
        assert Ordered(init)[i] in multiset(init);
      }
      PlacedSorted(Ordered(init), last);
    }
  }

  lemma {:induction false} RecordsPositioned(results: seq<Option<Match>>)
    ensures DistinctPositions(Records(results))
    ensures forall r :: r in Records(results) <==> r.index < |results| && results[r.index] == Some(r.found)
  {
    if results != [] {
      var n := |results| - 1;
      var init := Records(results[..n]);
      RecordsPositioned(results[..n]);
      forall r ensures r in Records(results) <==> r.index < |results| && results[r.index] == Some(r.found) {
        assert r in Records(results) <==> r in init || (results[n].Some? && r == Record(n, results[n].value));
      }
      forall i | 0 <= i < |init| ensures init[i].index < n {
        assert init[i] in init;
      }
    }
  }

  lemma {:induction false} FirstIs(records: seq<Record>, limit: nat)
    ensures |First(records, limit)| == if |records| < limit then |records| else limit
    ensures forall i :: 0 <= i < |First(records, limit)| ==> First(records, limit)[i] == records[i].found
  {
    if records != [] && limit > 0 {
      FirstIs(records[1..], limit - 1);
    }
  }

  /**
   Top k: the result is the first `limit` of a list that holds exactly the matching entries,
   once each, sorted by rounded score descending and then by position.
   */
  lemma TopMatches(entries: seq<Entry>, query: seq<string>, limit: nat) returns (ranking: seq<Record>)
    requires query != []
    ensures Sorted(ranking)
    ensures forall r :: r in ranking <==> r.index < |entries| && Results(entries, query)[r.index] == Some(r.found)
    ensures var found := Retrieved(entries, query, limit);
            && |found| == (if |ranking| < limit then |ranking| else limit)
            && forall i :: 0 <= i < |found| ==> found[i] == ranking[i].found
  {
    ranking := TopRecords(Results(entries, query), limit);
  }

  lemma TopRecords(results: seq<Option<Match>>, limit: nat) returns (ranking: seq<Record>)
    ensures ranking == Ordered(Records(results)) && Sorted(ranking)
    ensures forall r :: r in ranking <==> r.index < |results| && results[r.index] == Some(r.found)
    ensures var found := First(ranking, limit);
            && |found| == (if |ranking| < limit then |ranking| else limit)
            && forall i :: 0 <= i < |found| ==> found[i] == ranking[i].found
  {
    var records := Records(results);
    ranking := Ordered(records);
    RecordsPositioned(results);
    OrderedSorted(records);
    FirstIs(ranking, limit);
    SameMembers(ranking, records);
  }

  lemma SameMembers(a: seq<Record>, b: seq<Record>)
    requires multiset(a) == multiset(b)
    ensures forall r :: r in a <==> r in b
  {
    forall r ensures r in a <==> r in b {
      assert r in multiset(a) <==> r in multiset(b);
    }
  }

  /** A smaller limit returns a prefix of what a larger one returns. */
  lemma SmallerLimitIsPrefix(entries: seq<Entry>, query: seq<string>, small: nat, large: nat)
    requires query != [] && small <= large
    ensures Retrieved(entries, query, small) <= Retrieved(entries, query, large)
  {
    var ranking := Ordered(Records(Results(entries, query)));
    FirstIs(ranking, small);
    FirstIs(ranking, large);
  }

  /** The matches in entry order, without their positions. */
  function Plain(results: seq<Option<Match>>): seq<Match> {
    if results == [] then []
    else
      var n := |results| - 1;
      Plain(results[..n]) + if results[n].Some? then [results[n].value] else []
  }

  function Inserted(ranked: seq<Match>, m: Match): seq<Match> {
    if ranked == [] || m.score > ranked[0].score then [m] + ranked else [ranked[0]] + Inserted(ranked[1..], m)
  }

  /** Ranking by score alone, earlier matches first among equals. */
  function Ranked(matches: seq<Match>): seq<Match> {
    if matches == [] then [] else Inserted(Ranked(matches[..|matches| - 1]), matches[|matches| - 1])
  }

  function Founds(records: seq<Record>): (r: seq<Match>)
    ensures |r| == |records|
    ensures forall i :: 0 <= i < |r| ==> r[i] == records[i].found
  {
    seq(|records|, i requires 0 <= i < |records| => records[i].found)
  }

  lemma {:induction false} PlacedFounds(sorted: seq<Record>, r: Record)
    requires forall i :: 0 <= i < |sorted| ==> sorted[i].index < r.index
    ensures Founds(Placed(sorted, r)) == Inserted(Founds(sorted), r.found)
  {
    if sorted == [] || Before(r, sorted[0]) {
      assert Founds([r] + sorted) == [r.found] + Founds(sorted);
    } else {
      PlacedFounds(sorted[1..], r);
      assert Founds(sorted)[1..] == Founds(sorted[1..]);
      assert Founds([sorted[0]] + Placed(sorted[1..], r)) == [sorted[0].found] + Founds(Placed(sorted[1..], r));
    }
  }

  /** Positions only break ties: the ranking is that of the matches in entry order. */
  lemma {:induction false} PositionsBreakTies(results: seq<Option<Match>>)
    ensures Founds(Ordered(Records(results))) == Ranked(Plain(results))
  {
    if results == [] {
      assert Founds([]) == [];
    } else {
      var n := |results| - 1;
      PositionsBreakTies(results[..n]);
      if results[n].Some? {
        var init, last := Records(results[..n]), Record(n, results[n].value);
        RecordsPositioned(results[..n]);
        OrderedSorted(init);
        SameMembers(Ordered(init), init);
        forall i | 0 <= i < |Ordered(init)| ensures Ordered(init)[i].index < n {
          assert Ordered(init)[i] in init;
        }
        assert (init + [last])[..|init|] == init;
        PlacedFounds(Ordered(init), last);
        var plain := Plain(results[..n]);
        assert (plain + [results[n].value])[..|plain|] == plain;
      } else {
        assert Records(results) == Records(results[..n]) && Plain(results) == Plain(results[..n]);
      }
    }
  }

  lemma {:induction false} PlainAppend(a: seq<Option<Match>>, b: seq<Option<Match>>)
    ensures Plain(a + b) == Plain(a) + Plain(b)
    decreases |b|
  {
    if b == [] {
      assert a + b == a;
    } else {
      var n := |b| - 1;
      assert (a + b)[..|a| + n] == a + b[..n];
      PlainAppend(a, b[..n]);
    }
  }

  lemma FirstOfFounds(records: seq<Record>, limit: nat)
    ensures First(records, limit) == Founds(records)[..if |records| < limit then |records| else limit]
  {
    FirstIs(records, limit);
  }

  /** Entries that match nothing can be inserted anywhere without changing the result. */
  lemma NonMatchingEntriesIgnored(before: seq<Entry>, extra: seq<Entry>, after: seq<Entry>, query: seq<string>,
                                  limit: nat)
    requires query != [] && forall i :: 0 <= i < |extra| ==> MatchEntry(extra[i], query).None?
    ensures Retrieved(before + extra + after, query, limit) == Retrieved(before + after, query, limit)
  {
    var a, x, b := Results(before, query), Results(extra, query), Results(after, query);
    ResultsAppend(before + extra, after, query);
    ResultsAppend(before, extra, query);
    ResultsAppend(before, after, query);
    NothingPlain(x);
    PlainWithout(a, x, b);
    SameRankingSameResult(a + x + b, a + b, limit);
  }

  lemma PlainWithout(a: seq<Option<Match>>, x: seq<Option<Match>>, b: seq<Option<Match>>)
    requires Plain(x) == []
    ensures Plain(a + x + b) == Plain(a + b)
  {
    PlainAppend(a + x, b);
    PlainAppend(a, x);
    PlainAppend(a, b);
  }

  lemma SameRankingSameResult(a: seq<Option<Match>>, b: seq<Option<Match>>, limit: nat)
    requires Plain(a) == Plain(b)
    ensures First(Ordered(Records(a)), limit) == First(Ordered(Records(b)), limit)
  {
    PositionsBreakTies(a);
    PositionsBreakTies(b);
    var p, q := Ordered(Records(a)), Ordered(Records(b));
    assert |Founds(p)| == |Founds(q)|;
    FirstOfFounds(p, limit);
    FirstOfFounds(q, limit);
  }

  lemma {:induction false} NothingPlain(results: seq<Option<Match>>)
    requires forall i :: 0 <= i < |results| ==> results[i].None?
    ensures Plain(results) == []
  {
    if results != [] {
      NothingPlain(results[..|results| - 1]);
    }
  }

  /** Twice the distance of a score from its exact value is at most one millionth. */
  lemma RoundedNear(matched: nat, total: nat)
    requires total > 0
    ensures -(total as int) <= 2 * (Rounded(matched, total) * total - 1000000 * matched) <= total
  {
    var whole, rest := 1000000 * matched / total, 1000000 * matched % total;
    assert 1000000 * matched == whole * total + rest;
    assert (whole + 1) * total == whole * total + total;
  }

  /** Up to a million query terms, one more matched term gives a strictly higher score. */
  lemma RoundingKeepsOrder(m: nat, n: nat, total: nat)
    requires 0 < total <= 1000000 && m < n <= total
    ensures Rounded(m, total) < Rounded(n, total)
  {
    var x, y := Rounded(m, total), Rounded(n, total);
    if total == 1000000 {
      WholeMillionths(m);
      WholeMillionths(n);
    } else {
      RoundedNear(m, total);
      RoundedNear(n, total);
      assert 1000000 * n >= 1000000 * m + 1000000;
      assert 2 * (y * total) >= 2 * 1000000 * n - total > 2 * 1000000 * m + total >= 2 * (x * total);
      if x >= y {
        ProductMonotone(y, x, total);
      }
    }
  }

  lemma WholeMillionths(m: nat)
    ensures Rounded(m, 1000000) == m
  {
    assert 1000000 * m / 1000000 == m && 1000000 * m % 1000000 == 0;
  }

  lemma ProductMonotone(x: nat, y: nat, total: nat)
    requires x <= y
    ensures x * total <= y * total
  {
  }

  /** With every step strict, the score of `n` terms is at least that of one term and the steps since. */
  lemma {:induction false} StrictStepsAdd(n: nat, total: nat)
    requires 1 <= n <= total
    requires forall m :: 1 <= m < total ==> Rounded(m, total) < Rounded(m + 1, total)
    ensures Rounded(n, total) >= Rounded(1, total) + n - 1
  {
    if n > 1 {
      StrictStepsAdd(n - 1, total);
      var m := n - 1;
      assert Rounded(m, total) < Rounded(m + 1, total);
    }
  }

  lemma AllTerms(total: nat)
    requires total > 0
    ensures Rounded(total, total) == 1000000
  {
    var r := Rounded(total, total);
    RoundedNear(total, total);
    if r > 1000000 {
      ProductMonotone(1000001, r, total);
    } else if r < 1000000 {
      ProductMonotone(r, 999999, total);
    }
  }

  lemma TwoTermsCount(total: nat)
    requires 1000000 < total
    ensures total >= 2000000 ==> Rounded(2, total) <= 1
    ensures total < 2000000 ==> Rounded(1, total) >= 1
  {
    RoundedNear(1, total);
    RoundedNear(2, total);
  }

  /**
   Rounding to six places keeps different match counts apart exactly up to a million query
   terms.
   */
  lemma RoundingExact(total: nat)
    requires total > 0
    ensures (forall m :: 1 <= m < total ==> Rounded(m, total) < Rounded(m + 1, total)) <==> total <= 1000000
  {
    if total <= 1000000 {
      forall m | 1 <= m < total ensures Rounded(m, total) < Rounded(m + 1, total) {
        RoundingKeepsOrder(m, m + 1, total);
      }
    } else if forall m :: 1 <= m < total ==> Rounded(m, total) < Rounded(m + 1, total) {
      StrictStepsAdd(total, total);
      AllTerms(total);
      TwoTermsCount(total);
    }
  }
}
