/**
 Which index entries match a query, with what score, reasons and terms: said about the words of
 the entry's text, tags and categories.
 */
module SemanticMatches {
  import opened JsonValues
  import opened SemanticRetrieval
  import opened Sequences
  import opened Wrappers

  /** A longest run of lower-case letters and digits, from `i` to before `j`. */
  ghost predicate RunAt(s: string, i: nat, j: nat) {
    && i < j <= |s| && (forall k :: i <= k < j ==> TermChar(s[k]))
    && (i == 0 || !TermChar(s[i - 1])) && (j == |s| || !TermChar(s[j]))
  }

  /** `t` is such a run of `s`. */
  ghost predicate HasRun(s: string, t: string) {
    exists i: nat, j: nat :: RunAt(s, i, j) && s[i..j] == t
  }

  ghost predicate RisingFrom(starts: seq<nat>) {
    forall a, b :: 0 <= a < b < |starts| ==> starts[a] < starts[b]
  }

  /** The pieces are runs that begin at the given places and end before the end of `s`. */
  ghost predicate AreRuns(s: string, pieces: seq<string>, starts: seq<nat>) {
    && |starts| == |pieces| && RisingFrom(starts)
    && forall k :: 0 <= k < |pieces| ==> ClosedRun(s, pieces[k], starts[k])
  }

  /** The piece is the run that begins at `start`. */
  ghost predicate IsRun(s: string, piece: string, start: nat) {
    RunAt(s, start, start + |piece|) && s[start..start + |piece|] == piece
  }

  ghost predicate ClosedRun(s: string, piece: string, start: nat) {
    start + |piece| < |s| && IsRun(s, piece, start)
  }

  /** Every run that ends before the end of `s` begins at one of the places. */
  ghost predicate AllRuns(s: string, starts: seq<nat>) {
    forall i: nat, j: nat :: j < |s| && RunAt(s, i, j) ==> i in starts
  }

  /** What stands at the end of `s`, back to the last other character. */
  ghost predicate IsTail(s: string, tail: string) {
    && |tail| <= |s| && s[|s| - |tail|..] == tail
    && (forall k :: 0 <= k < |tail| ==> TermChar(tail[k]))
    && (|tail| < |s| ==> !TermChar(s[|s| - |tail| - 1]))
  }

  /** The state of a split. */
  ghost predicate Splits(s: string, split: Split, starts: seq<nat>) {
    AreRuns(s, split.done, starts) && AllRuns(s, starts) && IsTail(s, split.last)
  }

  lemma ClosedRunLater(s: string, c: char, piece: string, start: nat)
    requires ClosedRun(s, piece, start)
    ensures ClosedRun(s + [c], piece, start)
  {
    var t := s + [c];
    assert forall k :: 0 <= k < |s| ==> t[k] == s[k];
    assert t[start..start + |piece|] == s[start..start + |piece|];
  }

  /** A run of the longer text that ends before its last character. */
  lemma RunBefore(s: string, c: char, i: nat, j: nat)
    requires RunAt(s + [c], i, j) && j <= |s|
    ensures RunAt(s, i, j) && (j == |s| ==> !TermChar(c))
  {
    var t := s + [c];
    assert forall k :: 0 <= k < |s| ==> t[k] == s[k];
  }

  lemma TailChars(s: string, tail: string)
    requires IsTail(s, tail)
    ensures forall k :: |s| - |tail| <= k < |s| ==> TermChar(s[k])
  {
    var q := |s| - |tail|;
    forall k | q <= k < |s| ensures TermChar(s[k]) {
      assert s[k] == s[q..][k - q];
    }
  }

  lemma TailIsRun(s: string, tail: string, i: nat)
    requires IsTail(s, tail) && RunAt(s, i, |s|)
    ensures tail != "" && i == |s| - |tail|
  {
    TailChars(s, tail);
  }

  lemma ClosedBeforeTail(s: string, tail: string, piece: string, start: nat)
    requires IsTail(s, tail) && ClosedRun(s, piece, start)
    ensures start + |piece| < |s| - |tail|
  {
    TailChars(s, tail);
  }

  lemma TailRun(s: string, tail: string)
    requires IsTail(s, tail) && tail != ""
    ensures IsRun(s, tail, |s| - |tail|)
  {
    TailChars(s, tail);
  }

  lemma SplitLonger(s: string, c: char, split: Split, starts: seq<nat>) returns (starts': seq<nat>)
    requires Splits(s, split, starts)
    ensures Splits(s + [c], if TermChar(c) then Split(split.done, split.last + [c])
                            else if split.last == "" then split
                            else Split(split.done + [split.last], ""), starts')
  {
    var t := s + [c];
    assert forall k :: 0 <= k < |s| ==> t[k] == s[k];
    forall k | 0 <= k < |starts| ensures ClosedRun(t, split.done[k], starts[k]) {
      ClosedRunLater(s, c, split.done[k], starts[k]);
    }
    starts' := starts;
    if TermChar(c) {
      TailLonger(s, c, split.last);
    } else if split.last != "" {
      var start := |s| - |split.last|;
      starts' := starts + [start];
      TailRun(s, split.last);
      assert RunAt(t, start, |s|) && t[start..|s|] == split.last;
      forall k | 0 <= k < |starts| ensures starts[k] < start {
        ClosedBeforeTail(s, split.last, split.done[k], starts[k]);
      }
    }
    forall i: nat, j: nat | j < |t| && RunAt(t, i, j) ensures i in starts' {
      RunBefore(s, c, i, j);
      if j == |s| {
        TailIsRun(s, split.last, i);
      }
    }
  }

  lemma TailLonger(s: string, c: char, tail: string)
    requires IsTail(s, tail) && TermChar(c)
    ensures IsTail(s + [c], tail + [c])
  {
    var t := s + [c];
    assert t[|t| - |tail| - 1..] == s[|s| - |tail|..] + [c];
    assert forall k :: 0 <= k < |s| ==> t[k] == s[k];
  }

  lemma {:induction false} PiecesSplit(s: string) returns (starts: seq<nat>)
    ensures Splits(s, Pieces(s), starts)
  {
    if s == "" {
      starts := [];
    } else {
      var n := |s| - 1;
      var before := PiecesSplit(s[..n]);
      starts := SplitLonger(s[..n], s[n], Pieces(s[..n]), before);
      assert s == s[..n] + [s[n]];
    }
  }

  /** The pieces of a split are the runs of the text, one for each, from left to right. */
  ghost predicate RunsInOrder(s: string, pieces: seq<string>, starts: seq<nat>) {
    && |starts| == |pieces| && RisingFrom(starts)
    && (forall k :: 0 <= k < |pieces| ==> IsRun(s, pieces[k], starts[k]))
    && forall i: nat, j: nat :: RunAt(s, i, j) ==> i in starts
  }

  lemma WithoutTail(s: string, split: Split, starts: seq<nat>)
    requires Splits(s, split, starts) && split.last == ""
    ensures RunsInOrder(s, split.done, starts)
  {
    forall k | 0 <= k < |starts| ensures IsRun(s, split.done[k], starts[k]) {
      assert ClosedRun(s, split.done[k], starts[k]);
    }
    forall i: nat, j: nat | RunAt(s, i, j) ensures j < |s| {
      if j == |s| {
        TailIsRun(s, "", i);
      }
    }
  }

  lemma WithTail(s: string, split: Split, starts: seq<nat>)
    requires Splits(s, split, starts) && split.last != ""
    ensures RunsInOrder(s, split.done + [split.last], starts + [|s| - |split.last|])
  {
    var pieces, places := split.done + [split.last], starts + [|s| - |split.last|];
    TailRun(s, split.last);
    forall k | 0 <= k < |starts|
      ensures IsRun(s, split.done[k], starts[k]) && starts[k] < |s| - |split.last|
    {
      assert ClosedRun(s, split.done[k], starts[k]);
      ClosedBeforeTail(s, split.last, split.done[k], starts[k]);
    }
    forall i: nat, j: nat | RunAt(s, i, j) ensures i in places {
      if j == |s| {
        TailIsRun(s, split.last, i);
      }
    }
  }

  lemma PiecesExactly(s: string) returns (starts: seq<nat>)
    ensures RunsInOrder(s, AllPieces(s), starts)
  {
    starts := PiecesSplit(s);
    var split := Pieces(s);
    if split.last == "" {
      WithoutTail(s, split, starts);
    } else {
      WithTail(s, split, starts);
      starts := starts + [|s| - |split.last|];
    }
  }

  lemma PieceIsRun(s: string, pieces: seq<string>, starts: seq<nat>, t: string)
    requires RunsInOrder(s, pieces, starts) && t in pieces
    ensures HasRun(s, t)
  {
    var k :| 0 <= k < |pieces| && pieces[k] == t;
    assert IsRun(s, pieces[k], starts[k]);
  }

  lemma RunIsPiece(s: string, pieces: seq<string>, starts: seq<nat>, t: string)
    requires RunsInOrder(s, pieces, starts) && HasRun(s, t)
    ensures t in pieces
  {
    var i: nat, j: nat :| RunAt(s, i, j) && s[i..j] == t;
    var k :| 0 <= k < |starts| && starts[k] == i;
    assert IsRun(s, pieces[k], starts[k]);
    SameRun(s, i, j, starts[k] + |pieces[k]|);
  }

  /** A run is determined by where it begins. */
  lemma SameRun(s: string, i: nat, j: nat, j': nat)
    requires RunAt(s, i, j) && RunAt(s, i, j')
    ensures j == j'
  {
  }

  /** A term of a text is a run of it in lower case. */
  lemma TermsExactly(text: string, t: string)
    ensures t in Terms(text) <==> HasRun(Lower(text), t)
  {
    var s := Lower(text);
    OnceEachInOrder(AllPieces(s));
    var starts := PiecesExactly(s);
    if t in AllPieces(s) {
      PieceIsRun(s, AllPieces(s), starts, t);
    }
    if HasRun(s, t) {
      RunIsPiece(s, AllPieces(s), starts, t);
    }
  }

  /** A run of two texts with a space between them lies in one of them. */
  lemma RunOfTwo(x: string, y: string, i: nat, j: nat)
    requires RunAt(x + " " + y, i, j)
    ensures || (j <= |x| && RunAt(x, i, j) && (x + " " + y)[i..j] == x[i..j])
            || (|x| < i && RunAt(y, i - |x| - 1, j - |x| - 1)
                && (x + " " + y)[i..j] == y[i - |x| - 1..j - |x| - 1])
  {
    var z := x + " " + y;
    assert z[|x|] == ' ' && !TermChar(z[|x|]);
    assert forall k :: 0 <= k < |x| ==> z[k] == x[k];
    assert forall k :: 0 <= k < |y| ==> z[|x| + 1 + k] == y[k];
  }

  lemma RunOfFirst(x: string, y: string, i: nat, j: nat)
    requires RunAt(x, i, j)
    ensures RunAt(x + " " + y, i, j) && (x + " " + y)[i..j] == x[i..j]
  {
    var z := x + " " + y;
    assert z[|x|] == ' ' && !TermChar(z[|x|]);
    assert forall k :: 0 <= k < |x| ==> z[k] == x[k];
  }

  lemma RunOfSecond(x: string, y: string, i: nat, j: nat)
    requires RunAt(y, i, j)
    ensures RunAt(x + " " + y, |x| + 1 + i, |x| + 1 + j)
    ensures (x + " " + y)[|x| + 1 + i..|x| + 1 + j] == y[i..j]
  {
    var z := x + " " + y;
    assert z[|x|] == ' ' && !TermChar(z[|x|]);
    assert forall k :: 0 <= k < |y| ==> z[|x| + 1 + k] == y[k];
  }

  lemma RunsOfTwo(x: string, y: string, t: string)
    ensures HasRun(x + " " + y, t) <==> HasRun(x, t) || HasRun(y, t)
  {
    var z := x + " " + y;
    if HasRun(z, t) {
      var i: nat, j: nat :| RunAt(z, i, j) && z[i..j] == t;
      RunOfTwo(x, y, i, j);
    }
    if HasRun(x, t) {
      var i: nat, j: nat :| RunAt(x, i, j) && x[i..j] == t;
      RunOfFirst(x, y, i, j);
    }
    if HasRun(y, t) {
      var i: nat, j: nat :| RunAt(y, i, j) && y[i..j] == t;
      RunOfSecond(x, y, i, j);
    }
  }

  lemma TermsOfTwo(a: string, b: string, t: string)
    ensures t in Terms(a + " " + b) <==> t in Terms(a) || t in Terms(b)
  {
    FlatMapAppend(a + " ", b, LowerChar);
    FlatMapSnoc(a, ' ', LowerChar);
    TermsExactly(a + " " + b, t);
    TermsExactly(a, t);
    TermsExactly(b, t);
    RunsOfTwo(Lower(a), Lower(b), t);
  }

  /** The term is one of the terms of one of the words. */
  ghost predicate TermOfSome(words: seq<string>, t: string) {
    exists i :: 0 <= i < |words| && t in Terms(words[i])
  }

  lemma TermOfFirstOrRest(words: seq<string>, t: string)
    requires words != []
    ensures TermOfSome(words, t) <==> t in Terms(words[0]) || TermOfSome(words[1..], t)
  {
    var rest := words[1..];
    if TermOfSome(words, t) {
      var i :| 0 <= i < |words| && t in Terms(words[i]);
      assert i > 0 ==> rest[i - 1] == words[i];
    }
    if TermOfSome(rest, t) {
      var i :| 0 <= i < |rest| && t in Terms(rest[i]);
      assert words[i + 1] == rest[i];
    }
  }

  /** Joining words with spaces makes no terms and loses none. */
  lemma {:induction false} JoinedTerms(words: seq<string>, t: string)
    ensures t in Terms(Join(words)) <==> TermOfSome(words, t)
  {
    if words == [] {
      NoTerms(t);
    } else {
      TermOfFirstOrRest(words, t);
      if |words| == 1 {
        assert !TermOfSome(words[1..], t);
      } else {
        JoinedTerms(words[1..], t);
        TermsOfTwo(words[0], Join(words[1..]), t);
      }
    }
  }

  lemma NoTerms(t: string)
    ensures t !in Terms("")
  {
    assert Lower("") == "";
    TermsExactly("", t);
  }

  /** The term occurs in the entry's text, in one of its tags or in one of its categories. */
  ghost predicate Mentions(e: Entry, t: string) {
    t in Terms(e.text) || TermOfSome(e.tags, t) || TermOfSome(e.categories, t)
  }

  /** Some query term is a term of the text, of a tag, or of a category. */
  ghost predicate TextMeets(e: Entry, query: seq<string>) {
    exists k :: 0 <= k < |query| && query[k] in Terms(e.text)
  }

  ghost predicate SomeMeet(words: seq<string>, query: seq<string>) {
    exists k :: 0 <= k < |query| && TermOfSome(words, query[k])
  }

  /** The score is the matched fraction in millionths, to the nearest, halves to the even neighbour. */
  ghost predicate Scores(score: nat, matched: nat, total: nat) {
    var off := 2 * (score * total - 1000000 * matched);
    -(total as int) <= off <= total && (off == total || off == -(total as int) ==> score % 2 == 0)
  }

  /** The query terms that the entry mentions, in query order. */
  ghost function Shared(e: Entry, query: seq<string>): seq<string> {
    if query == [] then []
    else (if Mentions(e, query[0]) then [query[0]] else []) + Shared(e, query[1..])
  }

  /** The match of an entry. */
  ghost predicate Matching(e: Entry, query: seq<string>, m: Match) {
    && m.candidateId == e.candidateId && m.entry == e
    && m.matched == Shared(e, query) != [] && Scores(m.score, |m.matched|, |query|)
    && m.reasons == (if TextMeets(e, query) then ["semantic_text_term_overlap"] else [])
                    + (if SomeMeet(e.tags, query) then ["semantic_tag_term_overlap"] else [])
                    + (if SomeMeet(e.categories, query) then ["semantic_category_term_overlap"] else [])
  }

  lemma RoundedScores(matched: nat, total: nat)
    requires total > 0
    ensures Scores(Rounded(matched, total), matched, total)
  {
    var whole, rest := 1000000 * matched / total, 1000000 * matched % total;
    assert 1000000 * matched == whole * total + rest;
    assert (whole + 1) * total == whole * total + total;
  }

  /** There is one nearest score. */
  lemma OneScore(s: nat, r: nat, matched: nat, total: nat)
    requires total > 0 && Scores(s, matched, total) && Scores(r, matched, total)
    ensures s == r
  {
    ScoreNotLess(s, r, matched, total);
    ScoreNotLess(r, s, matched, total);
  }

  lemma ScoreNotLess(s: nat, r: nat, matched: nat, total: nat)
    requires total > 0 && Scores(s, matched, total) && Scores(r, matched, total)
    ensures s <= r
  {
    if s > r {
      Distance(s, r, total);
    }
  }

  lemma Distance(s: nat, r: nat, total: nat)
    requires s > r
    ensures s * total >= r * total + total
    ensures s > r + 1 ==> s * total >= r * total + 2 * total
  {
    ProductMonotone(r + 1, s, total);
    assert (r + 1) * total == r * total + total;
    if s > r + 1 {
      ProductMonotone(r + 2, s, total);
      assert (r + 2) * total == r * total + 2 * total;
    }
  }

  lemma {:induction false} SharedExactly(e: Entry, query: seq<string>, known: seq<string>)
    requires forall t :: t in known <==> Mentions(e, t)
    ensures Among(query, known) == Shared(e, query)
  {
    if query != [] {
      SharedExactly(e, query[1..], known);
    }
  }

  lemma {:induction false} AmongExactly(query: seq<string>, known: seq<string>, t: string)
    ensures t in Among(query, known) <==> t in query && t in known
  {
    if query != [] {
      AmongExactly(query[1..], known, t);
      assert query == [query[0]] + query[1..];
    }
  }

  lemma AnyAmong(query: seq<string>, known: seq<string>, part: seq<string>)
    requires forall t :: t in part ==> t in known
    ensures AnyIn(Among(query, known), part) <==> exists k :: 0 <= k < |query| && query[k] in part
  {
    var found := Among(query, known);
    if AnyIn(found, part) {
      var i :| 0 <= i < |found| && found[i] in part;
      AmongExactly(query, known, found[i]);
    }
    if k :| 0 <= k < |query| && query[k] in part {
      AmongExactly(query, known, query[k]);
      var i :| 0 <= i < |found| && found[i] == query[k];
    }
  }

  /** All terms of an entry. */
  ghost function Known(e: Entry): seq<string> {
    Terms(e.text) + Terms(Join(e.tags)) + Terms(Join(e.categories))
  }

  lemma KnownExactly(e: Entry)
    ensures forall t :: t in Known(e) <==> Mentions(e, t)
  {
    forall t ensures t in Known(e) <==> Mentions(e, t) {
      JoinedTerms(e.tags, t);
      JoinedTerms(e.categories, t);
    }
  }

  lemma JoinedMeet(words: seq<string>, query: seq<string>, known: seq<string>)
    requires forall t :: t in Terms(Join(words)) ==> t in known
    ensures AnyIn(Among(query, known), Terms(Join(words))) <==> SomeMeet(words, query)
  {
    AnyAmong(query, known, Terms(Join(words)));
    forall k | 0 <= k < |query| ensures query[k] in Terms(Join(words)) <==> TermOfSome(words, query[k]) {
      JoinedTerms(words, query[k]);
    }
  }

  lemma EntryMatches(e: Entry, query: seq<string>)
    requires query != []
    ensures MatchEntry(e, query).None? <==> Shared(e, query) == []
    ensures MatchEntry(e, query).Some? ==> Matching(e, query, MatchEntry(e, query).value)
  {
    var known := Known(e);
    KnownExactly(e);
    SharedExactly(e, query, known);
    AnyAmong(query, known, Terms(e.text));
    JoinedMeet(e.tags, query, known);
    JoinedMeet(e.categories, query, known);
    RoundedScores(|Shared(e, query)|, |query|);
  }

  /**
   An entry matches exactly when its text, a tag or a category has a query term; the match has
   the shared terms in query order, their share of the query as the score, and a reason for
   each part of the entry that has one of them.
   */
  lemma MatchExactly(e: Entry, query: seq<string>, m: Match)
    requires query != []
    ensures MatchEntry(e, query) == Some(m) <==> Matching(e, query, m)
  {
    EntryMatches(e, query);
    if Matching(e, query, m) {
      OneScore(m.score, MatchEntry(e, query).value.score, |m.matched|, |query|);
    }
  }

  /** Shared terms are exactly the query terms that the entry mentions. */
  lemma {:induction false} SharedTerms(e: Entry, query: seq<string>, t: string)
    ensures t in Shared(e, query) <==> t in query && Mentions(e, t)
  {
    if query != [] {
      SharedTerms(e, query[1..], t);
      assert query == [query[0]] + query[1..];
    }
  }

  /**
   What is returned, in terms of the index: the first `limit` of a ranking by score and then
   position that holds every matching entry once and nothing else.
   */
  lemma RankedExactly(entries: seq<Entry>, query: seq<string>, limit: nat) returns (ranking: seq<Record>)
    requires query != []
    ensures Sorted(ranking)
    ensures forall r :: r in ranking <==> r.index < |entries| && Matching(entries[r.index], query, r.found)
    ensures var found := Retrieved(entries, query, limit);
            && |found| == (if |ranking| < limit then |ranking| else limit)
            && forall i :: 0 <= i < |found| ==> found[i] == ranking[i].found
  {
    ranking := TopMatches(entries, query, limit);
    forall r: Record | r.index < |entries|
      ensures Results(entries, query)[r.index] == Some(r.found) <==> Matching(entries[r.index], query, r.found)
    {
      MatchExactly(entries[r.index], query, r.found);
    }
  }

  /** Asking for fewer than one gives one, for more than five gives five, and for no number gives five. */
  lemma LimitExactly(v: Option<Json>)
    ensures var asked := if v.Some? && v.value.Num? then v.value.n else 5;
            && 1 <= Limit(v) <= 5
            && (1 <= asked <= 5 ==> Limit(v) == asked)
            && (asked < 1 ==> Limit(v) == 1) && (asked > 5 ==> Limit(v) == 5)
  {
  }
}
