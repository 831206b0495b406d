/** Python's view of strings: whitespace, `strip`, `split` and decimal numerals. */
module Text {
  import opened Wrappers

  /** The characters that `str.strip()` removes and `str.split()` separates at. */
  predicate IsSpace(c: char) {
    || '\t' <= c <= '\r'
    || '\U{1C}' <= c <= ' '
    || c == '\U{85}' || c == '\U{A0}' || c == '\U{1680}'
    || '\U{2000}' <= c <= '\U{200A}'
    || c == '\U{2028}' || c == '\U{2029}' || c == '\U{202F}' || c == '\U{205F}' || c == '\U{3000}'
  }

  /** The whitespace characters one by one. */
  lemma SpacesExactly(c: char)
    ensures IsSpace(c) <==>
              c in {'\t', '\n', '\U{0B}', '\U{0C}', '\r', '\U{1C}', '\U{1D}', '\U{1E}', '\U{1F}', ' ',
                    '\U{85}', '\U{A0}', '\U{1680}', '\U{2000}', '\U{2001}', '\U{2002}', '\U{2003}',
                    '\U{2004}', '\U{2005}', '\U{2006}', '\U{2007}', '\U{2008}', '\U{2009}', '\U{200A}',
                    '\U{2028}', '\U{2029}', '\U{202F}', '\U{205F}', '\U{3000}'}
  {
  }

  predicate SpaceFree(s: string) {
    forall i :: 0 <= i < |s| ==> !IsSpace(s[i])
  }

  function StripLeft(s: string): string {
    if s != "" && IsSpace(s[0]) then StripLeft(s[1..]) else s
  }

  function StripRight(s: string): string {
    if s != "" && IsSpace(s[|s| - 1]) then StripRight(s[..|s| - 1]) else s
  }

  /** `str.strip()`. */
  function Strip(s: string): string {
    StripRight(StripLeft(s))
  }

  /** `not s.strip()`. */
  predicate Blank(s: string) {
    Strip(s) == ""
  }

  /** `safe_string`: the stripped text, or `None` for a blank one. */
  function SafeString(s: string): Option<string> {
    if Blank(s) then None else Some(Strip(s))
  }

  /** Neither end of `s` is whitespace: stripping changes nothing. */
  predicate Trimmed(s: string) {
    s == "" || (!IsSpace(s[0]) && !IsSpace(s[|s| - 1]))
  }

  lemma {:induction false} StripLeftFacts(s: string)
    ensures StripLeft(s) == "" <==> forall i :: 0 <= i < |s| ==> IsSpace(s[i])
    ensures StripLeft(s) != "" ==> !IsSpace(StripLeft(s)[0]) && StripLeft(s)[|StripLeft(s)| - 1] == s[|s| - 1]
  {
    if s != "" && IsSpace(s[0]) {
      StripLeftFacts(s[1..]);
      assert forall i :: 1 <= i < |s| ==> s[i] == s[1..][i - 1];
    }
  }

  lemma {:induction false} StripRightFacts(s: string)
    ensures StripRight(s) == "" <==> forall i :: 0 <= i < |s| ==> IsSpace(s[i])
    ensures var r := StripRight(s);
            r != "" ==> !IsSpace(r[|r| - 1]) && r[0] == s[0]
    decreases |s|
  {
    if s != "" && IsSpace(s[|s| - 1]) {
      StripRightFacts(s[..|s| - 1]);
      assert forall i :: 0 <= i < |s| - 1 ==> s[i] == s[..|s| - 1][i];
    }
  }

  /** Stripping yields a trimmed text, which is empty exactly for whitespace. */
  lemma StripFacts(s: string)
    ensures Trimmed(Strip(s))
    ensures Blank(s) <==> forall i :: 0 <= i < |s| ==> IsSpace(s[i])
    ensures Trimmed(s) ==> Strip(s) == s
  {
    StripLeftFacts(s);
    StripRightFacts(StripLeft(s));
    if StripLeft(s) != "" && Strip(s) == "" {
      assert false;
    }
  }

  ghost predicate AllSpace(s: string) {
    forall i :: 0 <= i < |s| ==> IsSpace(s[i])
  }

  lemma {:induction false} StripLeftSplits(s: string) returns (before: string)
    ensures s == before + StripLeft(s) && AllSpace(before)
  {
    before := [];
    if s != "" && IsSpace(s[0]) {
      var more := StripLeftSplits(s[1..]);
      before := [s[0]] + more;
      assert s == [s[0]] + s[1..];
    }
  }

  lemma {:induction false} StripRightSplits(s: string) returns (after: string)
    ensures s == StripRight(s) + after && AllSpace(after)
    decreases |s|
  {
    after := [];
    if s != "" && IsSpace(s[|s| - 1]) {
      var n := |s| - 1;
      var more := StripRightSplits(s[..n]);
      after := more + [s[n]];
      assert s == s[..n] + [s[n]];
    }
  }

  /** What `strip` takes away is whitespace at the two ends, and by `StripFacts` all of it. */
  lemma StripSplits(s: string) returns (before: string, after: string)
    ensures s == before + Strip(s) + after && AllSpace(before) && AllSpace(after)
  {
    before := StripLeftSplits(s);
    after := StripRightSplits(StripLeft(s));
    assert s == before + (Strip(s) + after);
  }

  /** A text with one non-space character is not blank, whatever surrounds it. */
  lemma NotBlankAt(s: string, i: nat)
    requires i < |s| && !IsSpace(s[i])
    ensures !Blank(s)
  {
    StripFacts(s);
  }

  /** Whether a new word starts with the last character of `s`. */
  predicate StartsWordAtEnd(s: string)
    requires s != ""
  {
    !IsSpace(s[|s| - 1]) && (|s| == 1 || IsSpace(s[|s| - 2]))
  }

  /** `len(s.split())`. */
  function WordCount(s: string): nat {
    if s == "" then 0
    else WordCount(s[..|s| - 1]) + (if StartsWordAtEnd(s) then 1 else 0)
  }

  /** Joining with one space keeps the words of both sides apart. */
  lemma {:induction false} WordCountJoin(a: string, b: string)
    ensures WordCount(a + " " + b) == WordCount(a) + WordCount(b)
    decreases |b|
  {
    if b == "" {
      SpaceEndsNoWord(a);
      assert a + " " + b == a + " ";
    } else {
      JoinStep(a, b);
      WordCountJoin(a, b[..|b| - 1]);
    }
  }

  lemma SpaceEndsNoWord(a: string)
    ensures WordCount(a + " ") == WordCount(a)
  {
    assert (a + " ")[..|a|] == a;
  }

  /** The last character of `b` starts a word of the joined text as it does of `b`. */
  lemma JoinStarts(a: string, b: string)
    requires b != ""
    ensures StartsWordAtEnd(a + " " + b) == StartsWordAtEnd(b)
  {
    var s, n := a + " " + b, |b|;
    assert s[|s| - 1] == b[n - 1];
    if n == 1 {
      assert s[|s| - 2] == ' ';
      assert IsSpace(' ');
    } else {
      assert s[|s| - 2] == b[n - 2];
    }
  }

  lemma JoinStep(a: string, b: string)
    requires b != ""
    ensures WordCount(a + " " + b)
         == WordCount(a + " " + b[..|b| - 1]) + (if StartsWordAtEnd(b) then 1 else 0)
  {
    var s := a + " " + b;
    JoinStarts(a, b);
    assert s[..|s| - 1] == a + " " + b[..|b| - 1];
  }

  /** A nonempty text without whitespace is one word. */
  lemma {:induction false} WordCountOne(s: string)
    requires s != "" && SpaceFree(s)
    ensures WordCount(s) == 1
    decreases |s|
  {
    if |s| == 1 {
      assert s[..0] == "";
    } else {
      WordCountOne(s[..|s| - 1]);
    }
  }

  function Digit(d: nat): char
    requires d < 10
  {
    ['0', '1', '2', '3', '4', '5', '6', '7', '8', '9'][d]
  }

  /** `str(n)` of a natural number. */
  function Decimal(n: nat): (r: string)
    ensures r != ""
  {
    if n < 10 then [Digit(n)] else Decimal(n / 10) + [Digit(n % 10)]
  }

  predicate IsDigit(c: char) { '0' <= c <= '9' }

  lemma {:induction false} DecimalDigits(n: nat)
    ensures forall i :: 0 <= i < |Decimal(n)| ==> IsDigit(Decimal(n)[i])
  {
    if n >= 10 {
      DecimalDigits(n / 10);
    }
  }

  lemma {:induction false} DecimalInjective(m: nat, n: nat)
    requires Decimal(m) == Decimal(n)
    ensures m == n
  {
    var s, t := Decimal(m), Decimal(n);
    if m < 10 && n < 10 {
      assert s[0] == Digit(m) && t[0] == Digit(n);
    } else if m >= 10 && n >= 10 {
      assert s[..|s| - 1] == Decimal(m / 10) && t[..|t| - 1] == Decimal(n / 10);
      assert s[|s| - 1] == Digit(m % 10) && t[|t| - 1] == Digit(n % 10);
      DecimalInjective(m / 10, n / 10);
    } else {
      assert false;
    }
  }
}
