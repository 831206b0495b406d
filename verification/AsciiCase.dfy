/** Lower case and parts of texts, as far as ASCII letters matter. */
module AsciiCase {
  /** ASCII `str.lower()`; no other letter lowers to a text that completes one of the marker words. */
  function Lower(s: string): (r: string)
    ensures |r| == |s|
    ensures forall i :: 0 <= i < |s| ==> r[i] == LowerChar(s[i])
  {
    seq(|s|, i requires 0 <= i < |s| => LowerChar(s[i]))
  }

  function LowerChar(c: char): char {
    if 'A' <= c <= 'Z' then c - 'A' + 'a' else c
  }

  predicate PartAt(text: string, part: string, i: nat) {
    i + |part| <= |text| && text[i..i + |part|] == part
  }

  predicate Contains(text: string, part: string) {
    exists i :: 0 <= i <= |text| && PartAt(text, part, i)
  }

  const UPPER := "ABCDEFGHIJKLMNOPQRSTUVWXYZ"
  const LOWER := "abcdefghijklmnopqrstuvwxyz"

  /** The character reads as `m` when case is ignored: it is the capital of it, or `m` itself. */
  ghost predicate ReadsAs(c: char, m: char) {
    if exists k :: 0 <= k < |UPPER| && UPPER[k] == c
    then exists k :: 0 <= k < |UPPER| && UPPER[k] == c && LOWER[k] == m
    else c == m
  }

  lemma Capitals(k: nat)
    requires k < 26
    ensures |UPPER| == |LOWER| == 26 && UPPER[k] == 'A' + k as char && LOWER[k] == 'a' + k as char
  {
  }

  lemma LowerExactly(c: char, m: char)
    ensures LowerChar(c) == m <==> ReadsAs(c, m)
  {
    forall k: nat | k < 26 ensures UPPER[k] == 'A' + k as char && LOWER[k] == 'a' + k as char {
      Capitals(k);
    }
    if 'A' <= c <= 'Z' {
      var k := c as int - 'A' as int;
      Capitals(k);
    }
  }

  /** The marker stands at position `i`, in any case. */
  ghost predicate MarkerAt(text: string, marker: string, i: nat) {
    i + |marker| <= |text| && forall j :: 0 <= j < |marker| ==> ReadsAs(text[i + j], marker[j])
  }

  lemma PartExactly(text: string, marker: string, i: nat)
    ensures PartAt(Lower(text), marker, i) <==> MarkerAt(text, marker, i)
  {
    if i + |marker| <= |text| {
      var low := Lower(text);
      forall j | 0 <= j < |marker| ensures low[i..i + |marker|][j] == marker[j] <==> ReadsAs(text[i + j], marker[j]) {
        LowerExactly(text[i + j], marker[j]);
      }
    }
  }

  /** A text in lower case contains a word exactly when the word stands somewhere in the text, in any case. */
  lemma ContainsExactly(text: string, marker: string)
    ensures Contains(Lower(text), marker) <==> exists i: nat :: MarkerAt(text, marker, i)
  {
    forall i: nat ensures PartAt(Lower(text), marker, i) <==> MarkerAt(text, marker, i) {
      PartExactly(text, marker, i);
    }
    if i: nat :| MarkerAt(text, marker, i) {
      assert PartAt(Lower(text), marker, i);
    }
  }
}
