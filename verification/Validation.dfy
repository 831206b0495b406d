/** What the artifact validators share: tests that report errors, and safe strings. */
module Validation {
  import opened JsonValues
  import opened Text
  import opened Wrappers

  /** A validation error: its code and the field it is about. */
  datatype Problem = Problem(code: string, field: string)

  /** One test of a validator with the error it reports on failure. */
  datatype Check = Check(passes: bool, code: string, field: string)

  function Failures(checks: seq<Check>): seq<Problem> {
    if checks == [] then []
    else (if checks[0].passes then [] else [Problem(checks[0].code, checks[0].field)]) + Failures(checks[1..])
  }

  ghost predicate AllPass(checks: seq<Check>) {
    forall i :: 0 <= i < |checks| ==> checks[i].passes
  }

  /** No error means that every test passes. */
  lemma {:induction false} FailuresNone(checks: seq<Check>)
    ensures Failures(checks) == [] <==> AllPass(checks)
  {
    if checks != [] {
      FailuresNone(checks[1..]);
      assert forall i :: 1 <= i < |checks| ==> checks[i] == checks[1..][i - 1];
    }
  }

  /** The tests in turn, each failure appended to the errors found so far. */
  method AppendFailures(checks: seq<Check>, errors: seq<Problem>) returns (all: seq<Problem>)
    ensures all == errors + Failures(checks)
  {
    all := errors;
    for i := 0 to |checks|
      invariant all + Failures(checks[i..]) == errors + Failures(checks)
    {
      if !checks[i].passes {
        all := all + [Problem(checks[i].code, checks[i].field)];
      }
    }
  }

  /** `_safe_string`. */
  function SafeText(v: Json): Option<string> {
    if v.Str? then SafeString(v.s) else None
  }

  predicate HasText(v: Json) {
    SafeText(v).Some?
  }

  function TextOrNull(text: Option<string>): Json {
    if text.Some? then Str(text.value) else Null
  }

  predicate IsFalse(v: Json) {
    v == Bool(false)
  }

  /** A safe text is what lies between the whitespace at both ends of a string, if anything does. */
  lemma SafeTextExact(v: Json) returns (before: string, after: string)
    ensures SafeText(v).Some? <==> v.Str? && exists i :: 0 <= i < |v.s| && !IsSpace(v.s[i])
    ensures SafeText(v).Some? ==>
              var text := SafeText(v).value;
              && v.s == before + text + after && AllSpace(before) && AllSpace(after)
              && text != "" && !IsSpace(text[0]) && !IsSpace(text[|text| - 1])
  {
    before, after := "", "";
    if v.Str? {
      StripFacts(v.s);
      before, after := StripSplits(v.s);
    }
  }

  lemma SafeTextNotBlank(v: Json)
    ensures SafeText(v).Some? ==> HasText(Str(SafeText(v).value))
  {
    if v.Str? {
      StripFacts(v.s);
      StripFacts(Strip(v.s));
    }
  }
}
