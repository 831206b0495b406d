/** Places inside a JSON tree, and the path strings the validators print for them. */
module Positions {
  import opened JsonValues
  import opened Text
  import opened Wrappers

  datatype Step = Key(key: string) | Index(index: nat)

  type Position = seq<Step>

  /** Whether a walker goes into an array: some walk lists only, some tuples too. */
  predicate Enters(v: Json, tuples: bool) {
    v.Arr? && (v.isList || tuples)
  }

  function Child(v: Json, step: Step, tuples: bool): (r: Option<Json>)
    ensures r.Some? ==> r.value < v
  {
    match step
    case Key(k) =>
      if v.Obj? && HasKey(v.fields, k) then
        LookupSmaller(v.fields, k);
        Some(Lookup(v.fields, k))
      else None
    case Index(i) => if Enters(v, tuples) && i < |v.items| then Some(v.items[i]) else None
  }

  lemma LookupSmaller(fs: seq<Field>, k: string)
    requires HasKey(fs, k)
    ensures Lookup(fs, k) < Obj(fs)
  {
    var i := LookupFinds(fs, k);
    assert fs[i].value < fs[i];
  }

  /** The value at a position, if the walker can get there. */
  function ValueAt(v: Json, pos: Position, tuples: bool): Option<Json>
    decreases |pos|
  {
    if pos == [] then Some(v)
    else
      var child := Child(v, pos[0], tuples);
      if child.None? then None else ValueAt(child.value, pos[1..], tuples)
  }

  /** `f"{prefix}.{key}" if prefix else key`, and `f"{prefix}[{index}]"`. */
  function Extend(prefix: string, step: Step): string {
    match step
    case Key(k) => if prefix != "" then prefix + "." + k else k
    case Index(i) => prefix + "[" + Decimal(i) + "]"
  }

  /** The path printed for a position below `prefix`. */
  function PathOf(prefix: string, pos: Position): string
    decreases |pos|
  {
    if pos == [] then prefix else PathOf(Extend(prefix, pos[0]), pos[1..])
  }

  lemma {:induction false} PathOfSnoc(prefix: string, pos: Position, step: Step)
    ensures PathOf(prefix, pos + [step]) == Extend(PathOf(prefix, pos), step)
    decreases |pos|
  {
    if pos == [] {
      assert ([] + [step])[1..] == [];
    } else {
      assert (pos + [step])[1..] == pos[1..] + [step];
      PathOfSnoc(Extend(prefix, pos[0]), pos[1..], step);
    }
  }

  predicate CleanKey(k: string) {
    k != "" && '.' !in k && '[' !in k
  }

  ghost predicate CleanPosition(pos: Position) {
    forall i :: 0 <= i < |pos| ==> pos[i].Key? ==> CleanKey(pos[i].key)
  }

  /** What the last step prints: its separator and a text free of separators. */
  function Suffix(first: bool, step: Step): (string, string) {
    match step
    case Key(k) => (if first then "" else ".", k)
    case Index(i) => ("[", Decimal(i) + "]")
  }

  predicate Separator(c: char) { c == '.' || c == '[' }

  predicate SeparatorFree(s: string) {
    forall i :: 0 <= i < |s| ==> !Separator(s[i])
  }

  lemma SuffixFacts(first: bool, step: Step)
    requires step.Key? ==> CleanKey(step.key)
    ensures var (sep, text) := Suffix(first, step);
            && text != "" && SeparatorFree(text)
            && (sep == "" || (|sep| == 1 && Separator(sep[0])))
  {
    if step.Index? {
      DecimalDigits(step.index);
    }
  }

  lemma {:induction false} PathNonEmpty(pos: Position)
    requires CleanPosition(pos)
    ensures PathOf("", pos) == "" <==> pos == []
  {
    if pos != [] {
      var init, last := pos[..|pos| - 1], pos[|pos| - 1];
      assert pos == init + [last];
      PathOfSnoc("", init, last);
    }
  }

  lemma ExtendSplit(prefix: string, first: bool, step: Step)
    requires first <==> prefix == ""
    ensures var (sep, text) := Suffix(first, step);
            Extend(prefix, step) == prefix + sep + text
  {
    if step.Index? {
      var number := Decimal(step.index);
      assert prefix + "[" + number + "]" == prefix + "[" + (number + "]");
    } else if first {
      assert prefix + "" + step.key == step.key;
    }
  }

  /** A nonempty clean path is its parent's path, a separator and the last step's text. */
  lemma PathSplit(pos: Position)
    requires pos != [] && CleanPosition(pos)
    ensures var (sep, text) := Suffix(pos[..|pos| - 1] == [], pos[|pos| - 1]);
            PathOf("", pos) == PathOf("", pos[..|pos| - 1]) + sep + text
  {
    var init, last := pos[..|pos| - 1], pos[|pos| - 1];
    assert pos == init + [last];
    PathOfSnoc("", init, last);
    PathNonEmpty(init);
    ExtendSplit(PathOf("", init), init == [], last);
  }

  /** The last separator of a text determines how it splits. */
  lemma SplitAtLastSeparator(a: string, sep: string, t: string, a': string, sep': string, t': string)
    requires a + sep + t == a' + sep' + t'
    requires SeparatorFree(t) && SeparatorFree(t')
    requires sep == "" || (|sep| == 1 && Separator(sep[0]))
    requires sep' == "" || (|sep'| == 1 && Separator(sep'[0]))
    requires sep == "" ==> a == ""
    requires sep' == "" ==> a' == ""
    ensures a == a' && sep == sep' && t == t'
  {
    var s := a + sep + t;
    assert sep != "" ==> s[|a|] == sep[0];
    assert sep' != "" ==> s[|a'|] == sep'[0];
    assert forall i :: |s| - |t| <= i < |s| ==> s[i] == t[i - (|s| - |t|)];
    assert forall i :: |s| - |t'| <= i < |s| ==> s[i] == t'[i - (|s| - |t'|)];
    assert |t| == |t'|;
    assert t == s[|s| - |t|..] && t' == s[|s| - |t'|..];
    assert a + sep == s[..|s| - |t|] && a' + sep' == s[..|s| - |t|];
    assert |sep| == |sep'|;
    assert a == (a + sep)[..|a|] && a' == (a' + sep')[..|a|];
    assert sep == (a + sep)[|a|..] && sep' == (a' + sep')[|a|..];
  }

  lemma SuffixInjective(first: bool, x: Step, y: Step)
    requires x.Key? ==> CleanKey(x.key)
    requires y.Key? ==> CleanKey(y.key)
    requires Suffix(first, x) == Suffix(first, y)
    ensures x == y
  {
    if x.Index? && y.Index? {
      var a, b := Decimal(x.index), Decimal(y.index);
      assert (a + "]")[..|a|] == a && (b + "]")[..|b|] == b;
      DecimalInjective(x.index, y.index);
    }
  }

  /**
   Path printing is injective on positions whose keys are nonempty and contain neither
   `.` nor `[`.
   */
  lemma {:induction false} PathInjective(p: Position, q: Position)
    requires CleanPosition(p) && CleanPosition(q)
    requires PathOf("", p) == PathOf("", q)
    ensures p == q
    decreases |p|
  {
    PathNonEmpty(p);
    PathNonEmpty(q);
    if p != [] {
      var p', q' := p[..|p| - 1], q[..|q| - 1];
      var x, y := p[|p| - 1], q[|q| - 1];
      PathSplit(p);
      PathSplit(q);
      SuffixFacts(p' == [], x);
      SuffixFacts(q' == [], y);
      PathNonEmpty(p');
      PathNonEmpty(q');
      var (sep, text) := Suffix(p' == [], x);
      var (sep', text') := Suffix(q' == [], y);
      SplitAtLastSeparator(PathOf("", p'), sep, text, PathOf("", q'), sep', text');
      PathInjective(p', q');
      SuffixInjective(p' == [], x, y);
      assert p == p' + [x] && q == q' + [y];
    }
  }

  /** Without clean keys two positions can print alike. */
  lemma PathCollision()
    ensures PathOf("", [Key("a.b")]) == PathOf("", [Key("a"), Key("b")])
    ensures PathOf("", [Key("a[0]")]) == PathOf("", [Key("a"), Index(0)])
  {
    assert PathOf("a", [Key("b")]) == Extend("a", Key("b")) by {
      assert [Key("b")][1..] == [];
    }
    assert [Key("a"), Key("b")][1..] == [Key("b")];
    assert [Key("a"), Index(0)][1..] == [Index(0)] && [Index(0)][1..] == [];
    assert [Key("a.b")][1..] == [] && [Key("a[0]")][1..] == [];
    assert "a" + "." + "b" == "a.b";
    assert "a" + "[" + "0" + "]" == "a[0]";
  }
}
