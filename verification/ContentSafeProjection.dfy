/**
 The content-safe projection of a payload
 (runtime/governance/semantic_purity_diagnostics.py): its field paths, split into content
 fields, below which nothing is listed, and all others.
 */
module ContentSafeProjection {
  import opened JsonValues
  import opened Positions
  import opened Sequences
  import opened Text
  import opened ValidatorSupport
  import opened Wrappers

  /** What `_field_paths` returns: every level is de-duplicated again. */
  function FieldPathsOf(v: Json, content: set<string>, includeContent: bool, prefix: string): seq<string>
    decreases v, 1
  {
    match v
    case Obj(fs) => Unique(RawFields(fs, content, includeContent, prefix))
    case Arr(_, items) => Unique(RawItems(items, content, includeContent, prefix))
    case _ => []
  }

  function RawFields(fs: seq<Field>, content: set<string>, includeContent: bool, prefix: string): seq<string>
    decreases fs, 0
  {
    if fs == [] then []
    else
      var last := fs[|fs| - 1];
      var path := Extend(prefix, Key(last.key));
      RawFields(fs[..|fs| - 1], content, includeContent, prefix)
      + (if (last.key in content) == includeContent then [path] else [])
      + (if last.key in content then [] else FieldPathsOf(last.value, content, includeContent, path))
  }

  function RawItems(items: seq<Json>, content: set<string>, includeContent: bool, prefix: string): seq<string>
    decreases items, 0
  {
    if items == [] then []
    else
      var n := |items| - 1;
      RawItems(items[..n], content, includeContent, prefix)
      + FieldPathsOf(items[n], content, includeContent, Extend(prefix, Index(n)))
  }

  /** `_field_paths`. */
  method CollectFieldPaths(v: Json, content: set<string>, includeContent: bool, prefix: string)
    returns (paths: seq<string>)
    ensures paths == FieldPathsOf(v, content, includeContent, prefix)
    decreases v, 1
  {
    match v
    case Obj(fs) =>
      paths := CollectFromFields(fs, content, includeContent, prefix);
      paths := UniqueValues(paths);
    case Arr(_, items) =>
      paths := CollectFromItems(items, content, includeContent, prefix);
      paths := UniqueValues(paths);
    case _ =>
      paths := [];
  }

  method CollectFromFields(fs: seq<Field>, content: set<string>, includeContent: bool, prefix: string)
    returns (paths: seq<string>)
    ensures paths == RawFields(fs, content, includeContent, prefix)
    decreases fs, 0
  {
    paths := [];
    for i := 0 to |fs|
      invariant paths == RawFields(fs[..i], content, includeContent, prefix)
    {
      assert fs[..i + 1][..i] == fs[..i];
      assert fs[i].value < fs[i];
      var path := Extend(prefix, Key(fs[i].key));
      var isContent := fs[i].key in content;
      if isContent == includeContent {
        paths := paths + [path];
      }
      if !isContent {
        var below := CollectFieldPaths(fs[i].value, content, includeContent, path);
        paths := paths + below;
      }
    }
    assert fs[..|fs|] == fs;
  }

  method CollectFromItems(items: seq<Json>, content: set<string>, includeContent: bool, prefix: string)
    returns (paths: seq<string>)
    ensures paths == RawItems(items, content, includeContent, prefix)
    decreases items, 0
  {
    paths := [];
    for i := 0 to |items|
      invariant paths == RawItems(items[..i], content, includeContent, prefix)
    {
      assert items[..i + 1][..i] == items[..i];
      var below := CollectFieldPaths(items[i], content, includeContent, Extend(prefix, Index(i)));
      paths := paths + below;
    }
    assert items[..|items|] == items;
  }

  /** A field with no content field above it, which is itself content or not. */
  ghost predicate Listed(v: Json, content: set<string>, isContent: bool, pos: Position) {
    && pos != [] && pos[|pos| - 1].Key?
    && ValueAt(v, pos, true).Some?
    && (pos[|pos| - 1].key in content) == isContent
    && forall i :: 0 <= i < |pos| - 1 && pos[i].Key? ==> pos[i].key !in content
  }

  predicate PlainKey(k: string) {
    k != "" && Trimmed(k)
  }

  /** Keys that are nonempty and have no whitespace at either end. */
  ghost predicate PlainKeys(v: Json) {
    match v
    case Arr(_, items) => forall i :: 0 <= i < |items| ==> PlainKeys(items[i])
    case Obj(fs) =>
      forall i :: 0 <= i < |fs| ==> PlainKey(fs[i].key) && PlainKeys(fs[i].value)
    case _ => true
  }

  lemma ListedThrough(v: Json, content: set<string>, isContent: bool, pos: Position, child: Json)
    requires pos != [] && Child(v, pos[0], true) == Some(child)
    ensures Listed(v, content, isContent, pos) <==>
              if |pos| == 1 then pos[0].Key? && (pos[0].key in content) == isContent
              else (pos[0].Key? ==> pos[0].key !in content) && Listed(child, content, isContent, pos[1..])
  {
    assert ValueAt(v, pos, true) == ValueAt(child, pos[1..], true);
    if |pos| == 1 {
      assert pos[1..] == [];
    } else {
      var rest := pos[1..];
      assert rest[|rest| - 1] == pos[|pos| - 1];
      assert forall i :: 0 <= i < |rest| - 1 ==> rest[i] == pos[i + 1];
      assert Listed(v, content, isContent, pos) ==> forall i :: 0 <= i < |rest| - 1 && rest[i].Key? ==>
          pos[i + 1].key !in content;
      assert forall i :: 0 < i < |pos| - 1 ==> pos[i] == rest[i - 1];
    }
  }

  lemma ExtendTrimmed(prefix: string, step: Step)
    requires Trimmed(prefix) && (step.Key? ==> PlainKey(step.key))
    ensures Extend(prefix, step) != "" && Trimmed(Extend(prefix, step))
  {
    assert !IsSpace(']') && !IsSpace('[');
  }

  /** Membership in a de-duplicated list of trimmed values is membership in the list. */
  lemma UniqueMembers(values: seq<string>, t: string)
    requires forall i :: 0 <= i < |values| ==> values[i] != "" && Trimmed(values[i])
    ensures t in Unique(values) <==> t in values
  {
    UniqueExact(values);
    forall i | 0 <= i < |values| ensures !Blank(values[i]) && Strip(values[i]) == values[i] {
      StripFacts(values[i]);
    }
    if t in values {
      var i :| 0 <= i < |values| && values[i] == t;
      assert !Blank(values[i]) && Strip(values[i]) == t;
    }
  }

  ghost predicate AllTrimmed(values: seq<string>) {
    forall i :: 0 <= i < |values| ==> values[i] != "" && Trimmed(values[i])
  }

  /** Some listed position below `prefix` prints as `path`. */
  ghost predicate Prints(v: Json, content: set<string>, isContent: bool, prefix: string, path: string) {
    exists pos :: Listed(v, content, isContent, pos) && PathOf(prefix, pos) == path
  }

  lemma {:induction false} FieldPathsExact(v: Json, content: set<string>, isContent: bool, prefix: string,
                                           path: string)
    requires WellFormed(v) && PlainKeys(v) && Trimmed(prefix)
    ensures AllTrimmed(FieldPathsOf(v, content, isContent, prefix))
    ensures path in FieldPathsOf(v, content, isContent, prefix) <==> Prints(v, content, isContent, prefix, path)
    decreases v, 1
  {
    match v
    case Obj(fs) =>
      RawFieldsExact(fs, content, isContent, prefix, path);
      UniqueMembers(RawFields(fs, content, isContent, prefix), path);
      UniqueTrimmed(RawFields(fs, content, isContent, prefix));
      ObjectPrints(fs, content, isContent, prefix, path);
    case Arr(_, items) =>
      RawItemsExact(items, content, isContent, prefix, path);
      UniqueMembers(RawItems(items, content, isContent, prefix), path);
      UniqueTrimmed(RawItems(items, content, isContent, prefix));
      ArrayPrints(v, content, isContent, prefix, path);
    case _ =>
  }

  lemma UniqueTrimmed(values: seq<string>)
    requires AllTrimmed(values)
    ensures AllTrimmed(Unique(values))
  {
    var found := Unique(values);
    forall i | 0 <= i < |found| ensures found[i] != "" && Trimmed(found[i]) {
      UniqueMembers(values, found[i]);
    }
  }

  /** What one field contributes: itself, or something below it when it is not content. */
  ghost predicate FieldPrints(f: Field, content: set<string>, isContent: bool, prefix: string, path: string) {
    var own := Extend(prefix, Key(f.key));
    || ((f.key in content) == isContent && own == path)
    || (f.key !in content && Prints(f.value, content, isContent, own, path))
  }

  ghost predicate SomeFieldPrints(fs: seq<Field>, content: set<string>, isContent: bool, prefix: string,
                                  path: string)
  {
    exists i :: 0 <= i < |fs| && FieldPrints(fs[i], content, isContent, prefix, path)
  }

  lemma SomeFieldPrintsSnoc(fs: seq<Field>, content: set<string>, isContent: bool, prefix: string, path: string)
    requires fs != []
    ensures SomeFieldPrints(fs, content, isContent, prefix, path) <==>
              || SomeFieldPrints(fs[..|fs| - 1], content, isContent, prefix, path)
              || FieldPrints(fs[|fs| - 1], content, isContent, prefix, path)
  {
    var n := |fs| - 1;
    assert forall i :: 0 <= i < n ==> fs[..n][i] == fs[i];
  }

  ghost predicate PlainFields(fs: seq<Field>) {
    forall i :: 0 <= i < |fs| ==> WellFormed(fs[i].value) && PlainKeys(fs[i].value) && PlainKey(fs[i].key)
  }

  lemma {:induction false} RawFieldsExact(fs: seq<Field>, content: set<string>, isContent: bool, prefix: string,
                                          path: string)
    requires Trimmed(prefix) && PlainFields(fs)
    ensures AllTrimmed(RawFields(fs, content, isContent, prefix))
    ensures path in RawFields(fs, content, isContent, prefix) <==>
              SomeFieldPrints(fs, content, isContent, prefix, path)
    decreases fs, 0
  {
    if fs != [] {
      var init, last := fs[..|fs| - 1], fs[|fs| - 1];
      var own := Extend(prefix, Key(last.key));
      RawFieldsExact(init, content, isContent, prefix, path);
      ExtendTrimmed(prefix, Key(last.key));
      assert last.value < last;
      FieldPathsExact(last.value, content, isContent, own, path);
      var shown := if (last.key in content) == isContent then [own] else [];
      AllTrimmedAppend(RawFields(init, content, isContent, prefix), shown);
      AllTrimmedAppend(RawFields(init, content, isContent, prefix) + shown,
                       if last.key in content then [] else FieldPathsOf(last.value, content, isContent, own));
      assert path in RawFields(fs, content, isContent, prefix) <==>
          path in RawFields(init, content, isContent, prefix) || FieldPrints(last, content, isContent, prefix, path);
      SomeFieldPrintsSnoc(fs, content, isContent, prefix, path);
    }
  }

  ghost predicate ItemPrints(items: seq<Json>, content: set<string>, isContent: bool, prefix: string, path: string,
                             i: nat)
    requires i < |items|
  {
    Prints(items[i], content, isContent, Extend(prefix, Index(i)), path)
  }

  lemma ItemPrintsSnoc(items: seq<Json>, content: set<string>, isContent: bool, prefix: string, path: string)
    requires items != []
    ensures var n := |items| - 1;
            (exists i :: 0 <= i < |items| && ItemPrints(items, content, isContent, prefix, path, i)) <==>
              || (exists i :: 0 <= i < n && ItemPrints(items[..n], content, isContent, prefix, path, i))
              || Prints(items[n], content, isContent, Extend(prefix, Index(n)), path)
  {
    var n := |items| - 1;
    forall i | 0 <= i < n
      ensures ItemPrints(items[..n], content, isContent, prefix, path, i)
           == ItemPrints(items, content, isContent, prefix, path, i)
    {
      assert items[..n][i] == items[i];
    }
    assert ItemPrints(items, content, isContent, prefix, path, n)
        == Prints(items[n], content, isContent, Extend(prefix, Index(n)), path);
  }

  lemma AllTrimmedAppend(xs: seq<string>, ys: seq<string>)
    requires AllTrimmed(xs) && AllTrimmed(ys)
    ensures AllTrimmed(xs + ys)
  {
  }

  lemma {:induction false} RawItemsExact(items: seq<Json>, content: set<string>, isContent: bool, prefix: string,
                                         path: string)
    requires Trimmed(prefix)
    requires forall i :: 0 <= i < |items| ==> WellFormed(items[i]) && PlainKeys(items[i])
    ensures AllTrimmed(RawItems(items, content, isContent, prefix))
    ensures path in RawItems(items, content, isContent, prefix) <==>
              exists i :: 0 <= i < |items| && ItemPrints(items, content, isContent, prefix, path, i)
    decreases items, 0
  {
    if items != [] {
      var n := |items| - 1;
      var init := items[..n];
      RawItemsExact(init, content, isContent, prefix, path);
      ExtendTrimmed(prefix, Index(n));
      FieldPathsExact(items[n], content, isContent, Extend(prefix, Index(n)), path);
      AllTrimmedAppend(RawItems(init, content, isContent, prefix),
                       FieldPathsOf(items[n], content, isContent, Extend(prefix, Index(n))));
      ItemPrintsSnoc(items, content, isContent, prefix, path);
    }
  }

  /** A listed position splits into its first step and what is below it. */
  lemma PrintsThrough(v: Json, content: set<string>, isContent: bool, prefix: string, path: string, step: Step,
                      child: Json)
    requires Child(v, step, true) == Some(child)
    ensures (exists pos :: pos != [] && pos[0] == step && Listed(v, content, isContent, pos)
                           && PathOf(prefix, pos) == path) <==>
              || (step.Key? && (step.key in content) == isContent && Extend(prefix, step) == path)
              || ((step.Key? ==> step.key !in content)
                  && Prints(child, content, isContent, Extend(prefix, step), path))
  {
    if pos: Position :| pos != [] && pos[0] == step && Listed(v, content, isContent, pos) && PathOf(prefix, pos) == path {
      ListedThrough(v, content, isContent, pos, child);
      assert PathOf(prefix, pos) == PathOf(Extend(prefix, step), pos[1..]);
      assert |pos| == 1 ==> pos[1..] == [];
    }
    if step.Key? && (step.key in content) == isContent && Extend(prefix, step) == path {
      var pos := [step];
      ListedThrough(v, content, isContent, pos, child);
      assert pos[1..] == [];
      assert PathOf(prefix, pos) == PathOf(Extend(prefix, step), pos[1..]) == path;
      assert pos != [] && pos[0] == step && Listed(v, content, isContent, pos);
    }
    if (step.Key? ==> step.key !in content) && Prints(child, content, isContent, Extend(prefix, step), path) {
      var rest :| Listed(child, content, isContent, rest) && PathOf(Extend(prefix, step), rest) == path;
      var pos := [step] + rest;
      assert pos[1..] == rest;
      ListedThrough(v, content, isContent, pos, child);
      assert PathOf(prefix, pos) == path && pos != [] && pos[0] == step;
    }
  }

  lemma ObjectPrints(fs: seq<Field>, content: set<string>, isContent: bool, prefix: string, path: string)
    requires DistinctKeys(fs)
    ensures Prints(Obj(fs), content, isContent, prefix, path) <==>
              exists i :: 0 <= i < |fs| && FieldPrints(fs[i], content, isContent, prefix, path)
  {
    var v := Obj(fs);
    if pos: Position :| Listed(v, content, isContent, pos) && PathOf(prefix, pos) == path {
      assert pos[0].Key? && HasKey(fs, pos[0].key) by {
        assert Child(v, pos[0], true).Some?;
      }
      var i := LookupFinds(fs, pos[0].key);
      PrintsThrough(v, content, isContent, prefix, path, pos[0], fs[i].value);
      assert FieldPrints(fs[i], content, isContent, prefix, path);
    }
    if i :| 0 <= i < |fs| && FieldPrints(fs[i], content, isContent, prefix, path) {
      LookupAt(fs, i);
      assert HasKey(fs, fs[i].key);
      PrintsThrough(v, content, isContent, prefix, path, Key(fs[i].key), fs[i].value);
    }
  }

  lemma ArrayPrints(v: Json, content: set<string>, isContent: bool, prefix: string, path: string)
    requires v.Arr?
    ensures Prints(v, content, isContent, prefix, path) <==>
              exists i :: 0 <= i < |v.items| && ItemPrints(v.items, content, isContent, prefix, path, i)
  {
    if pos: Position :| Listed(v, content, isContent, pos) && PathOf(prefix, pos) == path {
      assert pos[0].Index? && pos[0].index < |v.items| by {
        assert Child(v, pos[0], true).Some?;
      }
      PrintsThrough(v, content, isContent, prefix, path, pos[0], v.items[pos[0].index]);
      assert ItemPrints(v.items, content, isContent, prefix, path, pos[0].index);
    }
    if i :| 0 <= i < |v.items| && ItemPrints(v.items, content, isContent, prefix, path, i) {
      PrintsThrough(v, content, isContent, prefix, path, Index(i), v.items[i]);
    }
  }

  /** Keys that print unambiguously: nonempty, without `.` or `[`. */
  ghost predicate CleanKeys(v: Json) {
    match v
    case Arr(_, items) => forall i :: 0 <= i < |items| ==> CleanKeys(items[i])
    case Obj(fs) => forall i :: 0 <= i < |fs| ==> CleanKey(fs[i].key) && CleanKeys(fs[i].value)
    case _ => true
  }

  lemma {:induction false} ReachedPositionsAreClean(v: Json, pos: Position)
    requires CleanKeys(v) && ValueAt(v, pos, true).Some?
    ensures CleanPosition(pos)
    decreases |pos|
  {
    if pos != [] {
      if pos[0].Key? {
        var i := LookupFinds(v.fields, pos[0].key);
      }
      ReachedPositionsAreClean(Child(v, pos[0], true).value, pos[1..]);
      assert forall i :: 1 <= i < |pos| ==> pos[i] == pos[1..][i - 1];
    }
  }

  /**
   With clean keys the projection splits the fields that have no content field above them:
   the observed paths are those of the other fields, the suppressed paths those of content
   fields, each path stands for one field, and no path is in both lists.
   */
  lemma ProjectionPartitions(v: Json, content: set<string>, path: string)
    requires WellFormed(v) && PlainKeys(v) && CleanKeys(v)
    ensures var observed := FieldPathsOf(v, content, false, "");
            var suppressed := FieldPathsOf(v, content, true, "");
            && (path in observed <==> Prints(v, content, false, "", path))
            && (path in suppressed <==> Prints(v, content, true, "", path))
            && !(path in observed && path in suppressed)
            && NoDuplicates(observed) && NoDuplicates(suppressed)
  {
    FieldPathsExact(v, content, false, "", path);
    FieldPathsExact(v, content, true, "", path);
    UniqueLists(v, content, false);
    UniqueLists(v, content, true);
    if Prints(v, content, false, "", path) && Prints(v, content, true, "", path) {
      var p :| Listed(v, content, false, p) && PathOf("", p) == path;
      var q :| Listed(v, content, true, q) && PathOf("", q) == path;
      ReachedPositionsAreClean(v, p);
      ReachedPositionsAreClean(v, q);
      PathInjective(p, q);
    }
  }

  lemma UniqueLists(v: Json, content: set<string>, isContent: bool)
    ensures NoDuplicates(FieldPathsOf(v, content, isContent, ""))
  {
    match v
    case Obj(fs) => UniqueExact(RawFields(fs, content, isContent, ""));
    case Arr(_, items) => UniqueExact(RawItems(items, content, isContent, ""));
    case _ =>
  }
}
