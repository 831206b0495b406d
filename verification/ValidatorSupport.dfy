/**
 The shared tree walker and de-duplicator (runtime/governance/validator_support.py). The
 walker for forbidden content (runtime/governance/visibility_isolation.py) is the same walk
 without exemptions that does not enter tuples.
 */
module ValidatorSupport {
  import opened JsonValues
  import opened Positions
  import opened Sequences
  import opened Text
  import opened Wrappers

  /** Which keys a walk reports, when a False value excuses one, and whether it enters tuples. */
  datatype Rule = Rule(fields: set<string>, allowFalse: bool, falseAllowed: set<string>, tuples: bool)
  {
    predicate Flags(key: string, item: Json) {
      key in fields && !(item == Bool(false) && (allowFalse || key in falseAllowed))
    }
  }

  /** What `matching_paths` returns. */
  function MatchingPaths(v: Json, rule: Rule, prefix: string): seq<string>
    decreases v, 1
  {
    match v
    case Obj(fs) => FieldPaths(fs, rule, prefix)
    case Arr(_, items) => if Enters(v, rule.tuples) then ItemPaths(items, rule, prefix) else []
    case _ => []
  }

  function FieldPaths(fs: seq<Field>, rule: Rule, prefix: string): seq<string>
    decreases fs, 0
  {
    if fs == [] then []
    else
      var last := fs[|fs| - 1];
      var path := Extend(prefix, Key(last.key));
      FieldPaths(fs[..|fs| - 1], rule, prefix)
      + (if rule.Flags(last.key, last.value) then [path] else [])
      + MatchingPaths(last.value, rule, path)
  }

  function ItemPaths(items: seq<Json>, rule: Rule, prefix: string): seq<string>
    decreases items, 0
  {
    if items == [] then []
    else
      var n := |items| - 1;
      ItemPaths(items[..n], rule, prefix) + MatchingPaths(items[n], rule, Extend(prefix, Index(n)))
  }

  /** `matching_paths`. */
  method FindMatchingPaths(v: Json, rule: Rule, prefix: string) returns (paths: seq<string>)
    ensures paths == MatchingPaths(v, rule, prefix)
    decreases v
  {
    paths := [];
    match v
    case Obj(fs) =>
      for i := 0 to |fs|
        invariant paths == FieldPaths(fs[..i], rule, prefix)
      {
        assert fs[..i + 1][..i] == fs[..i];
        assert fs[i].value < fs[i];
        var path := Extend(prefix, Key(fs[i].key));
        if rule.Flags(fs[i].key, fs[i].value) {
          paths := paths + [path];
        }
        var below := FindMatchingPaths(fs[i].value, rule, path);
        paths := paths + below;
      }
      assert fs[..|fs|] == fs;
    case Arr(_, items) =>
      if Enters(v, rule.tuples) {
        for i := 0 to |items|
          invariant paths == ItemPaths(items[..i], rule, prefix)
        {
          assert items[..i + 1][..i] == items[..i];
          var below := FindMatchingPaths(items[i], rule, Extend(prefix, Index(i)));
          paths := paths + below;
        }
        assert items[..|items|] == items;
      }
    case _ =>
  }

  /** A position whose key the rule reports, with the value found there. */
  ghost predicate Hit(v: Json, rule: Rule, pos: Position) {
    && pos != [] && pos[|pos| - 1].Key?
    && ValueAt(v, pos, rule.tuples).Some?
    && rule.Flags(pos[|pos| - 1].key, ValueAt(v, pos, rule.tuples).value)
  }

  function Under(step: Step, positions: seq<Position>): (r: seq<Position>)
    ensures |r| == |positions|
    ensures forall i :: 0 <= i < |r| ==> r[i] == [step] + positions[i]
  {
    seq(|positions|, i requires 0 <= i < |positions| => [step] + positions[i])
  }

  /** The reported positions, in the order of the walk. */
  function Hits(v: Json, rule: Rule): seq<Position>
    decreases v, 1
  {
    match v
    case Obj(fs) => FieldHits(fs, rule)
    case Arr(_, items) => if Enters(v, rule.tuples) then ItemHits(items, rule) else []
    case _ => []
  }

  function FieldHits(fs: seq<Field>, rule: Rule): seq<Position>
    decreases fs, 0
  {
    if fs == [] then []
    else
      var last := fs[|fs| - 1];
      FieldHits(fs[..|fs| - 1], rule)
      + (if rule.Flags(last.key, last.value) then [[Key(last.key)]] else [])
      + Under(Key(last.key), Hits(last.value, rule))
  }

  function ItemHits(items: seq<Json>, rule: Rule): seq<Position>
    decreases items, 0
  {
    if items == [] then []
    else
      var n := |items| - 1;
      ItemHits(items[..n], rule) + Under(Index(n), Hits(items[n], rule))
  }

  function Printed(prefix: string, positions: seq<Position>): (r: seq<string>)
    ensures |r| == |positions|
    ensures forall i :: 0 <= i < |r| ==> r[i] == PathOf(prefix, positions[i])
  {
    seq(|positions|, i requires 0 <= i < |positions| => PathOf(prefix, positions[i]))
  }

  lemma PrintedAppend(prefix: string, xs: seq<Position>, ys: seq<Position>)
    ensures Printed(prefix, xs + ys) == Printed(prefix, xs) + Printed(prefix, ys)
  {
  }

  lemma PrintedUnder(prefix: string, step: Step, positions: seq<Position>)
    ensures Printed(prefix, Under(step, positions)) == Printed(Extend(prefix, step), positions)
  {
    forall i | 0 <= i < |positions|
      ensures PathOf(prefix, [step] + positions[i]) == PathOf(Extend(prefix, step), positions[i])
    {
      assert ([step] + positions[i])[1..] == positions[i];
    }
  }

  lemma PrintedOne(prefix: string, step: Step)
    ensures Printed(prefix, [[step]]) == [Extend(prefix, step)]
  {
    assert [step][1..] == [];
    assert PathOf(prefix, [step]) == PathOf(Extend(prefix, step), []);
  }

  /** The walker prints the reported positions, one path each, in walk order. */
  lemma {:induction false} PathsPrintHits(v: Json, rule: Rule, prefix: string)
    ensures MatchingPaths(v, rule, prefix) == Printed(prefix, Hits(v, rule))
    decreases v, 1
  {
    match v
    case Obj(fs) => FieldPathsPrintHits(fs, rule, prefix);
    case Arr(_, items) =>
      if Enters(v, rule.tuples) {
        ItemPathsPrintHits(items, rule, prefix);
      }
    case _ =>
  }

  lemma {:induction false} FieldPathsPrintHits(fs: seq<Field>, rule: Rule, prefix: string)
    ensures FieldPaths(fs, rule, prefix) == Printed(prefix, FieldHits(fs, rule))
    decreases fs, 0
  {
    if fs != [] {
      var init, last := fs[..|fs| - 1], fs[|fs| - 1];
      var own := if rule.Flags(last.key, last.value) then [[Key(last.key)]] else [];
      var below := Under(Key(last.key), Hits(last.value, rule));
      FieldPathsPrintHits(init, rule, prefix);
      PathsPrintHits(last.value, rule, Extend(prefix, Key(last.key)));
      PrintedOne(prefix, Key(last.key));
      PrintedUnder(prefix, Key(last.key), Hits(last.value, rule));
      PrintedAppend(prefix, FieldHits(init, rule), own);
      PrintedAppend(prefix, FieldHits(init, rule) + own, below);
    }
  }

  lemma {:induction false} ItemPathsPrintHits(items: seq<Json>, rule: Rule, prefix: string)
    ensures ItemPaths(items, rule, prefix) == Printed(prefix, ItemHits(items, rule))
    decreases items, 0
  {
    if items != [] {
      var n := |items| - 1;
      ItemPathsPrintHits(items[..n], rule, prefix);
      PathsPrintHits(items[n], rule, Extend(prefix, Index(n)));
      PrintedUnder(prefix, Index(n), Hits(items[n], rule));
      PrintedAppend(prefix, ItemHits(items[..n], rule), Under(Index(n), Hits(items[n], rule)));
    }
  }

  /** In a tree of dictionaries the walk meets exactly the hit positions. */
  lemma {:induction false} HitsExact(v: Json, rule: Rule, pos: Position)
    requires WellFormed(v)
    ensures pos in Hits(v, rule) <==> Hit(v, rule, pos)
    decreases v, 1
  {
    match v
    case Obj(fs) =>
      FieldHitsExact(fs, rule, pos);
      ObjectHit(fs, rule, pos);
    case Arr(_, items) =>
      if Enters(v, rule.tuples) {
        ItemHitsExact(items, rule, pos);
        if pos != [] && pos[0].Index? && pos[0].index < |items| {
          HitThrough(v, rule, pos, items[pos[0].index]);
        }
      }
    case _ =>
  }

  /** A hit is either the first step itself or a hit below it. */
  lemma HitThrough(v: Json, rule: Rule, pos: Position, child: Json)
    requires pos != [] && Child(v, pos[0], rule.tuples) == Some(child)
    ensures Hit(v, rule, pos) <==>
              if |pos| == 1 then pos[0].Key? && rule.Flags(pos[0].key, child) else Hit(child, rule, pos[1..])
  {
    assert ValueAt(v, pos, rule.tuples) == ValueAt(child, pos[1..], rule.tuples);
    if |pos| == 1 {
      assert pos[1..] == [];
    } else {
      assert pos[1..][|pos| - 2] == pos[|pos| - 1];
    }
  }

  ghost predicate FieldHit(fs: seq<Field>, rule: Rule, pos: Position, i: nat)
    requires i < |fs|
  {
    && pos != [] && pos[0] == Key(fs[i].key)
    && if |pos| == 1 then rule.Flags(fs[i].key, fs[i].value) else Hit(fs[i].value, rule, pos[1..])
  }

  /** With distinct keys a hit of an object goes through the one field of its first key. */
  lemma ObjectHit(fs: seq<Field>, rule: Rule, pos: Position)
    requires DistinctKeys(fs)
    ensures Hit(Obj(fs), rule, pos) <==> exists i :: 0 <= i < |fs| && FieldHit(fs, rule, pos, i)
  {
    if pos != [] && pos[0].Key? && HasKey(fs, pos[0].key) {
      var k := LookupFinds(fs, pos[0].key);
      HitThrough(Obj(fs), rule, pos, fs[k].value);
      assert Hit(Obj(fs), rule, pos) <==> FieldHit(fs, rule, pos, k);
    } else if i :| 0 <= i < |fs| && FieldHit(fs, rule, pos, i) {
      assert HasKey(fs, pos[0].key);
    }
  }

  lemma {:induction false} FieldHitsExact(fs: seq<Field>, rule: Rule, pos: Position)
    requires forall i :: 0 <= i < |fs| ==> WellFormed(fs[i].value)
    ensures pos in FieldHits(fs, rule) <==> exists i :: 0 <= i < |fs| && FieldHit(fs, rule, pos, i)
    decreases fs, 0
  {
    if fs != [] {
      var init, n := fs[..|fs| - 1], |fs| - 1;
      var last := fs[n];
      var step, below := Key(last.key), Hits(last.value, rule);
      FieldHitsExact(init, rule, pos);
      UnderMember(step, below, pos);
      if pos != [] && pos[0] == step {
        assert last.value < last;
        HitsExact(last.value, rule, pos[1..]);
        NoEmptyHit(last.value, rule);
        assert |pos| == 1 ==> pos == [step] && pos[1..] == [];
      }
      assert forall i :: 0 <= i < n ==> FieldHit(init, rule, pos, i) == FieldHit(fs, rule, pos, i);
      assert pos in FieldHits(fs, rule) <==> pos in FieldHits(init, rule) || FieldHit(fs, rule, pos, n);
    }
  }

  lemma {:induction false} ItemHitsExact(items: seq<Json>, rule: Rule, pos: Position)
    requires forall i :: 0 <= i < |items| ==> WellFormed(items[i])
    ensures pos in ItemHits(items, rule) <==>
              pos != [] && pos[0].Index? && pos[0].index < |items| && Hit(items[pos[0].index], rule, pos[1..])
    decreases items, 0
  {
    if items != [] {
      var n := |items| - 1;
      ItemHitsExact(items[..n], rule, pos);
      UnderMember(Index(n), Hits(items[n], rule), pos);
      if pos != [] {
        HitsExact(items[n], rule, pos[1..]);
      }
    }
  }

  lemma UnderMember(step: Step, positions: seq<Position>, pos: Position)
    ensures pos in Under(step, positions) <==> pos != [] && pos[0] == step && pos[1..] in positions
  {
    var under := Under(step, positions);
    if pos in under {
      var i :| 0 <= i < |under| && under[i] == pos;
      assert pos[1..] == positions[i];
    }
    if pos != [] && pos[0] == step && pos[1..] in positions {
      var i :| 0 <= i < |positions| && positions[i] == pos[1..];
      assert under[i] == pos;
    }
  }

  lemma NoEmptyHit(v: Json, rule: Rule)
    ensures !Hit(v, rule, [])
  {
  }

  /**
   `matching_paths` returns precisely the paths of the positions whose key is in the set and
   is not excused by a False value.
   */
  lemma MatchingPathsExact(v: Json, rule: Rule, path: string)
    requires WellFormed(v)
    ensures path in MatchingPaths(v, rule, "") <==> exists pos :: Hit(v, rule, pos) && PathOf("", pos) == path
  {
    PathsPrintHits(v, rule, "");
    var hits := Hits(v, rule);
    if path in MatchingPaths(v, rule, "") {
      var i :| 0 <= i < |hits| && Printed("", hits)[i] == path;
      HitsExact(v, rule, hits[i]);
      assert Hit(v, rule, hits[i]) && PathOf("", hits[i]) == path;
    }
    if pos :| Hit(v, rule, pos) && PathOf("", pos) == path {
      HitsExact(v, rule, pos);
      var i :| 0 <= i < |hits| && hits[i] == pos;
      assert Printed("", hits)[i] == path;
    }
  }

  /** No path means no hit at any depth. */
  lemma NoPathsIffNoHits(v: Json, rule: Rule)
    requires WellFormed(v)
    ensures MatchingPaths(v, rule, "") == [] <==> forall pos :: !Hit(v, rule, pos)
  {
    if MatchingPaths(v, rule, "") == [] {
      forall pos ensures !Hit(v, rule, pos) {
        MatchingPathsExact(v, rule, PathOf("", pos));
      }
    } else {
      var path := MatchingPaths(v, rule, "")[0];
      MatchingPathsExact(v, rule, path);
    }
  }

  /** Looking for the fields of two sets finds what either search finds. */
  lemma MatchingPathsUnion(v: Json, a: Rule, b: Rule, path: string)
    requires WellFormed(v)
    requires a.allowFalse == b.allowFalse && a.falseAllowed == b.falseAllowed && a.tuples == b.tuples
    ensures path in MatchingPaths(v, a.(fields := a.fields + b.fields), "") <==>
              path in MatchingPaths(v, a, "") || path in MatchingPaths(v, b, "")
  {
    var both := a.(fields := a.fields + b.fields);
    MatchingPathsExact(v, both, path);
    MatchingPathsExact(v, a, path);
    MatchingPathsExact(v, b, path);
    assert forall pos :: Hit(v, both, pos) <==> Hit(v, a, pos) || Hit(v, b, pos);
  }

  /** The stripped values that are not blank. */
  function StrippedTexts(texts: seq<string>): seq<string> {
    FlatMap(texts, StrippedText)
  }

  function StrippedText(text: string): seq<string> {
    if Blank(text) then [] else [Strip(text)]
  }

  /** What `unique_values` returns. */
  function Unique(values: seq<string>): seq<string> {
    if values == [] then []
    else
      var found := Unique(values[..|values| - 1]);
      var text := SafeString(values[|values| - 1]);
      if text.Some? && text.value !in found then found + [text.value] else found
  }

  /** `unique_values`. */
  method UniqueValues(values: seq<string>) returns (found: seq<string>)
    ensures found == Unique(values)
  {
    found := [];
    for i := 0 to |values|
      invariant found == Unique(values[..i])
    {
      assert values[..i + 1][..i] == values[..i];
      var text := SafeString(values[i]);
      if text.Some? && text.value !in found {
        found := found + [text.value];
      }
    }
    assert values[..|values|] == values;
  }

  /** Exactly the stripped nonblank values remain, each once. */
  lemma {:induction false} UniqueExact(values: seq<string>)
    ensures NoDuplicates(Unique(values))
    ensures forall t :: t in Unique(values) <==>
              exists i :: 0 <= i < |values| && !Blank(values[i]) && Strip(values[i]) == t
  {
    if values != [] {
      var n := |values| - 1;
      var init := values[..n];
      UniqueExact(init);
      forall t
        ensures t in Unique(values) <==>
                  exists i :: 0 <= i < |values| && !Blank(values[i]) && Strip(values[i]) == t
      {
        assert t in Unique(values) <==> t in Unique(init) || (!Blank(values[n]) && Strip(values[n]) == t);
        if i :| 0 <= i < |values| && !Blank(values[i]) && Strip(values[i]) == t {
          assert i < n ==> init[i] == values[i];
        }
        if t in Unique(init) {
          var i :| 0 <= i < n && !Blank(init[i]) && Strip(init[i]) == t;
          assert values[i] == init[i];
        }
      }
    }
  }

  /** `unique_values` keeps the stripped texts in the order in which they first occur. */
  lemma {:induction false} UniqueKeepsOrder(values: seq<string>)
    ensures EachOnceInOrder(Unique(values), StrippedTexts(values))
  {
    if values != [] {
      var n := |values| - 1;
      UniqueKeepsOrder(values[..n]);
      if !Blank(values[n]) {
        OnceInOrderSnoc(Unique(values[..n]), StrippedTexts(values[..n]), Strip(values[n]));
      } else {
        assert StrippedTexts(values) == StrippedTexts(values[..n]);
      }
    }
  }

  /** De-duplication never erases the last violation. */
  lemma UniqueKeepsOne(values: seq<string>)
    requires forall i :: 0 <= i < |values| ==> !Blank(values[i])
    ensures Unique(values) == [] <==> values == []
  {
    UniqueExact(values);
    if values != [] {
      assert Strip(values[0]) in Unique(values);
    }
  }

  /** Trimmed distinct values are left as they are. */
  lemma {:induction false} UniqueIdentity(values: seq<string>)
    requires NoDuplicates(values)
    requires forall i :: 0 <= i < |values| ==> values[i] != "" && Trimmed(values[i])
    ensures Unique(values) == values
  {
    if values != [] {
      var n := |values| - 1;
      UniqueIdentity(values[..n]);
      StripFacts(values[n]);
      assert values == values[..n] + [values[n]];
    }
  }
}
