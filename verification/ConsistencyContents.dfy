/** What the consistency record says, said about the values it is built from. */
module ConsistencyContents {
  import opened JsonValues
  import opened Records
  import opened Sequences
  import opened Text
  import opened ValidatorSupport
  import opened VisibilityConsistency
  import opened Wrappers

  ghost function DictIn(v: Json): seq<Json> {
    if v.Obj? then [v] else []
  }

  /** The dictionaries among the values, in order. */
  ghost function Dicts(values: seq<Json>): seq<Json> {
    FlatMap(values, DictIn)
  }

  lemma {:induction false} FlatMapFirst<T, U>(x: T, xs: seq<T>, f: T -> seq<U>)
    ensures FlatMap([x] + xs, f) == f(x) + FlatMap(xs, f)
  {
    FlatMapAppend([x], xs, f);
    assert [x][..0] == [];
    assert FlatMap([x], f) == FlatMap([], f) + f(x);
  }

  lemma {:induction false} MappingsExactly(values: seq<Json>)
    ensures Mappings(values) == Dicts(values)
  {
    if values != [] {
      MappingsExactly(values[1..]);
      FlatMapFirst(values[0], values[1..], DictIn);
      assert values == [values[0]] + values[1..];
    }
  }

  /** `a < b`: after a common beginning `a` ends or has the smaller character. */
  ghost predicate Precedes(a: string, b: string) {
    exists k: nat :: k <= |a| && k < |b| && a[..k] == b[..k] && (k == |a| || a[k] < b[k])
  }

  lemma PrecedesStep(a: string, b: string)
    requires a != "" && b != "" && a[0] == b[0]
    ensures Precedes(a, b) <==> Precedes(a[1..], b[1..])
  {
    if k: nat :| k <= |a| && k < |b| && a[..k] == b[..k] && (k == |a| || a[k] < b[k]) {
      assert k > 0;
      assert a[1..][..k - 1] == a[..k][1..] && b[1..][..k - 1] == b[..k][1..];
    }
    var c, d := a[1..], b[1..];
    if k: nat :| k <= |c| && k < |d| && c[..k] == d[..k] && (k == |c| || c[k] < d[k]) {
      assert a[..k + 1] == [a[0]] + c[..k] && b[..k + 1] == [b[0]] + d[..k];
    }
  }

  lemma PrecedesHead(a: string, b: string)
    requires Precedes(a, b)
    ensures b != "" && (a == "" || a[0] <= b[0])
  {
    var k: nat :| k <= |a| && k < |b| && a[..k] == b[..k] && (k == |a| || a[k] < b[k]);
    if k > 0 {
      assert a[0] == a[..k][0] == b[..k][0] == b[0];
    }
  }

  lemma {:induction false} LessExactly(a: string, b: string)
    ensures Less(a, b) <==> Precedes(a, b)
  {
    if a != "" && b != "" && a[0] == b[0] {
      LessExactly(a[1..], b[1..]);
      PrecedesStep(a, b);
    } else {
      if Precedes(a, b) {
        PrecedesHead(a, b);
      }
      assert a[..0] == b[..0];
    }
  }

  lemma {:induction false} LessTransitive(a: string, b: string, c: string)
    requires Less(a, b) && Less(b, c)
    ensures Less(a, c)
  {
    if a != "" && a[0] == b[0] == c[0] {
      LessTransitive(a[1..], b[1..], c[1..]);
    }
  }

  lemma {:induction false} LessTotal(a: string, b: string)
    requires a != b
    ensures Less(a, b) || Less(b, a)
  {
    if a != "" && b != "" && a[0] == b[0] {
      assert a == [a[0]] + a[1..] && b == [b[0]] + b[1..];
      LessTotal(a[1..], b[1..]);
    }
  }

  ghost predicate Ascending(texts: seq<string>) {
    forall i, j :: 0 <= i < j < |texts| ==> Less(texts[i], texts[j])
  }

  lemma InsertFirst(sorted: seq<string>, text: string)
    requires Ascending(sorted) && (sorted != [] ==> Less(text, sorted[0]))
    ensures Ascending([text] + sorted)
  {
    forall j | 0 < j < |sorted| ensures Less(text, sorted[j]) {
      LessTransitive(text, sorted[0], sorted[j]);
    }
  }

  lemma {:induction false} InsertExactly(sorted: seq<string>, text: string)
    requires Ascending(sorted)
    ensures Ascending(Insert(sorted, text))
    ensures forall t :: t in Insert(sorted, text) <==> t in sorted || t == text
    ensures Insert(sorted, text) != [] && (sorted != [] && Less(sorted[0], text) ==> Insert(sorted, text)[0] == sorted[0])
  {
    if sorted != [] && sorted[0] != text {
      if Less(text, sorted[0]) {
        InsertFirst(sorted, text);
        NotBoth(text, sorted[0]);
      } else {
        var rest := sorted[1..];
        LessTotal(text, sorted[0]);
        InsertExactly(rest, text);
        var more := Insert(rest, text);
        assert sorted == [sorted[0]] + rest;
        forall t | t in more ensures Less(sorted[0], t) {
          if t in rest {
            var i :| 0 <= i < |rest| && rest[i] == t;
            assert sorted[i + 1] == t;
          }
        }
      }
    }
  }

  lemma {:induction false} NotBoth(a: string, b: string)
    requires Less(a, b)
    ensures !Less(b, a)
  {
    if a != "" && a[0] == b[0] {
      NotBoth(a[1..], b[1..]);
    }
  }

  /** `sorted(set(..))` has every value once, in ascending order. */
  lemma {:induction false} SortedSetExactly(values: seq<string>)
    ensures forall i, j :: 0 <= i < j < |SortedSet(values)| ==> Precedes(SortedSet(values)[i], SortedSet(values)[j])
    ensures forall t :: t in SortedSet(values) <==> t in values
  {
    SortedSetAscends(values);
    forall i, j | 0 <= i < j < |SortedSet(values)|
      ensures Precedes(SortedSet(values)[i], SortedSet(values)[j])
    {
      LessExactly(SortedSet(values)[i], SortedSet(values)[j]);
    }
  }

  lemma {:induction false} SortedSetAscends(values: seq<string>)
    ensures Ascending(SortedSet(values))
    ensures forall t :: t in SortedSet(values) <==> t in values
  {
    if values != [] {
      SortedSetAscends(values[1..]);
      InsertExactly(SortedSet(values[1..]), values[0]);
      assert values == [values[0]] + values[1..];
    }
  }

  ghost function DomainIn(v: Json): seq<string> {
    var domain := Get(v, "operation_domain");
    if domain.Str? && !Blank(domain.s) then [Strip(domain.s)] else []
  }

  lemma {:induction false} DomainsExactly(items: seq<Json>)
    ensures Texts(items, "operation_domain") == FlatMap(items, DomainIn)
  {
    if items != [] {
      DomainsExactly(items[..|items| - 1]);
    }
  }

  ghost function Strings(texts: seq<string>): Json {
    Arr(true, seq(|texts|, i requires 0 <= i < |texts| => Str(texts[i])))
  }

  lemma HeadHas(source: string, allowed: bool)
    ensures var head := ConsistencyHead(source, allowed);
            && Field("allowed", Bool(allowed)) in head
            && Field("source", Str(if Blank(source) then "visibility_consistency" else Strip(source))) in head
  {
    var head := ConsistencyHead(source, allowed);
    assert head[2].key == "source" && head[3].key == "allowed";
  }

  lemma AtPlaces(fs: seq<Field>, a: Field, b: Field, c: Field, d: Field)
    requires |fs| == 6 && fs[0] == a && fs[1] == b && fs[2] == c && fs[4] == d
    ensures a in fs && b in fs && c in fs && d in fs
  {
  }

  lemma TailHas(allowed: bool, count: nat, blocked: Json, domains: Json)
    ensures var tail := ConsistencyTail(allowed, count, blocked, domains);
            && Field("checked_surface_count", Num(count)) in tail && Field("blocked_fields", blocked) in tail
            && Field("skipped_reasons", Skipped(allowed)) in tail
            && Field("observed_operation_domains", domains) in tail
  {
    AtPlaces(ConsistencyTail(allowed, count, blocked, domains), Field("checked_surface_count", Num(count)),
             Field("blocked_fields", blocked), Field("skipped_reasons", Skipped(allowed)),
             Field("observed_operation_domains", domains));
  }

  lemma RecordFields(source: string, count: nat, blocked: seq<string>, reported: seq<string>, domains: seq<string>)
    ensures var r, allowed := ConsistencyRecord(source, count, blocked, reported, domains), blocked == [];
            && Has(r, "allowed", Bool(allowed)) && Has(r, "checked_surface_count", Num(count))
            && Has(r, "source", Str(if Blank(source) then "visibility_consistency" else Strip(source)))
            && Has(r, "blocked_fields", Strings(reported)) && Has(r, "observed_operation_domains", Strings(domains))
            && Has(r, "skipped_reasons", Strings(if allowed then [] else ["visibility_consistency_violation"]))
  {
    var allowed := blocked == [];
    var head, tail := ConsistencyHead(source, allowed),
                      ConsistencyTail(allowed, count, TextList(reported), TextList(domains));
    HeadHas(source, allowed);
    TailHas(allowed, count, TextList(reported), TextList(domains));
    forall f: Field ensures f in head || f in tail ==> f in head + CONSISTENCY_FLAGS + tail {
      InThree(f, head, CONSISTENCY_FLAGS, tail);
    }
  }

  /**
   The record over any values: it counts the dictionaries among them, is allowed exactly when
   there is one and all of them are unremarkable, gives a reason exactly when it is not, and
   lists the stripped operation domains once each, in ascending order.
   */
  lemma RecordExactly(values: seq<Json>, source: string) returns (domains: seq<string>)
    ensures BuildConsistency(values, source).Some?
    ensures var r, items := BuildConsistency(values, source).value, Dicts(values);
            var allowed := items != [] && AllUnremarkable(items);
            && Has(r, "allowed", Bool(allowed)) && Has(r, "checked_surface_count", Num(|items|))
            && Has(r, "source", Str(if Blank(source) then "visibility_consistency" else Strip(source)))
            && Has(r, "skipped_reasons", Strings(if allowed then [] else ["visibility_consistency_violation"]))
            && Has(r, "observed_operation_domains", Strings(domains))
            && (forall t :: t in domains <==> t in FlatMap(items, DomainIn))
            && forall i, j :: 0 <= i < j < |domains| ==> Precedes(domains[i], domains[j])
  {
    MappingsExactly(values);
    ConsistencyExact(values);
    ConsistencyAssertionNeverFires(values, source);
    var items := Mappings(values);
    var blocked := ConsistencyViolations(items);
    domains := SortedSet(Texts(items, "operation_domain"));
    DomainsExactly(items);
    SortedSetExactly(Texts(items, "operation_domain"));
    RecordFields(source, |items|, blocked, Unique(blocked), domains);
  }
}
