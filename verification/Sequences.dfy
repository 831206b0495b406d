/** Lists of lists, lists without repetitions, and how often something holds in a list. */
module Sequences {
  function Flatten<T>(parts: seq<seq<T>>): seq<T> {
    if parts == [] then [] else Flatten(parts[..|parts| - 1]) + parts[|parts| - 1]
  }

  lemma {:induction false} FlattenNone<T>(parts: seq<seq<T>>)
    ensures Flatten(parts) == [] <==> forall i :: 0 <= i < |parts| ==> parts[i] == []
  {
    if parts != [] {
      var n := |parts| - 1;
      FlattenNone(parts[..n]);
      assert forall i :: 0 <= i < n ==> parts[..n][i] == parts[i];
    }
  }

  lemma {:induction false} FlattenAppend<T>(a: seq<seq<T>>, b: seq<seq<T>>)
    ensures Flatten(a + b) == Flatten(a) + Flatten(b)
    decreases |b|
  {
    if b == [] {
      assert a + b == a;
    } else {
      var n := |b| - 1;
      assert (a + b)[..|a| + n] == a + b[..n];
      FlattenAppend(a, b[..n]);
    }
  }

  lemma FlattenSnoc<T>(parts: seq<seq<T>>, last: seq<T>)
    ensures Flatten(parts + [last]) == Flatten(parts) + last
  {
    assert (parts + [last])[..|parts|] == parts;
  }

  /** What a comprehension collects that gives any number of values for each element. */
  function FlatMap<T, U>(xs: seq<T>, f: T -> seq<U>): seq<U> {
    if xs == [] then [] else FlatMap(xs[..|xs| - 1], f) + f(xs[|xs| - 1])
  }

  lemma FlatMapSnoc<T, U>(xs: seq<T>, last: T, f: T -> seq<U>)
    ensures FlatMap(xs + [last], f) == FlatMap(xs, f) + f(last)
  {
    assert (xs + [last])[..|xs|] == xs;
  }

  lemma {:induction false} FlatMapAppend<T, U>(a: seq<T>, b: seq<T>, f: T -> seq<U>)
    ensures FlatMap(a + b, f) == FlatMap(a, f) + FlatMap(b, f)
    decreases |b|
  {
    if b == [] {
      assert a + b == a;
    } else {
      var n := |b| - 1;
      assert (a + b)[..|a| + n] == a + b[..n];
      FlatMapAppend(a, b[..n], f);
    }
  }

  lemma {:induction false} FlatMapIdentity<T>(xs: seq<T>, f: T -> seq<T>)
    requires forall i :: 0 <= i < |xs| ==> f(xs[i]) == [xs[i]]
    ensures FlatMap(xs, f) == xs
  {
    if xs != [] {
      FlatMapIdentity(xs[..|xs| - 1], f);
    }
  }

  lemma {:induction false} FlatMapMember<T, U>(xs: seq<T>, f: T -> seq<U>, y: U)
    ensures y in FlatMap(xs, f) <==> exists i :: 0 <= i < |xs| && y in f(xs[i])
  {
    if xs != [] {
      var init, n := xs[..|xs| - 1], |xs| - 1;
      FlatMapMember(init, f, y);
      assert forall i :: 0 <= i < n ==> init[i] == xs[i];
    }
  }

  ghost predicate NoDuplicates<T>(xs: seq<T>) {
    forall i, j :: 0 <= i < j < |xs| ==> xs[i] != xs[j]
  }

  ghost predicate FirstAt<T>(xs: seq<T>, x: T, i: nat) {
    i < |xs| && xs[i] == x && x !in xs[..i]
  }

  /** Every value of `xs` once, in the order of their first places. */
  ghost predicate EachOnceInOrder<T(!new)>(found: seq<T>, xs: seq<T>) {
    && NoDuplicates(found) && (forall x :: x in found <==> x in xs)
    && forall i, j, a: nat, b: nat ::
         0 <= i < j < |found| && FirstAt(xs, found[i], a) && FirstAt(xs, found[j], b) ==> a < b
  }

  lemma FirstOfLonger<T>(xs: seq<T>, last: T, x: T, i: nat)
    requires FirstAt(xs + [last], x, i)
    ensures x in xs ==> FirstAt(xs, x, i)
    ensures x !in xs ==> i == |xs|
  {
    assert i < |xs| ==> (xs + [last])[..i] == xs[..i] && xs[i] == (xs + [last])[i];
    if i == |xs| {
      assert (xs + [last])[..i] == xs;
    }
  }

  lemma OnceInOrderSnoc<T(!new)>(found: seq<T>, xs: seq<T>, last: T)
    requires EachOnceInOrder(found, xs)
    ensures EachOnceInOrder(if last in found then found else found + [last], xs + [last])
  {
    var next := if last in found then found else found + [last];
    forall i, j, a: nat, b: nat
      | 0 <= i < j < |next| && FirstAt(xs + [last], next[i], a) && FirstAt(xs + [last], next[j], b)
      ensures a < b
    {
      FirstOfLonger(xs, last, next[i], a);
      FirstOfLonger(xs, last, next[j], b);
      assert next[i] == found[i] && next[i] in found;
      if j < |found| {
        assert next[j] == found[j] && next[j] in found;
      }
    }
  }

  /** `dict.fromkeys`: each value at its first place. */
  function OnceEach<T(==)>(xs: seq<T>): seq<T> {
    if xs == [] then []
    else
      var n := |xs| - 1;
      var found := OnceEach(xs[..n]);
      if xs[n] in found then found else found + [xs[n]]
  }

  lemma {:induction false} OnceEachInOrder<T(!new)>(xs: seq<T>)
    ensures EachOnceInOrder(OnceEach(xs), xs)
  {
    if xs != [] {
      var n := |xs| - 1;
      OnceEachInOrder(xs[..n]);
      OnceInOrderSnoc(OnceEach(xs[..n]), xs[..n], xs[n]);
      assert xs == xs[..n] + [xs[n]];
    }
  }

  /** For how many entries it holds. */
  ghost function Count<T>(entries: seq<T>, holds: T -> bool): nat {
    if entries == [] then 0 else (if holds(entries[0]) then 1 else 0) + Count(entries[1..], holds)
  }

  lemma {:induction false} CountNone<T>(entries: seq<T>, holds: T -> bool)
    ensures Count(entries, holds) <= |entries|
    ensures Count(entries, holds) == 0 <==> forall j :: 0 <= j < |entries| ==> !holds(entries[j])
  {
    if entries != [] {
      CountNone(entries[1..], holds);
      assert forall j :: 1 <= j < |entries| ==> entries[j] == entries[1..][j - 1];
    }
  }

  /** Entry `k` is the only one for which it holds. */
  ghost predicate OnlyAt<T>(entries: seq<T>, holds: T -> bool, k: nat) {
    k < |entries| && holds(entries[k]) && forall j :: 0 <= j < |entries| && holds(entries[j]) ==> j == k
  }

  lemma OnlyLater<T>(entries: seq<T>, holds: T -> bool, k: nat)
    requires entries != [] && !holds(entries[0])
    ensures OnlyAt(entries, holds, k + 1) <==> OnlyAt(entries[1..], holds, k)
  {
    assert forall j :: 1 <= j < |entries| ==> entries[j] == entries[1..][j - 1];
    assert forall j :: 0 <= j < |entries[1..]| ==> entries[1..][j] == entries[j + 1];
  }

  lemma {:induction false} CountOne<T>(entries: seq<T>, holds: T -> bool)
    ensures Count(entries, holds) == 1 <==> exists k: nat :: OnlyAt(entries, holds, k)
  {
    if entries != [] {
      var rest := entries[1..];
      if holds(entries[0]) {
        CountNone(rest, holds);
        assert forall j :: 1 <= j < |entries| ==> entries[j] == rest[j - 1];
        assert forall j :: 0 <= j < |rest| ==> rest[j] == entries[j + 1];
        if Count(rest, holds) == 0 {
          assert OnlyAt(entries, holds, 0);
        }
      } else {
        CountOne(rest, holds);
        if k: nat :| OnlyAt(rest, holds, k) {
          OnlyLater(entries, holds, k);
        }
        if k: nat :| OnlyAt(entries, holds, k) {
          OnlyLater(entries, holds, k - 1);
        }
      }
    }
  }

  lemma InThree<T>(x: T, a: seq<T>, b: seq<T>, c: seq<T>)
    ensures x in a + b + c <==> x in a || x in b || x in c
  {
  }
}
