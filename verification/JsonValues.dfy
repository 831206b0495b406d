/**
 Python values as they reach the validators: JSON trees. An object keeps its fields in
 insertion order; `Arr(true, _)` is a list and `Arr(false, _)` a tuple.
 */
module JsonValues {
  datatype Field = Field(key: string, value: Json)

  datatype Json =
    | Null
    | Bool(b: bool)
    | Num(n: int)
    | Str(s: string)
    | Arr(isList: bool, items: seq<Json>)
    | Obj(fields: seq<Field>)

  /** A Python dictionary has each key once. */
  ghost predicate DistinctKeys(fs: seq<Field>) {
    forall i, j :: 0 <= i < j < |fs| ==> fs[i].key != fs[j].key
  }

  /** Every dictionary inside `v` has distinct keys. */
  ghost predicate WellFormed(v: Json) {
    match v
    case Arr(_, items) => forall i :: 0 <= i < |items| ==> WellFormed(items[i])
    case Obj(fs) => DistinctKeys(fs) && forall i :: 0 <= i < |fs| ==> WellFormed(fs[i].value)
    case _ => true
  }

  predicate HasKey(fs: seq<Field>, key: string) {
    exists i :: 0 <= i < |fs| && fs[i].key == key
  }

  function Lookup(fs: seq<Field>, key: string): (r: Json)
    ensures !HasKey(fs, key) ==> r == Null
  {
    if fs == [] then Null
    else if fs[0].key == key then fs[0].value
    else
      var r := Lookup(fs[1..], key);
      assert HasKey(fs[1..], key) ==> HasKey(fs, key) by {
        if HasKey(fs[1..], key) {
          var i :| 0 <= i < |fs[1..]| && fs[1..][i].key == key;
          assert fs[i + 1].key == key;
        }
      }
      r
  }

  /** `value.get(key)`: `None` for a missing key. */
  function Get(v: Json, key: string): Json {
    if v.Obj? then Lookup(v.fields, key) else Null
  }

  lemma {:induction false} LookupAt(fs: seq<Field>, i: nat)
    requires i < |fs| && DistinctKeys(fs)
    ensures Lookup(fs, fs[i].key) == fs[i].value
  {
    if i > 0 {
      assert fs[0].key != fs[i].key;
      LookupAt(fs[1..], i - 1);
    }
  }

  /** What a lookup finds is one of the fields. */
  lemma {:induction false} LookupFinds(fs: seq<Field>, key: string) returns (i: nat)
    requires HasKey(fs, key)
    ensures i < |fs| && fs[i] == Field(key, Lookup(fs, key))
  {
    if fs[0].key == key {
      i := 0;
    } else {
      var k :| 0 <= k < |fs| && fs[k].key == key;
      assert fs[1..][k - 1].key == key;
      var j := LookupFinds(fs[1..], key);
      i := j + 1;
    }
  }
}
