/** `{key: item for item in items}` as a lookup: the last item with a key wins. */
module KeyedLookup {
  /** The position of the last occurrence of `key`, or -1. */
  function LastIndex(keys: seq<string>, key: string): (r: int)
    ensures -1 <= r < |keys|
    ensures r >= 0 ==> keys[r] == key
    ensures forall i :: r < i < |keys| ==> keys[i] != key
  {
    if keys == [] then -1
    else if keys[|keys| - 1] == key then |keys| - 1
    else LastIndex(keys[..|keys| - 1], key)
  }

  /** Without repeated keys the lookup of a key finds its own item. */
  lemma LastIndexUnique(keys: seq<string>, i: nat)
    requires i < |keys|
    requires forall j, k :: 0 <= j < k < |keys| ==> keys[j] != keys[k]
    ensures LastIndex(keys, keys[i]) == i
  {
    var r := LastIndex(keys, keys[i]);
    assert i <= r;
  }
}
