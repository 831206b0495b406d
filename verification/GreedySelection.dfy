/**
 Greedy selection under a count limit and a cost limit, on costs alone: `None` marks an
 entry that cannot be taken.
 */
module GreedySelection {
  import opened Sums
  import opened Wrappers

  function CostsAt(costs: seq<Option<nat>>, positions: seq<nat>): seq<int>
    requires forall k :: 0 <= k < |positions| ==> positions[k] < |costs| && costs[positions[k]].Some?
  {
    seq(|positions|, k requires 0 <= k < |positions| => costs[positions[k]].value)
  }

  /** Whether entry `i` is taken after the entries at `before` were. */
  predicate Takes(costs: seq<Option<nat>>, before: seq<nat>, i: nat, limit: int, budget: int)
    requires i < |costs|
    requires forall k :: 0 <= k < |before| ==> before[k] < |costs| && costs[before[k]].Some?
  {
    |before| < limit && costs[i].Some? && Sum(CostsAt(costs, before)) + costs[i].value <= budget
  }

  /** The positions taken among the first `n` entries. */
  function Taken(costs: seq<Option<nat>>, n: nat, limit: int, budget: int): (r: seq<nat>)
    requires n <= |costs|
    ensures forall k :: 0 <= k < |r| ==> r[k] < n && costs[r[k]].Some?
    ensures forall j, k :: 0 <= j < k < |r| ==> r[j] < r[k]
  {
    if n == 0 then []
    else
      var before := Taken(costs, n - 1, limit, budget);
      if Takes(costs, before, n - 1, limit, budget) then before + [n - 1] else before
  }

  lemma CostsSnoc(costs: seq<Option<nat>>, positions: seq<nat>, i: nat)
    requires forall k :: 0 <= k < |positions| ==> positions[k] < |costs| && costs[positions[k]].Some?
    requires i < |costs| && costs[i].Some?
    ensures Sum(CostsAt(costs, positions + [i])) == Sum(CostsAt(costs, positions)) + costs[i].value
  {
    assert CostsAt(costs, positions + [i]) == CostsAt(costs, positions) + [costs[i].value];
    SumSnoc(CostsAt(costs, positions), costs[i].value);
  }

  /** Once the count limit is reached nothing more is taken: breaking loses nothing. */
  lemma {:induction false} FullStaysFull(costs: seq<Option<nat>>, i: nat, n: nat, limit: int, budget: int)
    requires i <= n <= |costs|
    requires |Taken(costs, i, limit, budget)| >= limit
    ensures Taken(costs, n, limit, budget) == Taken(costs, i, limit, budget)
    decreases n
  {
    if i < n {
      FullStaysFull(costs, i, n - 1, limit, budget);
    }
  }

  /** What is taken early is a prefix of what is taken later. */
  lemma {:induction false} TakenGrows(costs: seq<Option<nat>>, i: nat, n: nat, limit: int, budget: int)
    requires i <= n <= |costs|
    ensures Taken(costs, i, limit, budget) <= Taken(costs, n, limit, budget)
    ensures forall k :: |Taken(costs, i, limit, budget)| <= k < |Taken(costs, n, limit, budget)|
              ==> Taken(costs, n, limit, budget)[k] >= i
    decreases n
  {
    if i < n {
      TakenGrows(costs, i, n - 1, limit, budget);
    }
  }

  lemma {:induction false} WithinLimits(costs: seq<Option<nat>>, n: nat, limit: int, budget: int)
    requires limit >= 0 && budget >= 0 && n <= |costs|
    ensures var r := Taken(costs, n, limit, budget);
            |r| <= limit && Sum(CostsAt(costs, r)) <= budget
  {
    if n > 0 {
      WithinLimits(costs, n - 1, limit, budget);
      var before := Taken(costs, n - 1, limit, budget);
      if Takes(costs, before, n - 1, limit, budget) {
        CostsSnoc(costs, before, n - 1);
      }
    }
  }

  /**
   The selection is a subsequence within both limits, and it leaves out an entry only for
   one of the stated reasons: entry `i` is taken exactly when it can be, the count limit was
   not yet reached, and it fits beside what was taken before it.
   */
  lemma GreedyExact(costs: seq<Option<nat>>, limit: int, budget: int, i: nat)
    requires limit >= 0 && budget >= 0 && i < |costs|
    ensures var all := Taken(costs, |costs|, limit, budget);
            && |all| <= limit
            && Sum(CostsAt(costs, all)) <= budget
            && (i in all <==> Takes(costs, Taken(costs, i, limit, budget), i, limit, budget))
  {
    var before := Taken(costs, i, limit, budget);
    var through := Taken(costs, i + 1, limit, budget);
    var all := Taken(costs, |costs|, limit, budget);
    WithinLimits(costs, |costs|, limit, budget);
    TakenGrows(costs, i + 1, |costs|, limit, budget);
    if i in all {
      var k :| 0 <= k < |all| && all[k] == i;
      assert k < |through| && through[k] == i;
    }
    if Takes(costs, before, i, limit, budget) {
      assert through[|before|] == i;
      assert all[|before|] == i;
    }
  }

  function ItemsAt<T>(items: seq<T>, positions: seq<nat>): seq<T>
    requires forall k :: 0 <= k < |positions| ==> positions[k] < |items|
  {
    seq(|positions|, k requires 0 <= k < |positions| => items[positions[k]])
  }

  /** The selection loop, which stops as soon as the count limit is reached. */
  method SelectGreedily<T>(items: seq<T>, costs: seq<Option<nat>>, limit: int, budget: int)
    returns (selected: seq<T>)
    requires |items| == |costs|
    ensures selected == ItemsAt(items, Taken(costs, |costs|, limit, budget))
  {
    selected := [];
    var total := 0;
    ghost var positions: seq<nat> := [];
    var i := 0;
    while i < |items|
      invariant 0 <= i <= |items|
      invariant positions == Taken(costs, i, limit, budget)
      invariant selected == ItemsAt(items, positions)
      invariant total == Sum(CostsAt(costs, positions))
    {
      if |selected| >= limit {
        FullStaysFull(costs, i, |items|, limit, budget);
        break;
      }
      if costs[i].Some? && total + costs[i].value <= budget {
        CostsSnoc(costs, positions, i);
        selected := selected + [items[i]];
        positions := positions + [i];
        total := total + costs[i].value;
      }
      i := i + 1;
    }
  }

  lemma SingleTaken(cost: nat, limit: int, budget: int)
    requires limit > 0 && cost <= budget
    ensures Taken([Some(cost)], 1, limit, budget) == [0]
  {
    assert Taken([Some(cost)], 0, limit, budget) == [];
  }
}
