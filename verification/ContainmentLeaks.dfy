/** What counts as a leak of an execution payload, whatever the case of its letters. */
module ContainmentLeaks {
  import opened AsciiCase
  import opened ExecutionContainment
  import opened JsonValues

  ghost predicate IsMarker(m: string) {
    m in ["[cloud dry run]", "messages that would have been sent", "response format:", "raw model payload",
          "raw response format", "internal planner payload"]
  }

  /** A value leaks exactly when it is a text in which one of the six markers stands somewhere, in any case. */
  lemma LeaksExactly(v: Json)
    ensures Leaks(v) <==> v.Str? && exists m, i: nat :: IsMarker(m) && MarkerAt(v.s, m, i)
  {
    if v.Str? {
      forall m ensures Contains(Lower(v.s), m) <==> exists i: nat :: MarkerAt(v.s, m, i) {
        ContainsExactly(v.s, m);
      }
      if Leaks(v) {
        var k :| 0 <= k < |LEAK_MARKERS| && Contains(Lower(v.s), LEAK_MARKERS[k]);
        assert IsMarker(LEAK_MARKERS[k]);
      }
      if m, i: nat :| IsMarker(m) && MarkerAt(v.s, m, i) {
        var k :| 0 <= k < |LEAK_MARKERS| && LEAK_MARKERS[k] == m;
        assert Contains(Lower(v.s), LEAK_MARKERS[k]);
      }
    }
  }
}
