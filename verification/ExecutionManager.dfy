/** One request: execution, containment and at most one recovery (runtime/execution_manager.py). */
module ExecutionManager {
  import opened ExecutionContainment
  import opened FallbackProtocol
  import opened JsonValues
  import opened RuntimeManager
  import opened Wrappers

  // `DEFAULT_ARTIFACT_RECOVERY_ORDER` of runtime/recovery_policy.py.
  const RECOVERY_ORDER := ["local_reasoner_fallback", "cloud_fast", "cloud_deep"]

  const REQUEST_REASON := "blocked_execution_manager_response"
  const RETRY_REASON := "blocked_execution_manager_retry_response"

  datatype Plan = Plan(target: string, fallbacks: seq<string>, wantsArtifact: bool)

  function Without(names: seq<string>, failed: string): seq<string> {
    if names == [] then [] else (if names[0] == failed then [] else [names[0]]) + Without(names[1..], failed)
  }

  function RealOnly(w: World, names: seq<string>): seq<string> {
    if names == [] then []
    else
      (if names[0] in w.engines && w.engines[names[0]].dryRun then [] else [names[0]]) + RealOnly(w, names[1..])
  }

  /** `build_artifact_retry_engines`. */
  function RetryEngines(w: World, failed: string): seq<string> {
    RealOnly(w, Without(RECOVERY_ORDER, failed))
  }

  /** The dictionary `execute_with_fallbacks` returns: the text has become the response. */
  function Packed(r: Result): Result {
    r.(text := None, response := r.text)
  }

  /** What a request ends with. */
  datatype Answer = Answer(raw: Json, normalized: Json, execution: Result, engine: string, retried: bool)

  function AnswerOf(o: Outcome, reason: string, process: Json -> Json, retried: bool): Answer {
    var contained := Contain(Packed(o.result), reason);
    var raw := Shown(contained);
    Answer(raw, process(raw), contained, o.engine, retried)
  }

  predicate NeedsRecovery(plan: Plan, a: Answer) {
    plan.wantsArtifact && !Truthy(a.normalized) && !a.execution.blocked
  }

  /** `execute_request` after the calls so far: the calls it makes, and no answer when it raises. */
  function Request(w: World, calls: seq<string>, plan: Plan, process: Json -> Json)
    : (seq<string>, Option<Answer>)
  {
    var (s, o) := Execution(w, calls, [plan.target] + plan.fallbacks);
    if o.None? then (s.calls, None)
    else
      var first := AnswerOf(o.value, REQUEST_REASON, process, false);
      if !NeedsRecovery(plan, first) then (s.calls, Some(first))
      else
        var engines := RetryEngines(w, o.value.engine);
        if engines == [] then (s.calls, Some(first.(retried := true)))
        else
          var (s', o') := Execution(w, s.calls, engines);
          (s'.calls, if o'.None? then None else Some(AnswerOf(o'.value, RETRY_REASON, process, true)))
  }

  method ExecuteRequest(runtime: Runtime, plan: Plan, process: Json -> Json) returns (answer: Option<Answer>)
    modifies runtime
    ensures (runtime.calls, answer) == Request(runtime.world, old(runtime.calls), plan, process)
  {
    var outcome, attempted := runtime.ExecuteWithFallbacks([plan.target] + plan.fallbacks);
    if outcome.None? {
      return None;
    }
    var current := AnswerOf(outcome.value, REQUEST_REASON, process, false);
    if NeedsRecovery(plan, current) {
      current := current.(retried := true);
      var engines := RetryEngines(runtime.world, outcome.value.engine);
      if engines != [] {
        outcome, attempted := runtime.ExecuteWithFallbacks(engines);
        if outcome.None? {
          return None;
        }
        current := AnswerOf(outcome.value, RETRY_REASON, process, true);
      }
    }
    answer := Some(current);
  }

  lemma AnswerClean(o: Outcome, reason: string, process: Json -> Json, retried: bool)
    ensures !Leaks(AnswerOf(o, reason, process, retried).raw)
  {
    ContainedExact(Packed(o.result), reason);
  }

  /** The raw response of a request never contains a leak marker, whatever the engines return. */
  lemma RequestNeverLeaks(w: World, calls: seq<string>, plan: Plan, process: Json -> Json)
    ensures var answer := Request(w, calls, plan, process).1;
            answer.Some? ==> !Leaks(answer.value.raw)
  {
    var (s, o) := Execution(w, calls, [plan.target] + plan.fallbacks);
    if o.Some? {
      AnswerClean(o.value, REQUEST_REASON, process, false);
      var engines := RetryEngines(w, o.value.engine);
      if engines != [] {
        var (_, o') := Execution(w, s.calls, engines);
        if o'.Some? {
          AnswerClean(o'.value, RETRY_REASON, process, true);
        }
      }
    }
  }

  /**
   The containment of the manager, coming after that of the engine loop, changes nothing but
   `leak_markers_detected`, and that only when a flag asks for containment again.
   */
  lemma SecondContainment(w: World, calls: seq<string>, names: seq<string>, reason: string)
    requires Execution(w, calls, names).1.Some?
    ensures var packed := Packed(Execution(w, calls, names).1.value.result);
            || Contain(packed, reason) == packed
            || (&& (packed.dryRun || packed.blocked) && packed.diagnostics.Some?
                && Contain(packed, reason)
                   == packed.(diagnostics :=
                        Some(packed.diagnostics.value.(leakMarkersDetected := Some(Bool(false))))))
  {
    LoopAnswer(w, State(calls, [], [], false), names);
    var o := Execution(w, calls, names).1.value;
    var s := Loop(w, State(calls, [], [], false), names).0;
    ContainedTwice(w.behaviour(s.calls).result, REASON, reason);
  }

  lemma {:induction false} WithoutDrops(names: seq<string>, failed: string)
    ensures failed !in Without(names, failed)
  {
    if names != [] {
      WithoutDrops(names[1..], failed);
    }
  }

  lemma {:induction false} RealOnlyDrops(w: World, names: seq<string>)
    ensures forall name :: name in RealOnly(w, names) ==>
              name in names && !(name in w.engines && w.engines[name].dryRun)
  {
    if names != [] {
      RealOnlyDrops(w, names[1..]);
    }
  }

  lemma {:induction false} ExistingAmong(w: World, names: seq<string>)
    ensures forall name :: name in Existing(w, names) ==> name in names && name in w.engines
  {
    if names != [] {
      ExistingAmong(w, names[1..]);
    }
  }

  /**
   A request makes one pass and at most one recovery pass. The recovery pass never calls the
   engine whose result was rejected, nor a dry-run engine, and only calls from the recovery
   order.
   */
  lemma OneRecoveryPass(w: World, calls: seq<string>, plan: Plan, process: Json -> Json)
    ensures var (s, o) := Execution(w, calls, [plan.target] + plan.fallbacks);
            var (made, answer) := Request(w, calls, plan, process);
            && s.calls <= made
            && forall k :: |s.calls| <= k < |made| ==>
                 && o.Some? && made[k] != o.value.engine && made[k] in RECOVERY_ORDER
                 && made[k] in w.engines && !w.engines[made[k]].dryRun
    ensures var (s, o) := Execution(w, calls, [plan.target] + plan.fallbacks);
            o.None? || !NeedsRecovery(plan, AnswerOf(o.value, REQUEST_REASON, process, false)) ==>
              Request(w, calls, plan, process).0 == s.calls
  {
    var (s, o) := Execution(w, calls, [plan.target] + plan.fallbacks);
    if o.Some? {
      var failed := o.value.engine;
      var engines := RetryEngines(w, failed);
      WithoutDrops(RECOVERY_ORDER, failed);
      RealOnlyDrops(w, Without(RECOVERY_ORDER, failed));
      WithoutAmong(RECOVERY_ORDER, failed);
      var n := FirstAnswerWins(w, s.calls, engines);
      ExistingAmong(w, engines[..n]);
      var made := Request(w, calls, plan, process).0;
      forall k | |s.calls| <= k < |made|
        ensures made[k] != failed && made[k] in RECOVERY_ORDER && made[k] in w.engines
                && !w.engines[made[k]].dryRun
      {
        assert made[k] in Existing(w, engines[..n]);
        assert made[k] in engines;
      }
    }
  }

  lemma {:induction false} WithoutAmong(names: seq<string>, failed: string)
    ensures forall name :: name in Without(names, failed) ==> name in names
  {
    if names != [] {
      WithoutAmong(names[1..], failed);
    }
  }

  /** A value that counts as false in Python. */
  ghost predicate Empty(v: Json) {
    || v == Null || v == Bool(false) || v == Num(0) || v == Str("")
    || (v.Arr? && v.items == []) || (v.Obj? && v.fields == [])
  }

  /** The engine may be tried again: it did not just fail and is not registered as a dry run. */
  ghost function IfUsable(w: World, failed: string, name: string): seq<string> {
    if name == failed || (name in w.engines && w.engines[name].dryRun) then [] else [name]
  }

  /** The recovery engines, in order. */
  ghost function RecoveryEngines(w: World, failed: string): seq<string> {
    IfUsable(w, failed, "local_reasoner_fallback") + IfUsable(w, failed, "cloud_fast")
    + IfUsable(w, failed, "cloud_deep")
  }

  lemma KeptOrDropped(w: World, failed: string, name: string, rest: seq<string>)
    ensures RealOnly(w, Without([name] + rest, failed)) == IfUsable(w, failed, name) + RealOnly(w, Without(rest, failed))
  {
    var others := Without(rest, failed);
    assert ([name] + rest)[1..] == rest;
    if name == failed {
      assert Without([name] + rest, failed) == others;
    } else {
      assert Without([name] + rest, failed) == [name] + others;
      assert ([name] + others)[1..] == others;
    }
  }

  lemma ThreeKept(w: World, failed: string, a: string, b: string, c: string)
    ensures RealOnly(w, Without([a, b, c], failed))
         == IfUsable(w, failed, a) + IfUsable(w, failed, b) + IfUsable(w, failed, c)
  {
    assert [a, b, c] == [a] + [b, c] && [b, c] == [b] + [c] && [c] == [c] + [];
    KeptOrDropped(w, failed, a, [b, c]);
    KeptOrDropped(w, failed, b, [c]);
    KeptOrDropped(w, failed, c, []);
  }

  lemma RecoveryEnginesExactly(w: World, failed: string)
    ensures RetryEngines(w, failed) == RecoveryEngines(w, failed)
  {
    ThreeKept(w, failed, RECOVERY_ORDER[0], RECOVERY_ORDER[1], RECOVERY_ORDER[2]);
    assert RECOVERY_ORDER == [RECOVERY_ORDER[0], RECOVERY_ORDER[1], RECOVERY_ORDER[2]];
  }

  /** What the pipeline makes of an outcome, once its text is safe to show. */
  ghost function Shaped(o: Outcome, reason: string, process: Json -> Json): Json {
    process(Shown(Contain(o.result.(text := None, response := o.result.text), reason)))
  }

  /** An artifact was wanted, the pipeline made nothing of the answer, and no provider was blocked. */
  ghost predicate ArtifactMissing(plan: Plan, o: Outcome, process: Json -> Json) {
    && plan.wantsArtifact && !o.result.blocked
    && Empty(Shaped(o, "blocked_execution_manager_response", process))
  }

  /** The answer is this outcome, contained and shaped. */
  ghost predicate Gives(a: Answer, o: Outcome, reason: string, process: Json -> Json, retried: bool) {
    && a.engine == o.engine && a.retried == retried && a.normalized == Shaped(o, reason, process)
    && a.execution == Contain(o.result.(text := None, response := o.result.text), reason)
    && a.raw == Shown(a.execution)
  }

  lemma AnswerGives(o: Outcome, reason: string, process: Json -> Json, retried: bool)
    ensures Gives(AnswerOf(o, reason, process, retried), o, reason, process, retried)
    ensures AnswerOf(o, reason, process, retried).execution.blocked == o.result.blocked
  {
  }

  lemma EmptyExactly(v: Json)
    ensures Empty(v) <==> !Truthy(v)
  {
  }

  lemma MissingExactly(plan: Plan, o: Outcome, process: Json -> Json)
    ensures ArtifactMissing(plan, o, process) <==>
              NeedsRecovery(plan, AnswerOf(o, REQUEST_REASON, process, false))
  {
    AnswerGives(o, REQUEST_REASON, process, false);
    EmptyExactly(Shaped(o, REQUEST_REASON, process));
  }

  /**
   When there is a second pass, and over which engines: exactly when an artifact was wanted,
   the pipeline result of the first answer is empty and no provider was blocked, over the
   recovery order without the engine that answered and without dry-run engines. Without such
   engines the first answer stays; else the second pass alone decides the answer.
   */
  lemma RecoveryExactly(w: World, calls: seq<string>, plan: Plan, process: Json -> Json)
    ensures var (s, o) := Execution(w, calls, [plan.target] + plan.fallbacks);
            var (made, answer) := Request(w, calls, plan, process);
            if o.None? then made == s.calls && answer == None
            else if !ArtifactMissing(plan, o.value, process)
            then made == s.calls && answer.Some?
                 && Gives(answer.value, o.value, "blocked_execution_manager_response", process, false)
            else
              var engines := RecoveryEngines(w, o.value.engine);
              var (s', o') := Execution(w, s.calls, engines);
              if engines == []
              then made == s.calls && answer.Some?
                   && Gives(answer.value, o.value, "blocked_execution_manager_response", process, true)
              else
                && made == s'.calls && (answer.Some? <==> o'.Some?)
                && (o'.Some? ==>
                      Gives(answer.value, o'.value, "blocked_execution_manager_retry_response", process, true))
  {
    var (s, o) := Execution(w, calls, [plan.target] + plan.fallbacks);
    if o.Some? {
      MissingExactly(plan, o.value, process);
      RecoveryEnginesExactly(w, o.value.engine);
      AnswerGives(o.value, REQUEST_REASON, process, false);
      var engines := RecoveryEngines(w, o.value.engine);
      var (_, o') := Execution(w, s.calls, engines);
      if o'.Some? {
        AnswerGives(o'.value, RETRY_REASON, process, true);
      }
    }
  }
}
