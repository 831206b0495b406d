/**
 The checks of runtime/governance/substrate_boundary.py step by step, and what they accept.
 */
module SubstrateChecks {
  import opened BoundaryTerms
  import opened JsonValues
  import opened NothingLost
  import opened Records
  import opened SubstrateBoundary
  import opened Text
  import opened ValidatorSupport
  import opened VisibilityIsolation
  import opened Wrappers

  lemma Regroup(a: seq<string>, b: seq<string>, c: seq<string>)
    ensures (a + b) + c == a + (b + c)
  {
  }

  method AppendTrueFlags(payload: Json, flags: seq<string>, blocked: seq<string>) returns (all: seq<string>)
    ensures all == blocked + TrueFlags(payload, flags)
  {
    all := blocked;
    for i := 0 to |flags|
      invariant all + TrueFlags(payload, flags[i..]) == blocked + TrueFlags(payload, flags)
    {
      assert TrueFlags(payload, flags[i..])
             == Unless(NotRaised(payload, flags[i]), flags[i]) + TrueFlags(payload, flags[i + 1..]);
      all := AppendUnless(NotRaised(payload, flags[i]), flags[i], all);
    }
  }

  method AppendPaths(payload: Json, rule: Rule, blocked: seq<string>) returns (all: seq<string>)
    ensures all == blocked + MatchingPaths(payload, rule, "")
  {
    var paths := FindMatchingPaths(payload, rule, "");
    all := blocked + paths;
  }

  method AppendForeignState(payload: Json, source: Option<string>, target: Option<string>,
                            substrates: seq<string>, blocked: seq<string>) returns (all: seq<string>)
    ensures all == blocked + ForeignStatePaths(payload, source, target, substrates)
  {
    all := blocked;
    for i := 0 to |substrates|
      invariant all + ForeignStatePaths(payload, source, target, substrates[i..])
                == blocked + ForeignStatePaths(payload, source, target, substrates)
    {
      assert substrates[i..][1..] == substrates[i + 1..];
      if Some(substrates[i]) !in {source, target} {
        var paths := FindMatchingPaths(payload, Strict(SubstrateStateFields(substrates[i])), "");
        Regroup(all, paths, ForeignStatePaths(payload, source, target, substrates[i + 1..]));
        all := all + paths;
      }
    }
  }

  /** The checks a payload of any substrate has to pass. */
  method CheckEverywhere(payload: Json, flags: seq<string>) returns (blocked: seq<string>)
    ensures blocked == TrueFlags(payload, flags)
                       + MatchingPaths(payload, FalseExcused(MEMORY_FIELDS), "")
                       + MatchingPaths(payload, FalseExcused(AUTONOMY_FIELDS), "")
                       + MatchingPaths(payload, FalseExcused(MUTATION_FIELDS), "")
  {
    blocked := AppendTrueFlags(payload, flags, []);
    blocked := AppendPaths(payload, FalseExcused(MEMORY_FIELDS), blocked);
    blocked := AppendPaths(payload, FalseExcused(AUTONOMY_FIELDS), blocked);
    blocked := AppendPaths(payload, FalseExcused(MUTATION_FIELDS), blocked);
  }

  method CollectPayload(payload: Json, source: Option<string>, target: Option<string>) returns (blocked: seq<string>)
    ensures blocked == PayloadViolations(payload, source, target)
  {
    if payload == Null {
      return [];
    }
    if !payload.Obj? {
      return ["payload"];
    }
    blocked := CheckEverywhere(payload, TOP_LEVEL_FLAGS);
    if target !in {Some("visibility"), None} {
      blocked := AppendPaths(payload, AUTHORITY_RULE, blocked);
    }
    if target != Some("visibility") {
      blocked := AppendForeignState(payload, source, target, STATE_SUBSTRATES, blocked);
    }
  }

  method CheckSurface(payload: Json) returns (blocked: seq<string>)
    ensures blocked == SurfaceViolations(payload)
  {
    if !payload.Obj? {
      return ["payload"];
    }
    var found;
    if SafeText(Get(payload, "diagnostic_type")).Some? {
      found := CheckDiagnosticSurface(payload);
    } else {
      found := CheckVisibilitySurface(payload);
    }
    var unique := UniqueValues(found);
    blocked := Prefixed("visibility.", unique);
  }

  /** What is wrong with the parties, the contract and the direction. */
  function Parties(source: Option<string>, target: Option<string>, explicit: bool, direction: bool): seq<string> {
    Unless(Known(source), "source_substrate")
    + Unless(Known(target), "target_substrate")
    + Unless(!(source == target && source.Some?), "target_substrate")
    + Unless(explicit, "explicit_contract_id")
    + Unless(direction, "allowed_influence_direction")
  }

  method CheckParties(source: Option<string>, target: Option<string>, explicit: bool, direction: bool)
    returns (blocked: seq<string>)
    ensures blocked == Parties(source, target, explicit, direction)
  {
    blocked := AppendUnless(Known(source), "source_substrate", []);
    blocked := AppendUnless(Known(target), "target_substrate", blocked);
    blocked := AppendUnless(!(source == target && source.Some?), "target_substrate", blocked);
    blocked := AppendUnless(explicit, "explicit_contract_id", blocked);
    blocked := AppendUnless(direction, "allowed_influence_direction", blocked);
  }

  method CollectCrossing(source: Option<string>, target: Option<string>, interaction: Option<string>,
                         payload: Json, contractId: Json) returns (blocked: seq<string>)
    ensures blocked == CrossViolations(source, target, interaction, payload, contractId)
  {
    var explicit := contractId == Str(CROSS_SUBSTRATE_CONTRACT_ID);
    var direction := (OrEmpty(source), OrEmpty(target), OrEmpty(interaction)) in ALLOWED_INFLUENCE_DIRECTIONS;
    blocked := CheckParties(source, target, explicit, direction);
    var inside := CollectPayload(payload, source, target);
    blocked := blocked + inside;
    if target == Some("visibility") && interaction == Some("observational_diagnostic") {
      var surface := CheckSurface(payload);
      blocked := blocked + surface;
    }
  }

  lemma {:induction false} TrueFlagsClear(v: Json, flags: seq<string>)
    ensures TrueFlags(v, flags) == [] <==> forall f :: f in flags ==> Get(v, f) != Bool(true)
  {
    if flags != [] {
      TrueFlagsClear(v, flags[1..]);
      assert flags == [flags[0]] + flags[1..];
    }
  }

  ghost predicate StateQuiet(payload: Json, substrate: string) {
    Quiet(payload, Strict(SubstrateStateFields(substrate)))
  }

  /** No state field of a substrate that takes no part. */
  ghost predicate ForeignQuiet(payload: Json, source: Option<string>, target: Option<string>,
                               substrates: seq<string>)
  {
    forall s :: s in substrates && Some(s) !in {source, target} ==> StateQuiet(payload, s)
  }

  lemma StateQuietExact(payload: Json, substrate: string)
    ensures MatchingPaths(payload, Strict(SubstrateStateFields(substrate)), "") == [] <==> StateQuiet(payload, substrate)
  {
    QuietIffNoPaths(payload, Strict(SubstrateStateFields(substrate)), "");
  }

  lemma ForeignQuietCons(payload: Json, source: Option<string>, target: Option<string>, substrates: seq<string>)
    requires substrates != []
    ensures ForeignQuiet(payload, source, target, substrates) <==>
              && (Some(substrates[0]) !in {source, target} ==> StateQuiet(payload, substrates[0]))
              && ForeignQuiet(payload, source, target, substrates[1..])
  {
    assert substrates == [substrates[0]] + substrates[1..];
  }

  lemma {:induction false} ForeignQuietExact(payload: Json, source: Option<string>, target: Option<string>,
                                             substrates: seq<string>)
    ensures ForeignStatePaths(payload, source, target, substrates) == [] <==>
              ForeignQuiet(payload, source, target, substrates)
  {
    if substrates != [] {
      StateQuietExact(payload, substrates[0]);
      ForeignQuietExact(payload, source, target, substrates[1..]);
      ForeignQuietCons(payload, source, target, substrates);
    }
  }

  /** No memory, autonomy or mutation key, unless False. */
  ghost predicate Inert(payload: Json) {
    && Quiet(payload, FalseExcused(MEMORY_FIELDS)) && Quiet(payload, FalseExcused(AUTONOMY_FIELDS))
    && Quiet(payload, FalseExcused(MUTATION_FIELDS))
  }

  /** None of the top-level flags is True. */
  ghost predicate NoneRaised(payload: Json) {
    forall f :: f in TOP_LEVEL_FLAGS ==> Get(payload, f) != Bool(true)
  }

  /** What a payload may carry between two substrates, at every depth. */
  ghost predicate CleanPayload(payload: Json, source: Option<string>, target: Option<string>) {
    payload == Null
    || (&& payload.Obj? && NoneRaised(payload) && Inert(payload)
        && (target !in {Some("visibility"), None} ==> Quiet(payload, AUTHORITY_RULE))
        && (target != Some("visibility") ==> ForeignQuiet(payload, source, target, STATE_SUBSTRATES)))
  }

  lemma EverywhereExact(payload: Json)
    ensures TrueFlags(payload, TOP_LEVEL_FLAGS)
            + MatchingPaths(payload, FalseExcused(MEMORY_FIELDS), "")
            + MatchingPaths(payload, FalseExcused(AUTONOMY_FIELDS), "")
            + MatchingPaths(payload, FalseExcused(MUTATION_FIELDS), "") == [] <==>
              NoneRaised(payload) && Inert(payload)
  {
    TrueFlagsClear(payload, TOP_LEVEL_FLAGS);
    QuietIffNoPaths(payload, FalseExcused(MEMORY_FIELDS), "");
    QuietIffNoPaths(payload, FalseExcused(AUTONOMY_FIELDS), "");
    QuietIffNoPaths(payload, FalseExcused(MUTATION_FIELDS), "");
    FourEmpty(TrueFlags(payload, TOP_LEVEL_FLAGS), MatchingPaths(payload, FalseExcused(MEMORY_FIELDS), ""),
              MatchingPaths(payload, FalseExcused(AUTONOMY_FIELDS), ""),
              MatchingPaths(payload, FalseExcused(MUTATION_FIELDS), ""));
  }

  lemma FourEmpty(a: seq<string>, b: seq<string>, c: seq<string>, d: seq<string>)
    ensures a + b + c + d == [] <==> a == [] && b == [] && c == [] && d == []
  {
    assert |a + b + c + d| == |a| + |b| + |c| + |d|;
  }

  /** The payload check finds nothing exactly in clean payloads. */
  lemma PayloadExact(payload: Json, source: Option<string>, target: Option<string>)
    ensures PayloadViolations(payload, source, target) == [] <==> CleanPayload(payload, source, target)
  {
    if payload.Obj? {
      EverywhereExact(payload);
      QuietIffNoPaths(payload, AUTHORITY_RULE, "");
      ForeignQuietExact(payload, source, target, STATE_SUBSTRATES);
      var everywhere := TrueFlags(payload, TOP_LEVEL_FLAGS)
                        + MatchingPaths(payload, FalseExcused(MEMORY_FIELDS), "")
                        + MatchingPaths(payload, FalseExcused(AUTONOMY_FIELDS), "")
                        + MatchingPaths(payload, FalseExcused(MUTATION_FIELDS), "");
      var authority := if target in {Some("visibility"), None} then [] else MatchingPaths(payload, AUTHORITY_RULE, "");
      var foreign := if target == Some("visibility") then []
                     else ForeignStatePaths(payload, source, target, STATE_SUBSTRATES);
      assert PayloadViolations(payload, source, target) == everywhere + authority + foreign;
      FourEmpty(everywhere, authority, foreign, []);
    }
  }

  /** `_payload_boundary_violations`: it accepts exactly the clean payloads. */
  method CheckPayload(payload: Json, source: Option<string>, target: Option<string>) returns (blocked: seq<string>)
    ensures blocked == PayloadViolations(payload, source, target)
    ensures blocked == [] <==> CleanPayload(payload, source, target)
  {
    PayloadExact(payload, source, target);
    blocked := CollectPayload(payload, source, target);
  }

  /** A surface that its own validator accepts. */
  ghost predicate CleanSurface(payload: Json) {
    payload.Obj? && if SafeText(Get(payload, "diagnostic_type")).Some? then CleanDiagnostic(payload)
                    else CleanVisibility(payload)
  }

  lemma SurfaceExact(payload: Json)
    ensures SurfaceViolations(payload) == [] <==> CleanSurface(payload)
  {
    if payload.Obj? {
      SurfaceKept(payload);
      DiagnosticCleanIff(payload);
      VisibilityCleanIff(payload);
    }
  }

  /** The listed directions lead from one known substrate to another. */
  lemma DirectionsConnect(source: Option<string>, target: Option<string>, interaction: Option<string>)
    requires (OrEmpty(source), OrEmpty(target), OrEmpty(interaction)) in ALLOWED_INFLUENCE_DIRECTIONS
    ensures Known(source) && Known(target) && source != target
  {
  }

  lemma PartiesExact(source: Option<string>, target: Option<string>, interaction: Option<string>, explicit: bool)
    ensures var direction := (OrEmpty(source), OrEmpty(target), OrEmpty(interaction)) in ALLOWED_INFLUENCE_DIRECTIONS;
            Parties(source, target, explicit, direction) == [] <==> explicit && direction
  {
    if (OrEmpty(source), OrEmpty(target), OrEmpty(interaction)) in ALLOWED_INFLUENCE_DIRECTIONS {
      DirectionsConnect(source, target, interaction);
    }
  }

  /**
   A crossing is accepted exactly along a listed direction, under the contract, with a clean
   payload and, for the observational diagnostics, a clean surface. The separate tests of
   the two substrates never decide.
   */
  ghost predicate CleanCrossing(source: Option<string>, target: Option<string>, interaction: Option<string>,
                                payload: Json, contractId: Json)
  {
    && contractId == Str(CROSS_SUBSTRATE_CONTRACT_ID)
    && (OrEmpty(source), OrEmpty(target), OrEmpty(interaction)) in ALLOWED_INFLUENCE_DIRECTIONS
    && CleanPayload(payload, source, target)
    && (target == Some("visibility") && interaction == Some("observational_diagnostic") ==> CleanSurface(payload))
  }

  function SurfacePart(target: Option<string>, interaction: Option<string>, payload: Json): seq<string> {
    if target == Some("visibility") && interaction == Some("observational_diagnostic")
    then SurfaceViolations(payload) else []
  }

  lemma SurfacePartExact(target: Option<string>, interaction: Option<string>, payload: Json)
    ensures SurfacePart(target, interaction, payload) == [] <==>
              (target == Some("visibility") && interaction == Some("observational_diagnostic") ==> CleanSurface(payload))
  {
    SurfaceExact(payload);
  }

  lemma CrossShape(source: Option<string>, target: Option<string>, interaction: Option<string>, payload: Json,
                   contractId: Json)
    ensures CrossViolations(source, target, interaction, payload, contractId)
         == Parties(source, target, contractId == Str(CROSS_SUBSTRATE_CONTRACT_ID),
                    (OrEmpty(source), OrEmpty(target), OrEmpty(interaction)) in ALLOWED_INFLUENCE_DIRECTIONS)
            + PayloadViolations(payload, source, target) + SurfacePart(target, interaction, payload)
  {
  }

  lemma ThreeEmpty(a: seq<string>, b: seq<string>, c: seq<string>)
    ensures a + b + c == [] <==> a == [] && b == [] && c == []
  {
    assert |a + b + c| == |a| + |b| + |c|;
  }

  lemma CrossViolationsExact(source: Option<string>, target: Option<string>, interaction: Option<string>,
                             payload: Json, contractId: Json)
    ensures CrossViolations(source, target, interaction, payload, contractId) == [] <==>
              CleanCrossing(source, target, interaction, payload, contractId)
  {
    var explicit := contractId == Str(CROSS_SUBSTRATE_CONTRACT_ID);
    PartiesExact(source, target, interaction, explicit);
    PayloadExact(payload, source, target);
    SurfacePartExact(target, interaction, payload);
    CrossShape(source, target, interaction, payload, contractId);
    ThreeEmpty(Parties(source, target, explicit,
                       (OrEmpty(source), OrEmpty(target), OrEmpty(interaction)) in ALLOWED_INFLUENCE_DIRECTIONS),
               PayloadViolations(payload, source, target), SurfacePart(target, interaction, payload));
  }

  /** `validate_cross_substrate_interaction`: it accepts exactly the clean crossings. */
  method CheckCrossing(source: Option<string>, target: Option<string>, interaction: Option<string>,
                       payload: Json, contractId: Json) returns (blocked: seq<string>)
    ensures blocked == CrossViolations(source, target, interaction, payload, contractId)
    ensures blocked == [] <==> CleanCrossing(source, target, interaction, payload, contractId)
  {
    CrossViolationsExact(source, target, interaction, payload, contractId);
    blocked := CollectCrossing(source, target, interaction, payload, contractId);
  }
}
