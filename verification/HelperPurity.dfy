/** The fail-closed helper check (runtime/governance/helper_purity.py). */
module HelperPurity {
  import opened BoundaryTerms
  import opened JsonValues
  import opened NothingLost
  import opened Positions
  import opened Records
  import opened SubstrateBoundary
  import opened SubstrateChecks
  import opened Text
  import opened ValidatorSupport
  import opened VisibilityIsolation
  import opened Wrappers

  const CONTROL_FIELDS := {
    "helper_derived_planner_mutation", "helper_derived_planner_mutation_performed", "helper_routing_decision",
    "hidden_governance_injection", "hidden_governance_injection_performed", "hidden_helper_route",
    "hidden_helper_routing", "hidden_helper_routing_performed", "hidden_visibility_attachment",
    "hidden_visibility_attachment_performed"
  }

  const ATTACHMENT_FIELDS := {
    "diagnostic_attachment_target", "hidden_context_injection_performed", "planner_prompt",
    "visibility_attachment_target"
  }

  // The top-level flags the helper check tests once more by name.
  const HELPER_FLAGS := [
    "hidden_context_injection_performed", "hidden_helper_routing_performed",
    "helper_derived_planner_mutation_performed", "hidden_visibility_attachment_performed",
    "hidden_governance_injection_performed"
  ]

  function ContextExcused(fields: set<string>): Rule {
    Rule(fields, false, {"hidden_context_injection_performed"}, true)
  }

  function StatePaths(payload: Json, substrates: seq<string>): seq<string> {
    if substrates == [] then []
    else MatchingPaths(payload, ContextExcused(SubstrateStateFields(substrates[0])), "")
         + StatePaths(payload, substrates[1..])
  }

  /** `_helper_payload_violations` of a dictionary, before de-duplication. */
  function RawViolations(payload: Json): seq<string> {
    MatchingPaths(payload, Strict(CONTROL_FIELDS), "")
    + MatchingPaths(payload, FalseExcused(MEMORY_FIELDS), "")
    + MatchingPaths(payload, FalseExcused(AUTONOMY_FIELDS), "")
    + MatchingPaths(payload, FalseExcused(MUTATION_FIELDS), "")
    + MatchingPaths(payload, AUTHORITY_RULE, "")
    + TrueFlags(payload, HELPER_FLAGS)
    + MatchingPaths(payload, ContextExcused(ATTACHMENT_FIELDS), "")
    + StatePaths(payload, STATE_SUBSTRATES)
  }

  /** `_helper_payload_violations`. */
  function HelperViolations(payload: Json): seq<string> {
    if payload == Null then []
    else if !payload.Obj? then ["payload"]
    else Unique(RawViolations(payload))
  }

  /** A request to `validate_helper_purity`, as raw values. */
  datatype Request = Request(
    helperName: Json, inputSubstrate: Json, outputSubstrate: Json, inputPayload: Json, outputPayload: Json,
    interactionType: Json, contractId: Json)
  {
    function Input(): Option<string> { SafeText(inputSubstrate) }
    function Output(): Option<string> { SafeText(outputSubstrate) }
    function Interaction(): Option<string> { SafeText(interactionType) }
    predicate Crosses() { Known(Input()) && Known(Output()) && Input() != Output() }
  }

  function BoundaryOf(crosses: bool, source: Option<string>, target: Option<string>, interaction: Option<string>,
                      payload: Json, contractId: Json): seq<string>
  {
    if crosses then
      Unless(contractId == Str(CROSS_SUBSTRATE_CONTRACT_ID), "explicit_cross_substrate_contract_id")
      + Unless(interaction.Some?, "interaction_type")
      + Prefixed("cross_substrate.", Unique(CrossViolations(source, target, interaction, payload, contractId)))
    else if Known(target) then
      Prefixed("output_boundary.", Unique(PayloadViolations(payload, target, target)))
    else []
  }

  function BoundaryPart(r: Request): seq<string> {
    BoundaryOf(r.Crosses(), r.Input(), r.Output(), r.Interaction(), r.outputPayload, r.contractId)
  }

  /** The violations `validate_helper_purity` collects, before the last de-duplication. */
  function Collected(r: Request): seq<string> {
    Unless(SafeText(r.helperName).Some?, "helper_name")
    + Unless(Known(r.Input()), "input_substrate")
    + Unless(Known(r.Output()), "output_substrate")
    + Prefixed("input.", HelperViolations(r.inputPayload))
    + Prefixed("output.", HelperViolations(r.outputPayload))
    + BoundaryPart(r)
  }

  /** The verdict of `validate_helper_purity`. */
  predicate Allowed(r: Request) {
    Unique(Collected(r)) == []
  }

  lemma HelperWords()
    ensures WordFields(CONTROL_FIELDS) && WordFields(ATTACHMENT_FIELDS)
  {
  }

  lemma {:induction false} StatePathsVisible(payload: Json, substrates: seq<string>)
    ensures Visible(StatePaths(payload, substrates))
  {
    if substrates != [] {
      StateWords(substrates[0]);
      PathsVisible(payload, ContextExcused(SubstrateStateFields(substrates[0])), "");
      StatePathsVisible(payload, substrates[1..]);
      VisibleAppend(MatchingPaths(payload, ContextExcused(SubstrateStateFields(substrates[0])), ""),
                    StatePaths(payload, substrates[1..]));
    }
  }

  lemma HelperPathsVisible(payload: Json)
    ensures Visible(MatchingPaths(payload, Strict(CONTROL_FIELDS), ""))
    ensures Visible(MatchingPaths(payload, ContextExcused(ATTACHMENT_FIELDS), ""))
  {
    HelperWords();
    PathsVisible(payload, Strict(CONTROL_FIELDS), "");
    PathsVisible(payload, ContextExcused(ATTACHMENT_FIELDS), "");
  }

  lemma HelperFlagNames()
    ensures Names(HELPER_FLAGS)
  {
  }

  lemma RawVisible(payload: Json)
    ensures Visible(RawViolations(payload))
  {
    GuardedPathsVisible(payload);
    HelperPathsVisible(payload);
    AuthorityPathsVisible(payload);
    StatePathsVisible(payload, STATE_SUBSTRATES);
    HelperFlagNames();
    TrueFlagsVisible(payload, HELPER_FLAGS);
    var control, memory, autonomy, mutation :=
      MatchingPaths(payload, Strict(CONTROL_FIELDS), ""), MatchingPaths(payload, FalseExcused(MEMORY_FIELDS), ""),
      MatchingPaths(payload, FalseExcused(AUTONOMY_FIELDS), ""), MatchingPaths(payload, FalseExcused(MUTATION_FIELDS), "");
    var authority, flags := MatchingPaths(payload, AUTHORITY_RULE, ""), TrueFlags(payload, HELPER_FLAGS);
    VisibleFour(control, memory, autonomy, mutation);
    VisibleAppend(control + memory + autonomy + mutation, authority);
    VisibleFour(control + memory + autonomy + mutation + authority, flags,
                MatchingPaths(payload, ContextExcused(ATTACHMENT_FIELDS), ""), StatePaths(payload, STATE_SUBSTRATES));
  }

  /** A key at some depth of the payload, with its value. */
  ghost predicate KeyAt(v: Json, pos: Position, key: string, item: Json) {
    pos != [] && pos[|pos| - 1] == Key(key) && ValueAt(v, pos, true) == Some(item)
  }

  /** A rule that flags no key of `v`, at any depth. */
  ghost predicate Unflagged(v: Json, rule: Rule) {
    forall pos, key, item :: KeyAt(v, pos, key, item) ==> !rule.Flags(key, item)
  }

  lemma RuleClear(v: Json, rule: Rule)
    requires WellFormed(v) && rule.tuples
    ensures MatchingPaths(v, rule, "") == [] <==> Unflagged(v, rule)
  {
    NoPathsIffNoHits(v, rule);
    if forall pos :: !Hit(v, rule, pos) {
      forall pos, key, item | KeyAt(v, pos, key, item) ensures !rule.Flags(key, item) {
        assert !Hit(v, rule, pos);
      }
    }
    if Unflagged(v, rule) {
      forall pos: Position ensures !Hit(v, rule, pos) {
        if Hit(v, rule, pos) {
          assert KeyAt(v, pos, pos[|pos| - 1].key, ValueAt(v, pos, true).value);
        }
      }
    }
  }

  /**
   What a helper payload may carry: no control key at all; memory, autonomy and mutation
   keys only as False; of the semantic keys only the authority flag, as False; of the
   attachment and state keys only the context-injection flag, as False.
   */
  ghost predicate PureKey(key: string, item: Json) {
    && key !in CONTROL_FIELDS
    && (key in MEMORY_FIELDS || key in AUTONOMY_FIELDS || key in MUTATION_FIELDS ==> item == Bool(false))
    && (key in SEMANTIC_AUTHORITY_FIELDS ==> key == "planner_semantic_authority" && item == Bool(false))
    && (key in ATTACHMENT_FIELDS || (exists s :: s in STATE_SUBSTRATES && key in SubstrateStateFields(s)) ==>
          key == "hidden_context_injection_performed" && item == Bool(false))
  }

  /** Every key at every depth is one a helper payload may carry. */
  ghost predicate PureTree(v: Json) {
    forall pos, key, item :: KeyAt(v, pos, key, item) ==> PureKey(key, item)
  }

  ghost predicate UnflaggedState(v: Json, substrate: string) {
    Unflagged(v, ContextExcused(SubstrateStateFields(substrate)))
  }

  ghost predicate UnflaggedIn(v: Json, substrates: seq<string>) {
    forall s :: s in substrates ==> UnflaggedState(v, s)
  }

  ghost predicate UnflaggedStates(v: Json) {
    UnflaggedIn(v, STATE_SUBSTRATES)
  }

  lemma StateClear(v: Json, substrate: string)
    requires WellFormed(v)
    ensures MatchingPaths(v, ContextExcused(SubstrateStateFields(substrate)), "") == [] <==> UnflaggedState(v, substrate)
  {
    RuleClear(v, ContextExcused(SubstrateStateFields(substrate)));
  }

  lemma UnflaggedInCons(v: Json, substrates: seq<string>)
    requires substrates != []
    ensures UnflaggedIn(v, substrates) <==> UnflaggedState(v, substrates[0]) && UnflaggedIn(v, substrates[1..])
  {
    assert substrates == [substrates[0]] + substrates[1..];
  }

  lemma {:induction false} StatePathsClear(v: Json, substrates: seq<string>)
    requires WellFormed(v)
    ensures StatePaths(v, substrates) == [] <==> UnflaggedIn(v, substrates)
  {
    if substrates != [] {
      StateClear(v, substrates[0]);
      StatePathsClear(v, substrates[1..]);
      UnflaggedInCons(v, substrates);
    }
  }

  /** The rules' verdicts on one tree, taken together. */
  ghost predicate PassesRules(v: Json) {
    && Unflagged(v, Strict(CONTROL_FIELDS))
    && Unflagged(v, FalseExcused(MEMORY_FIELDS))
    && Unflagged(v, FalseExcused(AUTONOMY_FIELDS))
    && Unflagged(v, FalseExcused(MUTATION_FIELDS))
    && Unflagged(v, AUTHORITY_RULE)
    && Unflagged(v, ContextExcused(ATTACHMENT_FIELDS))
    && UnflaggedStates(v)
  }

  lemma PureKeyIffUnflagged(key: string, item: Json)
    ensures PureKey(key, item) <==>
              && !Strict(CONTROL_FIELDS).Flags(key, item)
              && !FalseExcused(MEMORY_FIELDS).Flags(key, item)
              && !FalseExcused(AUTONOMY_FIELDS).Flags(key, item)
              && !FalseExcused(MUTATION_FIELDS).Flags(key, item)
              && !AUTHORITY_RULE.Flags(key, item)
              && !ContextExcused(ATTACHMENT_FIELDS).Flags(key, item)
              && forall s :: s in STATE_SUBSTRATES ==> !ContextExcused(SubstrateStateFields(s)).Flags(key, item)
  {
  }

  lemma PureIffPassesRules(v: Json)
    ensures PureTree(v) <==> PassesRules(v)
  {
    forall pos, key, item | KeyAt(v, pos, key, item)
      ensures PureTree(v) ==> PureKey(key, item)
      ensures PassesRules(v) ==> PureKey(key, item)
    {
      PureKeyIffUnflagged(key, item);
    }
    if PureTree(v) {
      forall pos, key, item | KeyAt(v, pos, key, item)
        ensures !Strict(CONTROL_FIELDS).Flags(key, item) && !FalseExcused(MEMORY_FIELDS).Flags(key, item)
        ensures !FalseExcused(AUTONOMY_FIELDS).Flags(key, item) && !FalseExcused(MUTATION_FIELDS).Flags(key, item)
        ensures !AUTHORITY_RULE.Flags(key, item) && !ContextExcused(ATTACHMENT_FIELDS).Flags(key, item)
        ensures forall s :: s in STATE_SUBSTRATES ==> !ContextExcused(SubstrateStateFields(s)).Flags(key, item)
      {
        PureKeyIffUnflagged(key, item);
      }
    }
  }

  lemma TopLevelKey(v: Json, key: string)
    requires v.Obj? && HasKey(v.fields, key)
    ensures KeyAt(v, [Key(key)], key, Get(v, key))
  {
    assert [Key(key)][1..] == [];
    assert ValueAt(v, [Key(key)], true) == ValueAt(Get(v, key), [], true);
  }

  /** The five flags tested by name are already covered by the tree rules. */
  lemma NamedFlagsRedundant(v: Json, f: string)
    requires v.Obj? && f in HELPER_FLAGS && Get(v, f) == Bool(true)
    ensures !PureTree(v)
  {
    assert HasKey(v.fields, f);
    TopLevelKey(v, f);
    assert f in CONTROL_FIELDS || f in ATTACHMENT_FIELDS;
  }

  /** The payload check is exact: it finds nothing exactly in pure payloads. */
  lemma HelperViolationsExact(payload: Json)
    requires WellFormed(payload)
    ensures HelperViolations(payload) == [] <==> payload == Null || (payload.Obj? && PureTree(payload))
  {
    if payload.Obj? {
      RawVisible(payload);
      UniqueKeepsOne(RawViolations(payload));
      RuleClear(payload, Strict(CONTROL_FIELDS));
      RuleClear(payload, FalseExcused(MEMORY_FIELDS));
      RuleClear(payload, FalseExcused(AUTONOMY_FIELDS));
      RuleClear(payload, FalseExcused(MUTATION_FIELDS));
      RuleClear(payload, AUTHORITY_RULE);
      RuleClear(payload, ContextExcused(ATTACHMENT_FIELDS));
      StatePathsClear(payload, STATE_SUBSTRATES);
      TrueFlagsClear(payload, HELPER_FLAGS);
      PureIffPassesRules(payload);
      if f :| f in HELPER_FLAGS && Get(payload, f) == Bool(true) {
        NamedFlagsRedundant(payload, f);
      }
    }
  }

  // What the substrate boundary still forbids at the top of a pure payload.
  const REMAINING_FLAGS := [
    "semantic_reinterpretation_performed", "implicit_substrate_inheritance_performed",
    "hidden_orchestration_performed"
  ]

  /**
   What is left for the substrate check once a payload is pure: three top-level flags, and,
   unless the visibility substrate takes part, no context-injection flag at any depth, not
   even a False one.
   */
  ghost predicate StaysInside(payload: Json, source: Option<string>, target: Option<string>) {
    && (forall f :: f in REMAINING_FLAGS ==> Get(payload, f) != Bool(true))
    && (Some("visibility") !in {source, target} ==>
          forall pos, key, item :: KeyAt(payload, pos, key, item) ==> key != "hidden_context_injection_performed")
  }

  lemma PureStates(payload: Json, substrate: string)
    requires WellFormed(payload) && PureTree(payload) && substrate in STATE_SUBSTRATES
    ensures MatchingPaths(payload, Strict(SubstrateStateFields(substrate)), "") == [] <==>
              (substrate == "visibility" ==>
                 forall pos, key, item :: KeyAt(payload, pos, key, item) ==> key != "hidden_context_injection_performed")
  {
    RuleClear(payload, Strict(SubstrateStateFields(substrate)));
    forall pos, key, item | KeyAt(payload, pos, key, item)
      ensures key in SubstrateStateFields(substrate) <==>
                substrate == "visibility" && key == "hidden_context_injection_performed"
    {
      assert PureKey(key, item);
      assert "hidden_context_injection_performed" in SubstrateStateFields(substrate) <==> substrate == "visibility";
    }
  }

  lemma {:induction false} PureForeignStates(payload: Json, source: Option<string>, target: Option<string>,
                                             substrates: seq<string>)
    requires WellFormed(payload) && PureTree(payload)
    requires forall s :: s in substrates ==> s in STATE_SUBSTRATES
    ensures ForeignStatePaths(payload, source, target, substrates) == [] <==>
              ("visibility" in substrates && Some("visibility") !in {source, target} ==>
                 forall pos, key, item :: KeyAt(payload, pos, key, item) ==> key != "hidden_context_injection_performed")
  {
    if substrates != [] {
      PureStates(payload, substrates[0]);
      PureForeignStates(payload, source, target, substrates[1..]);
      assert substrates == [substrates[0]] + substrates[1..];
    }
  }

  lemma NoMutationFlag(payload: Json, f: string)
    requires payload.Obj? && PureTree(payload) && f in MUTATION_FIELDS
    ensures Get(payload, f) != Bool(true)
  {
    if Get(payload, f) == Bool(true) {
      assert HasKey(payload.fields, f);
      TopLevelKey(payload, f);
    }
  }

  lemma TopFlagsOfPure(payload: Json)
    requires payload.Obj? && PureTree(payload)
    ensures TrueFlags(payload, TOP_LEVEL_FLAGS) == [] <==> forall f :: f in REMAINING_FLAGS ==> Get(payload, f) != Bool(true)
  {
    TrueFlagsClear(payload, TOP_LEVEL_FLAGS);
    NoMutationFlag(payload, "cross_substrate_planner_mutation_performed");
    assert forall f :: f in TOP_LEVEL_FLAGS <==> f in REMAINING_FLAGS || f == "cross_substrate_planner_mutation_performed";
  }

  /** The substrate check of a pure payload, exactly. */
  lemma BoundaryOfPure(payload: Json, source: Option<string>, target: Option<string>)
    requires WellFormed(payload) && payload.Obj? && PureTree(payload) && Known(target)
    ensures PayloadViolations(payload, source, target) == [] <==> StaysInside(payload, source, target)
  {
    PureIffPassesRules(payload);
    RuleClear(payload, FalseExcused(MEMORY_FIELDS));
    RuleClear(payload, FalseExcused(AUTONOMY_FIELDS));
    RuleClear(payload, FalseExcused(MUTATION_FIELDS));
    RuleClear(payload, AUTHORITY_RULE);
    TopFlagsOfPure(payload);
    PureForeignStates(payload, source, target, STATE_SUBSTRATES);
  }

  ghost predicate PurePayload(payload: Json) {
    payload == Null || (payload.Obj? && PureTree(payload))
  }

  ghost predicate InsideOrAbsent(payload: Json, source: Option<string>, target: Option<string>) {
    payload == Null || StaysInside(payload, source, target)
  }

  /** An explicit, allowed crossing whose payload stays inside and shows a clean surface. */
  ghost predicate CrossingAllowed(source: Option<string>, target: Option<string>, interaction: Option<string>,
                                  payload: Json, contractId: Json)
  {
    && contractId == Str(CROSS_SUBSTRATE_CONTRACT_ID)
    && (OrEmpty(source), OrEmpty(target), OrEmpty(interaction)) in ALLOWED_INFLUENCE_DIRECTIONS
    && InsideOrAbsent(payload, source, target)
    && (target == Some("visibility") && interaction == Some("observational_diagnostic") ==>
          payload.Obj? && if SafeText(Get(payload, "diagnostic_type")).Some? then CleanDiagnostic(payload)
                          else CleanVisibility(payload))
  }

  lemma SurfaceViolationsVisible(payload: Json)
    ensures Visible(SurfaceViolations(payload))
  {
    NotBlankAt("payload", 0);
    if payload.Obj? {
      PrefixedVisible("visibility.", Unique(DiagnosticViolations(payload)));
      PrefixedVisible("visibility.", Unique(VisibilityViolations(payload)));
    }
  }

  lemma CrossViolationsVisible(source: Option<string>, target: Option<string>, interaction: Option<string>,
                               payload: Json, contractId: Json)
    ensures Visible(CrossViolations(source, target, interaction, payload, contractId))
  {
    CrossNames();
    NameVisible(Known(source), "source_substrate");
    NameVisible(Known(target), "target_substrate");
    NameVisible(!(source == target && source.Some?), "target_substrate");
    NameVisible(contractId == Str(CROSS_SUBSTRATE_CONTRACT_ID), "explicit_contract_id");
    var direction := (OrEmpty(source), OrEmpty(target), OrEmpty(interaction)) in ALLOWED_INFLUENCE_DIRECTIONS;
    NameVisible(direction, "allowed_influence_direction");
    var a, b, c, d, e := Unless(Known(source), "source_substrate"), Unless(Known(target), "target_substrate"),
      Unless(!(source == target && source.Some?), "target_substrate"),
      Unless(contractId == Str(CROSS_SUBSTRATE_CONTRACT_ID), "explicit_contract_id"),
      Unless(direction, "allowed_influence_direction");
    var surface := if target == Some("visibility") && interaction == Some("observational_diagnostic")
                   then SurfaceViolations(payload) else [];
    PayloadViolationsVisible(payload, source, target);
    SurfaceViolationsVisible(payload);
    VisibleFour(a, b, c, d);
    VisibleFour(a + b + c + d, e, PayloadViolations(payload, source, target), surface);
  }

  lemma CrossNames()
    ensures EndsInLetter("source_substrate") && EndsInLetter("target_substrate")
    ensures EndsInLetter("explicit_contract_id") && EndsInLetter("allowed_influence_direction")
  {
  }

  /** A crossing between two known substrates with a pure payload, exactly. */
  lemma CrossingExact(source: Option<string>, target: Option<string>, interaction: Option<string>,
                      payload: Json, contractId: Json)
    requires WellFormed(payload) && PurePayload(payload)
    requires Known(source) && Known(target) && source != target
    ensures Unique(CrossViolations(source, target, interaction, payload, contractId)) == [] <==>
              CrossingAllowed(source, target, interaction, payload, contractId)
  {
    CrossViolationsVisible(source, target, interaction, payload, contractId);
    UniqueKeepsOne(CrossViolations(source, target, interaction, payload, contractId));
    SurfaceExact(payload);
    if payload.Obj? {
      BoundaryOfPure(payload, source, target);
    }
  }

  /** What an allowed request is, stated on the payloads themselves. */
  ghost predicate Permitted(r: Request) {
    && SafeText(r.helperName).Some? && Known(r.Input()) && Known(r.Output())
    && PurePayload(r.inputPayload) && PurePayload(r.outputPayload)
    && if r.Input() != r.Output()
       then r.Interaction().Some?
            && CrossingAllowed(r.Input(), r.Output(), r.Interaction(), r.outputPayload, r.contractId)
       else InsideOrAbsent(r.outputPayload, r.Output(), r.Output())
  }

  lemma BoundaryPartExact(r: Request)
    requires WellFormed(r.outputPayload) && PurePayload(r.outputPayload)
    requires Known(r.Input()) && Known(r.Output())
    ensures BoundaryPart(r) == [] <==>
              if r.Input() != r.Output()
              then r.Interaction().Some?
                   && CrossingAllowed(r.Input(), r.Output(), r.Interaction(), r.outputPayload, r.contractId)
              else InsideOrAbsent(r.outputPayload, r.Output(), r.Output())
  {
    if r.Crosses() {
      CrossingExact(r.Input(), r.Output(), r.Interaction(), r.outputPayload, r.contractId);
    } else {
      PayloadViolationsVisible(r.outputPayload, r.Output(), r.Output());
      UniqueKeepsOne(PayloadViolations(r.outputPayload, r.Output(), r.Output()));
      if r.outputPayload.Obj? {
        BoundaryOfPure(r.outputPayload, r.Output(), r.Output());
      }
    }
  }

  lemma BoundaryPartVisible(r: Request)
    ensures Visible(BoundaryPart(r))
  {
    if r.Crosses() {
      var crossed := Unique(CrossViolations(r.Input(), r.Output(), r.Interaction(), r.outputPayload, r.contractId));
      NotBlankAt("explicit_cross_substrate_contract_id", 0);
      NotBlankAt("interaction_type", 0);
      PrefixedVisible("cross_substrate.", crossed);
      VisibleAppend(Unless(r.contractId == Str(CROSS_SUBSTRATE_CONTRACT_ID), "explicit_cross_substrate_contract_id")
                    + Unless(r.Interaction().Some?, "interaction_type"), Prefixed("cross_substrate.", crossed));
    } else {
      PrefixedVisible("output_boundary.", Unique(PayloadViolations(r.outputPayload, r.Output(), r.Output())));
    }
  }

  lemma CollectedVisible(r: Request)
    ensures Visible(Collected(r))
  {
    var a, b, c := Unless(SafeText(r.helperName).Some?, "helper_name"), Unless(Known(r.Input()), "input_substrate"),
      Unless(Known(r.Output()), "output_substrate");
    var input, output := Prefixed("input.", HelperViolations(r.inputPayload)),
      Prefixed("output.", HelperViolations(r.outputPayload));
    NotBlankAt("helper_name", 0);
    NotBlankAt("input_substrate", 0);
    NotBlankAt("output_substrate", 0);
    PrefixedVisible("input.", HelperViolations(r.inputPayload));
    PrefixedVisible("output.", HelperViolations(r.outputPayload));
    BoundaryPartVisible(r);
    VisibleFour(a, b, c, input);
    VisibleFour(a + b + c + input, output, BoundaryPart(r), []);
    assert a + b + c + input + output + BoundaryPart(r) + [] == Collected(r);
  }

  /**
   The helper check fails closed, and only where it must: for all requests the verdict is
   allowed exactly when the request is permitted, whatever the payloads contain and at
   whatever depth.
   */
  lemma HelperPurityExact(r: Request)
    requires WellFormed(r.inputPayload) && WellFormed(r.outputPayload)
    ensures Allowed(r) <==> Permitted(r)
  {
    CollectedVisible(r);
    UniqueKeepsOne(Collected(r));
    HelperViolationsExact(r.inputPayload);
    HelperViolationsExact(r.outputPayload);
    if Known(r.Input()) && Known(r.Output()) && PurePayload(r.outputPayload) {
      BoundaryPartExact(r);
    }
  }

  method AppendStatePaths(payload: Json, substrates: seq<string>, blocked: seq<string>) returns (all: seq<string>)
    ensures all == blocked + StatePaths(payload, substrates)
  {
    all := blocked;
    for i := 0 to |substrates|
      invariant all + StatePaths(payload, substrates[i..]) == blocked + StatePaths(payload, substrates)
    {
      assert substrates[i..][1..] == substrates[i + 1..];
      var paths := FindMatchingPaths(payload, ContextExcused(SubstrateStateFields(substrates[i])), "");
      Regroup(all, paths, StatePaths(payload, substrates[i + 1..]));
      all := all + paths;
    }
  }

  method CheckGuardedKeys(payload: Json, control: Rule) returns (blocked: seq<string>)
    ensures blocked == MatchingPaths(payload, control, "")
                       + MatchingPaths(payload, FalseExcused(MEMORY_FIELDS), "")
                       + MatchingPaths(payload, FalseExcused(AUTONOMY_FIELDS), "")
                       + MatchingPaths(payload, FalseExcused(MUTATION_FIELDS), "")
  {
    blocked := AppendPaths(payload, control, []);
    blocked := AppendPaths(payload, FalseExcused(MEMORY_FIELDS), blocked);
    blocked := AppendPaths(payload, FalseExcused(AUTONOMY_FIELDS), blocked);
    blocked := AppendPaths(payload, FalseExcused(MUTATION_FIELDS), blocked);
  }

  method CheckRaw(payload: Json) returns (blocked: seq<string>)
    ensures blocked == RawViolations(payload)
  {
    blocked := CheckGuardedKeys(payload, Strict(CONTROL_FIELDS));
    blocked := AppendPaths(payload, AUTHORITY_RULE, blocked);
    blocked := AppendTrueFlags(payload, HELPER_FLAGS, blocked);
    blocked := AppendPaths(payload, ContextExcused(ATTACHMENT_FIELDS), blocked);
    blocked := AppendStatePaths(payload, STATE_SUBSTRATES, blocked);
  }

  /** `_helper_payload_violations`. */
  method CheckHelperPayload(payload: Json) returns (found: seq<string>)
    ensures found == HelperViolations(payload)
  {
    if payload == Null {
      return [];
    }
    if !payload.Obj? {
      return ["payload"];
    }
    found := CheckRaw(payload);
    found := UniqueValues(found);
  }

  method CheckCrossed(source: Option<string>, target: Option<string>, interaction: Option<string>,
                      payload: Json, contractId: Json) returns (blocked: seq<string>)
    ensures blocked == Prefixed("cross_substrate.",
                                Unique(CrossViolations(source, target, interaction, payload, contractId)))
  {
    var found := CheckCrossing(source, target, interaction, payload, contractId);
    found := UniqueValues(found);
    blocked := Prefixed("cross_substrate.", found);
  }

  method CheckOwned(payload: Json, owner: Option<string>) returns (blocked: seq<string>)
    ensures blocked == Prefixed("output_boundary.", Unique(PayloadViolations(payload, owner, owner)))
  {
    var found := CheckPayload(payload, owner, owner);
    found := UniqueValues(found);
    blocked := Prefixed("output_boundary.", found);
  }

  method CheckExplicit(contract: bool, interaction: bool, crossed: seq<string>) returns (blocked: seq<string>)
    ensures blocked == Unless(contract, "explicit_cross_substrate_contract_id")
                       + Unless(interaction, "interaction_type") + crossed
  {
    blocked := AppendUnless(contract, "explicit_cross_substrate_contract_id", []);
    blocked := AppendUnless(interaction, "interaction_type", blocked);
    blocked := blocked + crossed;
  }

  method CheckBoundary(crosses: bool, source: Option<string>, target: Option<string>,
                       interaction: Option<string>, payload: Json, contractId: Json) returns (blocked: seq<string>)
    ensures blocked == BoundaryOf(crosses, source, target, interaction, payload, contractId)
  {
    blocked := [];
    if crosses {
      var crossed := CheckCrossed(source, target, interaction, payload, contractId);
      blocked := CheckExplicit(contractId == Str(CROSS_SUBSTRATE_CONTRACT_ID), interaction.Some?, crossed);
    } else if Known(target) {
      blocked := CheckOwned(payload, target);
    }
  }

  method CheckNames(named: bool, input: bool, output: bool) returns (blocked: seq<string>)
    ensures blocked == Unless(named, "helper_name") + Unless(input, "input_substrate")
                       + Unless(output, "output_substrate")
  {
    blocked := AppendUnless(named, "helper_name", []);
    blocked := AppendUnless(input, "input_substrate", blocked);
    blocked := AppendUnless(output, "output_substrate", blocked);
  }

  method CollectViolations(r: Request) returns (blocked: seq<string>)
    ensures blocked == Collected(r)
  {
    blocked := CheckNames(SafeText(r.helperName).Some?, Known(r.Input()), Known(r.Output()));
    var input := CheckHelperPayload(r.inputPayload);
    var output := CheckHelperPayload(r.outputPayload);
    var boundary := CheckBoundary(r.Crosses(), r.Input(), r.Output(), r.Interaction(), r.outputPayload,
                                  r.contractId);
    blocked := blocked + Prefixed("input.", input) + Prefixed("output.", output) + boundary;
  }

  /** `validate_helper_purity`: it finds nothing exactly in permitted requests. */
  method ValidateHelperPurity(r: Request) returns (blocked: seq<string>)
    requires WellFormed(r.inputPayload) && WellFormed(r.outputPayload)
    ensures blocked == Unique(Collected(r))
    ensures blocked == [] <==> Permitted(r)
  {
    HelperPurityExact(r);
    blocked := CollectViolations(r);
    blocked := UniqueValues(blocked);
  }
}
