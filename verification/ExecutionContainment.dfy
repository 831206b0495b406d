/** Keeping provider payloads out of user responses (runtime/execution_containment.py). */
module ExecutionContainment {
  import opened AsciiCase
  import opened JsonValues
  import Positions
  import opened Sequences
  import opened Wrappers

  // The replacement text, in short parts.
  const FIRST_PART := "Cloud/web "
  const LOOKUP_PART := "lookup is "
  const SECOND_PART := "currently disabled "
  const THIRD_PART := "by runtime "
  const LAST_PART := "governance."
  const BLOCKED_EXECUTION_RESPONSE := FIRST_PART + LOOKUP_PART + SECOND_PART + THIRD_PART + LAST_PART

  // The leak markers, in lower case as they are compared.
  const LEAK_MARKERS := [
    "[cloud dry run]", "messages that would have been sent", "response format:", "raw model payload",
    "raw response format", "internal planner payload"
  ]

  /** `contains_execution_payload_leak`. */
  predicate Leaks(v: Json) {
    v.Str? && exists k :: 0 <= k < |LEAK_MARKERS| && Contains(Lower(v.s), LEAK_MARKERS[k])
  }

  /** What the operator actions are computed from. */
  datatype Grounds = Grounds(control: Json, controlDiagnostics: Json, runtimeGovernance: Json,
                             operationalControls: Json, disabledReasons: Json, skippedReasons: Json,
                             reasonCodes: Json)

  /**
   The operational diagnostics: the fields a containment writes, `None` when absent, those it
   reads, and all others.
   */
  datatype Diagnostics = Diagnostics(
    diagnosticType: Option<Json>, visibility: Option<Json>, contentSafe: Option<Json>,
    observationalOnly: Option<Json>, userResponseRendered: Option<Json>, operatorActions: Option<Json>,
    executionPerformed: Option<Json>, externalCallPerformed: Option<Json>, providerRequestSent: Option<Json>,
    hiddenRetry: Option<Json>, hiddenContextInjection: Option<Json>, plannerAuthority: Option<Json>,
    reinterpretation: Option<Json>, containedFromUser: Option<Json>, leakMarkersDetected: Option<Json>,
    grounds: Grounds, others: map<string, Json>)

  const NO_DIAGNOSTICS := Diagnostics(None, None, None, None, None, None, None, None, None, None, None, None, None,
                                      None, None, Grounds(Null, Null, Null, Null, Null, Null, Null), map[])

  predicate Truthy(v: Json) {
    match v
    case Null => false
    case Bool(b) => b
    case Num(n) => n != 0
    case Str(s) => s != ""
    case Arr(_, items) => items != []
    case Obj(fs) => fs != []
  }

  function Either(a: Json, b: Json): Json {
    if Truthy(a) then a else b
  }

  function ControlName(v: Json): seq<string> {
    if v.Str? && v.s != "" then [v.s] else []
  }

  /** `_governance_controls` of a nested dictionary. */
  function ControlsIn(v: Json): seq<string>
    decreases v, 1
  {
    if !v.Obj? then []
    else OnceEach(ControlName(Lookup(v.fields, "control"))
                  + NestedControls(v.fields, "control_diagnostics") + NestedControls(v.fields, "runtime_governance")
                  + NestedControls(v.fields, "control") + ListedIn(v.fields, "operational_controls"))
  }

  function NestedControls(fs: seq<Field>, key: string): seq<string>
    decreases Obj(fs), 0
  {
    if !HasKey(fs, key) then []
    else
      Positions.LookupSmaller(fs, key);
      ControlsIn(Lookup(fs, key))
  }

  function ListedIn(fs: seq<Field>, key: string): seq<string>
    decreases Obj(fs), 0
  {
    if !HasKey(fs, key) then []
    else
      Positions.LookupSmaller(fs, key);
      ListedControls(Lookup(fs, key))
  }

  function ListedControls(v: Json): seq<string>
    decreases v, 2
  {
    if v.Arr? && v.isList then ItemControls(v.items) else []
  }

  function ItemControls(items: seq<Json>): seq<string>
    decreases items, 0
  {
    if items == [] then [] else ItemControls(items[..|items| - 1]) + ControlsIn(items[|items| - 1])
  }

  /** `_governance_controls` of the diagnostics themselves. */
  function Controls(g: Grounds): seq<string> {
    OnceEach(ControlName(g.control) + ControlsIn(g.controlDiagnostics) + ControlsIn(g.runtimeGovernance)
             + ControlsIn(g.control) + ListedControls(g.operationalControls))
  }

  function ActionFor(control: string): seq<string> {
    if control == "cloud_execution" then ["start cloud"]
    else if control == "tavily_execution" then ["enable Tavily"]
    else if control == "provider_authorization" then ["authorize provider"]
    else []
  }

  function Actions(controls: seq<string>): seq<string> {
    if controls == [] then [] else ActionFor(controls[0]) + Actions(controls[1..])
  }

  function TextsOf(items: seq<Json>): seq<string> {
    if items == [] then [] else (if items[0].Str? then [items[0].s] else []) + TextsOf(items[1..])
  }

  function ReasonTexts(g: Grounds): seq<string> {
    var reasons := Either(Either(g.disabledReasons, g.skippedReasons), g.reasonCodes);
    if reasons.Arr? && reasons.isList then TextsOf(reasons.items) else []
  }

  predicate SomeContains(texts: seq<string>, part: string) {
    exists i :: 0 <= i < |texts| && Contains(texts[i], part)
  }

  /** `_operator_actions_for_governance_block`. */
  function OperatorActionsFor(g: Grounds): Json {
    var reasons := ReasonTexts(g);
    TextList(OnceEach(
      Actions(Controls(g))
      + (if SomeContains(reasons, "tavily") then ["enable Tavily"] else [])
      + (if SomeContains(reasons, "authorization") || SomeContains(reasons, "state_not_allowed")
         then ["authorize provider"] else [])))
  }

  function TextList(texts: seq<string>): Json {
    Arr(true, seq(|texts|, i requires 0 <= i < |texts| => Str(texts[i])))
  }

  /** `dict.setdefault`. */
  function Default(value: Option<Json>, default: Json): Option<Json> {
    if value.Some? then value else Some(default)
  }

  /** The diagnostics before the rendering fields are written over them. */
  function Marked(d: Diagnostics, reason: string, leaked: bool): Diagnostics {
    d.(diagnosticType := Default(d.diagnosticType, Str(reason)),
       containedFromUser := Some(Bool(true)),
       userResponseRendered := Some(Str("blocked_execution")),
       leakMarkersDetected := Some(Bool(leaked)),
       executionPerformed := Default(d.executionPerformed, Bool(false)),
       providerRequestSent := Default(d.providerRequestSent, Bool(false)))
  }

  /** `diagnostics.update(build_governance_blocked_response_diagnostics(diagnostics))`. */
  function Rendered(d: Diagnostics, actions: Json): Diagnostics {
    d.(diagnosticType := Some(Str("governance_blocked_response_rendering")),
       visibility := Some(Str("operator_internal_only")),
       contentSafe := Some(Bool(true)),
       observationalOnly := Some(Bool(true)),
       userResponseRendered := Some(Str("governance_blocked_execution")),
       operatorActions := Some(actions),
       executionPerformed := Some(Bool(false)),
       externalCallPerformed := Some(Bool(false)),
       providerRequestSent := Some(Bool(false)),
       hiddenRetry := Some(Bool(false)),
       hiddenContextInjection := Some(Bool(false)),
       plannerAuthority := Some(Bool(false)),
       reinterpretation := Some(Bool(false)))
  }

  function ContainedDiagnostics(d: Diagnostics, reason: string, leaked: bool): Diagnostics {
    Rendered(Marked(d, reason, leaked), OperatorActionsFor(d.grounds))
  }

  /** An execution result: absent keys are `None`. */
  datatype Result = Result(model: Option<Json>, text: Option<Json>, response: Option<Json>, dryRun: bool,
                           blocked: bool, diagnostics: Option<Diagnostics>)

  /** The text a containment looks at: `text`, else `response`, else empty. */
  function Shown(r: Result): Json {
    if r.text.Some? then r.text.value else if r.response.Some? then r.response.value else Str("")
  }

  predicate ShouldContain(r: Result) {
    r.dryRun || r.blocked || Leaks(Shown(r))
  }

  function Replaced(v: Option<Json>): Option<Json> {
    if v.Some? then Some(Str(BLOCKED_EXECUTION_RESPONSE)) else None
  }

  /** `contain_execution_result`. */
  function Contain(r: Result, reason: string): Result {
    if !ShouldContain(r) then r
    else
      var d := if r.diagnostics.Some? then r.diagnostics.value else NO_DIAGNOSTICS;
      r.(text := Replaced(r.text), response := Replaced(r.response),
         diagnostics := Some(ContainedDiagnostics(d, reason, Leaks(Shown(r)))))
  }

  /** A text without one of its characters does not contain a marker. */
  lemma AbsentCharacter(text: string, part: string, k: nat)
    requires k < |part| && forall i :: 0 <= i < |text| ==> text[i] != part[k]
    ensures !Contains(text, part)
  {
    if i :| 0 <= i <= |text| && PartAt(text, part, i) {
      PartCharacter(text, part, i, k);
    }
  }

  lemma PartCharacter(text: string, part: string, i: nat, k: nat)
    requires PartAt(text, part, i) && k < |part|
    ensures text[i + k] == part[k]
  {
    assert text[i..i + |part|][k] == text[i + k];
  }

  /** The two characters never follow one another. */
  ghost predicate Apart(text: string, a: char, b: char) {
    forall j :: 0 < j < |text| ==> !(text[j - 1] == a && text[j] == b)
  }

  /** A text in which two neighbours of a marker never follow one another does not contain it. */
  lemma AbsentPair(text: string, part: string, k: nat)
    requires 0 < k < |part| && Apart(text, part[k - 1], part[k])
    ensures !Contains(text, part)
  {
    if i :| 0 <= i <= |text| && PartAt(text, part, i) {
      PairThere(text, part, i, k);
    }
  }

  lemma PairThere(text: string, part: string, i: nat, k: nat)
    requires 0 < k < |part| && PartAt(text, part, i)
    ensures !Apart(text, part[k - 1], part[k])
  {
    PartCharacter(text, part, i, k);
    PartCharacter(text, part, i, k - 1);
    var j := i + k;
    assert text[j - 1] == part[k - 1] && text[j] == part[k];
  }

  /** What rules out each of the markers. */
  ghost predicate Clean(text: string) {
    && (forall i :: 0 <= i < |text| ==> text[i] !in {'[', 'h', ':', 'f'})
    && Apart(text, 'a', 'w') && Apart(text, 'n', 'n')
  }

  lemma CleanJoin(a: string, b: string)
    requires Clean(a) && Clean(b)
    requires a != "" && a[|a| - 1] == ' '
    ensures Clean(a + b)
  {
    forall j | 0 < j < |a + b|
      ensures !((a + b)[j - 1] == 'a' && (a + b)[j] == 'w') && !((a + b)[j - 1] == 'n' && (a + b)[j] == 'n')
    {
      if j < |a| {
        assert (a + b)[j] == a[j] && (a + b)[j - 1] == a[j - 1];
      } else if j > |a| {
        assert (a + b)[j] == b[j - |a|] && (a + b)[j - 1] == b[j - |a| - 1];
      }
    }
  }

  lemma FirstClean()
    ensures Clean(Lower(FIRST_PART)) && Lower(FIRST_PART)[|FIRST_PART| - 1] == ' '
  {
  }

  lemma LookupClean()
    ensures Clean(Lower(LOOKUP_PART)) && Lower(LOOKUP_PART)[|LOOKUP_PART| - 1] == ' '
  {
  }

  lemma SecondClean()
    ensures Clean(Lower(SECOND_PART)) && Lower(SECOND_PART)[|SECOND_PART| - 1] == ' '
  {
  }

  lemma ThirdClean()
    ensures Clean(Lower(THIRD_PART)) && Lower(THIRD_PART)[|THIRD_PART| - 1] == ' '
  {
  }

  lemma LastClean()
    ensures Clean(Lower(LAST_PART))
  {
  }

  lemma LowerAppend(a: string, b: string)
    ensures Lower(a + b) == Lower(a) + Lower(b)
  {
  }

  lemma JoinedClean(a: string, b: string)
    requires Clean(Lower(a)) && Clean(Lower(b)) && Lower(a) != "" && Lower(a)[|a| - 1] == ' '
    ensures Clean(Lower(a + b))
    ensures b != "" && Lower(b)[|b| - 1] == ' ' ==> Lower(a + b)[|a + b| - 1] == ' '
  {
    LowerAppend(a, b);
    CleanJoin(Lower(a), Lower(b));
  }

  lemma ReplacementLowersClean()
    ensures Clean(Lower(BLOCKED_EXECUTION_RESPONSE))
  {
    FirstClean();
    LookupClean();
    SecondClean();
    ThirdClean();
    LastClean();
    JoinedClean(FIRST_PART, LOOKUP_PART);
    JoinedClean(FIRST_PART + LOOKUP_PART, SECOND_PART);
    JoinedClean(FIRST_PART + LOOKUP_PART + SECOND_PART, THIRD_PART);
    JoinedClean(FIRST_PART + LOOKUP_PART + SECOND_PART + THIRD_PART, LAST_PART);
  }

  lemma CleanHasNoMarker(text: string)
    requires Clean(text)
    ensures forall k :: 0 <= k < |LEAK_MARKERS| ==> !Contains(text, LEAK_MARKERS[k])
  {
    AbsentCharacter(text, LEAK_MARKERS[0], 0);
    AbsentCharacter(text, LEAK_MARKERS[1], 10);
    AbsentCharacter(text, LEAK_MARKERS[2], 15);
    AbsentPair(text, LEAK_MARKERS[3], 2);
    AbsentCharacter(text, LEAK_MARKERS[4], 13);
    AbsentPair(text, LEAK_MARKERS[5], 13);
  }

  /** The replacement text is free of every marker. */
  lemma ReplacementClean()
    ensures !Leaks(Str(BLOCKED_EXECUTION_RESPONSE))
  {
    ReplacementLowersClean();
    CleanHasNoMarker(Lower(BLOCKED_EXECUTION_RESPONSE));
  }

  /**
   After containment the shown text never leaks. A leaking `response` beside a harmless
   `text` is the one thing that gets through, and only when nothing else contains the result.
   */
  lemma ContainedExact(r: Result, reason: string)
    ensures !Leaks(Shown(Contain(r, reason)))
    ensures var c := Contain(r, reason);
            c.response.Some? && Leaks(c.response.value) <==>
              r.response.Some? && Leaks(r.response.value) && r.text.Some? && !ShouldContain(r)
  {
    ReplacementClean();
    assert !Leaks(Str("")) by {
      EmptyClean();
    }
  }

  lemma EmptyClean()
    ensures !Leaks(Str(""))
  {
    assert Lower("") == "";
    forall k | 0 <= k < |LEAK_MARKERS| ensures !Contains("", LEAK_MARKERS[k]) {
      assert |LEAK_MARKERS[k]| > 0;
    }
  }

  lemma ContainedDiagnosticsTwice(d: Diagnostics, reason: string, again: string, leaked: bool)
    ensures var once := ContainedDiagnostics(d, reason, leaked);
            ContainedDiagnostics(once, again, false) == once.(leakMarkersDetected := Some(Bool(false)))
  {
  }

  /**
   A second containment, of the result as it was or repackaged with its text as the response,
   changes nothing but `leak_markers_detected`, and that only when a flag still asks for it.
   */
  lemma ContainedTwice(r: Result, reason: string, again: string)
    requires r.text.Some?
    ensures var once := Contain(r, reason);
            var packed := once.(text := None, response := once.text);
            Contain(packed, again)
            == if r.dryRun || r.blocked
               then packed.(diagnostics :=
                      Some(once.diagnostics.value.(leakMarkersDetected := Some(Bool(false)))))
               else packed
  {
    ReplacementClean();
    if ShouldContain(r) {
      var d := if r.diagnostics.Some? then r.diagnostics.value else NO_DIAGNOSTICS;
      ContainedDiagnosticsTwice(d, reason, again, Leaks(Shown(r)));
    }
  }

  /** `list(dict.fromkeys(values))`. */
  method KeepOnce(values: seq<string>) returns (kept: seq<string>)
    ensures kept == OnceEach(values)
  {
    kept := [];
    for i := 0 to |values|
      invariant kept == OnceEach(values[..i])
    {
      assert values[..i + 1][..i] == values[..i];
      if values[i] !in kept {
        kept := kept + [values[i]];
      }
    }
    assert values[..|values|] == values;
  }

  /** `_governance_controls`: the recursion over nested control dictionaries. */
  method CollectControls(v: Json) returns (controls: seq<string>)
    ensures controls == ControlsIn(v)
    decreases v, 1
  {
    if !v.Obj? {
      return [];
    }
    controls := ControlName(Lookup(v.fields, "control"));
    var diagnostics := CollectNested(v, "control_diagnostics");
    var governance := CollectNested(v, "runtime_governance");
    var control := CollectNested(v, "control");
    var listed := CollectListed(v, "operational_controls");
    controls := controls + diagnostics + governance + control + listed;
    controls := KeepOnce(controls);
  }

  method CollectNested(v: Json, key: string) returns (controls: seq<string>)
    requires v.Obj?
    ensures controls == NestedControls(v.fields, key)
    decreases v, 0
  {
    controls := [];
    if HasKey(v.fields, key) {
      Positions.LookupSmaller(v.fields, key);
      controls := CollectControls(Lookup(v.fields, key));
    }
  }

  method CollectListed(v: Json, key: string) returns (controls: seq<string>)
    requires v.Obj?
    ensures controls == ListedIn(v.fields, key)
    decreases v, 0
  {
    controls := [];
    if HasKey(v.fields, key) {
      Positions.LookupSmaller(v.fields, key);
      var list := Lookup(v.fields, key);
      if list.Arr? && list.isList {
        for i := 0 to |list.items|
          invariant controls == ItemControls(list.items[..i])
        {
          assert list.items[..i + 1][..i] == list.items[..i];
          assert list.items[i] < list;
          var found := CollectControls(list.items[i]);
          controls := controls + found;
        }
        assert list.items[..|list.items|] == list.items;
      }
    }
  }

  /** `contain_execution_result`: afterwards the shown text never leaks. */
  method ContainResult(r: Result, reason: string) returns (contained: Result)
    ensures contained == Contain(r, reason)
    ensures !Leaks(Shown(contained))
  {
    ContainedExact(r, reason);
    contained := r;
    var text := Shown(contained);
    if !(contained.dryRun || contained.blocked || Leaks(text)) {
      return;
    }
    var d := if contained.diagnostics.Some? then contained.diagnostics.value else NO_DIAGNOSTICS;
    d := Marked(d, reason, Leaks(text));
    d := Rendered(d, OperatorActionsFor(d.grounds));
    if contained.text.Some? {
      contained := contained.(text := Some(Str(BLOCKED_EXECUTION_RESPONSE)));
    }
    if contained.response.Some? {
      contained := contained.(response := Some(Str(BLOCKED_EXECUTION_RESPONSE)));
    }
    contained := contained.(diagnostics := Some(d));
  }
}
