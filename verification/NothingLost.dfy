/**
 Violations are never lost: every violation the validators collect keeps a visible
 character, so de-duplication, which drops blank texts, cannot empty a nonempty list.
 */
module NothingLost {
  import opened BoundaryTerms
  import opened JsonValues
  import opened Positions
  import opened Records
  import opened SubstrateBoundary
  import opened Text
  import opened ValidatorSupport
  import opened VisibilityIsolation
  import opened Wrappers

  /** Every value keeps a visible character: de-duplication cannot drop it as blank. */
  ghost predicate Visible(values: seq<string>) {
    forall i :: 0 <= i < |values| ==> !Blank(values[i])
  }

  ghost predicate EndsInLetter(k: string) {
    k != "" && 'a' <= k[|k| - 1] <= 'z'
  }

  ghost predicate WordFields(fields: set<string>) {
    forall k :: k in fields ==> EndsInLetter(k)
  }

  lemma ExtendVisible(prefix: string, key: string)
    requires EndsInLetter(key)
    ensures !Blank(Extend(prefix, Key(key)))
  {
    var path := Extend(prefix, Key(key));
    NotBlankAt(path, |path| - 1);
  }

  lemma {:induction false} PathsVisible(v: Json, rule: Rule, prefix: string)
    requires WordFields(rule.fields)
    ensures Visible(MatchingPaths(v, rule, prefix))
    decreases v, 1
  {
    match v
    case Obj(fs) => FieldPathsVisible(fs, rule, prefix);
    case Arr(_, items) => ItemPathsVisible(items, rule, prefix);
    case _ =>
  }

  lemma {:induction false} FieldPathsVisible(fs: seq<Field>, rule: Rule, prefix: string)
    requires WordFields(rule.fields)
    ensures Visible(FieldPaths(fs, rule, prefix))
    decreases fs, 0
  {
    if fs != [] {
      var last := fs[|fs| - 1];
      FieldPathsVisible(fs[..|fs| - 1], rule, prefix);
      assert last.value < last;
      PathsVisible(last.value, rule, Extend(prefix, Key(last.key)));
      if rule.Flags(last.key, last.value) {
        ExtendVisible(prefix, last.key);
      }
    }
  }

  lemma {:induction false} ItemPathsVisible(items: seq<Json>, rule: Rule, prefix: string)
    requires WordFields(rule.fields)
    ensures Visible(ItemPaths(items, rule, prefix))
    decreases items, 0
  {
    if items != [] {
      var n := |items| - 1;
      ItemPathsVisible(items[..n], rule, prefix);
      PathsVisible(items[n], rule, Extend(prefix, Index(n)));
    }
  }

  lemma VisibleAppend(xs: seq<string>, ys: seq<string>)
    requires Visible(xs) && Visible(ys)
    ensures Visible(xs + ys)
  {
  }

  lemma PrefixedVisible(prefix: string, fields: seq<string>)
    requires prefix != "" && !IsSpace(prefix[0])
    ensures Visible(Prefixed(prefix, fields))
  {
    forall i | 0 <= i < |fields| ensures !Blank(prefix + fields[i]) {
      NotBlankAt(prefix + fields[i], 0);
    }
  }

  lemma NameVisible(ok: bool, name: string)
    requires EndsInLetter(name)
    ensures Visible(Unless(ok, name))
  {
    NotBlankAt(name, |name| - 1);
  }

  ghost predicate Names(names: seq<string>) {
    forall i :: 0 <= i < |names| ==> EndsInLetter(names[i])
  }

  lemma {:induction false} TrueFlagsVisible(payload: Json, flags: seq<string>)
    requires Names(flags)
    ensures Visible(TrueFlags(payload, flags))
  {
    if flags != [] {
      NameVisible(Get(payload, flags[0]) != Bool(true), flags[0]);
      TrueFlagsVisible(payload, flags[1..]);
      VisibleAppend(Unless(Get(payload, flags[0]) != Bool(true), flags[0]), TrueFlags(payload, flags[1..]));
    }
  }

  lemma {:induction false} FlagViolationsVisible(payload: Json, flags: seq<string>)
    requires payload.Obj? && Names(flags)
    ensures Visible(FlagViolations(payload, flags))
  {
    if flags != [] {
      var ok := !HasKey(payload.fields, flags[0]) || Get(payload, flags[0]) == Bool(false);
      NameVisible(ok, flags[0]);
      FlagViolationsVisible(payload, flags[1..]);
      VisibleAppend(Unless(ok, flags[0]), FlagViolations(payload, flags[1..]));
    }
  }

  lemma VisibleFour(a: seq<string>, b: seq<string>, c: seq<string>, d: seq<string>)
    requires Visible(a) && Visible(b) && Visible(c) && Visible(d)
    ensures Visible(a + b + c + d)
  {
  }

  lemma FlagNames()
    ensures Names(TOP_LEVEL_FLAGS) && Names(MUTATION_FLAGS)
  {
  }

  lemma MemoryWords()
    ensures WordFields(MEMORY_FIELDS) && WordFields(AUTONOMY_FIELDS) && WordFields(MUTATION_FIELDS)
  {
  }

  lemma AuthorityWords()
    ensures WordFields(SEMANTIC_AUTHORITY_FIELDS)
  {
  }

  lemma ContentWords()
    ensures WordFields(FORBIDDEN_CONTENT_FIELDS)
  {
  }

  lemma StateWords(substrate: string)
    ensures WordFields(SubstrateStateFields(substrate))
  {
  }

  lemma {:induction false} ForeignStateVisible(payload: Json, source: Option<string>, target: Option<string>,
                                               substrates: seq<string>)
    ensures Visible(ForeignStatePaths(payload, source, target, substrates))
  {
    if substrates != [] {
      StateWords(substrates[0]);
      PathsVisible(payload, Strict(SubstrateStateFields(substrates[0])), "");
      ForeignStateVisible(payload, source, target, substrates[1..]);
      VisibleAppend(if Some(substrates[0]) in {source, target} then []
                    else MatchingPaths(payload, Strict(SubstrateStateFields(substrates[0])), ""),
                    ForeignStatePaths(payload, source, target, substrates[1..]));
    }
  }

  lemma GuardedPathsVisible(payload: Json)
    ensures Visible(MatchingPaths(payload, FalseExcused(MEMORY_FIELDS), ""))
    ensures Visible(MatchingPaths(payload, FalseExcused(AUTONOMY_FIELDS), ""))
    ensures Visible(MatchingPaths(payload, FalseExcused(MUTATION_FIELDS), ""))
  {
    MemoryWords();
    PathsVisible(payload, FalseExcused(MEMORY_FIELDS), "");
    PathsVisible(payload, FalseExcused(AUTONOMY_FIELDS), "");
    PathsVisible(payload, FalseExcused(MUTATION_FIELDS), "");
  }

  lemma AuthorityPathsVisible(payload: Json)
    ensures Visible(MatchingPaths(payload, AUTHORITY_RULE, ""))
    ensures Visible(MatchingPaths(payload, SEMANTIC_RULE, ""))
  {
    AuthorityWords();
    PathsVisible(payload, AUTHORITY_RULE, "");
    PathsVisible(payload, SEMANTIC_RULE, "");
  }

  lemma ContentPathsVisible(payload: Json)
    ensures Visible(MatchingPaths(payload, CONTENT_RULE, ""))
  {
    ContentWords();
    PathsVisible(payload, CONTENT_RULE, "");
  }

  lemma PayloadViolationsVisible(payload: Json, source: Option<string>, target: Option<string>)
    ensures Visible(PayloadViolations(payload, source, target))
  {
    NotBlankAt("payload", 0);
    if payload.Obj? {
      GuardedPathsVisible(payload);
      AuthorityPathsVisible(payload);
      ForeignStateVisible(payload, source, target, STATE_SUBSTRATES);
      FlagNames();
      TrueFlagsVisible(payload, TOP_LEVEL_FLAGS);
      var flags, memory, autonomy, mutation :=
        TrueFlags(payload, TOP_LEVEL_FLAGS), MatchingPaths(payload, FalseExcused(MEMORY_FIELDS), ""),
        MatchingPaths(payload, FalseExcused(AUTONOMY_FIELDS), ""),
        MatchingPaths(payload, FalseExcused(MUTATION_FIELDS), "");
      var authority := if target in {Some("visibility"), None} then [] else MatchingPaths(payload, AUTHORITY_RULE, "");
      var state := if target == Some("visibility") then []
                   else ForeignStatePaths(payload, source, target, STATE_SUBSTRATES);
      VisibleFour(flags, memory, autonomy, mutation);
      VisibleAppend(flags + memory + autonomy + mutation, authority);
      VisibleAppend(flags + memory + autonomy + mutation + authority, state);
    }
  }

  lemma SurfaceNames()
    ensures EndsInLetter("diagnostic_type") && EndsInLetter("visibility_type") && EndsInLetter("content_safe")
    ensures EndsInLetter("observational_only") && EndsInLetter("semantic_reinterpretation_performed")
    ensures EndsInLetter("hidden_context_injection_performed") && EndsInLetter("planner_semantic_authority")
  {
  }

  lemma DiagnosticVisible(payload: Json)
    requires payload.Obj?
    ensures Visible(DiagnosticViolations(payload))
  {
    var kind := Unless(SafeText(Get(payload, "diagnostic_type")).Some?, "diagnostic_type");
    var observational := Unless(Get(payload, "observational_only") == Bool(true), "observational_only");
    var hidden := Unless(Get(payload, "hidden_context_injection_performed") == Bool(false),
                         "hidden_context_injection_performed");
    var authority := Unless(Get(payload, "planner_semantic_authority") == Bool(false), "planner_semantic_authority");
    SurfaceNames();
    NameVisible(SafeText(Get(payload, "diagnostic_type")).Some?, "diagnostic_type");
    NameVisible(Get(payload, "observational_only") == Bool(true), "observational_only");
    NameVisible(Get(payload, "hidden_context_injection_performed") == Bool(false),
                "hidden_context_injection_performed");
    NameVisible(Get(payload, "planner_semantic_authority") == Bool(false), "planner_semantic_authority");
    VisibleFour(kind, observational, hidden, authority);
    FlagNames();
    FlagViolationsVisible(payload, MUTATION_FLAGS);
    ContentPathsVisible(payload);
    AuthorityPathsVisible(payload);
    VisibleFour(kind + observational + hidden + authority, FlagViolations(payload, MUTATION_FLAGS),
                MatchingPaths(payload, CONTENT_RULE, ""), MatchingPaths(payload, SEMANTIC_RULE, ""));
  }

  lemma VisibilityVisible(payload: Json)
    requires payload.Obj?
    ensures Visible(VisibilityViolations(payload))
  {
    var kind := Unless(SafeText(Get(payload, "visibility_type")).Some?, "visibility_type");
    var safe := Unless(Get(payload, "content_safe") == Bool(true), "content_safe");
    var semantic := Unless(Get(payload, "semantic_reinterpretation_performed") == Bool(false),
                           "semantic_reinterpretation_performed");
    SurfaceNames();
    NameVisible(SafeText(Get(payload, "visibility_type")).Some?, "visibility_type");
    NameVisible(Get(payload, "content_safe") == Bool(true), "content_safe");
    NameVisible(Get(payload, "semantic_reinterpretation_performed") == Bool(false),
                "semantic_reinterpretation_performed");
    ContentPathsVisible(payload);
    AuthorityPathsVisible(payload);
    VisibleFour(kind, safe, semantic, MatchingPaths(payload, CONTENT_RULE, ""));
    VisibleAppend(kind + safe + semantic + MatchingPaths(payload, CONTENT_RULE, ""),
                  MatchingPaths(payload, SEMANTIC_RULE, ""));
  }

  /** An attachment is allowed exactly when the target is and the surface has no violation. */
  lemma SurfaceKept(payload: Json)
    requires payload.Obj?
    ensures Unique(DiagnosticViolations(payload)) == [] <==> DiagnosticViolations(payload) == []
    ensures Unique(VisibilityViolations(payload)) == [] <==> VisibilityViolations(payload) == []
  {
    DiagnosticVisible(payload);
    VisibilityVisible(payload);
    UniqueKeepsOne(DiagnosticViolations(payload));
    UniqueKeepsOne(VisibilityViolations(payload));
  }
}
