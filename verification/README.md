# Verified model of the agent runtime

This Dafny project models the parts of the runtime in which separately written pieces of
code have to agree with each other: a builder and the validator that checks it, a loop and
the limits it promises, a store and the history it stands for. It proves those agreements
for all inputs.

- **Bounded context pipeline** (`ContextTrace` to `ContextComposer`, `ContextPlanning`,
  `InjectionPlans`, `ProvenanceReports`, `PreviewProvenance`, `ComposerGates`):
  items are planned, cut to item and token budgets, rendered and checked again. The
  producer satisfies the checker, up to one exactly characterised truncation case.
- **External search** (`RetrievalLineage`, `ExternalSearch`, `ExternalSearchMerge`,
  `MergeRefinement`, `MergeOrigins`, `MergeAlignment`, `MergeBookkeeping`, `MergeClosure`,
  `ExecutionReceipt`, `ReceiptBuilder`, `ProviderExecution`, `ProviderResults`,
  `ProviderReceipts`): the bounded merge refines a concatenation of prefixes, and every
  outcome of a provider call leaves a receipt that its validator accepts.
- **Governance stores** (`OperationalControls`, `ControlDecisions`, `ControlHistories`,
  `SwitchHistories`, `StopAsking`, `StopAskingScopes`, `StopAskingRuns`): lists used as maps,
  over whole histories of changes.
- **Boundary validators over JSON trees** (`Positions`, `ValidatorSupport`,
  `ContentSafeProjection`, `VisibilityIsolation`, `NothingLost`, `Attachments`, `Records`,
  `SubstrateBoundary`, `SubstrateChecks`, `HelperPurity`, `HelperRecords`, `HelperContents`,
  `VisibilitySchema`, `VisibilityConsistency`, `ConsistencyContents`, `SemanticPurity`,
  `PurityContents`, `GovernanceWalk`, `PlannerGovernanceBoundary`): what the recursive walkers
  report, and builders whose
  assertions about their own output never fire.
- **Execution with fallbacks** (`ExecutionContainment`, `ContainmentLeaks`, `RuntimeManager`,
  `FallbackProtocol`, `ExecutionManager`): the event protocol, containment of leaked
  payloads and the single recovery pass, for arbitrary engines.
- **Small stateful units** (`SemanticRetrieval`, `SemanticMatches`, `ConversationContinuity`,
  `ActionQueue`, `QueueLines`, `QueueLosses`).

`Wrappers`, `Text`, `AsciiCase`, `JsonValues`, `Sums`, `Sequences`, `KeyedLookup`, `GreedySelection`,
`Validation` and `BoundaryTerms` are shared vocabulary.

## How the model is built

Expressions and recursion in the source are functions here. Loops are methods proved
equal to a specification function, and each store is a class whose methods state the whole
new state; the lemmas are about the specification functions. For each main operation one
lemma says on the raw inputs alone what it decides or writes (the names end in `Exactly`).
JSON values are trees whose objects keep their fields in order. A dictionary that the code reads only by fixed keys is
a record, with `Null` for a missing key as `dict.get` gives. An exception is an empty
`Option`, or an outcome of its own.

Clocks, environment flags, identifiers and hashes are parameters. Provider and engine
behaviour is an arbitrary function of all calls so far. The JSON printer and parser of the
action queue are a parameter with stated properties.

## What turned out differently from what the code suggests

- A budget can cut an item to exactly its planned token count; the preview is then reported
  as inconsistent (`PreviewProvenance.SoundPlansGetSharpVerdicts` says when).
- `execution_receipt_refs` present but `None` passes validation and breaks the merge loop
  (`MergeRefinement.MergeRaisesExactly`).
- A control change receipt repeats a requested state that the store replaced
  (`ControlHistories.ReceiptEffectiveExact`), and an expiry outlives a later change that
  does not mention it (`ControlHistories.AllowingTakesEffectExactly`).
- Revocation of a stop-asking policy stops at the first record with the id
  (`StopAskingRuns.RevocationSilencesExactly`).
- An engine result with a model and no text is announced as completed and then as failed
  (`FallbackProtocol.StreamExactly`).
- A key made of whitespace fails the schema check of a surface but is not reported. The
  consistency record and the schema checks disagree exactly because of such keys
  (`VisibilityConsistency.DisagreementExact`, with the input `BlankKeyDisagreement`).
- Source refs and citations are not counted by the validator, so a merge can put them beside
  the wrong results (`MergeAlignment.InStepExactly` and `BlockPlacedExactly` say when,
  `MisalignedWitness` gives an input).
- A leaking `response` beside a harmless `text` is not contained
  (`ExecutionContainment.ContainedExact`); the engine loop never produces that combination.
- A queued record with U+0085, U+2028 or U+2029 does not load back
  (`ActionQueue.OneRecordExact`). It is simply lost if and only if none of the lines it is cut
  into can be read (`QueueLosses.TextLoadsExactly`); otherwise those lines load in its place,
  and one that is no dictionary makes filters and updates raise (`ReadableFragmentWitness`).
- The receipt validator raises for an execution state that cannot be hashed
  (`ExecutionReceipt.ValidateReceipt`).

## Model

| member | source | states |
|---|---|---|
| `GreedySelection.GreedyExact` | runtime/context_collection.py:25-44 | Greedy selection keeps a subsequence within the item and token limits; while room is left, exactly the valid items that still fit are taken, so a valid item left out before the cap would have overflowed |
| `GreedySelection.SelectGreedily` | runtime/context_collection.py:28-44 | The loop takes exactly the positions of that selection |
| `ContextCollection.ValidateContextItemCollection` | runtime/context_collection.py:9-44 | The collection loop returns the greedy selection of the resolved items and its token total |
| `ContextCollection.CollectionExact` | runtime/context_collection.py:25-44 | The collection is an ordered subsequence of valid items, at most `max_items` long and `max_tokens` heavy; every valid item left out while the cap was not reached would have overflowed the budget |
| `ContextCollection.NoInvalidFieldsIffValid` | runtime/context_types.py:64-258 | The item validator reports no field exactly for the valid items |
| `ContextCollection.FieldsReportedExactly` | runtime/context_types.py:64-258 | A field is reported exactly when its raw value is wrong: no text, no boolean, an unknown rendering policy, a contract other than that of the provenance, and so on |
| `ContextTrace.TraceSourcesDistinct` | runtime/context_trace.py:186-255 | No source is planned twice, whatever the agent, capability and binding |
| `ContextTrace.CollectCandidates` | runtime/context_trace.py:186-255 | The candidate loop collects the specified items and errors, no source twice |
| `ContextPlanning.PolicyErrorsExactly` | runtime/context_trace.py:73-167 | The policy validator reports unknown keys and wrong values of the raw policy, each under its code, and nothing else |
| `ContextPlanning.PolicyExactly` | runtime/context_trace.py:73-167 | A policy is used exactly when all its keys are known and all its values fit; a missing flag is off and a missing maximum is zero |
| `ContextPlanning.PlannedExactly` | runtime/context_trace.py:186-351 | Which sources are planned for which flags, resources and capability: the first of the wanted sources up to the maximum, with an error for each that cannot be had, and nothing but errors for an unusable policy |
| `ContextPlanning.UnresolvedExactly` | runtime/context_trace.py:258-351 | A binding that does not resolve plans nothing and passes its error on |
| `ContextPlanning.SourcePlannedExactly` | runtime/context_trace.py:258-351 | A wanted source is left out exactly when as many as the maximum come before it |
| `ContextInjection.TakeWithinBudget` | runtime/context_injection.py:343-364 | The token loop takes the fitting prefix and raises the token error exactly when it stops early |
| `ContextInjection.BuildContextInjectionPlan` | runtime/context_injection.py:274-376 | The builder computes the specified plan for every trace and policy |
| `ContextInjection.PlanIsMaximalPrefix` | runtime/context_injection.py:314-376 | The plan is the longest prefix of the allowed trace items within both limits, its total is the sum of its counts, and a token error is reported exactly when the token limit cut it |
| `ContextInjection.PlanFromTrace` | runtime/context_injection.py:255-271 | Every planned item is the conversion of a trace item of an allowed type |
| `ContextInjection.PlanSourcesDistinct` | runtime/context_injection.py:274-376 | A trace with distinct sources gives a plan with distinct sources |
| `InjectionPlans.PolicyExactly` | runtime/context_injection.py:109-223 | An injection policy passes exactly with usable limits, known source types and two texts that are not blank |
| `InjectionPlans.PlanTakesExactly` | runtime/context_injection.py:255-376 | The plan takes the first allowed trace items, none skipped and none twice, each with its own name, type, reason and attribution, at the cost of the words of its name and reason |
| `InjectionPlans.PlanReportsExactly` | runtime/context_injection.py:274-376 | The plan reports the errors of the trace, the switches of the policy, dropped types and a binding item limit, each exactly when it applies |
| `InjectionPlans.RefusedExactly` | runtime/context_injection.py:274-311 | A policy that does not pass gives an empty plan that says so and repeats the errors of the trace |
| `ContextBudgeting.PlanContextTruncation` | runtime/context_budgeting.py:100-166 | Both planning loops compute the specified truncation plans |
| `ContextBudgeting.DropTailSum` | runtime/context_budgeting.py:132-149 | Drop-tail targets sum to exactly the smaller of the total and the budget |
| `ContextBudgeting.DropTailShape` | runtime/context_budgeting.py:132-149 | Drop-tail targets are full items, then at most one partial item, then zeros |
| `ContextBudgeting.TruncateEachSum` | runtime/context_budgeting.py:151-166 | Truncate-each targets sum to at most the larger of the budget and the number of items |
| `ContextBudgeting.TruncateEachExactly` | runtime/context_budgeting.py:151-166 | There is one share for all items, the largest that all of them together can take within the budget, one at least; items within it keep their size and all others are cut to it |
| `ContextBudgeting.ValidateContextBudget` | runtime/context_budgeting.py:169-251 | The validator computes the specified totals, plans and errors |
| `ContextBudgeting.EstimateExactly` | runtime/context_budgeting.py:83-97 | An estimate counts the words of the content where there is some, and else those of source, type and reason together |
| `ContextRendering.RenderContextPreview` | runtime/context_rendering.py:126-201 | The preview built through a dictionary of plans by source is the specified block, in which a later plan of a source replaces an earlier one |
| `ContextProvenance.CheckItems` | runtime/context_provenance.py:128-196 | The item loop returns the errors and records of the specification in order, and clears token consistency exactly on a token error |
| `ContextProvenance.ValidateContextProvenance` | runtime/context_provenance.py:74-223 | The checker computes the specified report |
| `ContextProvenance.EstimateAgainstCount` | runtime/context_budgeting.py:83-97 | The budget estimate of an item is its planned token count or one more, equal only for an item of one token: the estimate counts the source type as a word and the plan does not |
| `ProvenanceReports.ErrorsExactly` | runtime/context_provenance.py:74-210 | Each error is reported exactly when the header, the total or a rendered item gives rise to it, where an item is compared with the last plan item of its source |
| `ProvenanceReports.ReportExactly` | runtime/context_provenance.py:128-223 | The report has one record for each rendered item, matched or unmatched, in order; token consistency holds exactly when nothing exceeds what was planned |
| `PreviewProvenance.PlansAreSound` | runtime/context_injection.py:314-376 | A plan built from a well-planned trace has distinct attributable sources, exact totals and counts next to its estimates |
| `PreviewProvenance.SoundPlansGetSharpVerdicts` | runtime/context_provenance.py:128-210 | For a sound plan and any budget, token consistency holds and the report has at most one error, a truncation inconsistency, present exactly when the budget cuts an item to its planned count |
| `PreviewProvenance.PreviewVerdict` | runtime/context_rendering.py:135-201 | The preview of a plan built from a well-planned trace gets that verdict, for every policy and budget |
| `PreviewProvenance.PlannerPreviewVerdict` | runtime/context_trace.py:258-351 | The same for every trace the planner itself makes |
| `PreviewProvenance.UncutPreviewIsClean` | runtime/context_rendering.py:135-201 | Without truncation the preview has no provenance error |
| `PreviewProvenance.TruncationInconsistencyWitness` | runtime/context_provenance.py:175-196 | A concrete trace and budget for which the preview of a sound plan is reported as inconsistent |
| `ContextComposer.OwnBlockIsClean` | runtime/context_composer.py:640-708 | The block the composer builds for a selected item passes the provenance checker |
| `ContextComposer.LateChecksNeverFire` | runtime/context_composer.py:605-708 | For all inputs the composer equals the composer without its late self-checks: item errors, an empty collection and provenance errors are unreachable once one planned item is selected and one item fits |
| `ContextComposer.CompositionConsistent` | runtime/context_composer.py:337-728 | Injection happens exactly when nothing was skipped, then with one valid item within the contract's token limit; a skip has one reason and never a self-check |
| `ComposerGates.FirstClosedGateDecides` | runtime/context_composer.py:337-708 | Of sixteen gates stated on the inputs the first closed one decides: nothing is injected and its reason is the only one given |
| `ComposerGates.OpenGatesInject` | runtime/context_composer.py:337-728 | With every gate open the only valid item of the adapter is injected, with its content as the prompt text |
| `ComposerGates.InjectsExactly` | runtime/context_composer.py:337-728 | Injection is performed exactly when every gate is open: switches, rollback flags, registry, contract, capability, one planned source, adapter, external reads, one valid item, token limit and rendering policy |
| `ComposerGates.RollbackStopsInjection` | runtime/context_composer.py:352-389 | Either rollback flag stops every injection, whatever else is set |
| `Positions.PathInjective` | runtime/governance/validator_support.py:28-59 | Two positions whose keys are nonempty and free of `.` and `[` never print the same path |
| `Positions.PathCollision` | runtime/governance/validator_support.py:28-59 | Without that condition two positions can print alike (two concrete collisions) |
| `ValidatorSupport.FindMatchingPaths` | runtime/governance/validator_support.py:22-59 | The recursive walker returns the specified paths in walk order |
| `ValidatorSupport.PathsPrintHits` | runtime/governance/validator_support.py:22-59 | The walker prints the positions of the reported keys, one path each, in walk order |
| `ValidatorSupport.HitsExact` | runtime/governance/validator_support.py:22-59 | The walk meets exactly the positions whose key is in the set and not excused by False |
| `ValidatorSupport.MatchingPathsExact` | runtime/governance/validator_support.py:22-59 | A path is reported exactly when it is printed for such a position |
| `ValidatorSupport.NoPathsIffNoHits` | runtime/governance/validator_support.py:22-59 | No path means no such key at any depth |
| `ValidatorSupport.MatchingPathsUnion` | runtime/governance/validator_support.py:22-59 | Searching for the union of two field sets reports what either search reports |
| `ValidatorSupport.UniqueValues` | runtime/governance/validator_support.py:13-19 | The de-duplicating loop computes the specified list |
| `ValidatorSupport.UniqueExact` | runtime/governance/validator_support.py:13-19 | Exactly the stripped nonblank values remain, each once |
| `ValidatorSupport.UniqueKeepsOrder` | runtime/governance/validator_support.py:13-19 | The values stay in the order in which they first occur |
| `Text.SpacesExactly` | runtime/governance/validator_support.py:9-10 | The characters that stripping removes, one by one |
| `Validation.SafeTextExact` | runtime/governance/validator_support.py:9-10 | A safe string is what lies between the whitespace at both ends of a string, if anything does |
| `ValidatorSupport.UniqueKeepsOne` | runtime/governance/validator_support.py:13-19 | De-duplication empties a list of nonblank values only if it was empty |
| `ContentSafeProjection.CollectFieldPaths` | runtime/governance/semantic_purity_diagnostics.py:239-266 | The projection walk returns the specified paths, de-duplicated at every level |
| `ContentSafeProjection.FieldPathsExact` | runtime/governance/semantic_purity_diagnostics.py:239-266 | With nonempty keys that have no whitespace at either end the listed paths are exactly those of the positions without a content-field ancestor |
| `ContentSafeProjection.ProjectionPartitions` | runtime/governance/semantic_purity_diagnostics.py:21-44 | With plain keys the observed and suppressed paths are disjoint and together list every position without a content-field ancestor |
| `VisibilityIsolation.QuietIffNoPaths` | runtime/governance/visibility_isolation.py:192-219 | The content and authority walks report nothing exactly when no key of theirs occurs unexcused at any depth |
| `VisibilityIsolation.DiagnosticCleanIff` | runtime/governance/visibility_isolation.py:98-129 | The diagnostic validator accepts exactly the clean diagnostics |
| `VisibilityIsolation.VisibilityCleanIff` | runtime/governance/visibility_isolation.py:69-95 | The visibility validator accepts exactly the clean surfaces |
| `VisibilityIsolation.CheckDiagnosticSurface` | runtime/governance/visibility_isolation.py:98-129 | The validator appends exactly the specified violations, and none exactly for clean diagnostics |
| `VisibilityIsolation.CheckVisibilitySurface` | runtime/governance/visibility_isolation.py:69-95 | The validator appends exactly the specified violations, and none exactly for clean surfaces |
| `NothingLost.SurfaceKept` | runtime/governance/visibility_isolation.py:255-261 | De-duplication never hides the last violation of a surface |
| `Attachments.AttachVisibility` | runtime/governance/visibility_isolation.py:132-168 | A visibility surface may be attached exactly to the visibility targets and only when clean |
| `Attachments.AttachDiagnostic` | runtime/governance/visibility_isolation.py:132-168 | A diagnostic may be attached exactly to the diagnostic targets and only when clean |
| `Attachments.CheckAttachment` | runtime/governance/visibility_isolation.py:132-168 | The attachment check collects the specified violations, and none exactly for a clean payload whose kind the target takes |
| `Records.CleanDiagnosticRecord` | runtime/governance/visibility_isolation.py:98-129 | A record of identity fields, constant flags and outcome fields is a clean diagnostic whatever it reports |
| `SubstrateBoundary.RecordsPassSurfaceValidator` | runtime/governance/substrate_boundary.py:109-207 | For every payload and request the records of both substrate validators pass the diagnostic surface validator |
| `SubstrateChecks.CheckPayload` | runtime/governance/substrate_boundary.py:210-249 | The payload check collects the specified violations, and none exactly when no top-level flag is True and no memory, autonomy, mutation, authority or foreign state key occurs at any depth beyond the excused ones |
| `SubstrateChecks.CheckCrossing` | runtime/governance/substrate_boundary.py:109-159 | The check of a crossing collects the specified violations, and none exactly along a listed direction, under the contract, with a clean payload and surface |
| `HelperPurity.HelperViolationsExact` | runtime/governance/helper_purity.py:199-245 | The helper check finds nothing exactly in trees where, at every depth, control keys are absent, memory, autonomy and mutation keys are False and the one semantic key is `planner_semantic_authority` False |
| `HelperPurity.CrossingExact` | runtime/governance/substrate_boundary.py:109-159 | The cross-substrate check allows exactly the listed directions with the contract id, a pure payload and, into visibility, a clean surface |
| `HelperPurity.CollectedVisible` | runtime/governance/helper_purity.py:76-150 | Every collected violation keeps a visible character, so de-duplication never erases the last one |
| `HelperPurity.HelperPurityExact` | runtime/governance/helper_purity.py:76-150 | Fail closed: the verdict is allowed exactly when both payloads are pure at every depth, the substrates are known and any crossing is itself allowed |
| `HelperPurity.ValidateHelperPurity` | runtime/governance/helper_purity.py:76-150 | The step-by-step check returns the de-duplicated violations, and none exactly for permitted requests |
| `HelperRecords.HelperRecordPassesSurfaceValidator` | runtime/governance/helper_purity.py:248-306 | For every request, allowed or not, the helper record with its nested crossing passes the diagnostic surface validator |
| `HelperContents.RecordExactly` | runtime/governance/helper_purity.py:248-306 | The helper record reports the request as allowed and purity as preserved exactly when the request is permitted, fails closed otherwise, and detects leakage exactly for a crossing that is not permitted |
| `VisibilitySchema.ValidateSchema` | runtime/governance/visibility_schema.py:99-149 | The schema check collects the specified violations in order |
| `VisibilitySchema.SchemaExact` | runtime/governance/visibility_schema.py:99-149 | The schema check accepts exactly the canonical surfaces; the six presence checks never decide |
| `VisibilitySchema.VersionExactly` | runtime/governance/visibility_schema.py:99-149 | The version of a surface is 1, or the boolean that equals it |
| `VisibilitySchema.BuilderExact` | runtime/governance/visibility_schema.py:74-96 | The builder returns a surface exactly for a known domain, an open target and fields that, when not empty, are canonical and carry no content or authority key at any depth |
| `VisibilityConsistency.CheckSurfaces` | runtime/governance/visibility_schema.py:152-186 | The loop over the surfaces collects the specified violations and domains |
| `VisibilityConsistency.ConsistencyExact` | runtime/governance/visibility_schema.py:152-186 | The record allows exactly the nonempty lists in which every surface has good fixed fields and only canonical or blank keys; the type and version comparisons never decide |
| `ConsistencyContents.RecordExactly` | runtime/governance/visibility_schema.py:152-200 | The record over any values counts the dictionaries among them, is allowed exactly when there is one and all are unremarkable, gives a reason exactly when it is not, and lists the stripped operation domains once each in ascending order |
| `ConsistencyContents.SortedSetExactly` | runtime/governance/visibility_schema.py:152-200 | A sorted set has every value once, in the order of their characters |
| `VisibilityConsistency.NothingReportedExact` | runtime/governance/visibility_schema.py:99-149 | The schema check of a surface reports nothing exactly for good fixed fields and keys that are canonical or blank: blank keys are the only faults that de-duplication hides |
| `VisibilityConsistency.DisagreementExact` | runtime/governance/visibility_schema.py:99-186 | The record and the schema checks disagree about a nonempty list exactly when all fixed fields are good, all other keys are canonical or blank, and some blank key occurs; the record then allows |
| `VisibilityConsistency.BlankKeyDisagreement` | runtime/governance/visibility_schema.py:137-147 | A surface whose one fault is a whitespace key fails its own schema check and is allowed by the consistency record |
| `VisibilityConsistency.ConsistencyAssertionNeverFires` | runtime/governance/visibility_schema.py:187-200 | The builder's assertion about its own record never fires, whatever the surfaces are |
| `SemanticPurity.CollectBlocked` | runtime/governance/semantic_purity_diagnostics.py:225-232 | The nested loops collect the specified entries or raise at the first value that cannot be iterated |
| `SemanticPurity.PurityVerdictExact` | runtime/governance/semantic_purity_diagnostics.py:59-70 | The record says allowed exactly when every diagnostic does and none lists a nonblank blocked field |
| `PurityContents.RaisesExactly` | runtime/governance/semantic_purity_diagnostics.py:225-232 | The builder raises exactly for a `blocked_fields` value that cannot be iterated over |
| `PurityContents.RecordExactly` | runtime/governance/semantic_purity_diagnostics.py:47-115 | The record is allowed exactly when every diagnostic of every group is allowed and lists nothing readable; each group has its own flag, set exactly when one of its diagnostics is refused; the fixed flags are what they should be |
| `PurityContents.ProjectionExactly` | runtime/governance/semantic_purity_diagnostics.py:21-44 | A projection says that it holds no content values, where content was suppressed, what other paths there are, and which receipts it refers to |
| `SemanticPurity.PurityAssertionExact` | runtime/governance/semantic_purity_diagnostics.py:77-115 | The builder's assertion fires exactly for a supplied projection with a content or authority key, whatever the diagnostics say |
| `SemanticPurity.PurityAssertionNeverFires` | runtime/governance/semantic_purity_diagnostics.py:21-115 | It never fires for a projection made by the projection builder, or for none |
| `PlannerGovernanceBoundary.BlockedKeysNone` | planner/governance_boundary.py:166-176 | No key is blocked exactly when every nonempty key is planner-visible and carries no authority |
| `PlannerGovernanceBoundary.AcceptedExactly` | planner/governance_boundary.py:146-219 | Governance metadata is accepted exactly when there is none, or when all its keys are visible to the planner, it says it is safe and not reinterpreted, and it may be attached there |
| `PlannerGovernanceBoundary.MarkersExactly` | planner/governance_boundary.py:291-300 | A key is about governance, or about diagnostics, exactly when one of the marker words stands in it, in any case, with one key excepted |
| `PlannerGovernanceBoundary.BuiltSurfaceAccepted` | planner/governance_boundary.py:146-219 | Whatever fields and target the surface builder was given, a surface it returns is accepted as planner-visible metadata |
| `GovernanceWalk.FindMutations` | planner/governance_boundary.py:222-275 | The recursive search returns the specified findings, or raises where the specification does |
| `GovernanceWalk.RaisesExactly` | planner/governance_boundary.py:256-261 | The search raises exactly when it reaches unacceptable `governance_visibility` metadata |
| `GovernanceWalk.FindingsExact` | planner/governance_boundary.py:222-275 | If it does not raise, it returns nothing exactly when no key outside `governance_visibility` subtrees is a governance or diagnostic marker: the scope flag and semantic keys never decide |
| `GovernanceWalk.MarkerMeansVisibility` | planner/governance_boundary.py:278-288 | Once nothing is found, the marker test is true exactly for a reached `governance_visibility` key |
| `PlannerGovernanceBoundary.MutationFreeExact` | planner/governance_boundary.py:109-143 | A payload is accepted exactly when it is unmarked and its metadata acceptable, and `metadata_visible` then means a reached `governance_visibility` key |
| `PlannerGovernanceBoundary.AssertNoMutation` | planner/governance_boundary.py:109-143 | The assertion returns exactly for unmarked payloads with acceptable metadata, and reports visible metadata exactly when it reached some |
| `RetrievalLineage.ValidateLineage` | runtime/artifacts/external_retrieval_lineage.py:58-160 | The lineage validator's loop reports the specified errors |
| `RetrievalLineage.ItemsGood` | runtime/artifacts/external_retrieval_lineage.py:74-160 | A lineage list is accepted exactly when every item has its types, texts, index, objects, steps and False flags |
| `RetrievalLineage.BuiltItemExact` | runtime/artifacts/external_retrieval_lineage.py:26-55 | The builder's item is accepted exactly for nonblank ids, a natural index and two objects |
| `RetrievalLineage.StepsExactly` | runtime/artifacts/external_retrieval_lineage.py:58-160 | Normalisation steps are accepted exactly as a nonempty list of strings that are not blank |
| `ExternalSearch.ProblemsExact` | runtime/artifacts/external_search.py:227-333 | The result-set validator reports no error exactly for the valid result sets |
| `ExternalSearch.ValidateResultSet` | runtime/artifacts/external_search.py:227-333 | The validator that appends to its error list reports the specified errors, and none exactly for the valid result sets |
| `ExternalSearchMerge.MergeResultSets` | runtime/artifacts/external_search.py:123-224 | The merge loop, its three limits, its early stop and its failure on explicit `None` refs compute the specification |
| `MergeRefinement.MergedRaw` | runtime/artifacts/external_search.py:154-190 | Merged raw results are the first `max_total_results` of the concatenated per-set prefixes of the valid sets among the first `max_result_sets` |
| `MergeRefinement.MergeRaisesExactly` | runtime/artifacts/external_search.py:189-193 | The merge raises exactly when a valid set with explicit `None` receipt refs is reached while there is room for more results |
| `MergeOrigins.MergeIsTraced` | runtime/artifacts/external_search.py:172-205 | The recorded index ranges tile the output in order, come from ever later valid sets, and each names the exact prefix of results and lineage it gave |
| `MergeOrigins.SameOrigin` | runtime/artifacts/external_search.py:172-188 | Each merged result and the lineage beside it come from the same position of the same input set |
| `MergeAlignment.InStepExactly` | runtime/artifacts/external_search.py:172-188 | Merged source refs or citations are never more than the merged results; there are as many, each beside its own result, exactly when every valid input set reached with room left has one for each result it gives, the least of its number, the per-set limit and the room |
| `MergeAlignment.BlockPlacedExactly` | runtime/artifacts/external_search.py:172-188 | The entries of one contributing set form one block, which begins where its results begin exactly when every set that gives results before it has one for each of them, and earlier otherwise |
| `MergeAlignment.ContributorsExactly` | runtime/artifacts/external_search.py:155-209 | The input records are those of the valid sets reached with room left, each with the least of its number of results, the per-set limit and the room |
| `MergeAlignment.CoveredSetsStayInStep` | runtime/artifacts/external_search.py:172-188 | They stay in step when no valid input set has fewer of them than results |
| `MergeAlignment.MisalignedWitness` | runtime/artifacts/external_search.py:172-188 | A set without source refs before one with a ref puts that ref beside the wrong result |
| `MergeClosure.MergedValidates` | runtime/artifacts/external_search.py:207-224 | Whatever the inputs and limits, a merge that returns validates without errors exactly when its search id is not blank |
| `MergeClosure.UnboundMerge` | runtime/artifacts/external_search.py:123-224 | A merge that no limit binds returns all results of its valid sets |
| `MergeClosure.RegroupedMerge` | runtime/artifacts/external_search.py:123-224 | When no limit binds, merging the merges of groups gives the same results as merging all sets at once |
| `MergeBookkeeping.MergedListsExactly` | runtime/artifacts/external_search.py:147-224 | Results, source refs, citations and lineage of a merge are the shares of exactly the valid sets reached with room left, one set after the other |
| `MergeBookkeeping.MergedReceiptsExactly` | runtime/artifacts/external_search.py:189-224 | The receipt refs of a merge are the stripped readable receipt texts of exactly those sets, in input order; its provenance has each of them once |
| `MergeBookkeeping.MergedMetadataExactly` | runtime/artifacts/external_search.py:149-224 | The merge metadata has one record for each of those sets, with its type, search id, query, share and range, and the reason of every set that was skipped or cut, each reason once |
| `MergeBookkeeping.MergedHeadExactly` | runtime/artifacts/external_search.py:207-224 | A merge carries the stripped search id and its own query, and claims no call, no cost and no rejected results |
| `MergeBookkeeping.MissingSetsExactly` | runtime/artifacts/external_search.py:136-145 | Anything but a list of sets merges to an empty artifact that says so |
| `ExecutionReceipt.ReceiptExact` | runtime/artifacts/external_search_execution_receipt.py:128-218 | The receipt validator reports no error exactly for the good receipts: every part well-formed and no forbidden key anywhere in the whole dictionary |
| `ExecutionReceipt.ValidateReceipt` | runtime/artifacts/external_search_execution_receipt.py:128-218 | The validator that appends to its error list reports the specified errors, none exactly for the good receipts, and raises exactly for a state that cannot be hashed |
| `ExecutionReceipt.HashableExactly` | runtime/artifacts/external_search_execution_receipt.py:128-218 | A state can be looked up in a set exactly when it is no list or dictionary and has none in its tuples |
| `ExecutionReceipt.ContentExact` | runtime/artifacts/external_search_execution_receipt.py:517-529 | The content walk reports nothing exactly when no key lowers to a forbidden name at any depth |
| `ExecutionReceipt.KelvinSignSeen` | runtime/artifacts/external_search_execution_receipt.py:517-529 | A forbidden name is recognised when a capital or a Kelvin sign lowers to it |
| `ReceiptBuilder.ForbiddenOnlyInOpenParts` | runtime/artifacts/external_search_execution_receipt.py:128-218 | In a receipt that passes the other tests forbidden keys occur exactly when they occur below the authorization record, the failure reasons, the error class, the creation time or unknown fields |
| `ReceiptBuilder.SafeAuthorizationExact` | runtime/artifacts/external_search_execution_receipt.py:434-458 | The filtered authorization record is complete and free of content exactly when the given one has the seven required keys and no kept value hides a forbidden key |
| `ReceiptBuilder.BuiltReceiptExact` | runtime/artifacts/external_search_execution_receipt.py:75-125 | Every built receipt is accepted exactly for a known state, readable times, failure details that fit the state and a recordable authorization |
| `ProviderReceipts.DetailsExactly` | runtime/artifacts/external_search_execution_receipt.py:461-498 | Whatever is passed as timing, bounds and counts, the receipt keeps natural numbers, stripped texts and flags, each under its own name, and defaults for the rest |
| `ProviderReceipts.FailureExactly` | runtime/artifacts/external_search_execution_receipt.py:501-514 | The failure of a receipt has a boolean, the stripped readable reasons of a list and a readable error class |
| `ProviderExecution.NormalizeRequest` | runtime/adapters/external_search_provider_execution.py:468-498 | The clamped maximum is at least 1 and, for positive contract and configuration limits, at most both |
| `ProviderReceipts.RequestExactly` | runtime/adapters/external_search_provider_execution.py:468-498 | The provider is asked for the least of the limits that apply, one at least, with the stripped query and the policies as they are |
| `ProviderExecution.Normalize` | runtime/adapters/external_search_provider_execution.py:350-408 | The normalising loop computes the specified response |
| `ProviderExecution.ResponseAligned` | runtime/adapters/external_search_provider_execution.py:350-408 | A response holds at most the requested number of results; results, refs, citations and accepted lineage run in parallel with rising indexes, and every looked-at item is kept or rejected |
| `ProviderResults.ResponseExactly` | runtime/adapters/external_search_provider_execution.py:350-408 | Of the first items of a reply exactly those without a readable url or title are rejected; every other one gives one result with its title, url, id, snippet and date each under its own name, and a ref, a citation and a lineage item of the same item and place |
| `ProviderExecution.DisabledExactly` | runtime/adapters/external_search_provider_execution.py:501-533 | There is no reason against execution exactly when everything is in place |
| `ProviderExecution.ExecuteProvider` | runtime/adapters/external_search_provider_execution.py:198-347 | The provider is called once, with the clamped request, exactly when nothing speaks against it, and never otherwise; outcome and receipt are the specified ones |
| `ProviderExecution.EveryOutcomeReceipted` | runtime/adapters/external_search_provider_execution.py:579-690 | Whatever the provider does, the receipt is built for a nonblank search id and accepted exactly for a recordable authorization and, after an exception, a nonblank class name |
| `ProviderReceipts.ReasonsExactly` | runtime/adapters/external_search_provider_execution.py:501-533 | Every closed gate of an execution gives its reason, each reason once, and nothing else does |
| `ProviderReceipts.DescribedExactly` | runtime/adapters/external_search_provider_execution.py:249-347 | An execution that was called and answered counts as completed exactly when one of the items considered is usable; else it says why it failed or was not called |
| `ProviderReceipts.ReceiptTellsExactly` | runtime/adapters/external_search_provider_execution.py:579-690 | The receipt identifies the search and the provider and gives the outcome, bounds, counts, times, reasons and error of that very execution |
| `OperationalControls.UpsertTarget` | runtime/governance/operational_controls.py:605-626 | The search-or-append loop computes the specified update in place of the first match |
| `OperationalControls.ControlStore.Write` | runtime/governance/operational_controls.py:311-357 | The assignments of a change give exactly the specified new state |
| `OperationalControls.ControlStore.DecideProvider` | runtime/governance/operational_controls.py:98-154 | The evaluation with its search loop gives the specified decision about a provider |
| `OperationalControls.ControlStore.DecideUser` | runtime/governance/operational_controls.py:157-233 | The evaluation with its search loop gives the specified decision about a user |
| `ControlDecisions.ProviderDecidedExactly` | runtime/governance/operational_controls.py:98-154 | The first entry for a provider decides by its stored state text and its expiry as the clock reads it, without an entry the default state; no id and no control are refused |
| `ControlDecisions.UserDecidedExactly` | runtime/governance/operational_controls.py:157-233 | The same for users, with quotas, and with the legacy store for those without an entry |
| `ControlDecisions.ProviderAllowedExactly` | runtime/governance/operational_controls.py:98-154 | A provider is allowed exactly when its first entry says "allowed" with no expiry or one still to come, or when it has none and the default says so |
| `ControlDecisions.UserAllowedExactly` | runtime/governance/operational_controls.py:157-233 | The same for users, where the legacy store allows those without an entry |
| `ControlDecisions.BinaryDecidedExactly` | runtime/governance/operational_controls.py:417-469 | Cloud or tavily execution is on exactly when the control says "enabled" with no expiry or one still to come |
| `ControlDecisions.ReceiptExactly` | runtime/governance/operational_controls.py:236-284 | A change receipt gives the previous state of the control, the request, the operator, the target, the expiry and the usable quota |
| `ControlDecisions.ReasonExactly` | runtime/governance/operational_controls.py:311-357 | A change writes the given reason, stripped, and keeps the old one when none is given |
| `OperationalControls.ApplyChange` | runtime/governance/operational_controls.py:311-371 | A change returns a changed fresh copy and its receipt exactly when operator and state are not blank; the input state is not written |
| `ControlHistories.ApplyHistory` | runtime/governance/operational_controls.py:311-371 | Applying a list of changes one by one gives the state of the specification and leaves the first state as it was |
| `ControlHistories.UpsertFinds` | runtime/governance/operational_controls.py:605-626 | After an upsert first-match lookup finds the normalised state with a sticky expiry for the id, and the old grant for every other id |
| `ControlHistories.HistoryRepresents` | runtime/governance/operational_controls.py:605-626 | After any list of changes first-match lookup in the entry list is lookup in the map replaying the changes |
| `ControlHistories.ProviderHistoryRefinesMap` | runtime/governance/operational_controls.py:98-154 | After any history the decision about any provider is that of the map, for every clock |
| `ControlHistories.UserHistoryRefinesMap` | runtime/governance/operational_controls.py:157-233 | The same for users with quotas, including legacy users under a blocking default |
| `ControlHistories.LastStateWins` | runtime/governance/operational_controls.py:605-626 | The last change to an id decides its normalised state |
| `ControlHistories.LastDefaultWins` | runtime/governance/operational_controls.py:311-357 | The last change without a target decides the default, by which unknown ids are decided, and no change touches the operator it names |
| `ControlHistories.LastExpirySticks` | runtime/governance/operational_controls.py:623-624 | The last expiry supplied for an id sticks however often its state changes afterwards |
| `ControlHistories.ReallowedStaysExpired` | runtime/governance/operational_controls.py:129-138 | Allowing an expired provider again without a new expiry leaves it blocked |
| `ControlHistories.AllowingTakesEffectExactly` | runtime/governance/operational_controls.py:311-371 | A change makes its target allowed exactly when it asks for that and the supplied expiry, or else the stored one, has not passed |
| `SwitchHistories.SwitchHistoryExact` | runtime/governance/operational_controls.py:417-469 | After any list of changes the decision about cloud or tavily execution is that of the switch replaying them, whatever the clock |
| `SwitchHistories.LastSwitchWins` | runtime/governance/operational_controls.py:311-357 | The last change of such a control decides state and operator, and the last supplied expiry sticks |
| `SwitchHistories.EnablingTakesEffectExactly` | runtime/governance/operational_controls.py:311-371 | A change turns such a control on exactly when it asks for that and the supplied expiry, or else the stored one, has not passed |
| `ControlHistories.OtherControlsKept` | runtime/governance/operational_controls.py:335-357 | A history leaves every control it does not name as it was |
| `ControlHistories.ReceiptEffectiveExact` | runtime/governance/operational_controls.py:359-371 | The receipt's effective state equals the stored one exactly when the requested state is one the control knows |
| `ControlHistories.ReceiptEffectiveWitness` | runtime/governance/operational_controls.py:669-673 | A request for "on" is recorded as effective and stored as disabled |
| `StopAsking.Evaluate` | runtime/governance/stop_asking.py:181-242 | The evaluation loop with its seen flags computes the specified decision |
| `StopAsking.PolicyStore.Create` | runtime/governance/stop_asking.py:104-145 | Creation appends the specified policy, or changes nothing when it is refused |
| `StopAsking.PolicyStore.Revoke` | runtime/governance/stop_asking.py:148-178 | Revocation marks the first record with the id and says whether there was one |
| `StopAsking.PolicyStore.EvaluateContext` | runtime/governance/stop_asking.py:181-242 | The store decides about the normalised context from all its records |
| `StopAskingScopes.DecidedExactly` | runtime/governance/stop_asking.py:181-242 | The decision about a supplied context: governance other than "enabled" asks, the first suppressing record is cited with its expiry, and without one the reasons say whether one that applies has expired or was revoked |
| `StopAskingScopes.ContextSuppressedExactly` | runtime/governance/stop_asking.py:181-242 | Asking is suppressed exactly when governance reads "enabled" and some record is of this contract, enabled, not revoked, unexpired, and has a scope all of whose texts the context has too |
| `StopAskingScopes.DifferingPolicyNeverCited` | runtime/governance/stop_asking.py:460-466 | One differing scope field is enough for a policy never to be cited |
| `StopAskingScopes.EmptyContextAsks` | runtime/governance/stop_asking.py:449-466 | A context without any text is never suppressed |
| `StopAskingRuns.SuppressedExactly` | runtime/governance/stop_asking.py:181-242 | Asking is suppressed exactly when governance is enabled and an active matching policy exists |
| `StopAskingRuns.RunGrown` | runtime/governance/stop_asking.py:104-178 | Over any run no record is lost or altered except by revocation, and `revoked` never resets |
| `StopAskingRuns.NeverMoreSuppressed` | runtime/governance/stop_asking.py:148-242 | Revocations and the passing of time never turn an unsuppressed context into a suppressed one |
| `StopAskingRuns.RevocationSilencesExactly` | runtime/governance/stop_asking.py:159-173 | A revocation silences its id exactly when every further record with that id was revoked before |
| `StopAskingRuns.RevokedIdNeverCitedAgain` | runtime/governance/stop_asking.py:395-428 | With a unique id a successful revocation means the id is never cited again over any run that does not create it anew |
| `StopAskingRuns.DuplicateSurvivesRevocation` | runtime/governance/stop_asking.py:139-173 | The same request twice makes two records with one id, and revoking it leaves it in force |
| `ExecutionContainment.ReplacementClean` | runtime/execution_containment.py:7-24 | The replacement text contains none of the leak markers |
| `ContainmentLeaks.LeaksExactly` | runtime/execution_containment.py:52-60 | A value leaks exactly when it is a text in which one of the six markers stands somewhere, in any case |
| `ExecutionContainment.ContainedExact` | runtime/execution_containment.py:114-150 | After containment the shown text never leaks; only a leaking `response` beside a harmless `text` of an otherwise unflagged result gets through |
| `ExecutionContainment.ContainedTwice` | runtime/execution_containment.py:114-150 | A second containment changes nothing but `leak_markers_detected`, and that only when a flag asks for it again |
| `ExecutionContainment.ContainResult` | runtime/execution_containment.py:114-150 | The step-by-step rewrite of the copied result is the specified containment, and its shown text never leaks |
| `ExecutionContainment.CollectControls` | runtime/execution_containment.py:181-204 | The recursion over nested control dictionaries collects the specified names, each once and in order |
| `RuntimeManager.Runtime.ExecuteWithFallbacks` | runtime/runtime_manager.py:62-185 | The engine loop makes exactly the specified calls, events and attempts, and returns the specified outcome |
| `FallbackProtocol.StreamExactly` | runtime/runtime_manager.py:86-185 | The event stream is empty, or one start and failed rounds ending in a completed round or the failed stop, exactly when no tried engine returned a model without a text |
| `FallbackProtocol.HalfResultWitness` | runtime/runtime_manager.py:115-138 | A lone engine that returns a model and no text is reported as completed and then as failed |
| `FallbackProtocol.FirstAnswerWins` | runtime/runtime_manager.py:83-165 | The result comes from the first engine that exists and answers, later ones are not called, and the attempts match the tried names entry by entry when no half result occurred |
| `FallbackProtocol.SilentLoop` | runtime/runtime_manager.py:97-113 | Without a callback nothing is reported |
| `ExecutionManager.ExecuteRequest` | runtime/execution_manager.py:27-119 | The request with its single retry computes the specified answer and calls |
| `ExecutionManager.RequestNeverLeaks` | runtime/execution_manager.py:52-110 | The raw response of a request never contains a leak marker, whatever the engines return |
| `ExecutionManager.SecondContainment` | runtime/execution_manager.py:59-62 | The manager's containment after that of the engine loop changes nothing but `leak_markers_detected` |
| `ExecutionManager.OneRecoveryPass` | runtime/execution_manager.py:76-110 | At most one recovery pass is made, only when needed, and it never calls the engine whose result was rejected nor a dry-run engine |
| `ExecutionManager.RecoveryEnginesExactly` | runtime/recovery_policy.py:15-47 | The recovery engines are the recovery order without the engine that failed and without dry-run engines |
| `ExecutionManager.RecoveryExactly` | runtime/execution_manager.py:52-119 | There is a second pass exactly when an artifact was wanted, the first pipeline result is empty and no provider was blocked; it runs over the recovery engines, and without any the first answer stays |
| `SemanticRetrieval.CollectTerms` | runtime/semantic_retrieval.py:136-145 | The loop with its seen set collects the pieces of the text once each, in order |
| `SemanticRetrieval.TermsGood` | runtime/semantic_retrieval.py:136-145 | Collected terms are nonempty runs of lower-case ASCII letters and digits |
| `SemanticMatches.PiecesExactly` | runtime/semantic_retrieval.py:136-145 | Splitting gives the longest runs of lower-case letters and digits, one piece for each, from left to right |
| `SemanticMatches.TermsExactly` | runtime/semantic_retrieval.py:136-145 | A term of a text is such a run of it in lower case |
| `SemanticMatches.JoinedTerms` | runtime/semantic_retrieval.py:96-98 | Joining tags or categories with spaces makes no terms and loses none |
| `SemanticRetrieval.Retrieve` | runtime/semantic_retrieval.py:33-88 | The retrieval loop, sort and cut compute the specified matches; no terms give none |
| `SemanticRetrieval.TopMatches` | runtime/semantic_retrieval.py:61-76 | The result is the first k of the matching entries, once each, sorted by rounded score descending and then by position |
| `SemanticMatches.MatchExactly` | runtime/semantic_retrieval.py:91-118 | An entry matches exactly when its text, a tag or a category has a query term; the match has the shared terms in query order, their rounded share as the score, and a reason for each part that has one of them |
| `SemanticMatches.RankedExactly` | runtime/semantic_retrieval.py:61-88 | The result is the first k of a ranking that holds exactly those matches, sorted by score and then position |
| `SemanticMatches.LimitExactly` | runtime/semantic_retrieval.py:129-133 | The number of results asked for is kept between one and five; no number means five |
| `SemanticRetrieval.PositionsBreakTies` | runtime/semantic_retrieval.py:68-74 | Positions only break ties: the ranking is that of the matches in entry order |
| `SemanticRetrieval.SmallerLimitIsPrefix` | runtime/semantic_retrieval.py:75-76 | A smaller limit returns a prefix of what a larger one returns |
| `SemanticRetrieval.NonMatchingEntriesIgnored` | runtime/semantic_retrieval.py:61-76 | Entries that match nothing can be inserted anywhere without changing the result |
| `SemanticRetrieval.RoundingExact` | runtime/semantic_retrieval.py:112-118 | Rounding to six places keeps different match counts apart exactly up to one million query terms |
| `ConversationContinuity.BuildContinuity` | runtime/conversation_continuity.py:48-87 | The pairing loop with its pending message computes the specified turns |
| `ConversationContinuity.FitTurnBudget` | runtime/conversation_continuity.py:90-103 | The backward budget loop computes the specified suffix |
| `ConversationContinuity.PairsExact` | runtime/conversation_continuity.py:61-81 | The pairs are exactly the user messages with the next message of either side when that is the assistant's; they are disjoint and in order |
| `ConversationContinuity.FittedExact` | runtime/conversation_continuity.py:90-103 | The kept suffix always has the last turn and is otherwise the longest within the budget |
| `ConversationContinuity.BudgetExact` | runtime/conversation_continuity.py:90-103 | The budget is kept exactly unless the last turn alone exceeds it |
| `ConversationContinuity.WithinBudget` | runtime/conversation_continuity.py:48-103 | For at least one turn and a thousand characters the result never exceeds either limit |
| `ConversationContinuity.BoundedBlank` | runtime/conversation_continuity.py:106-110 | Cutting a message never empties it: it is dropped exactly when it is blank |
| `ActionQueue.QueueFile.Load` | runtime/actions/queue.py:45-65 | Loading returns the readable records with the wanted status, in order, and raises exactly when a filter meets a value that is no dictionary |
| `ActionQueue.QueueFile.Update` | runtime/actions/queue.py:76-96 | An update rewrites the file with the first record of the id marked, or leaves it alone, and raises exactly when the search meets a value that is no dictionary first |
| `QueueLines.BreaksExactly` | runtime/actions/queue.py:51-51 | The ten characters at which `splitlines` ends a line |
| `QueueLines.LinesExactly` | runtime/actions/queue.py:51-51 | Splitting the file loses nothing: lines and breaks make up the text, no line has a break in it, and a carriage return before a newline ends no line of its own |
| `QueueLines.LoadedExactly` | runtime/actions/queue.py:45-65 | Loading returns the readable records of the lines that are not blank, with a status only those that have it, and raises exactly when a filter meets a value that is no dictionary |
| `QueueLines.UpdateExactly` | runtime/actions/queue.py:76-96 | The first value that has the id or is no dictionary decides: the file is written anew with the status and time of that record changed and nothing else, or stays as it is |
| `ActionQueue.RunRefines` | runtime/actions/queue.py:12-96 | Over any run of enqueue and update operations on records without U+0085, U+2028 and U+2029 the file loads as a list under append and first-id update |
| `ActionQueue.OneRecordExact` | runtime/actions/queue.py:39-65 | A record loads back exactly when its printed text has none of the three characters at which `splitlines` cuts |
| `QueueLosses.TextLoadsExactly` | runtime/actions/queue.py:39-65 | A file loads as exactly its records that are not cut, in order, if and only if no line that a cut record leaves can be read by itself |
| `QueueLosses.TextLoadsAs` | runtime/actions/queue.py:39-65 | Every file loads as what loads of each of its records, one after the other: the record itself, or the readable lines of a cut one |
| `QueueLosses.RunLoadsAs` | runtime/actions/queue.py:12-96 | What every run makes loadable, whatever is cut and whatever the fragments read as |
| `QueueLosses.ReadableFragmentWitness` | runtime/actions/queue.py:45-82 | A record cut around the number 1 loads as that number; filtering by a status then raises, and so does every update |
| `QueueLosses.RunLoadsExactly` | runtime/actions/queue.py:12-96 | Over every run whose cut records leave no readable line the file loads as the list under append and first-id update, except that a record is lost when it is written cut |
| `QueueLosses.KeptAllExactly` | runtime/actions/queue.py:39-65 | No record is lost exactly when none is cut |

## Left out

- Message and detail texts of errors, skip reasons and diagnostics; errors keep their codes and fields.
- The rendered text of context items: only its word count and emptiness matter to the checks. Rejections of values of the wrong Python type in injection policies are not modelled.
- Fractional numbers in JSON values. Retrieval scores are rounded as exact fractions, not as binary floating-point numbers.
- `build_attachment_path_visibility_diagnostic`, `build_helper_boundary_visibility` and `build_substrate_leakage_visibility` of runtime/governance/semantic_purity_diagnostics.py, which repeat the pattern proved for the semantic purity record.
- The record of runtime/governance/visibility_isolation.py itself, which omits `observational_only` and so is no diagnostic surface.
- Sorting of blocked keys in planner refusals and the rest of the refusal record; only whether a payload is refused is stated.
- Case folding of letters outside ASCII, except where it matters: of these only U+212A (to `k`) and U+0130 (to `i` and a combining dot) lower to a text with an ASCII letter, and each lower-casing function treats those that can complete one of its names, markers or terms.
- Unknown keys of the nested dictionaries of a lineage item or result set, which no check reads and the merge copies.
- The order of errors within one nested record of an external search artifact, and of forbidden keys within one receipt; the order of the records is kept.
- Malformed queries and indexes of the retrieval, which return no matches.
- `GovernanceWalk.FindMutations`: does not say which of several unacceptable metadata values is reported when it raises.
- Loading of provider configurations, authorization decisions and search contracts from files; they are parameters of an execution.
- The receipt audit log and the loaders of operational controls and stop-asking policies; a store starts from the records it holds.
- Malformed or missing governance files of operational controls: the fail-closed decisions and the bootstrap decisions from environment flags.
- Unsupported control names: a change names one of the four controls. Control dictionaries that are not dictionaries are not modelled.
- Override receipts and operator diagnostics of stop-asking decisions, which copy the fields of the decision.
- The JSON instruction added to messages before an engine runs, and the metadata in the progress events.
- The response pipeline after the raw response: it is an arbitrary function of the raw response.
- Concurrent access to the queue file and the policy file.
- Which code and field name stand in each single check of the external search validators: they are taken over from the source once, and only whether a check fails is stated a second time.
