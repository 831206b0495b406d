/** What the helper purity record says, said about the request it is about. */
module HelperContents {
  import opened HelperPurity
  import opened HelperRecords
  import opened JsonValues
  import opened Records
  import opened Sequences
  import opened Text
  import ValidatorSupport
  import opened Wrappers

  lemma HeadHas(r: Request, source: string, allowed: bool)
    ensures var head := HelperHead(r, source, allowed);
            && Field("allowed", Bool(allowed)) in head
            && Field("source", Str(if Blank(source) then "helper_purity" else Strip(source))) in head
  {
    var head := HelperHead(r, source, allowed);
    assert head[2] in head && head[7] in head;
  }

  /** The fixed flags: nothing hidden was done, and no authority was taken. */
  ghost predicate Harmless(fields: seq<Field>) {
    && Field("content_safe", Bool(true)) in fields && Field("observational_only", Bool(true)) in fields
    && Field("helper_semantic_authority", Bool(false)) in fields
    && Field("planner_semantic_authority", Bool(false)) in fields
    && Field("hidden_helper_routing_performed", Bool(false)) in fields
    && Field("helper_derived_planner_mutation_performed", Bool(false)) in fields
    && Field("hidden_visibility_attachment_performed", Bool(false)) in fields
    && Field("hidden_governance_injection_performed", Bool(false)) in fields
    && Field("hidden_context_injection_performed", Bool(false)) in fields
    && Field("memory_write_performed", Bool(false)) in fields
  }

  lemma FixedFlags(allowed: bool, leaked: bool)
    ensures Harmless(HelperFlags(allowed, leaked))
  {
    var flags := HelperFlags(allowed, leaked);
    assert flags[0] in flags && flags[1] in flags && flags[2] in flags && flags[3] in flags && flags[7] in flags;
    assert flags[8] in flags && flags[9] in flags && flags[10] in flags && flags[11] in flags && flags[12] in flags;
  }

  lemma FlagsHave(allowed: bool, leaked: bool)
    ensures var flags := HelperFlags(allowed, leaked);
            && Field("semantic_purity_preserved", Bool(allowed)) in flags
            && Field("helper_layer_cross_substrate_leakage_detected", Bool(leaked)) in flags
            && Field("fail_closed", Bool(!allowed)) in flags
  {
    var flags := HelperFlags(allowed, leaked);
    assert flags[5] in flags && flags[6] in flags && flags[13] in flags;
  }

  lemma OutcomeHas(allowed: bool, blocked: seq<string>, lineage: Json)
    ensures var outcome := HelperOutcome(allowed, blocked, lineage);
            && Field("blocked_fields", TextList(blocked)) in outcome
            && Field("skipped_reasons", TextList(if allowed then [] else ["helper_purity_violation"])) in outcome
  {
    var outcome := HelperOutcome(allowed, blocked, lineage);
    assert outcome[0] in outcome && outcome[1] in outcome;
  }

  lemma HarmlessWithin(some: seq<Field>, all: seq<Field>)
    requires Harmless(some) && forall f :: f in some ==> f in all
    ensures Harmless(all)
  {
  }

  /** What a record says of the verdict. */
  ghost predicate Reports(v: Json, allowed: bool, leaked: bool) {
    && v.Obj? && Harmless(v.fields)
    && Has(v, "allowed", Bool(allowed)) && Has(v, "semantic_purity_preserved", Bool(allowed))
    && Has(v, "fail_closed", Bool(!allowed))
    && Has(v, "helper_layer_cross_substrate_leakage_detected", Bool(leaked))
    && Has(v, "skipped_reasons", TextList(if allowed then [] else ["helper_purity_violation"]))
  }

  lemma RecordReports(r: Request, source: string, allowed: bool, blocked: seq<string>, lineage: Json,
                      crossed: Option<Json>)
    ensures Reports(HelperRecord(r, source, allowed, blocked, lineage, crossed), allowed, r.Crosses() && !allowed)
  {
    var head, flags := HelperHead(r, source, allowed), HelperFlags(allowed, r.Crosses() && !allowed);
    var outcome := HelperOutcome(allowed, blocked, lineage);
    HeadHas(r, source, allowed);
    FlagsHave(allowed, r.Crosses() && !allowed);
    OutcomeHas(allowed, blocked, lineage);
    FixedFlags(allowed, r.Crosses() && !allowed);
    forall f | f in head || f in flags || f in outcome
      ensures f in head + flags + (outcome + HelperNested(crossed))
    {
      InThree(f, head, flags, outcome + HelperNested(crossed));
    }
    HarmlessWithin(flags, head + flags + (outcome + HelperNested(crossed)));
  }

  /**
   The record of a check: it reports the request as allowed, and purity as preserved, exactly
   when the request is permitted, fails closed exactly when it is not, and detects leakage
   exactly for a request that crosses substrates and is not permitted.
   */
  lemma RecordExactly(r: Request, source: string)
    requires WellFormed(r.inputPayload) && WellFormed(r.outputPayload)
    ensures Reports(HelperRecords.ValidateHelperPurity(r, source), Permitted(r), r.Crosses() && !Permitted(r))
  {
    HelperPurityExact(r);
    RecordReports(r, source, Allowed(r), ValidatorSupport.Unique(Collected(r)), HelperLineage(r, source),
                  CrossRecord(r, source));
  }
}
