/**
 When asking is suppressed, said about the stored policies and the supplied context as they are:
 which records count, how scopes are compared, and which record and reasons are cited.
 */
module StopAskingScopes {
  import opened JsonValues
  import opened StopAsking
  import opened Text
  import opened Validation
  import opened Wrappers

  type Fields = map<ScopeField, Json>

  /** The text of a field, stripped, if the map has one. */
  ghost function TextOf(fields: Fields, f: ScopeField): Option<string> {
    if f in fields then SafeText(fields[f]) else None
  }

  /** The scope has a text in some field, and in every such field the context has the same text. */
  ghost predicate Applies(scope: Fields, context: Fields) {
    && (exists f :: TextOf(scope, f).Some?)
    && forall f :: TextOf(scope, f).Some? ==> TextOf(context, f) == TextOf(scope, f)
  }

  /** An enabled record of this contract whose scope applies. */
  ghost predicate Concerns(p: Policy, context: Fields) {
    && p.contractId == Str("operator_stop_asking_policy_v1") && p.state == Str("enabled")
    && p.scope.Some? && Applies(p.scope.value, context)
  }

  ghost predicate StillRuns(p: Policy, now: int) {
    p.expires.Some? && now < p.expires.value
  }

  /** The record suppresses asking. */
  ghost predicate Suppresses(p: Policy, context: Fields, now: int) {
    Concerns(p, context) && p.revoked != Bool(true) && StillRuns(p, now)
  }

  lemma NormalizedExactly(scope: Fields, f: ScopeField)
    ensures f in Normalized(scope) <==> TextOf(scope, f).Some?
    ensures f in Normalized(scope) ==> TextOf(scope, f) == Some(Normalized(scope)[f])
  {
  }

  lemma ScopesCompared(scope: Fields, context: Fields)
    ensures ScopeMatches(Normalized(scope), Normalized(context)) <==> Applies(scope, context)
  {
    var s, c := Normalized(scope), Normalized(context);
    forall f
      ensures f in s <==> TextOf(scope, f).Some?
      ensures f in s ==> (f in c && c[f] == s[f] <==> TextOf(context, f) == TextOf(scope, f))
    {
      NormalizedExactly(scope, f);
      NormalizedExactly(context, f);
    }
    if s != map[] {
      var f :| f in s;
      assert TextOf(scope, f).Some?;
    }
  }

  lemma ActiveExactly(p: Policy, context: Fields, now: int)
    ensures Covers(p, Normalized(context)) <==> Concerns(p, context)
    ensures Active(p, Normalized(context), now) <==> Suppresses(p, context, now)
  {
    if p.scope.Some? {
      ScopesCompared(p.scope.value, context);
    }
  }

  /** The record suppresses asking and no earlier one does. */
  ghost predicate FirstSuppressing(records: seq<Policy>, context: Fields, now: int, k: nat) {
    && k < |records| && Suppresses(records[k], context, now)
    && forall j :: 0 <= j < k ==> !Suppresses(records[j], context, now)
  }

  ghost predicate NoneSuppresses(records: seq<Policy>, context: Fields, now: int) {
    forall j :: 0 <= j < |records| ==> !Suppresses(records[j], context, now)
  }

  lemma {:induction false} FirstOrNone(records: seq<Policy>, context: Fields, now: int) returns (k: nat)
    ensures || (FirstSuppressing(records, context, now, k)
                && FirstActive(records, Normalized(context), now) == Some(records[k]))
            || (NoneSuppresses(records, context, now) && FirstActive(records, Normalized(context), now).None?)
  {
    k := 0;
    if records != [] {
      ActiveExactly(records[0], context, now);
      if !Suppresses(records[0], context, now) {
        var rest := records[1..];
        var j := FirstOrNone(rest, context, now);
        assert forall i :: 1 <= i < |records| ==> records[i] == rest[i - 1];
        k := j + 1;
      }
    }
  }

  /** A record that would suppress asking if it had not run out. */
  ghost predicate RunOut(p: Policy, context: Fields, now: int) {
    Concerns(p, context) && p.revoked != Bool(true) && !StillRuns(p, now)
  }

  ghost predicate Withdrawn(p: Policy, context: Fields) {
    Concerns(p, context) && p.revoked == Bool(true)
  }

  /** Why nothing suppresses asking. */
  ghost function Excuses(records: seq<Policy>, context: Fields, now: int): seq<string> {
    ["stop_asking_policy_not_matched"]
    + (if exists i :: 0 <= i < |records| && RunOut(records[i], context, now)
       then ["matching_stop_asking_policy_expired"] else [])
    + (if exists i :: 0 <= i < |records| && Withdrawn(records[i], context)
       then ["matching_stop_asking_policy_revoked"] else [])
  }

  lemma ExcusesExactly(records: seq<Policy>, context: Fields, now: int)
    ensures Excuses(records, context, now)
         == ["stop_asking_policy_not_matched"]
            + Reason(ExpiredSeen(records, Normalized(context), now), "matching_stop_asking_policy_expired")
            + Reason(RevokedSeen(records, Normalized(context)), "matching_stop_asking_policy_revoked")
  {
    forall i | 0 <= i < |records|
      ensures Covers(records[i], Normalized(context)) <==> Concerns(records[i], context)
    {
      ActiveExactly(records[i], context, now);
    }
    if i :| 0 <= i < |records| && RunOut(records[i], context, now) {
      assert Covers(records[i], Normalized(context));
    }
    if i :| 0 <= i < |records| && Withdrawn(records[i], context) {
      assert Covers(records[i], Normalized(context));
    }
  }

  /**
   The decision about a context: with governance other than "enabled" asking is allowed and
   the state says why; else the first suppressing record is cited, with its expiry, and
   without one the reasons say whether a record that applies has expired or was revoked.
   */
  lemma DecidedExactly(records: seq<Policy>, context: Fields, now: int, governance: Json) returns (k: nat)
    ensures var d := ContextDecision(records, context, now, governance);
            var state := if HasText(governance) then SafeText(governance).value else "disabled";
            if state != "enabled" then d == Decision(false, state, None, None, ["stop_asking_governance_" + state])
            else if FirstSuppressing(records, context, now, k)
            then d == Decision(true, "enabled", SafeText(records[k].policyId), records[k].expires, [])
            else
              && NoneSuppresses(records, context, now)
              && d == Decision(false, "enabled", None, None, Excuses(records, context, now))
  {
    k := FirstOrNone(records, context, now);
    ExcusesExactly(records, context, now);
  }

  /** Asking is suppressed exactly when governance reads "enabled" and some record suppresses it. */
  lemma ContextSuppressedExactly(records: seq<Policy>, context: Fields, now: int, governance: Json)
    ensures ContextDecision(records, context, now, governance).suppressed <==>
              && SafeText(governance) == Some("enabled")
              && exists i :: 0 <= i < |records| && Suppresses(records[i], context, now)
  {
    var k := DecidedExactly(records, context, now, governance);
  }

  /** One field of the scope has a text that the context does not have there. */
  ghost predicate Differs(p: Policy, context: Fields, f: ScopeField) {
    p.scope.Some? && TextOf(p.scope.value, f).Some? && TextOf(context, f) != TextOf(p.scope.value, f)
  }

  /** One differing field is enough for a policy never to be cited, whatever the others say. */
  lemma DifferingPolicyNeverCited(records: seq<Policy>, context: Fields, now: int, governance: Json, id: string)
    requires forall i :: 0 <= i < |records| && SafeText(records[i].policyId) == Some(id) ==>
               exists f :: Differs(records[i], context, f)
    ensures ContextDecision(records, context, now, governance).matchedId != Some(id)
  {
    var k := DecidedExactly(records, context, now, governance);
  }

  /** A context without any text is never suppressed. */
  lemma EmptyContextAsks(records: seq<Policy>, context: Fields, now: int, governance: Json)
    requires forall f :: TextOf(context, f).None?
    ensures !ContextDecision(records, context, now, governance).suppressed
  {
    ContextSuppressedExactly(records, context, now, governance);
  }
}
