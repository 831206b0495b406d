/**
 Operator policies that stop the assistant from asking (runtime/governance/stop_asking.py).
 Time stamps are integers; an unreadable expiry is `None`.
 */
module StopAsking {
  import opened JsonValues
  import opened Text
  import opened Validation
  import opened Wrappers

  const CONTRACT_ID := "operator_stop_asking_policy_v1"
  const ENABLED := "enabled"
  const DISABLED := "disabled"

  datatype ScopeField = SourceBot | Agent | UserId | ActionType | WorkflowId | StepId

  type Scope = map<ScopeField, string>

  /** A stored policy dictionary; `scope` is `None` when it is not a dictionary. */
  datatype Policy = Policy(contractId: Json, policyId: Json, state: Json, scope: Option<map<ScopeField, Json>>,
                           createdBy: string, createdAt: int, expires: Option<int>, reason: Option<string>,
                           revoked: Json, revokedBy: Option<string>, revokedAt: Option<int>)

  /** `_normalize_scope`: the known fields with nonblank texts. */
  function Normalized(scope: map<ScopeField, Json>): Scope {
    map f | f in scope && HasText(scope[f]) :: SafeText(scope[f]).value
  }

  predicate ScopeMatches(policy: Scope, context: Scope) {
    policy != map[] && forall f :: f in policy ==> f in context && context[f] == policy[f]
  }

  /** `_operator_id`. */
  function OperatorId(v: Json): Option<string> {
    var text := SafeText(v);
    if text.Some? && "operator:" <= text.value then text else None
  }

  function StateOr(v: Json): string {
    if HasText(v) then SafeText(v).value else DISABLED
  }

  /** The policy is in force and its scope covers the context. */
  predicate Covers(p: Policy, context: Scope) {
    && p.contractId == Str(CONTRACT_ID) && p.state == Str(ENABLED)
    && p.scope.Some? && ScopeMatches(Normalized(p.scope.value), context)
  }

  predicate Revoked(p: Policy) {
    p.revoked == Bool(true)
  }

  predicate Unexpired(p: Policy, now: int) {
    p.expires.Some? && p.expires.value > now
  }

  /** The policy suppresses asking in this context now. */
  predicate Active(p: Policy, context: Scope, now: int) {
    Covers(p, context) && !Revoked(p) && Unexpired(p, now)
  }

  datatype Decision = Decision(suppressed: bool, state: string, matchedId: Option<string>, expires: Option<int>,
                               reasons: seq<string>)

  function FirstActive(records: seq<Policy>, context: Scope, now: int): Option<Policy> {
    if records == [] then None
    else if Active(records[0], context, now) then Some(records[0])
    else FirstActive(records[1..], context, now)
  }

  predicate ExpiredSeen(records: seq<Policy>, context: Scope, now: int) {
    exists i :: 0 <= i < |records| && Covers(records[i], context) && !Revoked(records[i])
                && !Unexpired(records[i], now)
  }

  predicate RevokedSeen(records: seq<Policy>, context: Scope) {
    exists i :: 0 <= i < |records| && Covers(records[i], context) && Revoked(records[i])
  }

  function Reason(applies: bool, reason: string): seq<string> {
    if applies then [reason] else []
  }

  /** `evaluate_stop_asking_policy` on loaded records. */
  function Evaluation(records: seq<Policy>, context: Scope, now: int, governance: Json): Decision {
    var state := StateOr(governance);
    if state != ENABLED then Decision(false, state, None, None, ["stop_asking_governance_" + state])
    else
      var found := FirstActive(records, context, now);
      if found.Some? then Decision(true, state, SafeText(found.value.policyId), found.value.expires, [])
      else
        Decision(false, state, None, None,
                 ["stop_asking_policy_not_matched"]
                 + Reason(ExpiredSeen(records, context, now), "matching_stop_asking_policy_expired")
                 + Reason(RevokedSeen(records, context), "matching_stop_asking_policy_revoked"))
  }

  method Evaluate(records: seq<Policy>, context: Scope, now: int, governance: Json) returns (d: Decision)
    ensures d == Evaluation(records, context, now, governance)
  {
    var state := StateOr(governance);
    if state != ENABLED {
      return Decision(false, state, None, None, ["stop_asking_governance_" + state]);
    }
    var expiredSeen, revokedSeen := false, false;
    for i := 0 to |records|
      invariant FirstActive(records, context, now) == FirstActive(records[i..], context, now)
      invariant expiredSeen <==> exists k :: 0 <= k < i && Covers(records[k], context) && !Revoked(records[k])
                                             && !Unexpired(records[k], now)
      invariant revokedSeen <==> exists k :: 0 <= k < i && Covers(records[k], context) && Revoked(records[k])
    {
      var p := records[i];
      assert records[i..][0] == p && records[i..][1..] == records[i + 1..];
      if Covers(p, context) {
        if Revoked(p) {
          revokedSeen := true;
        } else if !Unexpired(p, now) {
          expiredSeen := true;
        } else {
          return Decision(true, state, SafeText(p.policyId), p.expires, []);
        }
      }
    }
    var reasons := ["stop_asking_policy_not_matched"];
    if expiredSeen {
      reasons := reasons + ["matching_stop_asking_policy_expired"];
    }
    if revokedSeen {
      reasons := reasons + ["matching_stop_asking_policy_revoked"];
    }
    d := Decision(false, state, None, None, reasons);
  }

  /** `evaluate_stop_asking_policy` of a context as it is supplied. */
  function ContextDecision(records: seq<Policy>, context: map<ScopeField, Json>, now: int, governance: Json)
    : Decision
  {
    Evaluation(records, Normalized(context), now, governance)
  }

  /** What a policy id is computed from. */
  datatype Identity = Identity(scope: Scope, createdBy: string, createdAt: int, expires: int)

  /** A request to create a policy; `expires` is `None` when it cannot be read. */
  datatype Creation = Creation(scope: map<ScopeField, Json>, createdBy: Json, expires: Option<int>, createdAt: int,
                               state: Json, reason: Option<string>)

  predicate Creatable(c: Creation) {
    Normalized(c.scope) != map[] && OperatorId(c.createdBy).Some? && c.expires.Some?
  }

  function AsTexts(scope: Scope): map<ScopeField, Json> {
    map f | f in scope :: Str(scope[f])
  }

  /** The policy a request creates; `hash` makes its id. */
  function Created(c: Creation, hash: Identity -> string): Policy
    requires Creatable(c)
  {
    var operator, scope := OperatorId(c.createdBy).value, Normalized(c.scope);
    Policy(Str(CONTRACT_ID), Str(hash(Identity(scope, operator, c.createdAt, c.expires.value))),
           Str(StateOr(c.state)), Some(AsTexts(scope)), operator, c.createdAt, c.expires,
           if c.reason.Some? then SafeString(c.reason.value) else None, Bool(false), None, None)
  }

  /** A request to revoke the policy with an id. */
  datatype Revocation = Revocation(policyId: Json, revokedBy: Json, revokedAt: int)

  predicate Revocable(r: Revocation) {
    HasText(r.policyId) && OperatorId(r.revokedBy).Some?
  }

  function MarkRevoked(p: Policy, operator: string, at: int): Policy {
    p.(revoked := Bool(true), revokedBy := Some(operator), revokedAt := Some(at))
  }

  /** The records after the first one with the id is marked. */
  function RevokedFirst(records: seq<Policy>, id: string, operator: string, at: int): seq<Policy> {
    if records == [] then []
    else if records[0].policyId == Str(id) then [MarkRevoked(records[0], operator, at)] + records[1..]
    else [records[0]] + RevokedFirst(records[1..], id, operator, at)
  }

  predicate HasId(records: seq<Policy>, id: string) {
    exists i :: 0 <= i < |records| && records[i].policyId == Str(id)
  }

  function AfterRevocation(records: seq<Policy>, r: Revocation): seq<Policy> {
    if Revocable(r)
    then RevokedFirst(records, SafeText(r.policyId).value, OperatorId(r.revokedBy).value, r.revokedAt)
    else records
  }

  function AfterCreation(records: seq<Policy>, c: Creation, hash: Identity -> string): seq<Policy> {
    if Creatable(c) then records + [Created(c, hash)] else records
  }

  lemma RevokedFrom(records: seq<Policy>, i: nat, operator: string, at: int)
    requires i < |records|
    ensures records[i..][0] == records[i] && records[i..][1..] == records[i + 1..]
    ensures records[..i + 1] == records[..i] + [records[i]]
    ensures records[i := MarkRevoked(records[i], operator, at)]
         == records[..i] + ([MarkRevoked(records[i], operator, at)] + records[i + 1..])
  {
  }

  /** The search loop of a revocation. */
  method RevokeFirst(records: seq<Policy>, id: string, operator: string, at: int)
    returns (updated: seq<Policy>, found: bool)
    ensures updated == RevokedFirst(records, id, operator, at)
    ensures found <==> HasId(records, id)
  {
    for i := 0 to |records|
      invariant RevokedFirst(records, id, operator, at) == records[..i] + RevokedFirst(records[i..], id, operator, at)
      invariant forall k :: 0 <= k < i ==> records[k].policyId != Str(id)
    {
      RevokedFrom(records, i, operator, at);
      if records[i].policyId == Str(id) {
        return records[i := MarkRevoked(records[i], operator, at)], true;
      }
    }
    assert records[|records|..] == [];
    return records, false;
  }

  /** The policy file. */
  class PolicyStore {
    var records: seq<Policy>

    constructor ()
      ensures records == []
    {
      records := [];
    }

    /** `create_stop_asking_policy`. */
    method Create(c: Creation, hash: Identity -> string) returns (policy: Option<Policy>)
      modifies this
      ensures records == AfterCreation(old(records), c, hash)
      ensures policy == if Creatable(c) then Some(Created(c, hash)) else None
    {
      policy := None;
      if Creatable(c) {
        policy := Some(Created(c, hash));
        records := records + [policy.value];
      }
    }

    /** `revoke_stop_asking_policy`: it stops at the first record with the id. */
    method Revoke(r: Revocation) returns (found: bool)
      modifies this
      ensures records == AfterRevocation(old(records), r)
      ensures found <==> Revocable(r) && HasId(old(records), SafeText(r.policyId).value)
    {
      found := false;
      if Revocable(r) {
        var wanted, operator := SafeText(r.policyId).value, OperatorId(r.revokedBy).value;
        var updated;
        updated, found := RevokeFirst(records, wanted, operator, r.revokedAt);
        records := updated;
      }
    }

    method EvaluateContext(context: map<ScopeField, Json>, now: int, governance: Json) returns (d: Decision)
      ensures d == ContextDecision(records, context, now, governance)
    {
      d := Evaluate(records, Normalized(context), now, governance);
    }
  }
}
