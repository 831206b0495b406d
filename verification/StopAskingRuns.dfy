/** Safety of the stop-asking policies over whole runs of creations and revocations. */
module StopAskingRuns {
  import opened JsonValues
  import opened StopAsking
  import opened Text
  import opened Validation
  import opened Wrappers

  /** Asking is suppressed exactly when an active policy covers the context, with governance on. */
  lemma {:induction false} FirstActiveExact(records: seq<Policy>, context: Scope, now: int)
    ensures FirstActive(records, context, now).Some? <==>
              exists i :: 0 <= i < |records| && Active(records[i], context, now)
    ensures FirstActive(records, context, now).Some? ==>
              FirstActive(records, context, now).value in records
              && Active(FirstActive(records, context, now).value, context, now)
  {
    if records != [] {
      FirstActiveExact(records[1..], context, now);
      if i :| 0 <= i < |records| && Active(records[i], context, now) && i > 0 {
        assert records[1..][i - 1] == records[i];
      }
      if i :| 0 <= i < |records[1..]| && Active(records[1..][i], context, now) {
        assert records[i + 1] == records[1..][i];
      }
    }
  }

  lemma SuppressedExactly(records: seq<Policy>, context: Scope, now: int, governance: Json)
    ensures Evaluation(records, context, now, governance).suppressed <==>
              StateOr(governance) == ENABLED
              && exists i :: 0 <= i < |records| && Active(records[i], context, now)
  {
    FirstActiveExact(records, context, now);
  }

  datatype Operation = Create(creation: Creation) | Revoke(revocation: Revocation)

  function Step(records: seq<Policy>, op: Operation, hash: Identity -> string): seq<Policy> {
    match op
    case Create(c) => AfterCreation(records, c, hash)
    case Revoke(r) => AfterRevocation(records, r)
  }

  function Run(records: seq<Policy>, ops: seq<Operation>, hash: Identity -> string): seq<Policy> {
    if ops == [] then records
    else Step(Run(records, ops[..|ops| - 1], hash), ops[|ops| - 1], hash)
  }

  /** The same policy, at most revoked since. */
  ghost predicate SameOrRevoked(before: Policy, later: Policy) {
    || later == before
    || (Revoked(later)
        && later == before.(revoked := later.revoked, revokedBy := later.revokedBy, revokedAt := later.revokedAt))
  }

  /** Every record is still there, in its place, at most revoked since; new ones follow. */
  ghost predicate Grown(before: seq<Policy>, later: seq<Policy>) {
    |before| <= |later| && forall i :: 0 <= i < |before| ==> SameOrRevoked(before[i], later[i])
  }

  lemma {:induction false} RevokedFirstGrown(records: seq<Policy>, id: string, operator: string, at: int)
    ensures |RevokedFirst(records, id, operator, at)| == |records|
    ensures Grown(records, RevokedFirst(records, id, operator, at))
  {
    if records != [] && records[0].policyId != Str(id) {
      RevokedFirstGrown(records[1..], id, operator, at);
    }
  }

  lemma StepGrown(records: seq<Policy>, op: Operation, hash: Identity -> string)
    ensures Grown(records, Step(records, op, hash))
  {
    if op.Revoke? && Revocable(op.revocation) {
      RevokedFirstGrown(records, SafeText(op.revocation.policyId).value, OperatorId(op.revocation.revokedBy).value,
                        op.revocation.revokedAt);
    }
  }

  lemma GrownTransitive(a: seq<Policy>, b: seq<Policy>, c: seq<Policy>)
    requires Grown(a, b) && Grown(b, c)
    ensures Grown(a, c)
  {
    forall i | 0 <= i < |a| ensures SameOrRevoked(a[i], c[i]) {
      assert SameOrRevoked(a[i], b[i]) && SameOrRevoked(b[i], c[i]);
    }
  }

  /** Over any run no record is lost or altered except by being revoked, and `revoked` never resets. */
  lemma {:induction false} RunGrown(records: seq<Policy>, ops: seq<Operation>, hash: Identity -> string)
    ensures Grown(records, Run(records, ops, hash))
    ensures var later := Run(records, ops, hash);
            forall i :: 0 <= i < |records| && Revoked(records[i]) ==> i < |later| && Revoked(later[i])
  {
    if ops != [] {
      var init := ops[..|ops| - 1];
      RunGrown(records, init, hash);
      StepGrown(Run(records, init, hash), ops[|ops| - 1], hash);
      GrownTransitive(records, Run(records, init, hash), Run(records, ops, hash));
    }
    var later := Run(records, ops, hash);
    forall i | 0 <= i < |records| && Revoked(records[i]) ensures i < |later| && Revoked(later[i]) {
      assert SameOrRevoked(records[i], later[i]);
    }
  }

  predicate Suppressed(records: seq<Policy>, context: Scope, now: int) {
    exists i :: 0 <= i < |records| && Active(records[i], context, now)
  }

  predicate OnlyRevocations(ops: seq<Operation>) {
    forall i :: 0 <= i < |ops| ==> ops[i].Revoke?
  }

  lemma {:induction false} RevocationsKeepLength(records: seq<Policy>, ops: seq<Operation>, hash: Identity -> string)
    requires OnlyRevocations(ops)
    ensures |Run(records, ops, hash)| == |records|
  {
    if ops != [] {
      var n := |ops| - 1;
      assert forall i :: 0 <= i < n ==> ops[..n][i] == ops[i];
      RevocationsKeepLength(records, ops[..n], hash);
      var op := ops[n];
      if Revocable(op.revocation) {
        RevokedFirstGrown(Run(records, ops[..n], hash), SafeText(op.revocation.policyId).value,
                          OperatorId(op.revocation.revokedBy).value, op.revocation.revokedAt);
      }
    }
  }

  /** Revocations and the passing of time never turn an unsuppressed context into a suppressed one. */
  lemma NeverMoreSuppressed(records: seq<Policy>, ops: seq<Operation>, hash: Identity -> string, context: Scope,
                            now: int, later: int)
    requires OnlyRevocations(ops) && now <= later
    requires Suppressed(Run(records, ops, hash), context, later)
    ensures Suppressed(records, context, now)
  {
    var after := Run(records, ops, hash);
    RunGrown(records, ops, hash);
    RevocationsKeepLength(records, ops, hash);
    var i :| 0 <= i < |after| && Active(after[i], context, later);
    assert SameOrRevoked(records[i], after[i]);
    assert Active(records[i], context, now);
  }

  /** The id a decision would cite for a record. */
  function IdOf(p: Policy): Option<string> {
    SafeText(p.policyId)
  }

  /** Every record with the id is revoked. */
  ghost predicate Silenced(records: seq<Policy>, id: string) {
    forall i :: 0 <= i < |records| && IdOf(records[i]) == Some(id) ==> Revoked(records[i])
  }

  /** A silenced id is never cited, whatever the context and the time. */
  lemma SilencedNeverCited(records: seq<Policy>, id: string, context: Scope, now: int, governance: Json)
    requires Silenced(records, id)
    ensures Evaluation(records, context, now, governance).matchedId != Some(id)
  {
    FirstActiveExact(records, context, now);
    var found := FirstActive(records, context, now);
    if found.Some? {
      var i :| 0 <= i < |records| && records[i] == found.value;
      assert !Revoked(records[i]);
    }
  }

  /** No other record carries the id. */
  ghost predicate UniqueId(records: seq<Policy>, id: string) {
    forall i, j :: 0 <= i < j < |records| ==> !(IdOf(records[i]) == Some(id) && IdOf(records[j]) == Some(id))
  }

  /** Apart from the first record with exactly this id, every record carrying it is revoked. */
  ghost predicate OthersRevoked(records: seq<Policy>, id: string) {
    forall i :: 0 <= i < |records| && IdOf(records[i]) == Some(id) ==>
      Revoked(records[i])
      || (records[i].policyId == Str(id) && forall k :: 0 <= k < i ==> records[k].policyId != Str(id))
  }

  lemma {:induction false} RevokedFirstAt(records: seq<Policy>, id: string, operator: string, at: int, i: nat)
    requires i < |records| && |RevokedFirst(records, id, operator, at)| == |records|
    ensures var first := records[i].policyId == Str(id) && forall k :: 0 <= k < i ==> records[k].policyId != Str(id);
            RevokedFirst(records, id, operator, at)[i]
            == if first then MarkRevoked(records[i], operator, at) else records[i]
  {
    if records[0].policyId != Str(id) {
      if i > 0 {
        RevokedFirstGrown(records[1..], id, operator, at);
        RevokedFirstAt(records[1..], id, operator, at, i - 1);
        assert forall k :: 1 <= k < i ==> records[k] == records[1..][k - 1];
        assert forall k :: 0 <= k < i - 1 ==> records[1..][k] == records[k + 1];
      }
    } else if i > 0 {
      assert records[0].policyId == Str(id);
    }
  }

  /**
   A revocation silences its id exactly when every further record with that id was revoked
   before: it stops at the first match.
   */
  lemma RevocationSilencesExactly(records: seq<Policy>, r: Revocation)
    requires Revocable(r)
    ensures Silenced(AfterRevocation(records, r), SafeText(r.policyId).value) <==>
              OthersRevoked(records, SafeText(r.policyId).value)
  {
    var id, operator := SafeText(r.policyId).value, OperatorId(r.revokedBy).value;
    var after := AfterRevocation(records, r);
    RevokedFirstGrown(records, id, operator, r.revokedAt);
    forall i | 0 <= i < |records|
      ensures IdOf(after[i]) == IdOf(records[i])
      ensures Revoked(after[i]) <==>
                Revoked(records[i])
                || (records[i].policyId == Str(id) && forall k :: 0 <= k < i ==> records[k].policyId != Str(id))
    {
      RevokedFirstAt(records, id, operator, r.revokedAt, i);
    }
  }

  predicate Creates(op: Operation, id: string, hash: Identity -> string) {
    op.Create? && Creatable(op.creation) && IdOf(Created(op.creation, hash)) == Some(id)
  }

  /** Only a creation under the same id ends the silence. */
  lemma {:induction false} SilenceKept(records: seq<Policy>, ops: seq<Operation>, hash: Identity -> string, id: string)
    requires Silenced(records, id)
    requires forall i :: 0 <= i < |ops| ==> !Creates(ops[i], id, hash)
    ensures Silenced(Run(records, ops, hash), id)
  {
    if ops != [] {
      var n := |ops| - 1;
      assert forall i :: 0 <= i < n ==> ops[..n][i] == ops[i];
      SilenceKept(records, ops[..n], hash, id);
      StepSilence(Run(records, ops[..n], hash), ops[n], hash, id);
    }
  }

  lemma StepSilence(records: seq<Policy>, op: Operation, hash: Identity -> string, id: string)
    requires Silenced(records, id) && !Creates(op, id, hash)
    ensures Silenced(Step(records, op, hash), id)
  {
    StepGrown(records, op, hash);
    var after := Step(records, op, hash);
    if op.Revoke? && Revocable(op.revocation) {
      RevokedFirstGrown(records, SafeText(op.revocation.policyId).value, OperatorId(op.revocation.revokedBy).value,
                        op.revocation.revokedAt);
    }
    forall i | 0 <= i < |after| && IdOf(after[i]) == Some(id) ensures Revoked(after[i]) {
      if i < |records| {
        assert SameOrRevoked(records[i], after[i]);
      }
    }
  }

  /**
   With a unique id, a successful revocation means that the id is never cited again, in any
   context, at any time, over any run that does not create it anew.
   */
  lemma RevokedIdNeverCitedAgain(records: seq<Policy>, r: Revocation, ops: seq<Operation>, hash: Identity -> string,
                                 context: Scope, now: int, governance: Json)
    requires Revocable(r) && HasId(records, SafeText(r.policyId).value)
    requires UniqueId(records, SafeText(r.policyId).value)
    requires forall i :: 0 <= i < |ops| ==> !Creates(ops[i], SafeText(r.policyId).value, hash)
    ensures var later := Run(AfterRevocation(records, r), ops, hash);
            Evaluation(later, context, now, governance).matchedId != SafeText(r.policyId)
  {
    var id := SafeText(r.policyId).value;
    var i :| 0 <= i < |records| && records[i].policyId == Str(id);
    StripFacts(r.policyId.s);
    StripFacts(id);
    assert IdOf(records[i]) == Some(id);
    assert forall k :: 0 <= k < |records| && k != i ==> IdOf(records[k]) != Some(id);
    assert forall k :: 0 <= k < i ==> records[k].policyId != Str(id);
    RevocationSilencesExactly(records, r);
    SilenceKept(AfterRevocation(records, r), ops, hash, id);
    SilencedNeverCited(Run(AfterRevocation(records, r), ops, hash), id, context, now, governance);
  }

  lemma CreatedCovers(c: Creation, hash: Identity -> string)
    requires Creatable(c) && StateOr(c.state) == ENABLED
    ensures Covers(Created(c, hash), Normalized(c.scope))
  {
    NormalizedTwice(c.scope);
  }

  lemma SecondTakesOver(p: Policy, q: Policy, context: Scope, now: int)
    requires Revoked(p) && Active(q, context, now)
    ensures FirstActive([p, q], context, now) == Some(q)
  {
    assert [p, q][1..] == [q];
  }

  lemma FirstOfTwoRevoked(p: Policy, id: string, operator: string, at: int)
    requires p.policyId == Str(id)
    ensures RevokedFirst([p, p], id, operator, at) == [MarkRevoked(p, operator, at), p]
  {
    assert [p, p][1..] == [p];
  }

  /** The same request twice makes two records with one id: revoking it leaves it in force. */
  lemma DuplicateSurvivesRevocation(c: Creation, hash: Identity -> string, r: Revocation, now: int)
    requires Creatable(c) && StateOr(c.state) == ENABLED && c.expires.value > now
    requires Revocable(r) && Created(c, hash).policyId == Str(SafeText(r.policyId).value)
    ensures var twice := AfterCreation(AfterCreation([], c, hash), c, hash);
            var d := Evaluation(AfterRevocation(twice, r), Normalized(c.scope), now, Str(ENABLED));
            d.suppressed && d.matchedId == SafeText(r.policyId)
  {
    var p, operator := Created(c, hash), OperatorId(r.revokedBy).value;
    var id := SafeText(r.policyId).value;
    assert AfterCreation(AfterCreation([], c, hash), c, hash) == [p, p];
    FirstOfTwoRevoked(p, id, operator, r.revokedAt);
    CreatedCovers(c, hash);
    SecondTakesOver(MarkRevoked(p, operator, r.revokedAt), p, Normalized(c.scope), now);
    StripFacts(ENABLED);
    StripFacts(r.policyId.s);
    StripFacts(id);
  }

  lemma NormalizedTwice(scope: map<ScopeField, Json>)
    ensures Normalized(AsTexts(Normalized(scope))) == Normalized(scope)
  {
    var once := Normalized(scope);
    forall f | f in once ensures HasText(Str(once[f])) && SafeText(Str(once[f])).value == once[f] {
      StripFacts(scope[f].s);
      StripFacts(once[f]);
    }
  }
}
