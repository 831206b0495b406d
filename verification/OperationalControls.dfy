/**
 Operational controls: evaluating them and changing them
 (runtime/governance/operational_controls.py). Control and entry dictionaries are records; a
 missing key reads as `Null`.
 */
module OperationalControls {
  import opened JsonValues
  import opened Text
  import opened Validation
  import opened Wrappers

  const ENABLED := "enabled"
  const DISABLED := "disabled"
  const ALLOWED := "allowed"
  const BLOCKED := "blocked"

  /** The quota fields of a dictionary, or something that is not a dictionary. */
  datatype QuotaValue = NoQuota | QuotaValue(maxRequests: Json, windowSeconds: Json, maxCost: Json)

  datatype Entry =
    | Foreign(value: Json)
    | Entry(id: Json, state: Json, operator: Json, expires: Json, quota: QuotaValue)

  datatype Binary = Binary(state: Json, operator: Json, expires: Json, reason: Json)

  /** An access control: its default and its entries, per provider or per user. */
  datatype Access = Access(state: Json, defaultState: Json, operator: Json, reason: Json, entries: seq<Entry>)

  const NEW_BINARY := Binary(Null, Null, Null, Null)
  const NEW_ACCESS := Access(Null, Null, Null, Null, [])

  datatype ControlName = Cloud | Tavily | Providers | Users

  /** The value of a whole state: each control may be missing. */
  datatype Controls = Controls(cloud: Option<Binary>, tavily: Option<Binary>, providers: Option<Access>,
                               users: Option<Access>)

  function BinaryState(v: Json): string {
    if SafeText(v) == Some(ENABLED) then ENABLED else DISABLED
  }

  /** `_required_access_state`. */
  function AccessState(v: Json): string {
    if SafeText(v) == Some(ALLOWED) then ALLOWED else BLOCKED
  }

  function NaturalOrNull(v: Json): Json {
    if v.Num? && v.n >= 0 then v else Null
  }

  /** `_quota`: the usable fields, or none. */
  function SafeQuota(q: QuotaValue): QuotaValue {
    if q.NoQuota? then NoQuota
    else
      var safe := QuotaValue(NaturalOrNull(q.maxRequests), NaturalOrNull(q.windowSeconds), NaturalOrNull(q.maxCost));
      if safe == QuotaValue(Null, Null, Null) then NoQuota else safe
  }

  /** The time of an evaluation; `parse` reads an expiry, `None` when it is malformed. */
  datatype Clock = Clock(now: int, parse: string -> Option<int>)

  /** `_expired`: a malformed expiry counts as expired. */
  predicate Expired(v: Json, clock: Clock) {
    SafeText(v).Some? &&
    var time := clock.parse(SafeText(v).value);
    time.None? || time.value <= clock.now
  }

  datatype Source =
    | ExplicitGovernance | ExpiredControl | ExplicitEntry | ExpiredEntry | DefaultState | LegacyStore | FailClosed
    | BadRequest

  datatype Decision = Decision(effective: string, allowed: bool, source: Source, operator: Option<string>,
                               expires: Option<string>, quota: QuotaValue, failClosed: bool)

  function BlockedDecision(effective: string, source: Source, operator: Option<string>, expires: Option<string>)
    : Decision
  {
    Decision(effective, false, source, operator, expires, NoQuota, true)
  }

  function AccessDecision(state: string, source: Source, operator: Option<string>, expires: Option<string>,
                          quota: QuotaValue): Decision
  {
    Decision(state, state == ALLOWED, source, operator, expires, quota, state != ALLOWED)
  }

  /** `_evaluate_binary_control` of a loaded state. */
  function EvaluateBinary(control: Option<Binary>, clock: Clock): Decision {
    if control.None? then BlockedDecision(DISABLED, FailClosed, None, None)
    else if Expired(control.value.expires, clock)
    then BlockedDecision(DISABLED, ExpiredControl, SafeText(control.value.operator), SafeText(control.value.expires))
    else
      var state := BinaryState(control.value.state);
      Decision(state, state == ENABLED, ExplicitGovernance, SafeText(control.value.operator),
               SafeText(control.value.expires), NoQuota, state != ENABLED)
  }

  predicate Matches(e: Entry, id: string) {
    e.Entry? && SafeText(e.id) == Some(id)
  }

  /** The first entry for an id: later ones are never looked at. */
  function Find(entries: seq<Entry>, id: string): (r: Option<Entry>)
    ensures r.Some? ==> r.value.Entry?
  {
    if entries == [] then None
    else if Matches(entries[0], id) then Some(entries[0])
    else Find(entries[1..], id)
  }

  method FindEntry(entries: seq<Entry>, id: string) returns (r: Option<Entry>)
    ensures r == Find(entries, id)
  {
    for i := 0 to |entries|
      invariant Find(entries, id) == Find(entries[i..], id)
    {
      if Matches(entries[i], id) {
        return Some(entries[i]);
      }
      assert entries[i..][1..] == entries[i + 1..];
    }
    r := None;
  }

  /** The part of an evaluation that looks at one entry. */
  function EntryDecision(e: Entry, control: Access, clock: Clock, withQuota: bool): Decision
    requires e.Entry?
  {
    if Expired(e.expires, clock) then BlockedDecision(BLOCKED, ExpiredEntry, SafeText(e.operator), SafeText(e.expires))
    else
      AccessDecision(AccessState(e.state), ExplicitEntry,
                     if SafeText(e.operator).Some? then SafeText(e.operator) else SafeText(control.operator),
                     SafeText(e.expires), if withQuota then SafeQuota(e.quota) else NoQuota)
  }

  function DefaultDecision(control: Access): Decision {
    AccessDecision(AccessState(control.defaultState), DefaultState, SafeText(control.operator), None, NoQuota)
  }

  /** `evaluate_provider_authorization_control` of a loaded state. */
  function EvaluateProvider(control: Option<Access>, providerId: Json, clock: Clock): Decision {
    if SafeText(providerId).None? then BlockedDecision(BLOCKED, BadRequest, None, None)
    else if control.None? then BlockedDecision(BLOCKED, FailClosed, None, None)
    else
      var found := Find(control.value.entries, SafeText(providerId).value);
      if found.Some? then EntryDecision(found.value, control.value, clock, false) else DefaultDecision(control.value)
  }

  /** `evaluate_telegram_user_access` of a loaded state. */
  function EvaluateUser(control: Option<Access>, userId: Json, legacyAllowed: bool, clock: Clock): Decision {
    if SafeText(userId).None? then BlockedDecision(BLOCKED, BadRequest, None, None)
    else if control.None? then BlockedDecision(BLOCKED, FailClosed, None, None)
    else
      var found := Find(control.value.entries, SafeText(userId).value);
      if found.Some? then EntryDecision(found.value, control.value, clock, true)
      else if legacyAllowed && AccessState(control.value.defaultState) == BLOCKED
      then Decision(ALLOWED, true, LegacyStore, SafeText(control.value.operator), None, NoQuota, false)
      else DefaultDecision(control.value)
  }

  /** One requested change. `expires` and `quota` are `None` when the caller leaves them out. */
  datatype Change = Change(control: ControlName, requested: Json, operator: Json, target: Json,
                           expires: Option<string>, quota: Option<QuotaValue>, reason: Option<string>)

  /** What an update of one entry writes. */
  datatype Update = Update(requested: Json, operator: string, expires: Option<string>, quota: Option<QuotaValue>)

  function Updated(e: Entry, u: Update): Entry
    requires e.Entry?
  {
    e.(state := Str(AccessState(u.requested)), operator := Str(u.operator),
       expires := if u.expires.Some? then TextOrNull(SafeString(u.expires.value)) else e.expires,
       quota := if u.quota.Some? then SafeQuota(u.quota.value) else e.quota)
  }

  function NewEntry(id: string): Entry {
    Entry(Str(id), Null, Null, Null, NoQuota)
  }

  /** `_upsert_target`. */
  function Upserted(entries: seq<Entry>, id: string, u: Update): seq<Entry> {
    if entries == [] then [Updated(NewEntry(id), u)]
    else if Matches(entries[0], id) then [Updated(entries[0], u)] + entries[1..]
    else [entries[0]] + Upserted(entries[1..], id, u)
  }

  method UpsertTarget(entries: seq<Entry>, id: string, u: Update) returns (r: seq<Entry>)
    ensures r == Upserted(entries, id, u)
  {
    for i := 0 to |entries|
      invariant Upserted(entries, id, u) == entries[..i] + Upserted(entries[i..], id, u)
    {
      if Matches(entries[i], id) {
        r := entries[i := Updated(entries[i], u)];
        assert entries[i..][0] == entries[i] && entries[i..][1..] == entries[i + 1..];
        assert r == entries[..i] + ([Updated(entries[i], u)] + entries[i + 1..]);
        return;
      }
      assert entries[i..][0] == entries[i] && entries[i..][1..] == entries[i + 1..];
      assert entries[..i + 1] == entries[..i] + [entries[i]];
    }
    assert entries[|entries|..] == [];
    r := entries + [Updated(NewEntry(id), u)];
  }

  function ChangedBinary(control: Option<Binary>, c: Change, operator: string): Binary {
    var current := if control.Some? then control.value else NEW_BINARY;
    current.(state := Str(BinaryState(c.requested)), operator := Str(operator),
             expires := if c.expires.Some? then TextOrNull(SafeString(c.expires.value)) else current.expires,
             reason := if c.reason.Some? then TextOrNull(SafeString(c.reason.value)) else current.reason)
  }

  function ChangedAccess(control: Option<Access>, c: Change, operator: string, quota: Option<QuotaValue>): Access {
    var current := if control.Some? then control.value else NEW_ACCESS;
    var reason := if c.reason.Some? then TextOrNull(SafeString(c.reason.value)) else current.reason;
    var id := SafeText(c.target);
    if id.None? then current.(defaultState := Str(AccessState(c.requested)), reason := reason)
    else current.(entries := Upserted(current.entries, id.value, Update(c.requested, operator, c.expires, quota)),
                  reason := reason)
  }

  /** The state after a change by `operator`. */
  function Changed(s: Controls, c: Change, operator: string): Controls {
    match c.control
    case Cloud => s.(cloud := Some(ChangedBinary(s.cloud, c, operator)))
    case Tavily => s.(tavily := Some(ChangedBinary(s.tavily, c, operator)))
    case Providers => s.(providers := Some(ChangedAccess(s.providers, c, operator, None)))
    case Users => s.(users := Some(ChangedAccess(s.users, c, operator, c.quota)))
  }

  /** Python's `a or b`. */
  function FirstValue(a: Json, b: Json): Json {
    if a in {Null, Bool(false), Num(0), Str("")} || (a.Arr? && a.items == []) || (a.Obj? && a.fields == []) then b
    else a
  }

  /** The state the control had, as the receipt reports it: that of the control, not of the target. */
  function PreviousState(s: Controls, control: ControlName): Json {
    match control
    case Cloud => if s.cloud.Some? then s.cloud.value.state else Null
    case Tavily => if s.tavily.Some? then s.tavily.value.state else Null
    case Providers => if s.providers.Some? then FirstValue(s.providers.value.state, s.providers.value.defaultState)
                      else Null
    case Users => if s.users.Some? then FirstValue(s.users.value.state, s.users.value.defaultState) else Null
  }

  datatype Receipt = Receipt(control: ControlName, previous: Option<string>, requested: string, effective: string,
                             operator: string, target: Option<string>, expires: Option<string>, quota: QuotaValue)

  /** The change does not raise: it names an operator and a state. */
  predicate Applicable(c: Change) {
    SafeText(c.operator).Some? && SafeText(c.requested).Some?
  }

  function ReceiptFor(s: Controls, c: Change): Receipt
    requires Applicable(c)
  {
    Receipt(c.control, SafeText(PreviousState(s, c.control)), SafeText(c.requested).value,
            SafeText(c.requested).value, SafeText(c.operator).value, SafeText(c.target),
            if c.expires.Some? then SafeString(c.expires.value) else None,
            if c.quota.Some? then SafeQuota(c.quota.value) else NoQuota)
  }

  /** A stored state, changed in place. */
  class ControlStore {
    var cloud: Option<Binary>
    var tavily: Option<Binary>
    var providers: Option<Access>
    var users: Option<Access>

    function Value(): Controls
      reads this
    {
      Controls(cloud, tavily, providers, users)
    }

    /** `deepcopy`. */
    constructor Copy(source: ControlStore)
      ensures Value() == source.Value()
    {
      cloud, tavily, providers, users := source.cloud, source.tavily, source.providers, source.users;
    }

    /** `evaluate_provider_authorization_control`. */
    method DecideProvider(providerId: Json, clock: Clock) returns (d: Decision)
      ensures d == EvaluateProvider(providers, providerId, clock)
    {
      if SafeText(providerId).None? {
        return BlockedDecision(BLOCKED, BadRequest, None, None);
      }
      if providers.None? {
        return BlockedDecision(BLOCKED, FailClosed, None, None);
      }
      var found := FindEntry(providers.value.entries, SafeText(providerId).value);
      if found.Some? {
        return EntryDecision(found.value, providers.value, clock, false);
      }
      d := DefaultDecision(providers.value);
    }

    /** `evaluate_telegram_user_access`. */
    method DecideUser(userId: Json, legacyAllowed: bool, clock: Clock) returns (d: Decision)
      ensures d == EvaluateUser(users, userId, legacyAllowed, clock)
    {
      if SafeText(userId).None? {
        return BlockedDecision(BLOCKED, BadRequest, None, None);
      }
      if users.None? {
        return BlockedDecision(BLOCKED, FailClosed, None, None);
      }
      var found := FindEntry(users.value.entries, SafeText(userId).value);
      if found.Some? {
        return EntryDecision(found.value, users.value, clock, true);
      }
      if legacyAllowed && AccessState(users.value.defaultState) == BLOCKED {
        return Decision(ALLOWED, true, LegacyStore, SafeText(users.value.operator), None, NoQuota, false);
      }
      d := DefaultDecision(users.value);
    }

    /** The assignments of a change to a store that may be written. */
    method Write(c: Change, operator: string)
      modifies this
      ensures Value() == Changed(old(Value()), c, operator)
    {
      match c.control
      case Cloud => cloud := Some(ChangedBinary(cloud, c, operator));
      case Tavily => tavily := Some(ChangedBinary(tavily, c, operator));
      case Providers =>
        var changed := ChangeAccess(providers, c, operator, None);
        providers := Some(changed);
      case Users =>
        var changed := ChangeAccess(users, c, operator, c.quota);
        users := Some(changed);
    }
  }

  method ChangeAccess(control: Option<Access>, c: Change, operator: string, quota: Option<QuotaValue>)
    returns (changed: Access)
    ensures changed == ChangedAccess(control, c, operator, quota)
  {
    changed := if control.Some? then control.value else NEW_ACCESS;
    var id := SafeText(c.target);
    if id.None? {
      changed := changed.(defaultState := Str(AccessState(c.requested)));
    } else {
      var entries := UpsertTarget(changed.entries, id.value, Update(c.requested, operator, c.expires, quota));
      changed := changed.(entries := entries);
    }
    if c.reason.Some? {
      changed := changed.(reason := TextOrNull(SafeString(c.reason.value)));
    }
  }

  /**
   `apply_operational_control_change`: a changed copy and a receipt, or nothing when it
   raises. The store it is given is not written.
   */
  method ApplyChange(state: ControlStore, c: Change) returns (changed: ControlStore?, receipt: Option<Receipt>)
    ensures state.Value() == old(state.Value())
    ensures Applicable(c) <==> changed != null
    ensures changed != null ==>
              fresh(changed) && changed.Value() == Changed(state.Value(), c, SafeText(c.operator).value)
    ensures receipt == if Applicable(c) then Some(ReceiptFor(state.Value(), c)) else None
  {
    changed, receipt := null, None;
    if Applicable(c) {
      var copy := new ControlStore.Copy(state);
      copy.Write(c, SafeText(c.operator).value);
      changed, receipt := copy, Some(ReceiptFor(state.Value(), c));
    }
  }
}
