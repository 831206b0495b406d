/**
 What the operational controls decide, said about the stored dictionaries: the state text that
 is stored, the expiry text that is stored, and the time the clock reads it as.
 */
module ControlDecisions {
  import opened JsonValues
  import opened OperationalControls
  import opened Text
  import opened Validation
  import opened Wrappers

  /** There is no expiry, or it is read as a time that is still to come. */
  predicate InForce(expires: Option<string>, clock: Clock) {
    expires.None? || (clock.parse(expires.value).Some? && clock.parse(expires.value).value > clock.now)
  }

  ghost predicate Says(v: Json, text: string) {
    SafeText(v) == Some(text)
  }

  /** The entry is for this id and no earlier one is. */
  ghost predicate FirstFor(entries: seq<Entry>, id: string, k: nat) {
    && k < |entries| && entries[k].Entry? && Says(entries[k].id, id)
    && forall j :: 0 <= j < k && entries[j].Entry? ==> !Says(entries[j].id, id)
  }

  ghost predicate Unlisted(entries: seq<Entry>, id: string) {
    forall j :: 0 <= j < |entries| && entries[j].Entry? ==> !Says(entries[j].id, id)
  }

  lemma {:induction false} FindsFirst(entries: seq<Entry>, id: string, k: nat)
    ensures Unlisted(entries, id) <==> Find(entries, id).None?
    ensures FirstFor(entries, id, k) ==> Find(entries, id) == Some(entries[k])
  {
    if entries != [] {
      var rest := entries[1..];
      assert forall j :: 1 <= j < |entries| ==> entries[j] == rest[j - 1];
      assert forall j :: 0 <= j < |rest| ==> rest[j] == entries[j + 1];
      FindsFirst(rest, id, if k > 0 then k - 1 else 0);
      if FirstFor(entries, id, k) && k > 0 {
        assert !Matches(entries[0], id);
      }
    }
  }

  lemma {:induction false} FirstOrNone(entries: seq<Entry>, id: string) returns (k: nat)
    ensures FirstFor(entries, id, k) || Unlisted(entries, id)
  {
    k := 0;
    if entries != [] && !Matches(entries[0], id) {
      var rest := entries[1..];
      var j := FirstOrNone(rest, id);
      assert forall i :: 1 <= i < |entries| ==> entries[i] == rest[i - 1];
      k := j + 1;
    }
  }

  lemma OneFirst(entries: seq<Entry>, id: string, i: nat, k: nat)
    requires FirstFor(entries, id, i) && (FirstFor(entries, id, k) || Unlisted(entries, id))
    ensures i == k && FirstFor(entries, id, k)
  {
  }

  /** The numbers of a quota that can be used; a quota without any counts as none. */
  ghost predicate QuotaKept(q: QuotaValue, kept: QuotaValue) {
    if kept.NoQuota?
    then q.QuotaValue? ==> !Usable(q.maxRequests) && !Usable(q.windowSeconds) && !Usable(q.maxCost)
    else
      && q.QuotaValue? && (Usable(q.maxRequests) || Usable(q.windowSeconds) || Usable(q.maxCost))
      && kept.maxRequests == (if Usable(q.maxRequests) then q.maxRequests else Null)
      && kept.windowSeconds == (if Usable(q.windowSeconds) then q.windowSeconds else Null)
      && kept.maxCost == if Usable(q.maxCost) then q.maxCost else Null
  }

  ghost predicate Usable(v: Json) {
    v.Num? && v.n >= 0
  }

  /** What every decision that refuses access without looking at a state says. */
  ghost predicate Refuses(d: Decision, source: Source, state: string) {
    d.effective == state && !d.allowed && d.source == source && d.quota == NoQuota && d.failClosed
  }

  ghost function Unanswered(source: Source): Decision {
    Decision("blocked", false, source, None, None, NoQuota, true)
  }

  /** What a decision that follows a stored state says. */
  ghost predicate Follows(d: Decision, source: Source, allowed: bool) {
    && d.effective == (if allowed then "allowed" else "blocked")
    && d.allowed == allowed && d.source == source && d.failClosed == !allowed
  }

  /** The decision about the first entry for an id. */
  ghost predicate EntryDecided(d: Decision, e: Entry, control: Access, clock: Clock, withQuota: bool)
    requires e.Entry?
  {
    var expires := SafeText(e.expires);
    && d.expires == expires
    && (InForce(expires, clock) ==>
          && Follows(d, ExplicitEntry, Says(e.state, "allowed"))
          && d.operator == (if HasText(e.operator) then SafeText(e.operator) else SafeText(control.operator))
          && if withQuota then QuotaKept(e.quota, d.quota) else d.quota == NoQuota)
    && (!InForce(expires, clock) ==> Refuses(d, ExpiredEntry, "blocked") && d.operator == SafeText(e.operator))
  }

  lemma EntryDecides(e: Entry, control: Access, clock: Clock, withQuota: bool)
    requires e.Entry?
    ensures EntryDecided(EntryDecision(e, control, clock, withQuota), e, control, clock, withQuota)
  {
  }

  ghost predicate DefaultDecided(d: Decision, control: Access) {
    && Follows(d, DefaultState, Says(control.defaultState, "allowed"))
    && d.operator == SafeText(control.operator) && d.expires == None && d.quota == NoQuota
  }

  /**
   The decision about a provider: the first entry for it decides, by its state and expiry;
   without one the default state does. No id and no control are refused.
   */
  lemma ProviderDecidedExactly(control: Option<Access>, providerId: Json, clock: Clock, k: nat)
    ensures var d := EvaluateProvider(control, providerId, clock);
            if !HasText(providerId) then d == Unanswered(BadRequest)
            else if control.None? then d == Unanswered(FailClosed)
            else
              var entries, id := control.value.entries, SafeText(providerId).value;
              && (FirstFor(entries, id, k) ==> EntryDecided(d, entries[k], control.value, clock, false))
              && (Unlisted(entries, id) ==> DefaultDecided(d, control.value))
  {
    if HasText(providerId) && control.Some? {
      var entries, id := control.value.entries, SafeText(providerId).value;
      FindsFirst(entries, id, k);
      if FirstFor(entries, id, k) {
        EntryDecides(entries[k], control.value, clock, false);
      }
    }
  }

  /** The decision about a user: likewise, with quotas, and with the legacy store for unknown users. */
  lemma UserDecidedExactly(control: Option<Access>, userId: Json, legacy: bool, clock: Clock, k: nat)
    ensures var d := EvaluateUser(control, userId, legacy, clock);
            if !HasText(userId) then d == Unanswered(BadRequest)
            else if control.None? then d == Unanswered(FailClosed)
            else
              var entries, id := control.value.entries, SafeText(userId).value;
              && (FirstFor(entries, id, k) ==> EntryDecided(d, entries[k], control.value, clock, true))
              && (Unlisted(entries, id) ==>
                    if legacy && !Says(control.value.defaultState, "allowed")
                    then Follows(d, LegacyStore, true) && d.operator == SafeText(control.value.operator)
                         && d.expires == None && d.quota == NoQuota
                    else DefaultDecided(d, control.value))
  {
    if HasText(userId) && control.Some? {
      var entries, id := control.value.entries, SafeText(userId).value;
      FindsFirst(entries, id, k);
      if FirstFor(entries, id, k) {
        EntryDecides(entries[k], control.value, clock, true);
      }
    }
  }

  /** An entry that lets its id through. */
  ghost predicate Grants(entries: seq<Entry>, id: string, k: nat, clock: Clock) {
    && FirstFor(entries, id, k)
    && Says(entries[k].state, "allowed") && InForce(SafeText(entries[k].expires), clock)
  }

  /**
   A provider is allowed exactly when the first entry for it says "allowed" and has no expiry
   or one still to come, or when it has no entry and the default state says "allowed".
   */
  lemma ProviderAllowedExactly(control: Option<Access>, providerId: Json, clock: Clock)
    ensures EvaluateProvider(control, providerId, clock).allowed <==>
              && HasText(providerId) && control.Some?
              && var entries, id := control.value.entries, SafeText(providerId).value;
                 || (exists k: nat :: Grants(entries, id, k, clock))
                 || (Unlisted(entries, id) && Says(control.value.defaultState, "allowed"))
  {
    if HasText(providerId) && control.Some? {
      var entries, id := control.value.entries, SafeText(providerId).value;
      var k := FirstOrNone(entries, id);
      ProviderDecidedExactly(control, providerId, clock, k);
      forall i: nat | Grants(entries, id, i, clock) ensures i == k && FirstFor(entries, id, k) {
        OneFirst(entries, id, i, k);
      }
      assert FirstFor(entries, id, k) ==>
               (Grants(entries, id, k, clock) <==> EvaluateProvider(control, providerId, clock).allowed);
    }
  }

  /** The same for users, where an allowance of the legacy store counts for those without an entry. */
  lemma UserAllowedExactly(control: Option<Access>, userId: Json, legacy: bool, clock: Clock)
    ensures EvaluateUser(control, userId, legacy, clock).allowed <==>
              && HasText(userId) && control.Some?
              && var entries, id := control.value.entries, SafeText(userId).value;
                 || (exists k: nat :: Grants(entries, id, k, clock))
                 || (Unlisted(entries, id) && (legacy || Says(control.value.defaultState, "allowed")))
  {
    if HasText(userId) && control.Some? {
      var entries, id := control.value.entries, SafeText(userId).value;
      var k := FirstOrNone(entries, id);
      UserDecidedExactly(control, userId, legacy, clock, k);
      forall i: nat | Grants(entries, id, i, clock) ensures i == k && FirstFor(entries, id, k) {
        OneFirst(entries, id, i, k);
      }
      assert FirstFor(entries, id, k) ==>
               (Grants(entries, id, k, clock) <==> EvaluateUser(control, userId, legacy, clock).allowed);
    }
  }

  /** Cloud or tavily execution is on exactly when the control says "enabled" and has not expired. */
  lemma BinaryDecidedExactly(control: Option<Binary>, clock: Clock)
    ensures var d := EvaluateBinary(control, clock);
            if control.None? then Refuses(d, FailClosed, "disabled") && d.operator == None && d.expires == None
            else
              var expires := SafeText(control.value.expires);
              && d.operator == SafeText(control.value.operator) && d.expires == expires
              && (d.allowed <==> Says(control.value.state, "enabled") && InForce(expires, clock))
              && d.effective == (if d.allowed then "enabled" else "disabled") && d.failClosed == !d.allowed
              && d.source == (if InForce(expires, clock) then ExplicitGovernance else ExpiredControl)
              && d.quota == NoQuota
  {
  }

  /** A value that counts as false in Python. */
  ghost predicate Falsy(v: Json) {
    v in {Null, Bool(false), Num(0), Str("")} || (v.Arr? && v.items == []) || (v.Obj? && v.fields == [])
  }

  /** The state a receipt gives as the previous one: that of the whole control, or else its default. */
  ghost function Before(s: Controls, control: ControlName): Option<string> {
    match control
    case Cloud => if s.cloud.Some? then SafeText(s.cloud.value.state) else None
    case Tavily => if s.tavily.Some? then SafeText(s.tavily.value.state) else None
    case Providers => if s.providers.Some? then StateBefore(s.providers.value) else None
    case Users => if s.users.Some? then StateBefore(s.users.value) else None
  }

  ghost function StateBefore(control: Access): Option<string> {
    SafeText(if Falsy(control.state) then control.defaultState else control.state)
  }

  /** The receipt of a change: what was asked for is also what it reports as in effect. */
  lemma ReceiptExactly(s: Controls, c: Change)
    requires Applicable(c)
    ensures var r := ReceiptFor(s, c);
            && r.control == c.control && r.previous == Before(s, c.control)
            && Some(r.requested) == SafeText(c.requested) && r.effective == r.requested
            && Some(r.operator) == SafeText(c.operator) && r.target == SafeText(c.target)
            && r.expires == (if c.expires.Some? then SafeString(c.expires.value) else None)
            && if c.quota.Some? then QuotaKept(c.quota.value, r.quota) else r.quota == NoQuota
  {
  }

  ghost function ReasonOf(s: Controls, control: ControlName): Json {
    match control
    case Cloud => if s.cloud.Some? then s.cloud.value.reason else Null
    case Tavily => if s.tavily.Some? then s.tavily.value.reason else Null
    case Providers => if s.providers.Some? then s.providers.value.reason else Null
    case Users => if s.users.Some? then s.users.value.reason else Null
  }

  /** A change writes the reason that is given, stripped, and keeps the old one when none is given. */
  lemma ReasonExactly(s: Controls, c: Change, operator: string)
    ensures ReasonOf(Changed(s, c, operator), c.control)
         == if c.reason.None? then ReasonOf(s, c.control)
            else if Blank(c.reason.value) then Null
            else Str(Strip(c.reason.value))
  {
  }
}
