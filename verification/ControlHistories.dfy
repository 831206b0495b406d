/** What whole histories of control changes add up to. */
module ControlHistories {
  import ControlDecisions
  import opened JsonValues
  import opened OperationalControls
  import opened Text
  import opened Validation
  import opened Wrappers

  /** The state after a list of changes; a change that raises leaves it as it was. */
  function After(s: Controls, changes: seq<Change>): Controls {
    if changes == [] then s else Stepped(After(s, changes[..|changes| - 1]), changes[|changes| - 1])
  }

  function Stepped(s: Controls, c: Change): Controls {
    if Applicable(c) then Changed(s, c, SafeText(c.operator).value) else s
  }

  /** A caller that applies changes one after the other, each to the copy the last one returned. */
  method ApplyHistory(state: ControlStore, changes: seq<Change>) returns (final: ControlStore)
    ensures final.Value() == After(old(state.Value()), changes)
    ensures state.Value() == old(state.Value())
  {
    final := state;
    for i := 0 to |changes|
      invariant final.Value() == After(state.Value(), changes[..i])
    {
      assert changes[..i + 1][..i] == changes[..i];
      var changed, _ := ApplyChange(final, changes[i]);
      if changed != null {
        final := changed;
      }
    }
    assert changes[..|changes|] == changes;
  }

  /** What decides about one id. */
  datatype Grant = Grant(state: string, expires: Option<string>, operator: Option<string>, quota: QuotaValue)

  function View(e: Entry): Grant
    requires e.Entry?
  {
    Grant(AccessState(e.state), SafeText(e.expires), SafeText(e.operator), SafeQuota(e.quota))
  }

  function Viewed(e: Option<Entry>): Option<Grant>
    requires e.Some? ==> e.value.Entry?
  {
    if e.Some? then Some(View(e.value)) else None
  }

  function Known(m: map<string, Grant>, id: string): Option<Grant> {
    if id in m then Some(m[id]) else None
  }

  /** The entry list, read by first match, is the map. */
  ghost predicate Represents(entries: seq<Entry>, m: map<string, Grant>) {
    forall id :: Viewed(Find(entries, id)) == Known(m, id)
  }

  /** The map of a list: its first entry for each id. */
  function MapOf(entries: seq<Entry>): map<string, Grant> {
    if entries == [] then map[]
    else
      var rest := MapOf(entries[1..]);
      if entries[0].Entry? && SafeText(entries[0].id).Some?
      then rest[SafeText(entries[0].id).value := View(entries[0])]
      else rest
  }

  lemma {:induction false} MapOfRepresents(entries: seq<Entry>)
    ensures Represents(entries, MapOf(entries))
  {
    if entries != [] {
      MapOfRepresents(entries[1..]);
    }
  }

  /** Writing a grant: the normalised state, and what was supplied of the rest. */
  function Written(old': Option<Grant>, u: Update): Grant {
    Grant(AccessState(u.requested),
          if u.expires.Some? then SafeString(u.expires.value)
          else if old'.Some? then old'.value.expires else None,
          SafeString(u.operator),
          if u.quota.Some? then SafeQuota(u.quota.value)
          else if old'.Some? then old'.value.quota else NoQuota)
  }

  lemma QuotaIdempotent(q: QuotaValue)
    ensures SafeQuota(SafeQuota(q)) == SafeQuota(q)
  {
  }

  lemma StateNormal(v: Json)
    ensures AccessState(Str(AccessState(v))) == AccessState(v)
  {
    StripFacts(ALLOWED);
    StripFacts(BLOCKED);
  }

  lemma UpdatedView(e: Entry, u: Update)
    requires e.Entry?
    ensures View(Updated(e, u)) == Written(Some(View(e)), u)
  {
    StateNormal(u.requested);
    if u.expires.Some? && !Blank(u.expires.value) {
      StripFacts(u.expires.value);
      StripFacts(Strip(u.expires.value));
    }
    if u.quota.Some? {
      QuotaIdempotent(u.quota.value);
    }
  }

  /** First-match lookup after an upsert: the id's grant is written, every other id's is kept. */
  lemma {:induction false} UpsertFinds(entries: seq<Entry>, id: string, u: Update, other: string)
    requires SafeString(id) == Some(id)
    ensures Viewed(Find(Upserted(entries, id, u), other))
         == if other == id then Some(Written(Viewed(Find(entries, id)), u)) else Viewed(Find(entries, other))
  {
    if entries == [] {
      var entry := Updated(NewEntry(id), u);
      UpdatedView(NewEntry(id), u);
      assert Upserted(entries, id, u) == [entry];
      assert [entry][1..] == [];
    } else if Matches(entries[0], id) {
      UpdatedView(entries[0], u);
      var entry := Updated(entries[0], u);
      assert ([entry] + entries[1..])[1..] == entries[1..];
    } else {
      UpsertFinds(entries[1..], id, u, other);
      var rest := Upserted(entries[1..], id, u);
      assert ([entries[0]] + rest)[1..] == rest;
    }
  }

  /** The access controls a history can be about. */
  function AccessOf(s: Controls, who: ControlName): Option<Access> {
    match who
    case Providers => s.providers
    case Users => s.users
    case _ => None
  }

  /** A change that names a target of the control writes its grant; any other leaves the map alone. */
  function Recorded(m: map<string, Grant>, c: Change, who: ControlName): map<string, Grant> {
    if Applicable(c) && c.control == who && SafeText(c.target).Some? then
      var id := SafeText(c.target).value;
      var quota := if who == Users then c.quota else None;
      m[id := Written(Known(m, id), Update(c.requested, SafeText(c.operator).value, c.expires, quota))]
    else m
  }

  function Replay(m: map<string, Grant>, changes: seq<Change>, who: ControlName): map<string, Grant> {
    if changes == [] then m
    else Recorded(Replay(m, changes[..|changes| - 1], who), changes[|changes| - 1], who)
  }

  lemma SafeTextStable(v: Json)
    requires SafeText(v).Some?
    ensures SafeString(SafeText(v).value) == Some(SafeText(v).value)
  {
    StripFacts(v.s);
    StripFacts(Strip(v.s));
  }

  lemma StepRepresents(s: Controls, c: Change, who: ControlName, m: map<string, Grant>)
    requires who in {Providers, Users} && AccessOf(s, who).Some?
    requires Represents(AccessOf(s, who).value.entries, m)
    ensures AccessOf(Stepped(s, c), who).Some?
    ensures Represents(AccessOf(Stepped(s, c), who).value.entries, Recorded(m, c, who))
  {
    if Applicable(c) && c.control == who && SafeText(c.target).Some? {
      var entries, id := AccessOf(s, who).value.entries, SafeText(c.target).value;
      var quota := if who == Users then c.quota else None;
      var u := Update(c.requested, SafeText(c.operator).value, c.expires, quota);
      SafeTextStable(c.target);
      assert AccessOf(Stepped(s, c), who).value.entries == Upserted(entries, id, u);
      forall other ensures Viewed(Find(Upserted(entries, id, u), other)) == Known(Recorded(m, c, who), other) {
        UpsertFinds(entries, id, u, other);
      }
    }
  }

  /**
   Refinement over histories: after any list of changes, first-match lookup in the entry list
   is lookup in the map that replayed the same changes.
   */
  lemma {:induction false} HistoryRepresents(s: Controls, changes: seq<Change>, who: ControlName,
                                             m: map<string, Grant>)
    requires who in {Providers, Users} && AccessOf(s, who).Some?
    requires Represents(AccessOf(s, who).value.entries, m)
    ensures AccessOf(After(s, changes), who).Some?
    ensures Represents(AccessOf(After(s, changes), who).value.entries, Replay(m, changes, who))
  {
    if changes != [] {
      var init := changes[..|changes| - 1];
      HistoryRepresents(s, init, who, m);
      StepRepresents(After(s, init), changes[|changes| - 1], who, Replay(m, init, who));
    }
  }

  /** The decision a grant stands for. */
  function GrantDecision(g: Grant, fallback: Option<string>, clock: Clock, withQuota: bool): Decision {
    if !ControlDecisions.InForce(g.expires, clock)
    then BlockedDecision(BLOCKED, ExpiredEntry, g.operator, g.expires)
    else AccessDecision(g.state, ExplicitEntry, if g.operator.Some? then g.operator else fallback, g.expires,
                        if withQuota then g.quota else NoQuota)
  }

  lemma EntryDecides(e: Entry, control: Access, clock: Clock, withQuota: bool)
    requires e.Entry?
    ensures EntryDecision(e, control, clock, withQuota)
         == GrantDecision(View(e), SafeText(control.operator), clock, withQuota)
  {
    if SafeText(e.expires).Some? {
      SafeTextStable(e.expires);
    }
  }

  function MapDecision(m: map<string, Grant>, control: Access, id: string, clock: Clock, withQuota: bool): Decision {
    if id in m then GrantDecision(m[id], SafeText(control.operator), clock, withQuota) else DefaultDecision(control)
  }

  /**
   Histories refine a map: after any list of changes the decision about a provider is that of
   the map replaying the changes, for every provider, whatever the clock.
   */
  lemma ProviderHistoryRefinesMap(s: Controls, changes: seq<Change>, providerId: Json, clock: Clock)
    requires s.providers.Some? && HasText(providerId)
    ensures var m := Replay(MapOf(s.providers.value.entries), changes, Providers);
            && After(s, changes).providers.Some?
            && EvaluateProvider(After(s, changes).providers, providerId, clock)
               == MapDecision(m, After(s, changes).providers.value, SafeText(providerId).value, clock, false)
  {
    MapOfRepresents(s.providers.value.entries);
    HistoryRepresents(s, changes, Providers, MapOf(s.providers.value.entries));
    var control := After(s, changes).providers.value;
    var found := Find(control.entries, SafeText(providerId).value);
    assert Viewed(found) == Known(Replay(MapOf(s.providers.value.entries), changes, Providers),
                                  SafeText(providerId).value);
    if found.Some? {
      EntryDecides(found.value, control, clock, false);
    }
  }

  /** The same for users, with their quotas; unknown legacy users pass a blocking default. */
  lemma UserHistoryRefinesMap(s: Controls, changes: seq<Change>, userId: Json, legacy: bool, clock: Clock)
    requires s.users.Some? && HasText(userId)
    ensures var m := Replay(MapOf(s.users.value.entries), changes, Users);
            var control := After(s, changes).users;
            && control.Some?
            && EvaluateUser(control, userId, legacy, clock)
               == if SafeText(userId).value !in m && legacy && AccessState(control.value.defaultState) == BLOCKED
                  then Decision(ALLOWED, true, LegacyStore, SafeText(control.value.operator), None, NoQuota, false)
                  else MapDecision(m, control.value, SafeText(userId).value, clock, true)
  {
    MapOfRepresents(s.users.value.entries);
    HistoryRepresents(s, changes, Users, MapOf(s.users.value.entries));
    var control := After(s, changes).users.value;
    var found := Find(control.entries, SafeText(userId).value);
    assert Viewed(found) == Known(Replay(MapOf(s.users.value.entries), changes, Users), SafeText(userId).value);
    if found.Some? {
      EntryDecides(found.value, control, clock, true);
    }
  }

  predicate Concerns(c: Change, who: ControlName, id: string) {
    Applicable(c) && c.control == who && SafeText(c.target) == Some(id)
  }

  /** Changes to other targets leave an id's grant alone. */
  lemma {:induction false} OthersKept(m: map<string, Grant>, changes: seq<Change>, who: ControlName, id: string)
    requires forall i :: 0 <= i < |changes| ==> !Concerns(changes[i], who, id)
    ensures Known(Replay(m, changes, who), id) == Known(m, id)
  {
    if changes != [] {
      var n := |changes| - 1;
      assert forall i :: 0 <= i < n ==> changes[..n][i] == changes[i];
      OthersKept(m, changes[..n], who, id);
    }
  }

  lemma {:induction false} ReplayAppend(m: map<string, Grant>, a: seq<Change>, b: seq<Change>, who: ControlName)
    ensures Replay(m, a + b, who) == Replay(Replay(m, a, who), b, who)
    decreases |b|
  {
    if b == [] {
      assert a + b == a;
    } else {
      var n := |b| - 1;
      assert (a + b)[..|a| + n] == a + b[..n];
      ReplayAppend(m, a, b[..n], who);
    }
  }

  /** The last change to an id decides its state; what came before and after does not matter. */
  lemma LastStateWins(m: map<string, Grant>, before: seq<Change>, c: Change, later: seq<Change>, who: ControlName,
                      id: string)
    requires who in {Providers, Users} && Concerns(c, who, id)
    requires forall i :: 0 <= i < |later| ==> !Concerns(later[i], who, id)
    ensures var g := Known(Replay(m, before + [c] + later, who), id);
            g.Some? && g.value.state == AccessState(c.requested)
  {
    ReplayAppend(m, before + [c], later, who);
    OthersKept(Replay(m, before + [c], who), later, who, id);
    assert (before + [c])[..|before|] == before;
  }

  /** The change sets the default of the control: it names no target. */
  predicate SetsDefault(c: Change, who: ControlName) {
    Applicable(c) && c.control == who && SafeText(c.target).None?
  }

  /** The default a control decides by, and the operator it names. */
  function DefaultOf(s: Controls, who: ControlName): (string, Option<string>) {
    var control := AccessOf(s, who);
    if control.None? then (BLOCKED, None)
    else (AccessState(control.value.defaultState), SafeText(control.value.operator))
  }

  lemma DefaultStep(s: Controls, c: Change, who: ControlName)
    requires who in {Providers, Users}
    ensures DefaultOf(Stepped(s, c), who).0
         == if SetsDefault(c, who) then AccessState(c.requested) else DefaultOf(s, who).0
    ensures DefaultOf(Stepped(s, c), who).1 == DefaultOf(s, who).1
  {
    StateNormal(c.requested);
  }

  lemma {:induction false} DefaultKept(s: Controls, changes: seq<Change>, who: ControlName)
    requires who in {Providers, Users}
    ensures (forall i :: 0 <= i < |changes| ==> !SetsDefault(changes[i], who)) ==>
              DefaultOf(After(s, changes), who).0 == DefaultOf(s, who).0
    ensures DefaultOf(After(s, changes), who).1 == DefaultOf(s, who).1
  {
    if changes != [] {
      var n := |changes| - 1;
      assert forall i :: 0 <= i < n ==> changes[..n][i] == changes[i];
      DefaultKept(s, changes[..n], who);
      DefaultStep(After(s, changes[..n]), changes[n], who);
    }
  }

  lemma {:induction false} AfterAppend(s: Controls, a: seq<Change>, b: seq<Change>)
    ensures After(s, a + b) == After(After(s, a), b)
    decreases |b|
  {
    if b == [] {
      assert a + b == a;
    } else {
      var n := |b| - 1;
      assert (a + b)[..|a| + n] == a + b[..n];
      AfterAppend(s, a, b[..n]);
    }
  }

  /**
   The last change without a target decides the default, by which all unknown ids are decided;
   no change touches the operator the default names.
   */
  lemma LastDefaultWins(s: Controls, before: seq<Change>, c: Change, later: seq<Change>, who: ControlName)
    requires who in {Providers, Users} && SetsDefault(c, who)
    requires forall i :: 0 <= i < |later| ==> !SetsDefault(later[i], who)
    ensures DefaultOf(After(s, before + [c] + later), who) == (AccessState(c.requested), DefaultOf(s, who).1)
  {
    AfterAppend(s, before + [c], later);
    assert (before + [c])[..|before|] == before;
    DefaultStep(After(s, before), c, who);
    DefaultKept(s, before, who);
    DefaultKept(After(s, before + [c]), later, who);
  }

  /** Changes without an expiry of their own keep the one an id has. */
  lemma {:induction false} ExpiryKept(m: map<string, Grant>, changes: seq<Change>, who: ControlName, id: string)
    requires id in m
    requires forall i :: 0 <= i < |changes| && Concerns(changes[i], who, id) ==> changes[i].expires == None
    ensures id in Replay(m, changes, who) && Replay(m, changes, who)[id].expires == m[id].expires
  {
    if changes != [] {
      var n := |changes| - 1;
      assert forall i :: 0 <= i < n ==> changes[..n][i] == changes[i];
      ExpiryKept(m, changes[..n], who, id);
    }
  }

  /** The last expiry supplied for an id sticks, however often its state changes afterwards. */
  lemma LastExpirySticks(m: map<string, Grant>, before: seq<Change>, c: Change, later: seq<Change>,
                         who: ControlName, id: string)
    requires who in {Providers, Users} && Concerns(c, who, id) && c.expires.Some?
    requires forall i :: 0 <= i < |later| && Concerns(later[i], who, id) ==> later[i].expires == None
    ensures var g := Known(Replay(m, before + [c] + later, who), id);
            g.Some? && g.value.expires == SafeString(c.expires.value)
  {
    ReplayAppend(m, before + [c], later, who);
    assert (before + [c])[..|before|] == before;
    ExpiryKept(Replay(m, before + [c], who), later, who, id);
  }

  /** The expiry in force after a change: its own, or else the one before. */
  function KeptExpiry(stored: Option<string>, c: Change): Option<string> {
    if c.expires.Some? then SafeString(c.expires.value) else stored
  }

  function EntriesOf(s: Controls, who: ControlName): seq<Entry> {
    if AccessOf(s, who).Some? then AccessOf(s, who).value.entries else []
  }

  function StoredExpiry(entries: seq<Entry>, id: string): Option<string> {
    var found := Find(entries, id);
    if found.Some? then SafeText(found.value.expires) else None
  }

  function Decide(s: Controls, who: ControlName, target: Json, legacy: bool, clock: Clock): Decision
    requires who in {Providers, Users}
  {
    if who == Providers then EvaluateProvider(s.providers, target, clock)
    else EvaluateUser(s.users, target, legacy, clock)
  }

  /** The grant a change leaves behind for its target. */
  lemma TargetGrant(s: Controls, c: Change)
    requires c.control in {Providers, Users} && Applicable(c) && SafeText(c.target).Some?
    ensures AccessOf(Stepped(s, c), c.control).Some?
    ensures var id := SafeText(c.target).value;
            var found := Find(EntriesOf(Stepped(s, c), c.control), id);
            && found.Some?
            && View(found.value).state == AccessState(c.requested)
            && View(found.value).expires == KeptExpiry(StoredExpiry(EntriesOf(s, c.control), id), c)
  {
    var entries, id := EntriesOf(s, c.control), SafeText(c.target).value;
    var quota := if c.control == Users then c.quota else None;
    var u := Update(c.requested, SafeText(c.operator).value, c.expires, quota);
    SafeTextStable(c.target);
    assert EntriesOf(Stepped(s, c), c.control) == Upserted(entries, id, u);
    UpsertFinds(entries, id, u, id);
  }

  /**
   When a change takes effect for its target: it is allowed exactly when the change asks for
   "allowed" and there is no expiry, the supplied one or else the stored one, or one to come.
   */
  lemma AllowingTakesEffectExactly(s: Controls, c: Change, legacy: bool, clock: Clock)
    requires c.control in {Providers, Users} && Applicable(c) && SafeText(c.target).Some?
    ensures var stored := StoredExpiry(EntriesOf(s, c.control), SafeText(c.target).value);
            Decide(Stepped(s, c), c.control, c.target, legacy, clock).allowed <==>
              SafeText(c.requested) == Some("allowed") && ControlDecisions.InForce(KeptExpiry(stored, c), clock)
  {
    TargetGrant(s, c);
    var control := AccessOf(Stepped(s, c), c.control).value;
    var found := Find(control.entries, SafeText(c.target).value).value;
    EntryDecides(found, control, clock, c.control == Users);
  }

  lemma ExpiredEntryPast(control: Option<Access>, target: Json, clock: Clock)
    requires EvaluateProvider(control, target, clock).source == ExpiredEntry
    ensures control.Some? && SafeText(target).Some?
            && !ControlDecisions.InForce(StoredExpiry(control.value.entries, SafeText(target).value), clock)
  {
    var found := Find(control.value.entries, SafeText(target).value);
    EntryDecides(found.value, control.value, clock, false);
  }

  /** An expired provider that is allowed again without a new expiry stays blocked. */
  lemma ReallowedStaysExpired(s: Controls, c: Change, clock: Clock)
    requires s.providers.Some? && c.control == Providers && Applicable(c) && SafeText(c.target).Some?
    requires c.expires == None
    requires EvaluateProvider(s.providers, c.target, clock).source == ExpiredEntry
    ensures !EvaluateProvider(Stepped(s, c).providers, c.target, clock).allowed
    ensures EvaluateProvider(Stepped(s, c).providers, c.target, clock).source == ExpiredEntry
  {
    ExpiredEntryPast(s.providers, c.target, clock);
    TargetGrant(s, c);
    var control := Stepped(s, c).providers.value;
    EntryDecides(Find(control.entries, SafeText(c.target).value).value, control, clock, false);
  }

  /** A change leaves every control it does not name as it was. */
  lemma {:induction false} OtherControlsKept(s: Controls, changes: seq<Change>, who: ControlName)
    requires forall i :: 0 <= i < |changes| ==> changes[i].control != who
    ensures who == Cloud ==> After(s, changes).cloud == s.cloud
    ensures who == Tavily ==> After(s, changes).tavily == s.tavily
    ensures who == Providers ==> After(s, changes).providers == s.providers
    ensures who == Users ==> After(s, changes).users == s.users
  {
    if changes != [] {
      var n := |changes| - 1;
      assert forall i :: 0 <= i < n ==> changes[..n][i] == changes[i];
      OtherControlsKept(s, changes[..n], who);
    }
  }

  /** The state a change leaves where it was aimed. */
  function StoredState(s: Controls, c: Change): string {
    match c.control
    case Cloud => if s.cloud.Some? then BinaryState(s.cloud.value.state) else DISABLED
    case Tavily => if s.tavily.Some? then BinaryState(s.tavily.value.state) else DISABLED
    case _ =>
      var control := AccessOf(s, c.control);
      if control.None? then BLOCKED
      else if SafeText(c.target).None? then AccessState(control.value.defaultState)
      else
        var found := Find(control.value.entries, SafeText(c.target).value);
        if found.Some? then AccessState(found.value.state) else BLOCKED
  }

  predicate StateOfControl(control: ControlName, state: string) {
    if control in {Cloud, Tavily} then state in {ENABLED, DISABLED} else state in {ALLOWED, BLOCKED}
  }

  lemma BinaryNormal(v: Json)
    ensures BinaryState(Str(BinaryState(v))) == BinaryState(v)
  {
    StripFacts(ENABLED);
    StripFacts(DISABLED);
  }

  lemma StoredIsNormalised(s: Controls, c: Change)
    requires Applicable(c)
    ensures StoredState(Stepped(s, c), c)
         == if c.control in {Cloud, Tavily} then BinaryState(c.requested) else AccessState(c.requested)
  {
    if c.control in {Cloud, Tavily} {
      BinaryNormal(c.requested);
    } else {
      StateNormal(c.requested);
      if SafeText(c.target).Some? {
        var control := AccessOf(s, c.control);
        var entries := if control.Some? then control.value.entries else [];
        var quota := if c.control == Users then c.quota else None;
        var u := Update(c.requested, SafeText(c.operator).value, c.expires, quota);
        SafeTextStable(c.target);
        UpsertFinds(entries, SafeText(c.target).value, u, SafeText(c.target).value);
      }
    }
  }

  /**
   The receipt's effective state is the stored one exactly when the requested state is one
   the control knows; otherwise the store falls back and the receipt does not say so.
   */
  lemma ReceiptEffectiveExact(s: Controls, c: Change)
    requires Applicable(c)
    ensures ReceiptFor(s, c).effective == StoredState(Stepped(s, c), c) <==>
              StateOfControl(c.control, SafeText(c.requested).value)
  {
    StoredIsNormalised(s, c);
  }

  /** A request for "on" is recorded as effective and stored as disabled. */
  lemma ReceiptEffectiveWitness(s: Controls)
    ensures var c := Change(Cloud, Str("on"), Str("operator"), Null, None, None, None);
            && Applicable(c)
            && ReceiptFor(s, c).effective == "on"
            && StoredState(Stepped(s, c), c) == DISABLED
  {
    var c := Change(Cloud, Str("on"), Str("operator"), Null, None, None, None);
    StripFacts("on");
    StripFacts("operator");
    StoredIsNormalised(s, c);
  }
}
