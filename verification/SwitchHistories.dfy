/** Histories of the two controls that are only enabled or disabled: cloud and tavily execution. */
module SwitchHistories {
  import ControlDecisions
  import opened ControlHistories
  import opened JsonValues
  import opened OperationalControls
  import opened Text
  import opened Validation
  import opened Wrappers

  /** What a decision takes from such a control. */
  datatype Switch = Switch(state: string, operator: Option<string>, expires: Option<string>)

  function BinaryOf(s: Controls, who: ControlName): Option<Binary> {
    match who
    case Cloud => s.cloud
    case Tavily => s.tavily
    case _ => None
  }

  function SwitchOf(control: Option<Binary>): Option<Switch> {
    if control.None? then None
    else Some(Switch(BinaryState(control.value.state), SafeText(control.value.operator),
                     SafeText(control.value.expires)))
  }

  /** The change is made, and to this control. */
  predicate Flips(c: Change, who: ControlName) {
    Applicable(c) && c.control == who
  }

  /** A change without an expiry keeps the one there is. */
  function Flipped(before: Option<Switch>, c: Change, who: ControlName): Option<Switch> {
    if Flips(c, who)
    then Some(Switch(BinaryState(c.requested), SafeText(c.operator),
                     KeptExpiry(if before.Some? then before.value.expires else None, c)))
    else before
  }

  function ReplaySwitch(before: Option<Switch>, changes: seq<Change>, who: ControlName): Option<Switch> {
    if changes == [] then before
    else Flipped(ReplaySwitch(before, changes[..|changes| - 1], who), changes[|changes| - 1], who)
  }

  lemma FlipRepresents(s: Controls, c: Change, who: ControlName)
    requires who in {Cloud, Tavily}
    ensures SwitchOf(BinaryOf(Stepped(s, c), who)) == Flipped(SwitchOf(BinaryOf(s, who)), c, who)
  {
    if Flips(c, who) {
      BinaryNormal(c.requested);
      SafeTextStable(c.operator);
      if c.expires.Some? && !Blank(c.expires.value) {
        StripFacts(c.expires.value);
        StripFacts(Strip(c.expires.value));
      }
    }
  }

  lemma {:induction false} HistoryIsReplay(s: Controls, changes: seq<Change>, who: ControlName)
    requires who in {Cloud, Tavily}
    ensures SwitchOf(BinaryOf(After(s, changes), who)) == ReplaySwitch(SwitchOf(BinaryOf(s, who)), changes, who)
  {
    if changes != [] {
      var init := changes[..|changes| - 1];
      HistoryIsReplay(s, init, who);
      FlipRepresents(After(s, init), changes[|changes| - 1], who);
    }
  }

  /** The decision a switch stands for; a control that was never set is closed. */
  function SwitchDecision(switch: Option<Switch>, clock: Clock): Decision {
    if switch.None? then BlockedDecision(DISABLED, FailClosed, None, None)
    else if !ControlDecisions.InForce(switch.value.expires, clock)
    then BlockedDecision(DISABLED, ExpiredControl, switch.value.operator, switch.value.expires)
    else Decision(switch.value.state, switch.value.state == ENABLED, ExplicitGovernance, switch.value.operator,
                  switch.value.expires, NoQuota, switch.value.state != ENABLED)
  }

  lemma BinaryDecides(control: Option<Binary>, clock: Clock)
    ensures EvaluateBinary(control, clock) == SwitchDecision(SwitchOf(control), clock)
  {
    if control.Some? && SafeText(control.value.expires).Some? {
      SafeTextStable(control.value.expires);
    }
  }

  /** After any list of changes the decision is that of the switch replaying them, whatever the clock. */
  lemma SwitchHistoryExact(s: Controls, changes: seq<Change>, who: ControlName, clock: Clock)
    requires who in {Cloud, Tavily}
    ensures EvaluateBinary(BinaryOf(After(s, changes), who), clock)
         == SwitchDecision(ReplaySwitch(SwitchOf(BinaryOf(s, who)), changes, who), clock)
  {
    HistoryIsReplay(s, changes, who);
    BinaryDecides(BinaryOf(After(s, changes), who), clock);
  }

  lemma {:induction false} SwitchAppend(before: Option<Switch>, a: seq<Change>, b: seq<Change>, who: ControlName)
    ensures ReplaySwitch(before, a + b, who) == ReplaySwitch(ReplaySwitch(before, a, who), b, who)
    decreases |b|
  {
    if b == [] {
      assert a + b == a;
    } else {
      var n := |b| - 1;
      assert (a + b)[..|a| + n] == a + b[..n];
      SwitchAppend(before, a, b[..n], who);
    }
  }

  lemma {:induction false} UntouchedSwitch(before: Option<Switch>, changes: seq<Change>, who: ControlName)
    requires forall i :: 0 <= i < |changes| ==> !Flips(changes[i], who)
    ensures ReplaySwitch(before, changes, who) == before
  {
    if changes != [] {
      var n := |changes| - 1;
      assert forall i :: 0 <= i < n ==> changes[..n][i] == changes[i];
      UntouchedSwitch(before, changes[..n], who);
    }
  }

  lemma {:induction false} SwitchExpiryKept(before: Switch, changes: seq<Change>, who: ControlName)
    requires forall i :: 0 <= i < |changes| && Flips(changes[i], who) ==> changes[i].expires == None
    ensures var after := ReplaySwitch(Some(before), changes, who);
            after.Some? && after.value.expires == before.expires
  {
    if changes != [] {
      var n := |changes| - 1;
      assert forall i :: 0 <= i < n ==> changes[..n][i] == changes[i];
      SwitchExpiryKept(before, changes[..n], who);
    }
  }

  /** The last change decides state and operator; the last supplied expiry sticks. */
  lemma LastSwitchWins(before: Option<Switch>, first: seq<Change>, expiring: Change, between: seq<Change>,
                       last: Change, later: seq<Change>, who: ControlName)
    requires Flips(expiring, who) && expiring.expires.Some? && Flips(last, who) && last.expires == None
    requires forall i :: 0 <= i < |between| && Flips(between[i], who) ==> between[i].expires == None
    requires forall i :: 0 <= i < |later| ==> !Flips(later[i], who)
    ensures ReplaySwitch(before, first + [expiring] + between + [last] + later, who)
         == Some(Switch(BinaryState(last.requested), SafeText(last.operator), SafeString(expiring.expires.value)))
  {
    var upToExpiring := first + [expiring];
    var upToLast := upToExpiring + between + [last];
    assert upToExpiring[..|first|] == first;
    SwitchExpiryKept(ReplaySwitch(before, upToExpiring, who).value, between, who);
    SwitchAppend(before, upToExpiring, between, who);
    assert upToLast[..|upToLast| - 1] == upToExpiring + between;
    SwitchAppend(before, upToLast, later, who);
    UntouchedSwitch(ReplaySwitch(before, upToLast, who), later, who);
  }

  /**
   When a change of such a control takes effect: it is on exactly when the change asks for
   "enabled" and there is no expiry, the supplied one or else the stored one, or one to come.
   */
  lemma EnablingTakesEffectExactly(s: Controls, c: Change, clock: Clock)
    requires c.control in {Cloud, Tavily} && Applicable(c)
    ensures var before := SwitchOf(BinaryOf(s, c.control));
            var stored := if before.Some? then before.value.expires else None;
            EvaluateBinary(BinaryOf(Stepped(s, c), c.control), clock).allowed <==>
              SafeText(c.requested) == Some("enabled") && ControlDecisions.InForce(KeptExpiry(stored, c), clock)
  {
    FlipRepresents(s, c, c.control);
    BinaryDecides(BinaryOf(Stepped(s, c), c.control), clock);
  }
}
