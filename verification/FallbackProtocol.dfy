/** The protocol that an execution with fallbacks keeps: its events, attempts and answer. */
module FallbackProtocol {
  import opened ExecutionContainment
  import opened JsonValues
  import opened RuntimeManager
  import opened Wrappers

  /** The reply of a usable engine: a result with a model and a text. */
  predicate Answers(reply: Reply) {
    reply.Returned? && reply.result.model.Some? && reply.result.text.Some?
  }

  /** A reply that counts as a success until its missing text is read. */
  predicate Half(reply: Reply) {
    reply.Returned? && reply.result.model.Some? && reply.result.text.None?
  }

  /** The reply to call `k`. */
  function ReplyAt(w: World, calls: seq<string>, k: nat): Reply
    requires k < |calls|
  {
    w.behaviour(calls[..k + 1])
  }

  predicate HalfSeen(w: World, calls: seq<string>, from: nat) {
    exists k :: from <= k < |calls| && Half(ReplyAt(w, calls, k))
  }

  /** Failed rounds: progress, attempt and failure of one engine each. */
  predicate Rounds(es: seq<Event>) {
    || es == []
    || (&& |es| >= 3 && es[0].PresenceProgress? && es[1] == AttemptStarted(es[0].engine)
        && es[2].AttemptFailed? && es[2].engine == es[0].engine && Rounds(es[3..]))
  }

  /** Failed rounds and then a completed round or the failed stop. */
  predicate Body(es: seq<Event>) {
    || es == [PresenceFailed]
    || (|es| == 3 && es[0].PresenceProgress?
        && es[1..] == [AttemptStarted(es[0].engine), PresenceCompleted(es[0].engine)])
    || (&& |es| >= 3 && es[0].PresenceProgress? && es[1] == AttemptStarted(es[0].engine)
        && es[2].AttemptFailed? && es[2].engine == es[0].engine && Body(es[3..]))
  }

  /** The event streams the protocol allows: none, or one start followed by its engine's rounds. */
  predicate WellFormed(es: seq<Event>) {
    || es == []
    || (|es| > 1 && es[0].PresenceStarted? && es[1] == PresenceProgress(es[0].engine) && Body(es[1..]))
  }

  /** A start and failed rounds, the first by the engine the start names. */
  predicate Going(es: seq<Event>) {
    && es != [] && es[0].PresenceStarted? && Rounds(es[1..])
    && (|es| > 1 ==> es[1] == PresenceProgress(es[0].engine))
  }

  /** A stream that can still go on. */
  predicate Opened(s: State) {
    if s.started then |s.events| > 1 && Going(s.events) else s.events == []
  }

  lemma {:induction false} RoundsJoin(a: seq<Event>, b: seq<Event>)
    requires Rounds(a)
    ensures Rounds(b) ==> Rounds(a + b)
    ensures Body(b) ==> Body(a + b)
  {
    if a == [] {
      assert a + b == b;
    } else {
      assert (a + b)[3..] == a[3..] + b;
      RoundsJoin(a[3..], b);
    }
  }

  function FailedRound(name: string, error: string): seq<Event> {
    [PresenceProgress(name), AttemptStarted(name), AttemptFailed(name, error)]
  }

  function CompletedRound(name: string): seq<Event> {
    [PresenceProgress(name), AttemptStarted(name), PresenceCompleted(name)]
  }

  lemma OneRound(name: string, error: string)
    ensures Rounds(FailedRound(name, error)) && Body(CompletedRound(name))
  {
    assert FailedRound(name, error)[3..] == [];
    assert Rounds(FailedRound(name, error)[3..]);
  }

  lemma RoundAppended(es: seq<Event>, name: string, error: string)
    requires Going(es) && (|es| == 1 ==> es[0].engine == name)
    ensures Going(es + FailedRound(name, error))
    ensures WellFormed(es + CompletedRound(name))
  {
    OneRound(name, error);
    RoundsJoin(es[1..], FailedRound(name, error));
    RoundsJoin(es[1..], CompletedRound(name));
    assert (es + FailedRound(name, error))[1..] == es[1..] + FailedRound(name, error);
    assert (es + CompletedRound(name))[1..] == es[1..] + CompletedRound(name);
  }

  /** The stream as it stands when an engine's round begins. */
  function Begun(s: State, name: string): seq<Event> {
    if s.started then s.events else [PresenceStarted(name)]
  }

  lemma AnnouncedEvents(w: World, s: State, name: string)
    requires w.reporting && Opened(s)
    ensures var ready := Announced(w, s, name);
            && ready.events == Begun(s, name) + [PresenceProgress(name), AttemptStarted(name)]
            && ready.started && ready.calls == s.calls + [name]
  {
  }

  /** An engine without a half result adds one round. */
  lemma StepEvents(w: World, s: State, name: string) returns (error: string)
    requires w.reporting && Opened(s) && !Half(w.behaviour(s.calls + [name]))
    ensures var (t, o) := Attempted(w, s, name);
            && t.started
            && t.events == Begun(s, name) + if o.Some? then CompletedRound(name) else FailedRound(name, error)
  {
    AnnouncedEvents(w, s, name);
    error := match w.behaviour(s.calls + [name])
      case Raised(e) => e
      case Returned(_) => NO_MODEL;
  }

  lemma StepStreams(w: World, s: State, name: string)
    requires w.reporting && Opened(s) && !Half(w.behaviour(s.calls + [name]))
    ensures var (t, o) := Attempted(w, s, name);
            (o.None? ==> Opened(t)) && (o.Some? ==> WellFormed(t.events))
  {
    var (t, o) := Attempted(w, s, name);
    var error := StepEvents(w, s, name);
    assert Going(Begun(s, name));
    RoundAppended(Begun(s, name), name, error);
  }

  /** A completed stop with something after it. */
  ghost predicate Broken(es: seq<Event>) {
    exists i :: 0 <= i < |es| - 1 && es[i].PresenceCompleted?
  }

  lemma {:induction false} BodyNotBroken(es: seq<Event>)
    requires Body(es)
    ensures !Broken(es)
  {
    if |es| >= 3 && es[2].AttemptFailed? {
      BodyNotBroken(es[3..]);
      forall i | 0 <= i < |es| - 1 ensures !es[i].PresenceCompleted? {
        if i >= 3 {
          assert es[i] == es[3..][i - 3];
        }
      }
    }
  }

  lemma WellFormedNotBroken(es: seq<Event>)
    requires WellFormed(es)
    ensures !Broken(es)
  {
    if es != [] {
      BodyNotBroken(es[1..]);
      forall i | 0 <= i < |es| - 1 ensures !es[i].PresenceCompleted? {
        if i >= 1 {
          assert es[i] == es[1..][i - 1];
        }
      }
    }
  }

  lemma BrokenGrows(a: seq<Event>, b: seq<Event>)
    requires Broken(a)
    ensures Broken(a + b)
  {
    var i :| 0 <= i < |a| - 1 && a[i].PresenceCompleted?;
    assert (a + b)[i] == a[i];
  }

  /** A half result completes the stream and then fails. */
  lemma StepBreaks(w: World, s: State, name: string)
    requires w.reporting && Half(w.behaviour(s.calls + [name]))
    ensures Attempted(w, s, name).1.None? && Broken(Attempted(w, s, name).0.events)
  {
    var t := Attempted(w, s, name).0;
    assert t.events[|t.events| - 2] == PresenceCompleted(name);
  }

  lemma StepExtends(w: World, s: State, name: string)
    ensures var t := Attempted(w, s, name).0;
            t.calls == s.calls + [name] && s.events <= t.events
  {
  }

  lemma HalfSeenStep(w: World, calls: seq<string>, name: string, from: nat)
    requires from <= |calls|
    ensures HalfSeen(w, calls + [name], from) <==> HalfSeen(w, calls, from) || Half(w.behaviour(calls + [name]))
  {
    var longer := calls + [name];
    assert longer[..|calls| + 1] == longer;
    forall k | 0 <= k < |calls| ensures ReplyAt(w, longer, k) == ReplyAt(w, calls, k) {
      assert longer[..k + 1] == calls[..k + 1];
    }
    if k :| from <= k < |calls| && Half(ReplyAt(w, calls, k)) {
      assert Half(ReplyAt(w, longer, k));
    }
    if k :| from <= k < |longer| && Half(ReplyAt(w, longer, k)) && k < |calls| {
      assert Half(ReplyAt(w, calls, k));
    }
    if Half(w.behaviour(longer)) {
      assert Half(ReplyAt(w, longer, |calls|));
    }
  }

  /** Later steps only add calls and events. */
  lemma {:induction false} LoopExtends(w: World, s: State, names: seq<string>)
    ensures var t := Loop(w, s, names).0;
            s.calls <= t.calls && s.events <= t.events
    decreases |names|
  {
    if names != [] {
      if names[0] in w.engines {
        StepExtends(w, s, names[0]);
        if Attempted(w, s, names[0]).1.None? {
          LoopExtends(w, Attempted(w, s, names[0]).0, names[1..]);
        }
      } else {
        LoopExtends(w, s.(attempted := s.attempted + [NotFound(names[0])]), names[1..]);
      }
    }
  }

  lemma HalfSeenKept(w: World, calls: seq<string>, longer: seq<string>, from: nat)
    requires calls <= longer && HalfSeen(w, calls, from)
    ensures HalfSeen(w, longer, from)
  {
    var k :| from <= k < |calls| && Half(ReplyAt(w, calls, k));
    assert longer[..k + 1] == calls[..k + 1];
    assert Half(ReplyAt(w, longer, k));
  }

  /** What the loop leaves of the stream, depending on whether a half result was seen. */
  lemma {:induction false} LoopStreams(w: World, s: State, names: seq<string>, from: nat)
    requires w.reporting && Opened(s) && from <= |s.calls| && !HalfSeen(w, s.calls, from)
    ensures var (t, o) := Loop(w, s, names);
            if HalfSeen(w, t.calls, from) then Broken(t.events)
            else (o.None? ==> Opened(t)) && (o.Some? ==> WellFormed(t.events))
    decreases |names|
  {
    if names != [] {
      if names[0] !in w.engines {
        LoopStreams(w, s.(attempted := s.attempted + [NotFound(names[0])]), names[1..], from);
      } else {
        var (t, o) := Attempted(w, s, names[0]);
        StepExtends(w, s, names[0]);
        HalfSeenStep(w, s.calls, names[0], from);
        if Half(w.behaviour(s.calls + [names[0]])) {
          StepBreaks(w, s, names[0]);
          LoopExtends(w, t, names[1..]);
          var last := Loop(w, t, names[1..]).0;
          HalfSeenKept(w, t.calls, last.calls, from);
          BrokenGrows(t.events, last.events[|t.events|..]);
          assert last.events == t.events + last.events[|t.events|..];
        } else {
          StepStreams(w, s, names[0]);
          if o.None? {
            LoopStreams(w, t, names[1..], from);
          }
        }
      }
    }
  }

  /**
   The event stream of an execution keeps the protocol exactly when no engine that was tried
   returned a model without a text: such a result is announced as completed and then fails.
   */
  lemma StreamExactly(w: World, calls: seq<string>, names: seq<string>)
    requires w.reporting
    ensures var s := Execution(w, calls, names).0;
            WellFormed(s.events) <==> !HalfSeen(w, s.calls, |calls|)
  {
    var s0 := State(calls, [], [], false);
    var (t, o) := Loop(w, s0, names);
    LoopStreams(w, s0, names, |calls|);
    var final := Execution(w, calls, names).0;
    if HalfSeen(w, t.calls, |calls|) {
      if o.None? && t.started {
        BrokenGrows(t.events, [PresenceFailed]);
      }
      if WellFormed(final.events) {
        WellFormedNotBroken(final.events);
      }
    } else if o.None? && t.started {
      RoundsJoin(t.events[1..], [PresenceFailed]);
      assert final.events[1..] == t.events[1..] + [PresenceFailed];
    }
  }

  /** Without a callback nothing is reported. */
  lemma {:induction false} SilentLoop(w: World, s: State, names: seq<string>)
    requires !w.reporting
    ensures Loop(w, s, names).0.events == s.events
    decreases |names|
  {
    if names != [] {
      if names[0] in w.engines {
        if Attempted(w, s, names[0]).1.None? {
          SilentLoop(w, Attempted(w, s, names[0]).0, names[1..]);
        }
      } else {
        SilentLoop(w, s.(attempted := s.attempted + [NotFound(names[0])]), names[1..]);
      }
    }
  }

  /** The names of engines that exist. */
  function Existing(w: World, names: seq<string>): seq<string> {
    if names == [] then []
    else (if names[0] in w.engines then [names[0]] else []) + Existing(w, names[1..])
  }

  /** An attempt that did not end in success. */
  predicate Unsuccessful(a: Attempt) {
    a.NotFound? || a.Failed?
  }

  /** The attempts list the first `n` names, entry by entry, all unsuccessful but a final success. */
  ghost predicate Lists(w: World, attempts: seq<Attempt>, names: seq<string>, answered: bool) {
    && |attempts| == |names|
    && (forall i :: 0 <= i < |names| ==>
          attempts[i].engine == names[i] && (attempts[i].NotFound? <==> names[i] !in w.engines))
    && (forall i :: 0 <= i < |names| && (i < |names| - 1 || !answered) ==> Unsuccessful(attempts[i]))
    && (answered ==> names != [] && attempts[|names| - 1].Succeeded?)
  }

  lemma ListsCons(w: World, attempt: Attempt, name: string, attempts: seq<Attempt>, names: seq<string>, answered: bool)
    requires Lists(w, attempts, names, answered) && Unsuccessful(attempt) && attempt.engine == name
    requires attempt.NotFound? <==> name !in w.engines
    ensures Lists(w, [attempt] + attempts, [name] + names, answered)
  {
    forall i | 0 <= i < |names| + 1
      ensures ([attempt] + attempts)[i] == if i == 0 then attempt else attempts[i - 1]
      ensures ([name] + names)[i] == if i == 0 then name else names[i - 1]
    {
    }
  }

  /**
   The loop stops after the first `n` names: it called those of them that exist, in order, and
   lists them entry by entry when no half result gave one engine two entries.
   */
  lemma {:induction false} TriedPrefix(w: World, s: State, names: seq<string>) returns (n: nat)
    ensures var (t, o) := Loop(w, s, names);
            && n <= |names| && t.calls == s.calls + Existing(w, names[..n])
            && (o.None? ==> n == |names|)
            && (o.Some? ==> n > 0 && names[n - 1] == o.value.engine && names[n - 1] in w.engines)
            && (!HalfSeen(w, t.calls, |s.calls|) ==>
                  s.attempted <= t.attempted
                  && Lists(w, t.attempted[|s.attempted|..], names[..n], o.Some?))
    decreases |names|
  {
    if names == [] {
      n := 0;
      assert names[..0] == [];
    } else if names[0] !in w.engines {
      var skipped := s.(attempted := s.attempted + [NotFound(names[0])]);
      var m := TriedPrefix(w, skipped, names[1..]);
      n := m + 1;
      var (t, o) := Loop(w, s, names);
      assert names[..n] == [names[0]] + names[1..][..m];
      if !HalfSeen(w, t.calls, |s.calls|) {
        ListsCons(w, NotFound(names[0]), names[0], t.attempted[|skipped.attempted|..], names[1..][..m], o.Some?);
        assert t.attempted[|s.attempted|..] == [NotFound(names[0])] + t.attempted[|skipped.attempted|..];
      }
    } else {
      n := TriedOne(w, s, names);
    }
  }

  /** An engine without a half result is listed once. */
  lemma OneEntry(w: World, s: State, name: string)
    requires !Half(w.behaviour(s.calls + [name])) && Attempted(w, s, name).1.None?
    ensures var t := Attempted(w, s, name).0;
            && |t.attempted| == |s.attempted| + 1 && t.attempted[..|s.attempted|] == s.attempted
            && t.attempted[|s.attempted|].Failed? && t.attempted[|s.attempted|].engine == name
  {
  }

  lemma {:induction false} TriedOne(w: World, s: State, names: seq<string>) returns (n: nat)
    requires names != [] && names[0] in w.engines
    ensures var (t, o) := Loop(w, s, names);
            && n <= |names| && t.calls == s.calls + Existing(w, names[..n])
            && (o.None? ==> n == |names|)
            && (o.Some? ==> n > 0 && names[n - 1] == o.value.engine && names[n - 1] in w.engines)
            && (!HalfSeen(w, t.calls, |s.calls|) ==>
                  s.attempted <= t.attempted
                  && Lists(w, t.attempted[|s.attempted|..], names[..n], o.Some?))
    decreases |names|, 0
  {
    var (next, answer) := Attempted(w, s, names[0]);
    StepExtends(w, s, names[0]);
    if answer.Some? {
      n := 1;
      assert names[..1] == [names[0]] && names[..1][1..] == [];
      assert next.attempted[|s.attempted|..] == [Succeeded(names[0])];
    } else {
      var m := TriedPrefix(w, next, names[1..]);
      n := m + 1;
      var (t, o) := Loop(w, s, names);
      assert names[..n] == [names[0]] + names[1..][..m];
      if !HalfSeen(w, t.calls, |s.calls|) {
        LoopExtends(w, next, names[1..]);
        NoHalfBefore(w, s.calls, names[0], t.calls);
        OneEntry(w, s, names[0]);
        EntryThenRest(w, s.attempted, next.attempted, t.attempted, names[0], names[1..][..m], o.Some?);
      }
    }
  }

  /** No half result over a run means none at its first call, and none after it. */
  lemma NoHalfBefore(w: World, calls: seq<string>, name: string, later: seq<string>)
    requires calls + [name] <= later && !HalfSeen(w, later, |calls|)
    ensures !Half(w.behaviour(calls + [name])) && !HalfSeen(w, later, |calls| + 1)
  {
    HalfSeenStep(w, calls, name, |calls|);
    if HalfSeen(w, calls + [name], |calls|) {
      HalfSeenKept(w, calls + [name], later, |calls|);
    }
    if HalfSeen(w, later, |calls| + 1) {
      HalfSeenEarlier(w, later, |calls| + 1, |calls|);
    }
  }

  lemma EntryThenRest(w: World, before: seq<Attempt>, next: seq<Attempt>, all: seq<Attempt>, name: string,
                      names: seq<string>, answered: bool)
    requires |next| == |before| + 1 && next[..|before|] == before && next <= all
    requires next[|before|].Failed? && next[|before|].engine == name && name in w.engines
    requires Lists(w, all[|next|..], names, answered)
    ensures before <= all && Lists(w, all[|before|..], [name] + names, answered)
  {
    ListsCons(w, next[|before|], name, all[|next|..], names, answered);
    assert all[|before|..] == [next[|before|]] + all[|next|..];
  }

  lemma HalfSeenEarlier(w: World, calls: seq<string>, from: nat, earlier: nat)
    requires earlier <= from && HalfSeen(w, calls, from)
    ensures HalfSeen(w, calls, earlier)
  {
  }

  /** The calls before the answering one did not answer; the answer is the last call's, contained. */
  lemma {:induction false} LoopAnswer(w: World, s: State, names: seq<string>)
    ensures var (t, o) := Loop(w, s, names);
            && s.calls <= t.calls
            && (forall k :: |s.calls| <= k < |t.calls| && (o.None? || k < |t.calls| - 1) ==>
                  !Answers(ReplyAt(w, t.calls, k)))
            && (o.Some? ==> Answered(w, s.calls, t.calls, o.value))
    decreases |names|
  {
    if names != [] {
      if names[0] !in w.engines {
        LoopAnswer(w, s.(attempted := s.attempted + [NotFound(names[0])]), names[1..]);
      } else {
        var (next, answer) := Attempted(w, s, names[0]);
        StepExtends(w, s, names[0]);
        assert next.calls[..|s.calls| + 1] == next.calls;
        if answer.None? {
          LoopAnswer(w, next, names[1..]);
          var t := Loop(w, next, names[1..]).0;
          assert t.calls[..|s.calls| + 1] == next.calls;
        }
      }
    }
  }

  /** The outcome is that of the last call, made after `before`. */
  ghost predicate Answered(w: World, before: seq<string>, calls: seq<string>, o: Outcome) {
    && |calls| > |before| && calls[|calls| - 1] == o.engine
    && Answers(w.behaviour(calls)) && o.result == Contain(w.behaviour(calls).result, REASON)
  }

  /**
   The result comes from the first engine that exists and answers: engines are called in name
   order, missing ones are passed over, none before it answered, and none after it is called.
   Without a half result the attempts match the tried names entry by entry.
   */
  lemma FirstAnswerWins(w: World, calls: seq<string>, names: seq<string>) returns (n: nat)
    ensures var (s, o) := Execution(w, calls, names);
            && n <= |names| && s.calls == calls + Existing(w, names[..n])
            && (forall k :: |calls| <= k < |s.calls| && (o.None? || k < |s.calls| - 1) ==>
                  !Answers(ReplyAt(w, s.calls, k)))
            && (o.None? ==> n == |names|)
            && (o.Some? ==> n > 0 && names[n - 1] == o.value.engine && Answered(w, calls, s.calls, o.value))
            && (!HalfSeen(w, s.calls, |calls|) ==> Lists(w, s.attempted, names[..n], o.Some?))
  {
    var s0 := State(calls, [], [], false);
    n := TriedPrefix(w, s0, names);
    LoopAnswer(w, s0, names);
    var t := Loop(w, s0, names).0;
    assert t.attempted[0..] == t.attempted;
  }

  /** A lone engine that returns a model and no text is reported as completed and then as failed. */
  lemma HalfResultWitness(name: string)
    ensures var half := Result(Some(Str("model")), None, None, false, false, None);
            var w := World(map[name := Engine(Null, false, false, false)], (_: seq<string>) => Returned(half), true);
            !WellFormed(Execution(w, [], [name]).0.events)
  {
    var half := Result(Some(Str("model")), None, None, false, false, None);
    var w := World(map[name := Engine(Null, false, false, false)], (_: seq<string>) => Returned(half), true);
    var s := Execution(w, [], [name]).0;
    StreamExactly(w, [], [name]);
    var n := TriedPrefix(w, State([], [], [], false), [name]);
    assert [name][1..] == [];
    assert s.calls == [name];
    assert Half(ReplyAt(w, s.calls, 0));
  }
}
