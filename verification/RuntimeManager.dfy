/**
 Running engines with fallbacks and reporting on them (runtime/runtime_manager.py). Engines
 behave arbitrarily; the report callback is total.
 */
module RuntimeManager {
  import opened ExecutionContainment
  import opened JsonValues
  import opened Wrappers

  datatype Engine = Engine(model: Json, cloud: bool, webSearch: bool, dryRun: bool)

  /** What running an engine can do. */
  datatype Reply = Raised(error: string) | Returned(result: Result)

  /** The registry, with empty entries counting as missing, and how engines react to their calls so far. */
  datatype World = World(engines: map<string, Engine>, behaviour: seq<string> -> Reply, reporting: bool)

  datatype Event =
    | PresenceStarted(engine: string)
    | PresenceProgress(engine: string)
    | AttemptStarted(engine: string)
    | AttemptFailed(engine: string, error: string)
    | PresenceCompleted(engine: string)
    | PresenceFailed

  datatype Attempt =
    | NotFound(engine: string)
    | Failed(engine: string, error: string)
    | Succeeded(engine: string)

  /** The engines called, the events reported and the attempts listed so far. */
  datatype State = State(calls: seq<string>, events: seq<Event>, attempted: seq<Attempt>, started: bool)

  /** What the caller gets: the engine that answered, with its contained result. */
  datatype Outcome = Outcome(engine: string, result: Result)

  const NO_MODEL := "KeyError('model')"
  const NO_TEXT := "KeyError('text')"
  const REASON := "blocked_provider_execution"

  function Report(w: World, s: State, events: seq<Event>): State {
    if w.reporting then s.(events := s.events + events) else s
  }

  /** The events before an engine runs, and the call itself. */
  function Announced(w: World, s: State, name: string): State {
    var opening := if s.started then [] else [PresenceStarted(name)];
    Report(w, s, opening + [PresenceProgress(name), AttemptStarted(name)])
      .(calls := s.calls + [name], started := s.started || w.reporting)
  }

  function FailedWith(w: World, s: State, name: string, error: string): State {
    Report(w, s, [AttemptFailed(name, error)]).(attempted := s.attempted + [Failed(name, error)])
  }

  function SucceededWith(w: World, s: State, name: string): State {
    Report(w, s, [PresenceCompleted(name)]).(attempted := s.attempted + [Succeeded(name)])
  }

  /** One engine that exists: the next state and, if it answered, the outcome. */
  function Attempted(w: World, s: State, name: string): (State, Option<Outcome>) {
    var ready := Announced(w, s, name);
    match w.behaviour(ready.calls)
    case Raised(error) => (FailedWith(w, ready, name, error), None)
    case Returned(result) =>
      var contained := Contain(result, REASON);
      if contained.model.None? then (FailedWith(w, ready, name, NO_MODEL), None)
      else
        var done := SucceededWith(w, ready, name);
        if contained.text.None? then (FailedWith(w, done, name, NO_TEXT), None)
        else (done, Some(Outcome(name, contained)))
  }

  /** The loop over the engine names. */
  function Loop(w: World, s: State, names: seq<string>): (State, Option<Outcome>)
    decreases |names|
  {
    if names == [] then (s, None)
    else if names[0] !in w.engines
    then Loop(w, s.(attempted := s.attempted + [NotFound(names[0])]), names[1..])
    else
      var (next, outcome) := Attempted(w, s, names[0]);
      if outcome.Some? then (next, outcome) else Loop(w, next, names[1..])
  }

  /** The closing event when every engine failed. */
  function Closed(w: World, s: State): State {
    if w.reporting && s.started then s.(events := s.events + [PresenceFailed]) else s
  }

  /** `execute_with_fallbacks` after the calls so far; no outcome stands for its `RuntimeError`. */
  function Execution(w: World, calls: seq<string>, names: seq<string>): (State, Option<Outcome>) {
    var (s, outcome) := Loop(w, State(calls, [], [], false), names);
    if outcome.Some? then (s, outcome) else (Closed(w, s), None)
  }

  /** The engines and the report callback: their calls and events are recorded. */
  class Runtime {
    const world: World
    var calls: seq<string>
    var events: seq<Event>

    constructor (world: World)
      ensures this.world == world && calls == [] && events == []
    {
      this.world, calls, events := world, [], [];
    }

    method Emit(event: Event)
      modifies this`events
      ensures events == old(events) + if world.reporting then [event] else []
    {
      if world.reporting {
        events := events + [event];
      }
    }

    /** `execute_litellm`. */
    method Call(name: string) returns (reply: Reply)
      modifies this`calls
      ensures calls == old(calls) + [name] && reply == world.behaviour(calls)
    {
      calls := calls + [name];
      reply := world.behaviour(calls);
    }

    /** The exception handler of the loop. */
    method FailEngine(name: string, attempted: seq<Attempt>, error: string) returns (listed: seq<Attempt>)
      modifies this`events
      ensures events == old(events) + if world.reporting then [AttemptFailed(name, error)] else []
      ensures listed == attempted + [Failed(name, error)]
    {
      listed := attempted + [Failed(name, error)];
      Emit(AttemptFailed(name, error));
    }

    /** The loop body for an engine that exists; `base` holds the events before the execution. */
    method RunEngine(name: string, attempted: seq<Attempt>, started: bool, ghost base: seq<Event>, ghost s: State)
      returns (outcome: Option<Outcome>, listed: seq<Attempt>)
      requires calls == s.calls && events == base + s.events && attempted == s.attempted && started == s.started
      modifies this
      ensures var (next, o) := Attempted(world, s, name);
              && outcome == o && calls == next.calls && events == base + next.events && listed == next.attempted
              && next.started == (started || world.reporting)
    {
      outcome, listed := None, attempted;
      if !started {
        Emit(PresenceStarted(name));
      }
      Emit(PresenceProgress(name));
      Emit(AttemptStarted(name));
      ghost var ready := Announced(world, s, name);
      assert events == base + ready.events;
      var reply := Call(name);
      match reply
      case Raised(error) => listed := FailEngine(name, listed, error);
      case Returned(result) =>
        var contained := Contain(result, REASON);
        if contained.model.None? {
          listed := FailEngine(name, listed, NO_MODEL);
        } else {
          listed := listed + [Succeeded(name)];
          Emit(PresenceCompleted(name));
          assert events == base + SucceededWith(world, ready, name).events;
          if contained.text.None? {
            listed := FailEngine(name, listed, NO_TEXT);
          } else {
            outcome := Some(Outcome(name, contained));
          }
        }
    }

    /** `execute_with_fallbacks`. */
    method ExecuteWithFallbacks(names: seq<string>) returns (outcome: Option<Outcome>, attempted: seq<Attempt>)
      modifies this
      ensures var (s, o) := Execution(world, old(calls), names);
              && outcome == o && attempted == s.attempted && calls == s.calls
              && events == old(events) + s.events
    {
      outcome, attempted := None, [];
      var started := false;
      ghost var base := events;
      ghost var s := State(calls, [], [], false);
      for i := 0 to |names|
        invariant calls == s.calls && events == base + s.events && attempted == s.attempted && started == s.started
        invariant outcome.None?
        invariant Loop(world, State(old(calls), [], [], false), names) == Loop(world, s, names[i..])
      {
        var name := names[i];
        assert names[i..][0] == name && names[i..][1..] == names[i + 1..];
        if name !in world.engines {
          attempted := attempted + [NotFound(name)];
          s := s.(attempted := attempted);
        } else {
          ghost var next := Attempted(world, s, name).0;
          outcome, attempted := RunEngine(name, attempted, started, base, s);
          if outcome.Some? {
            return;
          }
          started := started || world.reporting;
          s := next;
        }
      }
      if started && world.reporting {
        Emit(PresenceFailed);
      }
    }
  }
}
