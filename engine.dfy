/** `PresenceEngine`: the object the timer ticks and the menu forces. */
module Engine {
  import opened Optional
  import opened PresenceConfig
  import opened Decision
  import opened EngineSpec

  class PresenceEngine {
    const config: Config

    // the engine's private fields
    var lastState: PresenceState
    var forcedState: Option<PresenceState>

    // what the engine has done to the outside world so far
    ghost var commands: seq<Action>            // calls on the light client
    ghost var notifications: seq<PresenceState> // calls of `onStateChange`
    ghost var queries: seq<Query>              // signal sources asked
    ghost var history: seq<Event>              // calls into the engine

    ghost function State(): EngineState
      reads this
    {
      EngineState(lastState, forcedState, commands, notifications, queries)
    }

    /** The object is the engine that the calls in `history` produce. */
    ghost predicate Valid()
      reads this
    {
      State() == Run(config, history)
    }

    constructor (config: Config)
      ensures this.config == config && history == [] && Valid()
      ensures lastState == Unknown && forcedState == None
      ensures commands == [] && notifications == [] && queries == []
    {
      this.config := config;
      lastState := Unknown;
      forcedState := None;
      commands, notifications, queries, history := [], [], [], [];
    }

    /** Pin `state` and apply it at once. */
    method Force(state: PresenceState)
      requires Valid()
      modifies this
      ensures Valid() && history == old(history) + [Forced(state)]
      ensures forcedState == Some(state) && lastState == state
      ensures notifications == old(notifications) + [state]
      ensures commands == old(commands) + CommandFor(config.userId, state)
      ensures queries == old(queries)
      ensures LightMatches(config, State())
    {
      forcedState := Some(state);
      Apply(state);
      history := history + [Forced(state)];
      RunSnoc(config, old(history), Forced(state));
      RunLightMatches(config, history);
    }

    /** One timer tick; `readings` is what each signal source reports if the
        tick asks it. */
    method Tick(readings: Readings)
      requires Valid()
      modifies this
      ensures Valid() && history == old(history) + [Ticked(readings)]
      ensures forcedState == old(forcedState)
      // a pinned state is applied again, and no signal is asked
      ensures old(forcedState).Some? ==>
        && lastState == old(forcedState).value
        && notifications == old(notifications) + [lastState]
        && commands == old(commands) + CommandFor(config.userId, lastState)
        && queries == old(queries)
      // otherwise the computed state becomes the last state, and is applied
      // only when it differs from the previous one
      ensures old(forcedState).None? ==>
        && lastState == NewState(config, readings)
        && queries == old(queries) + QueriesFor(config)
        && (lastState == old(lastState) ==>
              notifications == old(notifications) && commands == old(commands))
        && (lastState != old(lastState) ==>
              && notifications == old(notifications) + [lastState]
              && commands == old(commands) + CommandFor(config.userId, lastState))
      ensures LightMatches(config, State())
    {
      ghost var before := State();
      if forcedState.Some? {
        Apply(forcedState.value);
      } else {
        queries := queries + [MicCam];
        var micOrCam := readings.micOrCamInUse;
        queries := queries + [FrontApp];
        var isMeetingApp := IsFrontmostIn(readings.frontmostBundle, config.meetingBundles);
        micOrCam := micOrCam || (config.debugAssumeFrontmostImpliesMic && isMeetingApp);
        var eventOK := false;
        if config.useCalendar {
          queries := queries + [Calendar];
          eventOK := readings.calendarHasMeeting;
        }
        var newState := if micOrCam && (isMeetingApp || eventOK) then InMeeting else NotMeeting;
        assert newState == NewState(config, readings);
        if newState != lastState {
          Apply(newState);
        }
      }
      assert State() == TickStep(config, before, readings);
      history := history + [Ticked(readings)];
      RunSnoc(config, old(history), Ticked(readings));
      RunLightMatches(config, history);
    }

    /** `apply`, private in the engine: record the state, notify the
        observer, send the one device command for the state. */
    method Apply(state: PresenceState)
      modifies this
      ensures lastState == state
      ensures notifications == old(notifications) + [state]
      ensures commands == old(commands) + CommandFor(config.userId, state)
      ensures forcedState == old(forcedState) && queries == old(queries)
      ensures history == old(history)
    {
      lastState := state;
      notifications := notifications + [state];
      match state
      case InMeeting => commands := commands + [On(config.userId)];
      case NotMeeting => commands := commands + [Off(config.userId)];
      case Unknown =>
    }
  }
}
