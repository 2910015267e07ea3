/** The engine's three unit-test scenarios, as facts about the model for
    every configuration the tests could load, and two further instances of
    the activation rule. */
module Scenarios {
  import opened Optional
  import opened PresenceConfig
  import opened Decision
  import opened EngineSpec
  import opened Engine

  /** The first tick always applies, since no computed state is `Unknown`:
      microphone in use with a meeting app in front turns the light on. */
  lemma FirstTickTurnsOnForMicAndMeetingApp(cfg: Config, bundle: string, calendar: bool)
    requires !cfg.useCalendar && bundle in cfg.meetingBundles
    ensures Run(cfg, [Ticked(Readings(true, Some(bundle), calendar))]).commands == [On(cfg.userId)]
  {
    var evs := [Ticked(Readings(true, Some(bundle), calendar))];
    assert evs[..0] == [];
  }

  /** With the debug flag, a meeting app in front turns the light on even
      though the microphone and camera are idle. */
  lemma DebugFlagTurnsOnWithoutMic(cfg: Config, bundle: string, calendar: bool)
    requires !cfg.useCalendar && cfg.debugAssumeFrontmostImpliesMic && bundle in cfg.meetingBundles
    ensures Run(cfg, [Ticked(Readings(false, Some(bundle), calendar))]).commands == [On(cfg.userId)]
  {
    var evs := [Ticked(Readings(false, Some(bundle), calendar))];
    assert evs[..0] == [];
  }

  /** `force(.notMeeting)` followed by a tick turns the light off twice,
      whatever the signals would say (the test has them say "meeting"). */
  lemma ForceBypassesSignals(cfg: Config, rd: Readings)
    ensures Run(cfg, [Forced(NotMeeting), Ticked(rd)]).commands == [Off(cfg.userId), Off(cfg.userId)]
  {
    var pre := [Forced(NotMeeting)];
    assert pre[..0] == [];
    ForcePersists(cfg, pre, [Ticked(rd)], NotMeeting);
    assert pre + [Ticked(rd)] == [Forced(NotMeeting), Ticked(rd)];
  }

  /** Activity with no meeting app in front and the calendar off: not in a
      meeting. Only an instance of `ActivityAloneIsNotEnough` for the default
      configuration; it adds no fact of its own. */
  lemma NoMeetingAppNoCalendar(bundle: string, calendar: bool)
    requires bundle !in DefaultMeetingBundles()
    ensures NewState(DefaultConfig(), Readings(true, Some(bundle), calendar)) == NotMeeting
  {
  }

  /** Activity with no meeting app in front but a calendar meeting, with the
      calendar on: in a meeting. */
  lemma CalendarMeetingCounts(bundle: string)
    requires bundle !in DefaultMeetingBundles()
    ensures NewState(DefaultConfig().(useCalendar := true), Readings(true, Some(bundle), true)) == InMeeting
  {
  }

  /** The forcing scenario driven through the engine object itself. */
  method ForceThenTickOnEngine(cfg: Config, rd: Readings) returns (engine: PresenceEngine)
    ensures engine.commands == [Off(cfg.userId), Off(cfg.userId)]
    ensures engine.notifications == [NotMeeting, NotMeeting]
    ensures engine.queries == []
  {
    engine := new PresenceEngine(cfg);
    engine.Force(NotMeeting);
    engine.Tick(rd);
    assert engine.lastState == NotMeeting;
  }

  /** The first scenario driven through the engine object itself. */
  method FirstTickOnEngine(cfg: Config, bundle: string, calendar: bool) returns (engine: PresenceEngine)
    requires !cfg.useCalendar && bundle in cfg.meetingBundles
    ensures engine.commands == [On(cfg.userId)]
    ensures engine.notifications == [InMeeting]
    ensures engine.queries == [MicCam, FrontApp]
  {
    var readings := Readings(true, Some(bundle), calendar);
    assert NewState(cfg, readings) == InMeeting;
    assert QueriesFor(cfg) == [MicCam, FrontApp];
    engine := new PresenceEngine(cfg);
    engine.Tick(readings);
    assert engine.lastState == InMeeting;
  }
}
