# LuxaforPresence presence engine in Dafny

LuxaforPresence is a macOS menu-bar app. It decides whether the user is in a
meeting and shows the answer on a Luxafor indicator light. Its decision logic
lives in `PresenceEngine`:

- A timer calls `tick()`. Unless a state has been pinned with `force(_:)`, the
  tick reads three signals: microphone or camera in use, frontmost
  application in the meeting-app allowlist, and (only when `useCalendar` is
  set) an ongoing calendar meeting.
- The tick computes `inMeeting` when the microphone or camera is in use and
  either a meeting app is in front or the calendar has a meeting. Otherwise
  it computes `notMeeting`.
- The computed state is applied only when it differs from the last applied
  state.
- Applying a state records it, tells the observer (`onStateChange`) and
  sends one command to the light: red for `inMeeting`, off for `notMeeting`,
  nothing for `unknown`.
- A forced state is applied again on every tick without reading any signal.

The project has these modules:

- `PresenceConfig` (`config.dfy`): the configuration value and its built-in
  defaults.
- `Decision` (`decision.dfy`): the presence states, the signal readings and
  the activation rule `NewState`, with lemmas about the rule.
- `EngineSpec` (`engine_spec.dfy`): the engine as a state machine over
  values. `Step` is one call into the engine and `Run` folds `Step` over a
  sequence of calls from a freshly constructed engine. The lemmas here cover
  every reachable state.
- `Engine` (`engine.dfy`): the class `PresenceEngine`. Its fields are
  `lastState` and `forcedState`, and its ghost logs record the commands sent
  to the light, the observer notifications, the signal sources asked and the
  calls made. `Valid()` says that the object equals `Run` of its call
  history, so every lemma in `EngineSpec` holds of the object.
- `Scenarios` (`scenarios.dfy`): the engine's three unit tests, stated as
  facts about the model for every configuration they could load, plus two
  further instances of the activation rule.
- `Optional` (`optional.dfy`): Swift's optional type.

Signal values are parameters of `Tick` (a `Readings` value). The ghost
`queries` log records which sources a tick would actually ask. The rule of
`FrontmostAppSignal` is folded into the model as follows: a missing
application or missing bundle identifier counts as false, and otherwise the
bundle identifier is tested for membership in the allowlist.

Three behaviours of the code worth stating:

- `force` accepts any `PresenceState`, so `force(.unknown)` applies
  `unknown`: it notifies `unknown` and sends no command.
  `NeverUnknownUnlessForced` states that `unknown` is never notified unless
  it is forced. The app's own menu forces only `.inMeeting` and
  `.notMeeting` (LuxaforPresence/AppDelegate.swift:42-43).
- The engine has no operation that clears a forced state, so a forced state
  stays pinned for the engine's life, in the code and in the model.
- `debugAssumeFrontmostImpliesMic` is not declared in PresenceEngine.swift,
  and the engine there has no initialiser that takes injected collaborators.
  The unit tests use both. The flag is modelled as a configuration boolean
  that counts a meeting app in front as microphone activity, which is the
  effect the tests expect. Only the tests are evidence for this.

## Model

| member | source | states |
|---|---|---|
| `PresenceConfig.DefaultConfig` | LuxaforPresence/PresenceEngine.swift:10-23 | the hard-coded defaults: placeholder user id, the seven-entry meeting allowlist, calendar off (and the debug flag off) |
| `Decision.IsFrontmostIn` | LuxaforPresence/Signals/FrontmostAppSignal.swift:4-8 | no frontmost app or no bundle id gives false; otherwise the answer is membership in the allowlist |
| `Decision.NewState` | LuxaforPresence/PresenceEngine.swift:77-83 | the computed state is never `Unknown`; it is `InMeeting` exactly when activity holds and (a meeting app is in front or the calendar is enabled and reports a meeting) |
| `Decision.CalendarIgnoredWhenDisabled` | LuxaforPresence/PresenceEngine.swift:79-83 | with `useCalendar` off the calendar reading changes nothing; with the debug flag also off, the rule reduces to mic/cam in use and a meeting app in front |
| `Decision.MicOrCamIsRequired` | LuxaforPresence/PresenceEngine.swift:82-83 | without the debug flag, idle mic and camera give `NotMeeting` whatever the app and calendar say |
| `Decision.ActivityAloneIsNotEnough` | LuxaforPresence/PresenceEngine.swift:79-83 | with no meeting app in front and no counted calendar meeting, the state is `NotMeeting` |
| `Decision.DebugFlagAssumesActivity` | LuxaforPresence/Tests/PresenceEngineTests.swift:21-35 | with the debug flag and a meeting app in front, the state is `InMeeting` even with idle mic and camera |
| `Decision.NewStateMonotone` | LuxaforPresence/PresenceEngine.swift:82-83 | more evidence (mic, meeting app, calendar) never turns `InMeeting` into `NotMeeting` |
| `EngineSpec.CommandFor` | LuxaforPresence/PresenceEngine.swift:93-97 | apply sends at most one command, none exactly for `Unknown`, addressed to the configured user and showing the applied state |
| `EngineSpec.CommandsOf` | LuxaforPresence/PresenceEngine.swift:90-97 | a sequence of applied states yields no more commands than states, each for the user and for one of those states |
| `EngineSpec.Step` | LuxaforPresence/PresenceEngine.swift:69-98 | one `tick` or `force` extends each log by at most one command and one notification; only `force` changes the pinned state; the last state changes only together with a notification of it |
| `EngineSpec.ApplyStep` | LuxaforPresence/PresenceEngine.swift:90-97 | `apply` sets the last state, appends one notification of it, appends one command for the user showing it (none for `Unknown`), and leaves the pinned state and the signal log alone |
| `EngineSpec.ForceStep` | LuxaforPresence/PresenceEngine.swift:69-72 | `force(s)` pins `s`, makes it the last state, notifies it and sends its command, asking no signal |
| `EngineSpec.TickStep` | LuxaforPresence/PresenceEngine.swift:74-88 | pinned: re-applies the pinned state (one notification of it and its command sent again) and asks no signal; otherwise asks the signals, the last state becomes the computed (never `Unknown`) state, and exactly when it differs from the previous one it is notified and its command is sent |
| `EngineSpec.Run` | LuxaforPresence/PresenceEngine.swift:66-98 | from a fresh engine, n calls give at most n commands and n notifications, and the pinned state is the latest `force` (none before any) |
| `EngineSpec.ForcedTickIgnoresSignals` | LuxaforPresence/PresenceEngine.swift:75 | a tick with a pinned state asks no signal, applies the pinned state, and is the same whatever the signals would report |
| `EngineSpec.CalendarNotAskedWhenDisabled` | LuxaforPresence/PresenceEngine.swift:79-80 | with `useCalendar` off a tick never asks the calendar and does not depend on its reading |
| `EngineSpec.RunConsistent` | LuxaforPresence/PresenceEngine.swift:90-97 | in every reachable state the commands are exactly those of the notified states in order, and the last state is the last notified (`Unknown` before any) |
| `EngineSpec.RunLightMatches` | LuxaforPresence/PresenceEngine.swift:85-97 | in every reachable state the latest command sent is red for `InMeeting` and off for `NotMeeting`, so the light shows the last applied state |
| `EngineSpec.NeverUnknownUnlessForced` | LuxaforPresence/PresenceEngine.swift:66-98 | unless `force(.unknown)` is called, `Unknown` is never notified, never pinned, and after the first call never the last state |
| `EngineSpec.ForcePersists` | LuxaforPresence/PresenceEngine.swift:69-75 | after `force(s)`, each later tick notifies `s` and sends the command for `s` again, asks no signal, and keeps `s` pinned and last |
| `EngineSpec.TicksDebounce` | LuxaforPresence/PresenceEngine.swift:85-87 | with no override, no two consecutive notifications and no two consecutive commands are equal |
| `Engine.PresenceEngine.constructor` | LuxaforPresence/PresenceEngine.swift:59-67 | a new engine has last state `Unknown`, nothing pinned and empty logs |
| `Engine.PresenceEngine.Force` | LuxaforPresence/PresenceEngine.swift:69-72 | pins the state and applies it: last state, one notification, the one command for it; no signal asked; the light matches |
| `Engine.PresenceEngine.Tick` | LuxaforPresence/PresenceEngine.swift:74-88 | pinned: re-applies it without asking signals; otherwise asks mic/cam, the frontmost app and (only if enabled) the calendar, sets the last state to the computed one and notifies and commands only if it changed; the light matches |
| `Engine.PresenceEngine.Apply` | LuxaforPresence/PresenceEngine.swift:90-98 | sets the last state, appends one notification and exactly the command for the state, and changes nothing else |
| `Scenarios.FirstTickTurnsOnForMicAndMeetingApp` | LuxaforPresence/Tests/PresenceEngineTests.swift:5-18 | for any configuration with the calendar off, a first tick with mic in use and an allowlisted app in front sends exactly one "on" for the user |
| `Scenarios.DebugFlagTurnsOnWithoutMic` | LuxaforPresence/Tests/PresenceEngineTests.swift:21-35 | for any configuration with the debug flag on and the calendar off, a first tick with idle mic and an allowlisted app in front sends exactly one "on" |
| `Scenarios.ForceBypassesSignals` | LuxaforPresence/Tests/PresenceEngineTests.swift:38-53 | for any configuration, forcing `NotMeeting` and then a tick, whatever its signals say, sends exactly two "off" commands |
| `Scenarios.NoMeetingAppNoCalendar` | LuxaforPresence/PresenceEngine.swift:78-83 | an extra instance of the rule, not one of the unit tests, and a special case of `ActivityAloneIsNotEnough`: with the defaults, activity with an app outside the allowlist gives `NotMeeting` |
| `Scenarios.CalendarMeetingCounts` | LuxaforPresence/PresenceEngine.swift:79-83 | an extra instance of the rule, not one of the unit tests: activity with an app outside the allowlist but an enabled calendar meeting gives `InMeeting` |
| `Scenarios.ForceThenTickOnEngine` | LuxaforPresence/Tests/PresenceEngineTests.swift:38-53 | through the engine object, for any configuration and signals: `Force(NotMeeting)` then `Tick` sends exactly two "off" commands, notifies `NotMeeting` twice and asks no signal |
| `Scenarios.FirstTickOnEngine` | LuxaforPresence/Tests/PresenceEngineTests.swift:5-18 | through the engine object, with the calendar off: a first tick with mic in use and an allowlisted app in front sends exactly one "on", notifies `InMeeting` once and asks only mic/cam and the frontmost app |

## Left out

- Configuration loading (the plist lookup in the user's Application Support directory, then the bundle) is file I/O. `Config` is a given value; only the hard-coded defaults are modelled.
- `pollInterval` and the `Timer` that drives `tick` are left out: they are floating-point timing owned by the app delegate, and the engine never reads them.
- The signal adapters (`MicCamSignal`, `CalendarSignal`, the `NSWorkspace` query of `FrontmostAppSignal`) and their permission requests are OS and library calls. Their answers are the `Readings` passed to `Tick`.
- The HTTP client `LuxaforClient` is a fire-and-forget POST. It is modelled only as the log of `On`/`Off` actions.
- The observer `onStateChange` is optional in the engine, and no call is made when it is unset. The `notifications` log records what a registered observer receives; the unset case is not distinguished.
- `config` is a mutable property of the engine. The model fixes it at construction, because nothing in the app changes it after start-up.
- The menu-bar UI, the status icon and the `DispatchQueue.main.async` hop to the main thread are presentation only and are left out.
- Calls into the engine are treated as sequential. Interleaving of a UI-driven `force` with a timer-driven `tick` is not modelled.
- The definition of `PresenceState` (its raw string values) is not part of this model; only its three cases are.
- Bundle identifiers are compared as sequences of code points. Swift's `String` equality, used by `Set.contains` (LuxaforPresence/Signals/FrontmostAppSignal.swift:7), uses Unicode canonical equivalence. The two agree on ASCII identifiers such as bundle identifiers.
- `apply` calls the observer before it sends the device command. The model keeps notifications and commands in two separate logs, so it does not record that order between them.
