/** The engine's configuration, `PresenceEngine.Config`, as an immutable value. */
module PresenceConfig {

  /** The fields of `PresenceEngine.Config` that the engine's decision reads.
      `debugAssumeFrontmostImpliesMic` is not declared in PresenceEngine.swift;
      the engine's tests set it, and its effect here is the one those tests expect. */
  datatype Config = Config(
    userId: string,
    meetingBundles: set<string>,
    useCalendar: bool,
    debugAssumeFrontmostImpliesMic: bool)

  /** The built-in allowlist of meeting and browser bundle identifiers. */
  function DefaultMeetingBundles(): set<string>
  {
    {
      "us.zoom.xos",
      "com.microsoft.teams2",
      "com.microsoft.teams",
      "com.cisco.webex.meetingapp",
      "com.slack.slack",
      "com.google.Chrome",
      "com.apple.Safari"
    }
  }

  /** The hard-coded defaults used when no configuration file supplies a value. */
  function DefaultConfig(): (c: Config)
    ensures c.userId == "YOUR_USER_ID_HERE"
    ensures c.meetingBundles == DefaultMeetingBundles()
    ensures "us.zoom.xos" in c.meetingBundles && "com.microsoft.teams" in c.meetingBundles
    ensures !c.useCalendar && !c.debugAssumeFrontmostImpliesMic
  {
    Config("YOUR_USER_ID_HERE", DefaultMeetingBundles(), false, false)
  }
}
