/** The activation decision of `PresenceEngine.tick`: three signal readings
    and the configuration give a presence state. */
module Decision {
  import opened Optional
  import opened PresenceConfig

  /** The engine's presence value; `Unknown` is the start-up sentinel. */
  datatype PresenceState = Unknown | InMeeting | NotMeeting

  /** What the three signal sources report at the moment of one tick:
      whether a microphone or camera is in use, the bundle identifier of the
      frontmost application (`None` when there is no frontmost application or
      it has no bundle identifier), and whether the calendar has a meeting now. */
  datatype Readings = Readings(
    micOrCamInUse: bool,
    frontmostBundle: Option<string>,
    calendarHasMeeting: bool)

  /** `FrontmostAppSignal.isFrontmostIn`: no application or no bundle
      identifier gives false, otherwise membership in the allowlist. */
  function IsFrontmostIn(frontmost: Option<string>, allowlist: set<string>): (r: bool)
    ensures frontmost == None ==> !r
    ensures frontmost.Some? ==> (r <==> frontmost.value in allowlist)
  {
    match frontmost
    case None => false
    case Some(bundle) => bundle in allowlist
  }

  /** The state one unforced tick computes from its readings. */
  function NewState(cfg: Config, rd: Readings): (s: PresenceState)
    ensures s != Unknown
    ensures s == InMeeting <==>
      var app := rd.frontmostBundle.Some? && rd.frontmostBundle.value in cfg.meetingBundles;
      (rd.micOrCamInUse || (cfg.debugAssumeFrontmostImpliesMic && app)) &&
      (app || (cfg.useCalendar && rd.calendarHasMeeting))
  {
    var isMeetingApp := IsFrontmostIn(rd.frontmostBundle, cfg.meetingBundles);
    var micOrCam := rd.micOrCamInUse || (cfg.debugAssumeFrontmostImpliesMic && isMeetingApp);
    var eventOK := cfg.useCalendar && rd.calendarHasMeeting;
    if micOrCam && (isMeetingApp || eventOK) then InMeeting else NotMeeting
  }

  /** With the calendar switched off its reading is irrelevant, and without
      the debug flag the decision is "microphone or camera in use, and a
      meeting app in front". */
  lemma CalendarIgnoredWhenDisabled(cfg: Config, rd: Readings, calendar: bool)
    requires !cfg.useCalendar
    ensures NewState(cfg, rd) == NewState(cfg, rd.(calendarHasMeeting := calendar))
    ensures !cfg.debugAssumeFrontmostImpliesMic ==>
      (NewState(cfg, rd) == InMeeting <==>
       rd.micOrCamInUse && IsFrontmostIn(rd.frontmostBundle, cfg.meetingBundles))
  {
  }

  /** Without the debug flag, an idle microphone and camera mean "not in a
      meeting" whatever the frontmost application and the calendar say. */
  lemma MicOrCamIsRequired(cfg: Config, rd: Readings)
    requires !cfg.debugAssumeFrontmostImpliesMic && !rd.micOrCamInUse
    ensures NewState(cfg, rd) == NotMeeting
  {
  }

  /** Device activity alone is not enough: with no meeting app in front and
      no calendar meeting counted, the state is "not in a meeting". */
  lemma ActivityAloneIsNotEnough(cfg: Config, rd: Readings)
    requires !IsFrontmostIn(rd.frontmostBundle, cfg.meetingBundles)
    requires !cfg.useCalendar || !rd.calendarHasMeeting
    ensures NewState(cfg, rd) == NotMeeting
  {
  }

  /** With the debug flag and a meeting app in front, the microphone and
      camera reading is treated as true. */
  lemma DebugFlagAssumesActivity(cfg: Config, rd: Readings)
    requires cfg.debugAssumeFrontmostImpliesMic
    requires IsFrontmostIn(rd.frontmostBundle, cfg.meetingBundles)
    ensures NewState(cfg, rd) == InMeeting
  {
  }

  /** More evidence never turns "in a meeting" into "not in a meeting". */
  lemma NewStateMonotone(cfg: Config, rd1: Readings, rd2: Readings)
    requires rd1.micOrCamInUse ==> rd2.micOrCamInUse
    requires rd1.calendarHasMeeting ==> rd2.calendarHasMeeting
    requires IsFrontmostIn(rd1.frontmostBundle, cfg.meetingBundles) ==>
             IsFrontmostIn(rd2.frontmostBundle, cfg.meetingBundles)
    ensures NewState(cfg, rd1) == InMeeting ==> NewState(cfg, rd2) == InMeeting
  {
  }
}
