/** The socket protocol of `server/src/websocket/events.ts`: the payload
    schemas the server checks, the events it sends, and the per-connection
    session data. */
module Events {
  import opened Common
  import SyncService

  /** A validated `progress:update` payload. */
  datatype ProgressUpdate = ProgressUpdate(bookId: real, presetId: real, chapter: real, pageFraction: real, timestamp: real)

  /** `ProgressUpdateSchema.parse`: an object whose five members are all
      numbers, with no sign or range limit; other members are dropped. */
  function ParseProgressUpdate(j: Json): (r: Option<ProgressUpdate>)
    ensures r.Some? <==>
      NumberMember(j, "bookId").Some? && NumberMember(j, "presetId").Some? &&
      NumberMember(j, "chapter").Some? && NumberMember(j, "pageFraction").Some? &&
      NumberMember(j, "timestamp").Some?
    ensures r.Some? ==>
      Member(j, "bookId") == Some(JNum(r.value.bookId)) &&
      Member(j, "presetId") == Some(JNum(r.value.presetId)) &&
      Member(j, "chapter") == Some(JNum(r.value.chapter)) &&
      Member(j, "pageFraction") == Some(JNum(r.value.pageFraction)) &&
      Member(j, "timestamp") == Some(JNum(r.value.timestamp))
  {
    match (NumberMember(j, "bookId"), NumberMember(j, "presetId"), NumberMember(j, "chapter"),
           NumberMember(j, "pageFraction"), NumberMember(j, "timestamp"))
    case (Some(b), Some(p), Some(c), Some(f), Some(t)) => Some(ProgressUpdate(b, p, c, f, t))
    case _ => None
  }

  /** A validated `room:join` payload. */
  datatype JoinRequest = JoinRequest(bookId: real, presetId: real)

  /** `JoinBookRoomSchema.parse`. */
  function ParseJoin(j: Json): (r: Option<JoinRequest>)
    ensures r.Some? <==> NumberMember(j, "bookId").Some? && NumberMember(j, "presetId").Some?
    ensures r.Some? ==>
      Member(j, "bookId") == Some(JNum(r.value.bookId)) &&
      Member(j, "presetId") == Some(JNum(r.value.presetId))
  {
    match (NumberMember(j, "bookId"), NumberMember(j, "presetId"))
    case (Some(b), Some(p)) => Some(JoinRequest(b, p))
    case _ => None
  }

  /** A validated `room:leave` payload. */
  datatype LeaveRequest = LeaveRequest(bookId: real)

  /** `LeaveBookRoomSchema.parse`. */
  function ParseLeave(j: Json): (r: Option<LeaveRequest>)
    ensures r.Some? <==> NumberMember(j, "bookId").Some?
    ensures r.Some? ==> Member(j, "bookId") == Some(JNum(r.value.bookId))
  {
    match NumberMember(j, "bookId")
    case Some(b) => Some(LeaveRequest(b))
    case None => None
  }

  datatype Theme = Light | Dark

  /** A validated `settings:update` payload; every field is optional. */
  datatype SettingsUpdate = SettingsUpdate(
    moodSensitivity: Option<real>,
    musicVolume: Option<real>,
    dynamicBg: Option<bool>,
    theme: Option<Theme>)

  /** An optional numeric member: absent, or a number in `[lo, hi]`. An
      explicit `null` is not absent. */
  predicate OptionalNumberIn(j: Json, key: string, lo: real, hi: real) {
    Member(j, key).None? || (NumberMember(j, key).Some? && lo <= NumberMember(j, key).value <= hi)
  }

  function ParseTheme(s: string): (r: Option<Theme>)
    ensures r.Some? <==> s == "light" || s == "dark"
  {
    if s == "light" then Some(Light) else if s == "dark" then Some(Dark) else None
  }

  /** `UserSettingsUpdateSchema.parse`: sensitivity in [0.1, 2.0], volume in
      [0, 100], `dynamicBg` a boolean and `theme` light or dark, each only
      when present. */
  function ParseSettings(j: Json): (r: Option<SettingsUpdate>)
    ensures r.Some? <==>
      j.JObj? &&
      OptionalNumberIn(j, "moodSensitivity", 0.1, 2.0) &&
      OptionalNumberIn(j, "musicVolume", 0.0, 100.0) &&
      (Member(j, "dynamicBg").None? || BoolMember(j, "dynamicBg").Some?) &&
      (Member(j, "theme").None? ||
       (StringMember(j, "theme").Some? && ParseTheme(StringMember(j, "theme").value).Some?))
    ensures r.Some? ==>
      r.value.moodSensitivity == NumberMember(j, "moodSensitivity") &&
      r.value.musicVolume == NumberMember(j, "musicVolume") &&
      r.value.dynamicBg == BoolMember(j, "dynamicBg") &&
      r.value.theme == (if Member(j, "theme").Some? then ParseTheme(StringMember(j, "theme").value) else None)
  {
    if !j.JObj? then None
    else if !OptionalNumberIn(j, "moodSensitivity", 0.1, 2.0) then None
    else if !OptionalNumberIn(j, "musicVolume", 0.0, 100.0) then None
    else if Member(j, "dynamicBg").Some? && BoolMember(j, "dynamicBg").None? then None
    else if Member(j, "theme").Some? &&
      (StringMember(j, "theme").None? || ParseTheme(StringMember(j, "theme").value).None?) then None
    else
      var theme := if Member(j, "theme").Some? then ParseTheme(StringMember(j, "theme").value) else None;
      Some(SettingsUpdate(NumberMember(j, "moodSensitivity"), NumberMember(j, "musicVolume"),
                          BoolMember(j, "dynamicBg"), theme))
  }

  /** The empty object is a valid settings update that changes nothing, and
      a sensitivity outside [0.1, 2.0] is refused. */
  lemma SettingsExamples()
    ensures ParseSettings(JObj([])) == Some(SettingsUpdate(None, None, None, None))
    ensures ParseSettings(JObj([Field("moodSensitivity", JNum(2.5))])).None?
    ensures ParseSettings(JObj([Field("theme", JStr("blue"))])).None?
  {
    assert Member(JObj([Field("moodSensitivity", JNum(2.5))]), "moodSensitivity") == Some(JNum(2.5));
    assert Member(JObj([Field("theme", JStr("blue"))]), "theme") == Some(JStr("blue"));
  }

  /** The transitions a client understands. */
  predicate IsTransitionType(s: string) {
    s == "fade" || s == "crossfade" || s == "jump"
  }

  datatype SyncStatus = Connected | Disconnected | Syncing | StatusError

  /** `mood:trigger`. The transition is a string: the server passes on
      whatever the mood map holds without checking it is a known one. */
  datatype MoodTriggerEvent = MoodTriggerEvent(
    moodName: string,
    tempo: int,
    backgroundImageUrl: Option<string>,
    transitionType: string,
    timestamp: int)

  /** What the server sends to a client. */
  datatype ServerEvent =
    | MoodTrigger(trigger: MoodTriggerEvent)
    | SyncStatusEvent(status: SyncStatus, message: string, timestamp: int)
    | UserJoined(userId: int, username: string, timestamp: int)
    | UserLeft(userId: int, username: string, timestamp: int)
    | Pong
    | ErrorEvent(message: string, code: Option<string>)
    | SyncRecovery(events: seq<SyncService.SyncEvent>, timestamp: int)

  /** `socket.data`: who is connected, since when, and the book and preset
      of the last joined room. */
  datatype SessionData = SessionData(
    userId: int,
    username: string,
    currentBookId: Option<real>,
    currentPresetId: Option<real>,
    joinedAt: int)
}
