/** `progress:update`, `server/src/websocket/handlers/progressHandler.ts`:
    a reader's position is resolved to a mood, which is sent to the reader
    and to the rest of the book's room. The mood tables, the signer's token
    and the outcome of the two audit writes are parameters. */
module ProgressHandler {
  import opened Common
  import opened Events
  import opened SocketServer
  import MoodMap
  import MS = MoodService
  import SignedUrlService

  /** The tables the resolver reads. */
  datatype MoodTables = MoodTables(
    rows: seq<MoodMap.MoodMapRow>,
    moods: seq<MS.MoodReference>,
    backgrounds: seq<MS.Background>)

  function ProgressError(): ServerEvent {
    ErrorEvent("Failed to process progress update", Some("PROGRESS_UPDATE_ERROR"))
  }

  /** The preset id as the integer key the mood map is searched by; a
      fractional id names no preset. */
  function PresetKey(presetId: real): (r: Option<int>)
    ensures r.Some? <==> presetId == presetId.Floor as real
    ensures r.Some? ==> r.value as real == presetId
  {
    if presetId == presetId.Floor as real then Some(presetId.Floor) else None
  }

  /** The resolver as this handler calls it: genre `electronic` and the
      user's stored sensitivity. A fractional preset id resolves nothing.
      The tempo sent is the mood's electronic tempo scaled by the user's
      stored sensitivity (1.0 when none is stored), whatever genre the
      reader prefers. */
  function Resolve(tables: MoodTables, update: ProgressUpdate, sensitivity: Option<real>): (r: Option<MS.MoodTrigger>)
    ensures PresetKey(update.presetId).None? ==> r.None?
    ensures r.Some? ==> r.value.tempo == MS.AdjustedTempo(r.value.mood.tempoElectronic, sensitivity.GetOr(1.0))
  {
    MS.LowerElectronic();
    match PresetKey(update.presetId)
    case None => None
    case Some(preset) =>
      MS.CalculateMoodTrigger(tables.rows, tables.moods, tables.backgrounds, preset,
        update.chapter, update.pageFraction, Some("electronic"), sensitivity)
  }

  /** The `mood:trigger` event for a resolved mood: the background becomes
      a signed file URL, and the transition is passed on unchecked. */
  function TriggerEvent(t: MS.MoodTrigger, signedToken: string, now: int): (e: MoodTriggerEvent)
    ensures e.backgroundImageUrl.Some? <==> t.background.Some?
    ensures e.backgroundImageUrl.Some? ==> e.backgroundImageUrl.value == SignedUrlService.GenerateSignedUrl(signedToken)
    ensures e.moodName == t.mood.moodName && e.tempo == t.tempo && e.transitionType == t.transitionType
    ensures e.timestamp == now
  {
    MoodTriggerEvent(t.mood.moodName, t.tempo,
      if t.background.Some? then Some(SignedUrlService.GenerateSignedUrl(signedToken)) else None,
      t.transitionType, now)
  }

  /** The event type promises one of fade, crossfade or jump, but the
      transition is cast, not checked: whatever the mood map holds is sent. */
  lemma UnknownTransitionSent(t: MS.MoodTrigger, signedToken: string, now: int)
    requires !IsTransitionType(t.transitionType)
    ensures !IsTransitionType(TriggerEvent(t, signedToken, now).transitionType)
  {
  }

  /** What follows the resolution, in order: a resolved mood goes to the
      sender, then (once the mood audit is written) to the others in the
      room; a failing audit write ends in the generic error. */
  function Dispatch(sender: SessionId, e: Option<MoodTriggerEvent>, roomMembers: set<SessionId>,
    moodLogOk: bool, progressLogOk: bool): (d: seq<Delivery>)
    ensures e.Some? <==> exists i :: 0 <= i < |d| && d[i].event.MoodTrigger?
    ensures e.Some? ==> |d| >= 2 && d[0] == Delivery({sender}, MoodTrigger(e.value))
    ensures e.Some? && moodLogOk ==> d[1] == Delivery(roomMembers - {sender}, MoodTrigger(e.value))
    ensures forall i :: 0 < i < |d| && d[i].event.MoodTrigger? ==>
      sender !in d[i].recipients && d[i].event == MoodTrigger(e.value)
    ensures forall i :: 0 <= i < |d| && !d[i].event.MoodTrigger? ==>
      d[i] == Delivery({sender}, ProgressError()) && i == |d| - 1
    ensures (exists i :: 0 <= i < |d| && d[i].event == ProgressError()) <==> !progressLogOk || (e.Some? && !moodLogOk)
  {
    var failed := [Delivery({sender}, ProgressError())];
    assert failed[0].event == ProgressError();
    match e
    case None => if progressLogOk then [] else failed
    case Some(event) =>
      var m := MoodTrigger(event);
      if !moodLogOk then
        var d := [Delivery({sender}, m)] + failed;
        assert d[0].event.MoodTrigger? && d[1].event == ProgressError();
        d
      else
        var d := [Delivery({sender}, m), Delivery(roomMembers - {sender}, m)] + (if progressLogOk then [] else failed);
        assert d[0].event.MoodTrigger?;
        assert progressLogOk ==> |d| == 2;
        assert !progressLogOk ==> d[2].event == ProgressError();
        d
  }

  /** The deliveries `progress:update` makes. A payload that is not a
      progress update ends in the generic error; an unknown user gets
      `User not found` and nothing else, whatever the audit writes would
      do; an error only ever goes to the sender; otherwise the mood, if one is
      resolved, is dispatched to the sender and to the room of the
      payload's book, whether or not the sender is in that room. */
  function ProgressDeliveries(
    sender: SessionId, userId: int, payload: Json, users: seq<UserRecord>, tables: MoodTables,
    roomMembers: set<SessionId>, signedToken: string, moodLogOk: bool, progressLogOk: bool, now: int): (r: seq<Delivery>)
    ensures ParseProgressUpdate(payload).None? ==> r == [Delivery({sender}, ProgressError())]
    ensures ParseProgressUpdate(payload).Some? && FindUser(users, userId).None? ==>
      r == [Delivery({sender}, ErrorEvent("User not found", None))]
    ensures forall i :: 0 <= i < |r| && !r[i].event.MoodTrigger? ==> r[i].recipients == {sender}
  {
    match ParseProgressUpdate(payload)
    case None => [Delivery({sender}, ProgressError())]
    case Some(update) =>
      match FindUser(users, userId)
      case None => [Delivery({sender}, ErrorEvent("User not found", None))]
      case Some(user) =>
        var t := Resolve(tables, update, user.moodSensitivity);
        Dispatch(sender, if t.Some? then Some(TriggerEvent(t.value, signedToken, now)) else None,
          roomMembers, moodLogOk, progressLogOk)
  }

  /** `progress:update` on the server: the deliveries are appended to the
      outbox, and no session or room changes. */
  method OnProgressUpdate(
    server: Server, sender: SessionId, payload: Json, users: seq<UserRecord>, tables: MoodTables,
    signedToken: string, moodLogOk: bool, progressLogOk: bool, now: int)
    requires sender in server.sessions
    modifies server
    ensures server.sessions == old(server.sessions) && server.rooms == old(server.rooms)
    ensures ParseProgressUpdate(payload).None? ==>
      server.outbox == old(server.outbox) + [Delivery({sender}, ProgressError())]
    ensures ParseProgressUpdate(payload).Some? ==>
      server.outbox == old(server.outbox) +
        ProgressDeliveries(sender, server.sessions[sender].userId, payload, users, tables,
          server.Members(BookRoom(ParseProgressUpdate(payload).value.bookId)),
          signedToken, moodLogOk, progressLogOk, now)
  {
    var update := ParseProgressUpdate(payload);
    if update.None? {
      server.outbox := server.outbox + [Delivery({sender}, ProgressError())];
      return;
    }
    var members := server.Members(BookRoom(update.value.bookId));
    var deliveries := ProgressDeliveries(sender, server.sessions[sender].userId, payload, users, tables,
      members, signedToken, moodLogOk, progressLogOk, now);
    server.outbox := server.outbox + deliveries;
  }

  /** A `mood:trigger` is delivered exactly when the payload parses, the
      user exists and the resolver finds a mood; the sender gets it first,
      and no later copy goes back to the sender. */
  lemma TriggerDeliveredIffResolved(
    sender: SessionId, userId: int, payload: Json, users: seq<UserRecord>, tables: MoodTables,
    roomMembers: set<SessionId>, signedToken: string, moodLogOk: bool, progressLogOk: bool, now: int)
    ensures var d := ProgressDeliveries(sender, userId, payload, users, tables, roomMembers, signedToken, moodLogOk, progressLogOk, now);
      var resolved := ParseProgressUpdate(payload).Some? && FindUser(users, userId).Some? &&
        Resolve(tables, ParseProgressUpdate(payload).value, FindUser(users, userId).value.moodSensitivity).Some?;
      (resolved <==> exists i :: 0 <= i < |d| && d[i].event.MoodTrigger?) &&
      (resolved ==> d[0].recipients == {sender} && d[0].event.MoodTrigger?) &&
      (forall i :: 0 < i < |d| && d[i].event.MoodTrigger? ==> sender !in d[i].recipients)
  {
    var d := ProgressDeliveries(sender, userId, payload, users, tables, roomMembers, signedToken, moodLogOk, progressLogOk, now);
    var update := ParseProgressUpdate(payload);
    if update.None? || FindUser(users, userId).None? {
      assert |d| == 1 && !d[0].event.MoodTrigger?;
    }
  }

  /** The broadcast copy goes to every other member of the payload's book
      room, and carries the same event the sender got. */
  lemma RoomGetsSameEvent(
    sender: SessionId, userId: int, payload: Json, users: seq<UserRecord>, tables: MoodTables,
    roomMembers: set<SessionId>, signedToken: string, progressLogOk: bool, now: int)
    requires ParseProgressUpdate(payload).Some? && FindUser(users, userId).Some?
    requires Resolve(tables, ParseProgressUpdate(payload).value, FindUser(users, userId).value.moodSensitivity).Some?
    ensures var d := ProgressDeliveries(sender, userId, payload, users, tables, roomMembers, signedToken, true, progressLogOk, now);
      |d| >= 2 && d[1].recipients == roomMembers - {sender} && d[1].event == d[0].event
  {
  }
}
