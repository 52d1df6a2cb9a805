/** The socket surface of the delta-sync reconciler,
    `server/src/websocket/handlers/syncHandler.ts`. Each handler answers the
    sending socket with exactly one event; the clock is a parameter. */
module SyncHandler {
  import opened Common
  import opened Text
  import opened SyncService
  import opened Events

  /** A `sync:event` payload as the client sent it. `claimedUserId` is any
      user id the client put in it, which the handler ignores. */
  datatype SyncPayload = SyncPayload(
    id: Option<string>,
    kind: Option<string>,
    timestamp: Option<real>,
    claimedUserId: Option<int>,
    bookId: Option<real>,
    presetId: Option<real>,
    data: Json)

  /** The id given to an event that arrives without one: `<userId>-<now>`. */
  function DefaultId(userId: int, now: int): string {
    IntToString(userId) + "-" + IntToString(now)
  }

  /** The event `sync:event` stores: a falsy id or timestamp is replaced,
      the type is taken as it is, and the user is the socket's own. The
      source reads `Date.now()` separately for the id, the timestamp and
      the acknowledgement; the model takes one reading `now` per event,
      since the calls run back to back. Two events' ids differ only when
      their readings do (DefaultIdsDiffer). */
  function DefaultedEvent(userId: int, p: SyncPayload, now: int): (e: SyncEvent)
    ensures e.userId == userId
    ensures e.id != ""
    ensures p.id.Some? && p.id.value != "" ==> e.id == p.id.value
    ensures p.id.None? || p.id.value == "" ==> e.id == DefaultId(userId, now)
    ensures p.timestamp.Some? && p.timestamp.value != 0.0 ==> e.timestamp == p.timestamp.value
    ensures p.timestamp.None? || p.timestamp.value == 0.0 ==> e.timestamp == now as real
    ensures e.kind == p.kind.GetOr("")
    ensures e.bookId == p.bookId && e.presetId == p.presetId && e.data == p.data
  {
    var id := if p.id.Some? && p.id.value != "" then p.id.value else DefaultId(userId, now);
    var timestamp := if p.timestamp.Some? && p.timestamp.value != 0.0 then p.timestamp.value else now as real;
    SyncEvent(id, p.kind.GetOr(""), timestamp, userId, p.bookId, p.presetId, p.data)
  }

  /** Whatever user id the payload claims, the event is stored under the
      socket's user. */
  lemma ClaimedUserIgnored(userId: int, p: SyncPayload, claimed: Option<int>, now: int)
    ensures DefaultedEvent(userId, p, now) == DefaultedEvent(userId, p.(claimedUserId := claimed), now)
    ensures DefaultedEvent(userId, p, now).userId == userId
  {
  }

  /** Two events that arrive without ids at different times get different
      ids. */
  lemma DefaultIdsDiffer(userId: int, t1: int, t2: int)
    requires t1 != t2
    ensures DefaultId(userId, t1) != DefaultId(userId, t2)
  {
    var a, b := DefaultId(userId, t1), DefaultId(userId, t2);
    var prefix := IntToString(userId) + "-";
    assert a == prefix + IntToString(t1);
    assert b == prefix + IntToString(t2);
    if a == b {
      assert a[|prefix|..] == IntToString(t1);
      assert b[|prefix|..] == IntToString(t2);
      IntToStringInjective(t1, t2);
    }
  }

  function SyncEventError(): ServerEvent {
    ErrorEvent("Failed to process sync event", Some("SYNC_EVENT_ERROR"))
  }

  /** `sync:event`. `auditOk` says whether the audit write that follows the
      store succeeded. The event is in the buffer before that write, so a
      failed write still leaves it stored, but the sender then gets
      `SYNC_EVENT_ERROR` instead of the acknowledgement. A missing payload
      stores nothing. */
  method OnSyncEvent(store: SyncStore, userId: int, payload: Option<SyncPayload>, now: int, auditOk: bool)
    returns (reply: ServerEvent)
    requires store.Valid()
    modifies store
    ensures store.Valid()
    ensures payload.None? ==> store.buffers == old(store.buffers) && reply == SyncEventError()
    ensures payload.Some? ==>
      store.buffers == Appended(old(store.buffers), DefaultedEvent(userId, payload.value, now))
    ensures payload.Some? && auditOk ==> reply == SyncStatusEvent(Syncing, "Event synchronized", now)
    ensures payload.Some? && !auditOk ==> reply == SyncEventError()
  {
    if payload.None? {
      return SyncEventError();
    }
    var p := payload.value;
    var id := if p.id.Some? && p.id.value != "" then p.id.value else IntToString(userId) + "-" + IntToString(now);
    var timestamp := if p.timestamp.Some? && p.timestamp.value != 0.0 then p.timestamp.value else now as real;
    var kind := if p.kind.Some? then p.kind.value else "";
    store.StoreSyncEvent(SyncEvent(id, kind, timestamp, userId, p.bookId, p.presetId, p.data));
    if !auditOk {
      return SyncEventError();
    }
    reply := SyncStatusEvent(Syncing, "Event synchronized", now);
  }

  /** On this path the type is not checked: an event of a type the batch
      endpoint would refuse is buffered all the same. */
  lemma SocketPathStoresAnyType(m: Buffers, userId: int, p: SyncPayload, now: int)
    requires p.kind == Some("bogus")
    ensures var e := DefaultedEvent(userId, p, now);
      !Recognized(e) && e in BufferOf(Appended(m, e), userId)
  {
    var e := DefaultedEvent(userId, p, now);
    AppendedBuffers(m, e, userId);
    var s := BufferOf(m, userId) + [e];
    assert e == s[|s| - 1];
  }

  /** `sync:status_request`: the number of buffered events with a timestamp
      after 0, reported as `"<n> events pending"`. Nothing in the store
      changes. */
  method OnStatusRequest(store: SyncStore, userId: int, now: int) returns (reply: ServerEvent)
    ensures reply == SyncStatusEvent(Connected, NatToString(|Newer(store.Buffer(userId), 0.0)|) + " events pending", now)
  {
    var delta := store.GetSyncDelta(userId, 0.0, now);
    reply := SyncStatusEvent(Connected, NatToString(|delta.events|) + " events pending", now);
  }

  /** A `sync:recover` payload: the client's watermark, when it sent one. */
  datatype RecoverPayload = RecoverPayload(lastSyncTimestamp: Option<real>)

  /** `sync:recover`: the events after the client's watermark, in buffer
      order. Without a watermark the comparison with `undefined` is false
      for every event, so nothing is sent; without a payload the handler
      fails with `SYNC_RECOVERY_ERROR`. Nothing in the store changes. */
  method OnRecover(store: SyncStore, userId: int, payload: Option<RecoverPayload>, now: int) returns (reply: ServerEvent)
    ensures payload.None? ==> reply == ErrorEvent("Failed to recover sync data", Some("SYNC_RECOVERY_ERROR"))
    ensures payload.Some? && payload.value.lastSyncTimestamp.Some? ==>
      reply == SyncRecovery(Newer(store.Buffer(userId), payload.value.lastSyncTimestamp.value), now)
    ensures payload.Some? && payload.value.lastSyncTimestamp.None? ==> reply == SyncRecovery([], now)
  {
    if payload.None? {
      return ErrorEvent("Failed to recover sync data", Some("SYNC_RECOVERY_ERROR"));
    }
    match payload.value.lastSyncTimestamp
    case None =>
      reply := SyncRecovery([], now);
    case Some(since) =>
      var delta := store.GetSyncDelta(userId, since, now);
      reply := SyncRecovery(delta.events, now);
  }
}
