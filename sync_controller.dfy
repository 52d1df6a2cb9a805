/** The HTTP surface of the delta-sync reconciler,
    `server/src/controllers/syncController.ts`. Each endpoint checks the
    caller, validates its input and makes one call into the store; the
    store is passed in as its map of buffers and the clock as a parameter. */
module SyncController {
  import opened Common
  import opened Text
  import opened RoleAuth
  import opened SyncService

  const NotAuthenticated := Http(401, "User not authenticated")

  /** A parsed query string: every value is text. */
  predicate QueryText(query: Json) {
    query.JObj? && forall i :: 0 <= i < |query.fields| ==> query.fields[i].value.JStr?
  }

  /** `getSyncDeltaSchema.parse(req.query)` as written: the watermark must
      be a JSON number at least 0. */
  function DeltaQueryAsWritten(query: Json): (r: Outcome<real>)
    ensures r.Ok? <==> NumberMember(query, "lastSyncTimestamp").Some? && NumberMember(query, "lastSyncTimestamp").value >= 0.0
    ensures r.Err? ==> r.failure == SchemaRejected
  {
    match NumberMember(query, "lastSyncTimestamp")
    case Some(n) => if n >= 0.0 then Ok(n) else Err(SchemaRejected)
    case None => Err(SchemaRejected)
  }

  /** The watermark read from the query as the endpoint intends: a decimal
      digit string (a millisecond count), or a number at least 0. */
  function DeltaQuery(query: Json): (r: Outcome<real>)
    ensures r.Ok? ==> r.value >= 0.0
    ensures r.Err? ==> r.failure == SchemaRejected
    ensures DeltaQueryAsWritten(query).Ok? ==> r == DeltaQueryAsWritten(query)
  {
    match Member(query, "lastSyncTimestamp")
    case Some(JStr(s)) =>
      if s != [] && AllDigits(s) then Ok(DigitsValue(s, 10) as real) else Err(SchemaRejected)
    case Some(JNum(n)) => if n >= 0.0 then Ok(n) else Err(SchemaRejected)
    case _ => Err(SchemaRejected)
  }

  /** The query string `?lastSyncTimestamp=<n>` reads back as `n`. */
  lemma DeltaQueryRoundTrip(n: nat)
    ensures DeltaQuery(JObj([Field("lastSyncTimestamp", JStr(NatToString(n)))])) == Ok(n as real)
    ensures DeltaQueryAsWritten(JObj([Field("lastSyncTimestamp", JStr(NatToString(n)))])) == Err(SchemaRejected)
  {
    DecimalRoundTrip(n);
    var q := JObj([Field("lastSyncTimestamp", JStr(NatToString(n)))]);
    assert Member(q, "lastSyncTimestamp") == Some(JStr(NatToString(n)));
  }

  /** `GET /sync/delta` with the watermark read as intended: 401 for an
      anonymous caller, otherwise the caller's own delta. */
  function GetSyncDeltaEndpoint(user: Option<AuthUser>, query: Json, m: Buffers, now: int): (r: Outcome<SyncDelta>)
    ensures user.None? ==> r == Err(NotAuthenticated)
    ensures user.Some? && DeltaQuery(query).Ok? ==>
      r == Ok(SyncDelta(Newer(BufferOf(m, user.value.userId), DeltaQuery(query).value), now))
    ensures user.Some? && DeltaQuery(query).Err? ==> r == Err(SchemaRejected)
  {
    if user.None? then Err(NotAuthenticated)
    else
      match DeltaQuery(query)
      case Err(f) => Err(f)
      case Ok(since) => Ok(SyncDelta(Newer(BufferOf(m, user.value.userId), since), now))
  }

  /** `GET /sync/delta` as written. */
  function GetSyncDeltaEndpointAsWritten(user: Option<AuthUser>, query: Json, m: Buffers, now: int): (r: Outcome<SyncDelta>)
    ensures user.None? ==> r == Err(NotAuthenticated)
    ensures user.Some? && r.Err? ==> r.failure == SchemaRejected
    ensures r.Ok? <==> user.Some? && DeltaQueryAsWritten(query).Ok?
    ensures r.Ok? ==> r == Ok(SyncDelta(Newer(BufferOf(m, user.value.userId), DeltaQueryAsWritten(query).value), now))
  {
    if user.None? then Err(NotAuthenticated)
    else
      match DeltaQueryAsWritten(query)
      case Err(f) => Err(f)
      case Ok(since) => Ok(SyncDelta(Newer(BufferOf(m, user.value.userId), since), now))
  }

  /** A query string never holds a number, so the schema as written refuses
      every delta request, the well-formed `?lastSyncTimestamp=0` included. */
  lemma DeltaQueryAsWrittenRefusesEveryQuery(user: AuthUser, query: Json, m: Buffers, now: int)
    requires QueryText(query)
    ensures DeltaQueryAsWritten(query) == Err(SchemaRejected)
    ensures GetSyncDeltaEndpointAsWritten(Some(user), query, m, now) == Err(SchemaRejected)
  {
    var v := Member(query, "lastSyncTimestamp");
    if v.Some? {
      var k :| 0 <= k < |query.fields| && query.fields[k] == Field("lastSyncTimestamp", v.value);
      assert query.fields[k].value.JStr?;
    }
  }

  predicate IsSyncEventType(s: string) {
    s == "progress" || s == "mood_trigger" || s == "settings_change"
  }

  /** An optional numeric member: absent, or a number. */
  predicate OptionalNumber(j: Json, key: string) {
    Member(j, key).None? || NumberMember(j, key).Some?
  }

  /** One element of the batch checked against `syncEventSchema` and
      stamped with the caller's user id. */
  function ParseSyncEvent(j: Json, userId: int): (r: Option<SyncEvent>)
    ensures r.Some? <==>
      StringMember(j, "id").Some? &&
      StringMember(j, "type").Some? && IsSyncEventType(StringMember(j, "type").value) &&
      NumberMember(j, "timestamp").Some? && NumberMember(j, "timestamp").value >= 0.0 &&
      OptionalNumber(j, "bookId") && OptionalNumber(j, "presetId") &&
      Member(j, "data").Some? && Member(j, "data").value.JObj?
    ensures r.Some? ==> r.value.userId == userId && Recognized(r.value) && r.value.timestamp >= 0.0
    ensures r.Some? ==>
      r.value == SyncEvent(StringMember(j, "id").value, StringMember(j, "type").value,
                           NumberMember(j, "timestamp").value, userId,
                           NumberMember(j, "bookId"), NumberMember(j, "presetId"), Member(j, "data").value)
  {
    match (StringMember(j, "id"), StringMember(j, "type"), NumberMember(j, "timestamp"), Member(j, "data"))
    case (Some(id), Some(kind), Some(t), Some(JObj(fields))) =>
      if IsSyncEventType(kind) && t >= 0.0 && OptionalNumber(j, "bookId") && OptionalNumber(j, "presetId") then
        Some(SyncEvent(id, kind, t, userId, NumberMember(j, "bookId"), NumberMember(j, "presetId"), JObj(fields)))
      else None
    case _ => None
  }

  /** Every element parsed, or nothing when any element fails. */
  function ParseAll<A, B>(items: seq<A>, parse: A -> Option<B>): Option<seq<B>> {
    if items == [] then Some([])
    else
      match parse(items[0])
      case None => None
      case Some(e) =>
        match ParseAll(items[1..], parse)
        case None => None
        case Some(rest) => Some([e] + rest)
  }

  lemma {:induction false} ParseAllOrNothing<A, B>(items: seq<A>, parse: A -> Option<B>)
    ensures ParseAll(items, parse).Some? <==> forall i :: 0 <= i < |items| ==> parse(items[i]).Some?
    ensures ParseAll(items, parse).Some? ==>
      |ParseAll(items, parse).value| == |items| &&
      forall i :: 0 <= i < |items| ==> ParseAll(items, parse).value[i] == parse(items[i]).value
  {
    if items != [] {
      ParseAllOrNothing(items[1..], parse);
      assert forall i :: 1 <= i < |items| ==> items[1..][i - 1] == items[i];
    }
  }

  /** The whole batch, all or nothing: it passes iff every element passes,
      and then it is each element parsed, in order. */
  function ParseBatch(items: seq<Json>, userId: int): (r: Option<seq<SyncEvent>>)
    ensures r.Some? <==> forall i :: 0 <= i < |items| ==> ParseSyncEvent(items[i], userId).Some?
    ensures r.Some? ==>
      |r.value| == |items| && forall i :: 0 <= i < |items| ==> r.value[i] == ParseSyncEvent(items[i], userId).value
  {
    var parse := j => ParseSyncEvent(j, userId);
    ParseAllOrNothing(items, parse);
    ParseAll(items, parse)
  }

  /** What `POST /sync/delta` does once its input is accepted: the events it
      hands to `processSyncDelta` and the count it reports. */
  datatype BatchCall = BatchCall(userId: int, events: seq<SyncEvent>, processedEvents: nat)

  /** The `events` array of a request body, when there is one. */
  function EventItems(body: Json): (r: Option<seq<Json>>)
    ensures r.Some? <==> Member(body, "events").Some? && Member(body, "events").value.JArr?
    ensures r.Some? ==> Member(body, "events") == Some(JArr(r.value))
  {
    match Member(body, "events")
    case Some(JArr(items)) => Some(items)
    case _ => None
  }

  /** `POST /sync/delta`: 401 for an anonymous caller; otherwise the batch
      is accepted iff the body has an `events` array whose every element
      passes the schema. The events handed on are the parsed elements,
      stamped with the caller's id, and the reported count is the number of
      submitted elements. */
  function ProcessSyncDeltaEndpoint(user: Option<AuthUser>, body: Json): (r: Outcome<BatchCall>)
    ensures user.None? ==> r == Err(NotAuthenticated)
    ensures user.Some? && r.Err? ==> r.failure == SchemaRejected
    ensures r.Ok? <==>
      user.Some? && EventItems(body).Some? && ParseBatch(EventItems(body).value, user.value.userId).Some?
    ensures r.Ok? ==>
      r.value == BatchCall(user.value.userId, ParseBatch(EventItems(body).value, user.value.userId).value,
                           |EventItems(body).value|)
    ensures r.Ok? ==>
      r.value.processedEvents == |r.value.events| &&
      forall i :: 0 <= i < |r.value.events| ==> r.value.events[i].userId == user.value.userId
  {
    if user.None? then Err(NotAuthenticated)
    else
      match EventItems(body)
      case Some(items) =>
        (match ParseBatch(items, user.value.userId)
         case Some(events) => Ok(BatchCall(user.value.userId, events, |items|))
         case None => Err(SchemaRejected))
      case None => Err(SchemaRejected)
  }

  /** The answer once `processSyncDelta` has run on the call's events: the
      count, or the exception of a failing audit write, which the error
      middleware answers with 500. `ok` is what
      `SyncService.SyncStore.ProcessSyncDelta` returns. */
  function BatchResponse(call: BatchCall, ok: bool): (r: Outcome<nat>)
    ensures r.Ok? <==> ok
    ensures r.Ok? ==> r.value == call.processedEvents
    ensures r.Err? ==> r.failure.Uncaught?
  {
    if ok then Ok(call.processedEvents) else Err(Uncaught("Error"))
  }

  /** One bad element rejects the whole batch. */
  lemma OneBadEventRejectsBatch(user: AuthUser, items: seq<Json>, k: nat)
    requires k < |items| && ParseSyncEvent(items[k], user.userId).None?
    ensures ProcessSyncDeltaEndpoint(Some(user), JObj([Field("events", JArr(items))])) == Err(SchemaRejected)
  {
    assert Member(JObj([Field("events", JArr(items))]), "events") == Some(JArr(items));
  }

  /** A batch reaches only the caller's own buffer: every other user's
      buffer is as it was. */
  lemma BatchTouchesOnlyCaller(m: Buffers, call: BatchCall, v: int)
    requires forall i :: 0 <= i < |call.events| ==> call.events[i].userId == call.userId
    requires v != call.userId
    requires |BufferOf(m, v)| <= Capacity
    ensures BufferOf(ProcessedAll(m, call.events), v) == BufferOf(m, v)
  {
    ProcessedAllBuffer(m, call.events, v);
    KeptForMembers(call.events, v);
    assert BufferOf(m, v) + [] == BufferOf(m, v);
  }

  /** A progress event with timestamp 0, as a client sends it. */
  function ZeroTimeItem(data: Json): Json {
    JObj([Field("id", JStr("e1")), Field("type", JStr("progress")),
          Field("timestamp", JNum(0.0)), Field("data", data)])
  }

  lemma ZeroTimeItemId(data: Json)
    ensures StringMember(ZeroTimeItem(data), "id") == Some("e1")
  {
    LookupUnique(ZeroTimeItem(data).fields, 0, "id");
  }

  lemma ZeroTimeItemType(data: Json)
    ensures StringMember(ZeroTimeItem(data), "type") == Some("progress")
  {
    LookupUnique(ZeroTimeItem(data).fields, 1, "type");
  }

  lemma ZeroTimeItemTimestamp(data: Json)
    ensures NumberMember(ZeroTimeItem(data), "timestamp") == Some(0.0)
  {
    LookupUnique(ZeroTimeItem(data).fields, 2, "timestamp");
  }

  lemma ZeroTimeItemData(data: Json)
    ensures Member(ZeroTimeItem(data), "data") == Some(data)
  {
    LookupUnique(ZeroTimeItem(data).fields, 3, "data");
  }

  lemma ZeroTimeItemNoBook(data: Json)
    ensures Member(ZeroTimeItem(data), "bookId") == None
  {
    LookupAbsent(ZeroTimeItem(data).fields, "bookId");
  }

  lemma ZeroTimeItemNoPreset(data: Json)
    ensures Member(ZeroTimeItem(data), "presetId") == None
  {
    LookupAbsent(ZeroTimeItem(data).fields, "presetId");
  }

  /** An event with timestamp 0 passes the schema: `z.number().min(0)`
      admits 0. */
  lemma ZeroTimestampParses(userId: int, data: Json)
    requires data.JObj?
    ensures ParseSyncEvent(ZeroTimeItem(data), userId).Some?
    ensures ParseSyncEvent(ZeroTimeItem(data), userId).value.timestamp == 0.0
  {
    ZeroTimeItemId(data);
    ZeroTimeItemType(data);
    ZeroTimeItemTimestamp(data);
    ZeroTimeItemData(data);
    ZeroTimeItemNoBook(data);
    ZeroTimeItemNoPreset(data);
  }

  /** The reported count includes events that pass the schema but that the
      service then skips: one event with timestamp 0 is reported as
      processed and leaves the buffer as it was. */
  lemma ProcessedCountIncludesSkipped(user: AuthUser, m: Buffers, data: Json)
    requires data.JObj?
    ensures var r := ProcessSyncDeltaEndpoint(Some(user), JObj([Field("events", JArr([ZeroTimeItem(data)]))]));
      r.Ok? && r.value.processedEvents == 1 && ProcessedAll(m, r.value.events) == m
  {
    var e := ZeroTimeBatch(user, data);
    MalformedBatchIgnored(m, [e]);
  }

  /** The one-event batch is accepted as that event, parsed, with a count
      of 1. */
  lemma ZeroTimeBatch(user: AuthUser, data: Json) returns (e: SyncEvent)
    requires data.JObj?
    ensures e.timestamp == 0.0
    ensures ProcessSyncDeltaEndpoint(Some(user), JObj([Field("events", JArr([ZeroTimeItem(data)]))])) ==
      Ok(BatchCall(user.userId, [e], 1))
  {
    var item := ZeroTimeItem(data);
    ZeroTimestampParses(user.userId, data);
    e := ParseSyncEvent(item, user.userId).value;
    var body := JObj([Field("events", JArr([item]))]);
    assert Member(body, "events") == Some(JArr([item]));
    var events := ParseBatch([item], user.userId).value;
    assert |events| == 1 && events[0] == e;
    assert events == [e];
  }

  /** `GET /sync/stats`: the caller's own statistics. */
  function GetSyncStats(user: Option<AuthUser>, m: Buffers): (r: Outcome<SyncStats>)
    ensures user.None? ==> r == Err(NotAuthenticated)
    ensures user.Some? ==> r == Ok(StatsOf(BufferOf(m, user.value.userId)))
    ensures r.Ok? ==> r.value.eventCount == |BufferOf(m, user.value.userId)|
  {
    if user.None? then Err(NotAuthenticated) else Ok(StatsOf(BufferOf(m, user.value.userId)))
  }

  /** The store after a handler ran, and what it answered. */
  datatype Cleared = Cleared(buffers: Buffers, outcome: Outcome<()>)

  /** `DELETE /sync/data`. `clearUserSyncData` deletes the caller's buffer
      and then awaits the audit write, whose outcome is `auditOk`: when the
      write fails the buffer is already gone but the answer is the 500 of
      the error middleware. */
  function ClearSyncData(user: Option<AuthUser>, m: Buffers, auditOk: bool): (r: Cleared)
    ensures user.None? ==> r == Cleared(m, Err(NotAuthenticated))
    ensures r.outcome.Ok? <==> user.Some? && auditOk
    ensures user.Some? && !auditOk ==> r.outcome.Err? && r.outcome.failure.Uncaught?
    ensures user.Some? ==> BufferOf(r.buffers, user.value.userId) == []
    ensures user.Some? ==> forall v :: v != user.value.userId ==> BufferOf(r.buffers, v) == BufferOf(m, v)
  {
    if user.None? then Cleared(m, Err(NotAuthenticated))
    else
      var rest := m - {user.value.userId};
      if auditOk then Cleared(rest, Ok(())) else Cleared(rest, Err(Uncaught("Error")))
  }
}
