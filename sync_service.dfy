/** The delta-sync reconciler of `server/src/services/syncService.ts`: a
    volatile, per-user buffer of the last 1000 sync events, queried by
    timestamp watermark. The module-level `syncStore` map is the field
    `buffers` of a `SyncStore` object; the clock is a parameter. */
module SyncService {
  import opened Common

  /** At most this many events are kept per user. */
  const Capacity: nat := 1000

  /** A sync event. `kind` is the event's `type` (the empty string when a
      socket client sent none). */
  datatype SyncEvent = SyncEvent(
    id: string,
    kind: string,
    timestamp: real,
    userId: int,
    bookId: Option<real>,
    presetId: Option<real>,
    data: Json)

  datatype SyncDelta = SyncDelta(events: seq<SyncEvent>, lastSyncTimestamp: int)

  datatype SyncStats = SyncStats(eventCount: nat, oldestEvent: Option<real>, newestEvent: Option<real>)

  type Buffers = map<int, seq<SyncEvent>>

  function Min(a: int, b: int): int { if a <= b then a else b }

  /** `syncStore.get(userId) || []`. */
  function BufferOf(m: Buffers, userId: int): seq<SyncEvent> {
    if userId in m then m[userId] else []
  }

  /** Every buffer within the cap. */
  ghost predicate WithinCapacity(m: Buffers) {
    forall u :: u in m ==> |m[u]| <= Capacity
  }

  /** The buffer after the overflow `splice`: the last `Capacity` events of
      `s`, in order. */
  function Capped(s: seq<SyncEvent>): (r: seq<SyncEvent>)
    ensures |r| == Min(|s|, Capacity)
  {
    if |s| > Capacity then s[|s| - Capacity..] else s
  }

  /** The store after `storeSyncEvent(e)`. */
  function Appended(m: Buffers, e: SyncEvent): Buffers {
    m[e.userId := Capped(BufferOf(m, e.userId) + [e])]
  }

  /** Storing appends to the event's own user's buffer, keeps the earlier
      order, and changes no other user's buffer. */
  lemma AppendedBuffers(m: Buffers, e: SyncEvent, u: int)
    ensures u == e.userId ==> BufferOf(Appended(m, e), u) == Capped(BufferOf(m, u) + [e])
    ensures u != e.userId ==> BufferOf(Appended(m, e), u) == BufferOf(m, u)
  {
  }

  /** Storing keeps every buffer within the cap. */
  lemma AppendedWithinCapacity(m: Buffers, e: SyncEvent)
    requires WithinCapacity(m)
    ensures WithinCapacity(Appended(m, e))
  {
    var r := Appended(m, e);
    forall v | v in r
      ensures |r[v]| <= Capacity
    {
      if v == e.userId {
        var c := Capped(BufferOf(m, e.userId) + [e]);
        assert r[v] == c;
        assert |c| <= Capacity;
      } else {
        assert r[v] == m[v];
      }
    }
  }

  /** Capping before or after one more append gives the same buffer. */
  lemma {:induction false} CappedAppend(s: seq<SyncEvent>, e: SyncEvent)
    ensures Capped(Capped(s) + [e]) == Capped(s + [e])
  {
    if |s| > Capacity {
      var c := Capped(s);
      assert c + [e] == (s + [e])[|s| - Capacity..];
      assert (c + [e])[1..] == (s + [e])[|s| + 1 - Capacity..];
    } else {
      assert Capped(s) == s;
    }
  }

  /** The store after `storeSyncEvent` on each of `events`, in order. */
  function StoredAll(m: Buffers, events: seq<SyncEvent>): Buffers
    decreases |events|
  {
    if events == [] then m
    else Appended(StoredAll(m, events[..|events| - 1]), events[|events| - 1])
  }

  /** Storing a run of events of one user leaves that user's buffer equal to
      the last `Capacity` of the old buffer followed by the run: storing 1200
      events into an empty buffer keeps events 201..1200. */
  lemma {:induction false} StoredAllKeepsLast(m: Buffers, events: seq<SyncEvent>, u: int)
    requires |BufferOf(m, u)| <= Capacity
    requires forall i :: 0 <= i < |events| ==> events[i].userId == u
    ensures BufferOf(StoredAll(m, events), u) == Capped(BufferOf(m, u) + events)
    decreases |events|
  {
    if events == [] {
      assert BufferOf(m, u) + events == BufferOf(m, u);
    } else {
      var init, last := events[..|events| - 1], events[|events| - 1];
      StoredAllKeepsLast(m, init, u);
      CappedAppend(BufferOf(m, u) + init, last);
      assert BufferOf(m, u) + init + [last] == BufferOf(m, u) + events;
    }
  }

  /** Storing events into an empty store: up to 1000 are all kept in arrival
      order; beyond that only the most recent 1000 remain. */
  lemma RecordingKeepsMostRecent(events: seq<SyncEvent>, u: int)
    requires forall i :: 0 <= i < |events| ==> events[i].userId == u
    ensures |events| <= Capacity ==> BufferOf(StoredAll(map[], events), u) == events
    ensures |events| > Capacity ==>
      BufferOf(StoredAll(map[], events), u) == events[|events| - Capacity..]
  {
    StoredAllKeepsLast(map[], events, u);
    assert BufferOf(map[], u) + events == events;
  }

  /** The filter of `getSyncDelta`: the events with a timestamp strictly
      after the watermark, in buffer order. */
  function Newer(s: seq<SyncEvent>, since: real): (r: seq<SyncEvent>)
    ensures |r| <= |s|
  {
    if s == [] then []
    else if s[0].timestamp > since then [s[0]] + Newer(s[1..], since)
    else Newer(s[1..], since)
  }

  /** The delta holds exactly the buffer's events after the watermark. */
  lemma {:induction false} NewerMembers(s: seq<SyncEvent>, since: real)
    ensures forall e :: e in Newer(s, since) <==> e in s && e.timestamp > since
  {
    if s != [] {
      NewerMembers(s[1..], since);
      assert s == [s[0]] + s[1..];
    }
  }

  /** The delta keeps buffer order: it is the buffer with the old events
      taken out, so a buffer whose events are all newer comes back whole. */
  lemma {:induction false} NewerKeepsAll(s: seq<SyncEvent>, since: real)
    requires forall i :: 0 <= i < |s| ==> s[i].timestamp > since
    ensures Newer(s, since) == s
  {
    if s != [] {
      NewerKeepsAll(s[1..], since);
    }
  }

  /** A delta taken over a concatenation is the concatenation of deltas: the
      order of the buffer survives filtering. */
  lemma {:induction false} NewerDistributes(a: seq<SyncEvent>, b: seq<SyncEvent>, since: real)
    ensures Newer(a + b, since) == Newer(a, since) + Newer(b, since)
  {
    if a == [] {
      assert a + b == b;
    } else {
      assert (a + b)[1..] == a[1..] + b;
      NewerDistributes(a[1..], b, since);
    }
  }

  /** Recording N <= 1000 events with positive timestamps and asking for the
      delta since 0 gives back exactly those N events in insertion order. */
  lemma DeltaRoundTrip(events: seq<SyncEvent>, u: int)
    requires |events| <= Capacity
    requires forall i :: 0 <= i < |events| ==> events[i].userId == u && events[i].timestamp > 0.0
    ensures Newer(BufferOf(StoredAll(map[], events), u), 0.0) == events
  {
    RecordingKeepsMostRecent(events, u);
    NewerKeepsAll(events, 0.0);
  }

  /** The smallest timestamp of a non-empty buffer (`Math.min`). */
  function MinTimestamp(s: seq<SyncEvent>): (r: real)
    requires s != []
    ensures exists i :: 0 <= i < |s| && s[i].timestamp == r
    ensures forall i :: 0 <= i < |s| ==> r <= s[i].timestamp
  {
    if |s| == 1 then s[0].timestamp
    else
      var rest := MinTimestamp(s[1..]);
      if s[0].timestamp <= rest then s[0].timestamp else rest
  }

  /** The largest timestamp of a non-empty buffer (`Math.max`). */
  function MaxTimestamp(s: seq<SyncEvent>): (r: real)
    requires s != []
    ensures exists i :: 0 <= i < |s| && s[i].timestamp == r
    ensures forall i :: 0 <= i < |s| ==> s[i].timestamp <= r
  {
    if |s| == 1 then s[0].timestamp
    else
      var rest := MaxTimestamp(s[1..]);
      if s[0].timestamp >= rest then s[0].timestamp else rest
  }

  /** `getUserSyncStats` over one buffer. */
  function StatsOf(s: seq<SyncEvent>): (r: SyncStats)
    ensures r.eventCount == |s|
    ensures r.oldestEvent.None? <==> s == []
    ensures r.newestEvent.None? <==> s == []
    ensures s != [] ==> r.oldestEvent.value <= r.newestEvent.value
  {
    if s == [] then SyncStats(0, None, None)
    else SyncStats(|s|, Some(MinTimestamp(s)), Some(MaxTimestamp(s)))
  }

  /** `oldestEvent` and `newestEvent` are the extreme timestamps, not the
      first and last events: a buffer stored out of timestamp order reports
      its smallest timestamp as oldest. */
  lemma StatsAreExtremes(a: SyncEvent, b: SyncEvent)
    requires a.timestamp > b.timestamp
    ensures StatsOf([a, b]).oldestEvent == Some(b.timestamp)
    ensures StatsOf([a, b]).newestEvent == Some(a.timestamp)
  {
  }

  /** The truthiness check of `processSyncDelta`: `id`, `type` and
      `timestamp` must all be truthy (so an empty id, an empty type and the
      timestamp 0 are rejected). */
  predicate WellFormed(e: SyncEvent) {
    e.id != "" && e.kind != "" && e.timestamp != 0.0
  }

  /** The event types `processSyncDelta` dispatches; the others are only
      logged. */
  predicate Recognized(e: SyncEvent) {
    e.kind == "progress" || e.kind == "mood_trigger" || e.kind == "settings_change"
  }

  /** The events `processSyncDelta` stores, and for which it writes audit
      logs: the well-formed ones of a recognised type. */
  predicate Stored(e: SyncEvent) {
    WellFormed(e) && Recognized(e)
  }

  /** One iteration of the `processSyncDelta` loop. */
  function ProcessStep(m: Buffers, e: SyncEvent): Buffers {
    if Stored(e) then Appended(m, e) else m
  }

  /** Whether an audit write throws while a batch is processed. `failAt` is
      the position in the batch whose audit write throws, if any; only a
      stored event writes audit logs, so a failure named at a skipped event
      never happens. */
  predicate AuditFails(events: seq<SyncEvent>, failAt: Option<nat>) {
    failAt.Some? && failAt.value < |events| && Stored(events[failAt.value])
  }

  /** How many events of the batch the loop gets through. A failing audit
      write comes after the push, so the event whose write throws is stored,
      and the exception ends the loop there. */
  function Reached(events: seq<SyncEvent>, failAt: Option<nat>): (n: nat)
    ensures n <= |events|
    ensures !AuditFails(events, failAt) ==> n == |events|
    ensures AuditFails(events, failAt) ==> n == failAt.value + 1 && Stored(events[n - 1])
  {
    if AuditFails(events, failAt) then failAt.value + 1 else |events|
  }

  /** The store after `processSyncDelta(userId, events)`. */
  function ProcessedAll(m: Buffers, events: seq<SyncEvent>): Buffers
    decreases |events|
  {
    if events == [] then m
    else ProcessStep(ProcessedAll(m, events[..|events| - 1]), events[|events| - 1])
  }

  /** The events of a batch that end up in user `u`'s buffer: the well-formed
      ones of a recognised type whose own `userId` is `u`, in batch order. */
  function KeptFor(events: seq<SyncEvent>, u: int): (r: seq<SyncEvent>)
    ensures |r| <= |events|
    decreases |events|
  {
    if events == [] then []
    else
      var last := events[|events| - 1];
      KeptFor(events[..|events| - 1], u)
        + (if Stored(last) && last.userId == u then [last] else [])
  }

  /** The kept events are exactly the batch's well-formed, recognised events
      for `u`; a batch with no event for `u` keeps nothing. */
  lemma {:induction false} KeptForMembers(events: seq<SyncEvent>, u: int)
    ensures forall e :: e in KeptFor(events, u) <==> e in events && WellFormed(e) && Recognized(e) && e.userId == u
    ensures (forall i :: 0 <= i < |events| ==> events[i].userId != u) ==> KeptFor(events, u) == []
    decreases |events|
  {
    if events != [] {
      var init := events[..|events| - 1];
      KeptForMembers(init, u);
      assert events == init + [events[|events| - 1]];
    }
  }

  /** One step of batch ingestion, seen from one user's buffer. */
  lemma ProcessStepBuffer(m: Buffers, e: SyncEvent, u: int)
    ensures WellFormed(e) && Recognized(e) && e.userId == u ==>
      BufferOf(ProcessStep(m, e), u) == Capped(BufferOf(m, u) + [e])
    ensures !(WellFormed(e) && Recognized(e) && e.userId == u) ==>
      BufferOf(ProcessStep(m, e), u) == BufferOf(m, u)
  {
    if WellFormed(e) && Recognized(e) {
      AppendedBuffers(m, e, u);
    }
  }

  /** The last event of a batch, seen from one user's buffer and from the
      events kept for that user. */
  lemma LastOfBatch(m: Buffers, events: seq<SyncEvent>, u: int)
    requires events != []
    ensures var init, last := events[..|events| - 1], events[|events| - 1];
      if WellFormed(last) && Recognized(last) && last.userId == u then
        BufferOf(ProcessedAll(m, events), u) == Capped(BufferOf(ProcessedAll(m, init), u) + [last]) &&
        KeptFor(events, u) == KeptFor(init, u) + [last]
      else
        BufferOf(ProcessedAll(m, events), u) == BufferOf(ProcessedAll(m, init), u) &&
        KeptFor(events, u) == KeptFor(init, u)
  {
    var init, last := events[..|events| - 1], events[|events| - 1];
    ProcessStepBuffer(ProcessedAll(m, init), last, u);
    assert KeptFor(init, u) + [] == KeptFor(init, u);
  }

  /** Batch ingestion skips malformed and unrecognised events and continues
      with the rest: each user's buffer is its old buffer followed by the
      events kept for that user, capped at 1000. */
  lemma {:induction false} ProcessedAllBuffer(m: Buffers, events: seq<SyncEvent>, u: int)
    requires |BufferOf(m, u)| <= Capacity
    ensures BufferOf(ProcessedAll(m, events), u) == Capped(BufferOf(m, u) + KeptFor(events, u))
    decreases |events|
  {
    if events == [] {
      assert BufferOf(m, u) + [] == BufferOf(m, u);
    } else {
      var init, last := events[..|events| - 1], events[|events| - 1];
      var prefix := BufferOf(m, u) + KeptFor(init, u);
      ProcessedAllBuffer(m, init, u);
      LastOfBatch(m, events, u);
      if WellFormed(last) && Recognized(last) && last.userId == u {
        CappedAppend(prefix, last);
        assert prefix + [last] == BufferOf(m, u) + KeptFor(events, u);
      }
    }
  }

  /** A batch in which every event is malformed leaves the store as it was. */
  lemma {:induction false} MalformedBatchIgnored(m: Buffers, events: seq<SyncEvent>)
    requires forall i :: 0 <= i < |events| ==> !WellFormed(events[i])
    ensures ProcessedAll(m, events) == m
    decreases |events|
  {
    if events != [] {
      MalformedBatchIgnored(m, events[..|events| - 1]);
    }
  }

  /** The process-wide sync store. */
  class SyncStore {
    var buffers: Buffers

    ghost predicate Valid()
      reads this
    {
      WithinCapacity(buffers)
    }

    constructor ()
      ensures Valid() && buffers == map[]
    {
      buffers := map[];
    }

    /** The buffer of one user, empty when the user has none. */
    function Buffer(userId: int): seq<SyncEvent>
      reads this
    {
      BufferOf(buffers, userId)
    }

    /** `storeSyncEvent`: push the event onto its user's buffer and splice off
        the oldest events beyond 1000. */
    method StoreSyncEvent(e: SyncEvent)
      requires Valid()
      modifies this
      ensures Valid()
      ensures buffers == Appended(old(buffers), e)
      ensures Buffer(e.userId) == Capped(old(Buffer(e.userId)) + [e])
    {
      var userEvents := if e.userId in buffers then buffers[e.userId] else [];
      userEvents := userEvents + [e];
      if |userEvents| > Capacity {
        userEvents := userEvents[|userEvents| - Capacity..];
      }
      buffers := buffers[e.userId := userEvents];
    }

    /** `getSyncDelta`: the buffered events newer than the watermark, in
        buffer order, and the current clock as the new watermark. Nothing in
        the store changes. */
    method GetSyncDelta(userId: int, lastSyncTimestamp: real, now: int) returns (d: SyncDelta)
      ensures d.lastSyncTimestamp == now
      ensures d.events == Newer(Buffer(userId), lastSyncTimestamp)
      ensures forall e :: e in d.events ==> e.timestamp > lastSyncTimestamp
    {
      var userEvents := if userId in buffers then buffers[userId] else [];
      d := SyncDelta(Newer(userEvents, lastSyncTimestamp), now);
      NewerMembers(userEvents, lastSyncTimestamp);
    }

    /** `processSyncDelta`: for each event of the batch, skip it when a
        mandatory field is falsy, store it when its type is recognised, and
        only log it otherwise. Each event goes to its own `userId`'s buffer;
        the `userId` argument is only logged. A stored event is followed by
        audit writes; `failAt` is the position whose write throws, if any.
        Then the exception ends the loop with that event stored and the rest
        of the batch unprocessed, and `ok` is false (the endpoint answers
        500). */
    method ProcessSyncDelta(userId: int, events: seq<SyncEvent>, failAt: Option<nat>) returns (ok: bool)
      requires Valid()
      modifies this
      ensures Valid()
      ensures ok <==> !AuditFails(events, failAt)
      ensures buffers == ProcessedAll(old(buffers), events[..Reached(events, failAt)])
    {
      ok := true;
      for i := 0 to |events|
        invariant Valid()
        invariant buffers == ProcessedAll(old(buffers), events[..i])
        invariant failAt.Some? && failAt.value < i ==> !Stored(events[failAt.value])
      {
        var e := events[i];
        assert events[..i + 1][..i] == events[..i];
        ghost var next := ProcessedAll(old(buffers), events[..i + 1]);
        assert next == ProcessStep(buffers, e);
        if e.id == "" || e.kind == "" || e.timestamp == 0.0 {
          assert next == buffers;
          continue;
        }
        if e.kind == "progress" || e.kind == "mood_trigger" || e.kind == "settings_change" {
          assert next == Appended(buffers, e);
          StoreSyncEvent(e);
          if failAt == Some(i) {
            ok := false;
            return;
          }
        } else {
          assert next == buffers;
        }
      }
      assert events[..|events|] == events;
    }

    /** `clearUserSyncData`: drop the user's whole buffer. */
    method ClearUserSyncData(userId: int)
      requires Valid()
      modifies this
      ensures Valid()
      ensures buffers == old(buffers) - {userId}
      ensures Buffer(userId) == []
    {
      buffers := buffers - {userId};
    }

    /** `getUserSyncStats`: the count and the extreme timestamps of the user's
        buffer; nothing in the store changes. */
    method GetUserSyncStats(userId: int) returns (s: SyncStats)
      ensures s == StatsOf(Buffer(userId))
      ensures s.eventCount == |Buffer(userId)|
    {
      var userEvents := if userId in buffers then buffers[userId] else [];
      if |userEvents| == 0 {
        return SyncStats(0, None, None);
      }
      s := SyncStats(|userEvents|, Some(MinTimestamp(userEvents)), Some(MaxTimestamp(userEvents)));
    }
  }

  /** After a clear, the user's delta is empty and the count is 0, whatever
      the watermark. */
  lemma ClearedIsEmpty(m: Buffers, u: int, since: real)
    ensures Newer(BufferOf(m - {u}, u), since) == []
    ensures StatsOf(BufferOf(m - {u}, u)).eventCount == 0
  {
  }
}
