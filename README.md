# Mood-reader server core in Dafny

This project models the core of a reading server. Readers open books,
and the server picks background music and images to match their position
in the book. The core covers:

- **The delta-sync reconciler.** Each user has an in-memory buffer of
  sync events, capped at 1000 with the oldest dropped first. The module
  provides a delta query by timestamp watermark, statistics, clearing,
  and batch ingestion that skips malformed events. Two surfaces feed it:
  the `sync:*` socket events and the `/sync` HTTP endpoints.
- **Mood resolution.** A reading position selects a mood-map breakpoint
  in the same chapter. The mood's tempo follows the reader's genre and a
  clamped sensitivity. A separate music-tempo function clamps to
  [30, 200].
- **The trigger-rule store.** This covers position matching over page
  ranges and priorities, creation defaults, the owner-or-admin rule, the
  dynamic `UPDATE ... SET` clause builder, and the guard order
  (401 / 404 / 403) of the preset and trigger handlers.
- **The socket session and room state machine.** It covers the handshake
  outcomes, `room:join` / `room:leave` / `disconnect` with their
  notifications, and the dispatch of `mood:trigger` on a progress update.
- **Validators and small utilities.** These are the socket event schemas,
  the role predicates, the book and music list pagination and source
  precedence, the file extension allow-list with its MIME table, the
  generated file names, and Node's `path.extname`.

Database tables are sequences of rows and queries are filter and sort
functions over them. The clock, token verification, the user lookup,
audit writes and file-system checks are parameters. The socket.io room
table is a map from room to sessions, and emitted events are appended to
an outbox. The sync store and the socket server are classes whose methods
update their fields in place. The reconciler's operations are proved
against specification functions (`Appended`, `Newer`, `ProcessedAll`,
`StatsOf`), and the properties of the reconciler are lemmas about those
functions.

## Model

| member | source | states |
|---|---|---|
| SyncService.Capped | server/src/services/syncService.ts:26-29 | after the overflow splice a buffer of n events holds min(n, 1000) of them |
| SyncService.AppendedBuffers | server/src/services/syncService.ts:22-31 | storing appends the event to its own user's buffer, capped, and leaves every other user's buffer unchanged |
| SyncService.AppendedWithinCapacity | server/src/services/syncService.ts:26-31 | storing keeps every buffer within 1000 events |
| SyncService.CappedAppend | server/src/services/syncService.ts:26-29 | capping after each append equals capping once at the end |
| SyncService.StoredAllKeepsLast | server/src/services/syncService.ts:22-31 | storing a run of one user's events leaves that buffer as the last 1000 of old buffer followed by the run, in arrival order |
| SyncService.RecordingKeepsMostRecent | server/src/services/syncService.ts:26-29 | from an empty store, up to 1000 events are all kept in order; beyond that exactly the last 1000 arrivals are kept (e.g. 1200 leaves 201..1200) |
| SyncService.Newer | server/src/services/syncService.ts:53 | the delta filter never grows the buffer |
| SyncService.NewerMembers | server/src/services/syncService.ts:53 | an event is in the delta iff it is in the buffer with timestamp strictly above the watermark |
| SyncService.NewerKeepsAll | server/src/services/syncService.ts:53 | when every event is newer than the watermark the delta is the whole buffer in buffer order, not re-sorted |
| SyncService.NewerDistributes | server/src/services/syncService.ts:53 | the delta of a concatenation is the concatenation of deltas, so buffer order is preserved |
| SyncService.DeltaRoundTrip | server/src/services/syncService.ts:22-53 | recording up to 1000 events with positive timestamps and asking for the delta since 0 returns exactly those events in order |
| SyncService.MinTimestamp | server/src/services/syncService.ts:186 | `oldestEvent` is a timestamp of the buffer and no event is older |
| SyncService.MaxTimestamp | server/src/services/syncService.ts:187 | `newestEvent` is a timestamp of the buffer and no event is newer |
| SyncService.StatsOf | server/src/services/syncService.ts:175-188 | `eventCount` is the buffer length; the two timestamps are absent iff the buffer is empty and are ordered otherwise |
| SyncService.StatsAreExtremes | server/src/services/syncService.ts:186-187 | the extremes are taken over timestamps, not the first and last elements |
| SyncService.KeptForMembers | server/src/services/syncService.ts:71-91 | a batch puts into user u's buffer exactly its well-formed, recognised events of user u |
| SyncService.ProcessedAllBuffer | server/src/services/syncService.ts:70-92 | after a batch, each buffer is the old one followed by the kept events, capped: skipped events do not stop the loop |
| SyncService.MalformedBatchIgnored | server/src/services/syncService.ts:72-76 | a batch of events with falsy id, type or timestamp (timestamp 0 included) leaves the store unchanged |
| SyncService.SyncStore.constructor | server/src/services/syncService.ts:20 | the store starts empty |
| SyncService.SyncStore.StoreSyncEvent | server/src/services/syncService.ts:22-31 | the new store is the old one with the event appended and capped; every buffer stays within 1000 |
| SyncService.SyncStore.GetSyncDelta | server/src/services/syncService.ts:49-67 | the delta is the buffer's events after the watermark, in buffer order; its `lastSyncTimestamp` is the clock; the store is unchanged |
| SyncService.SyncStore.ProcessSyncDelta | server/src/services/syncService.ts:70-92 | the batch succeeds iff no audit write of a stored event fails; the store is `ProcessedAll` of the events up to and including the one whose audit write fails, and the rest of the batch is not stored |
| SyncService.Reached | server/src/services/syncService.ts:70-92 | with no failing audit write the whole batch is reached; otherwise the loop stops right after the failing event, which is one that is stored |
| SyncService.SyncStore.ClearUserSyncData | server/src/services/syncService.ts:161-162 | the user's entry is removed and nothing else changes |
| SyncService.SyncStore.GetUserSyncStats | server/src/services/syncService.ts:175-188 | the stats are `StatsOf` the user's buffer; the store is unchanged |
| SyncService.ClearedIsEmpty | server/src/services/syncService.ts:161-162 | after a clear the delta is empty and `eventCount` is 0 |
| SyncHandler.DefaultedEvent | server/src/websocket/handlers/syncHandler.ts:16-24 | the stored event carries the socket's user; a falsy id becomes `<userId>-<now>`; a falsy timestamp (0 included) becomes now; the other fields are copied |
| SyncHandler.ClaimedUserIgnored | server/src/websocket/handlers/syncHandler.ts:13-20 | the user id claimed in the payload has no effect on the stored event |
| SyncHandler.DefaultIdsDiffer | server/src/websocket/handlers/syncHandler.ts:17 | id-less events that arrive at different times get different ids |
| SyncHandler.OnSyncEvent | server/src/websocket/handlers/syncHandler.ts:11-42 | a payload is stored under the socket's user; a successful store is acknowledged with `syncing`; a failure sends `SYNC_EVENT_ERROR` and no ack |
| SyncHandler.SocketPathStoresAnyType | server/src/websocket/handlers/syncHandler.ts:18 | an event of a type the batch path would drop is still buffered on this path |
| SyncHandler.OnStatusRequest | server/src/websocket/handlers/syncHandler.ts:45-58 | the reply is `connected` with `"<n> events pending"`, n the number of buffered events with timestamp above 0; the buffer is unchanged |
| SyncHandler.OnRecover | server/src/websocket/handlers/syncHandler.ts:70-97 | the reply is the delta after the client's watermark in buffer order; a bad payload gives `SYNC_RECOVERY_ERROR`; the buffer is unchanged |
| SyncController.DeltaQueryAsWritten | server/src/controllers/syncController.ts:7-9 | the schema accepts exactly a numeric `lastSyncTimestamp >= 0` and rejects everything else |
| SyncController.DeltaQueryAsWrittenRefusesEveryQuery | server/src/controllers/syncController.ts:7-9 | every query that arrives as text, which is how express delivers it, is refused |
| SyncController.GetSyncDeltaEndpointAsWritten | server/src/controllers/syncController.ts:24-40 | 401 without a user; otherwise the delta of the caller's own buffer exactly when the schema accepts, else a schema failure |
| SyncController.DeltaQuery | server/src/controllers/syncController.ts:7-9 | the corrected schema also accepts decimal text and yields a non-negative watermark; it agrees with the original wherever that accepts |
| SyncController.DeltaQueryRoundTrip | server/src/controllers/syncController.ts:7-9 | any natural number written as query text is read back as itself |
| SyncController.GetSyncDeltaEndpoint | server/src/controllers/syncController.ts:24-40 | 401 without a user; otherwise the delta of the caller's own buffer after the parsed watermark, with the clock |
| SyncController.ParseSyncEvent | server/src/controllers/syncController.ts:11-18 | an event passes iff it has a string id, a type in {progress, mood_trigger, settings_change}, a numeric timestamp >= 0, optional numeric ids and a record `data`; the parsed event holds exactly those members and is stamped with the caller |
| SyncController.ParseBatch | server/src/controllers/syncController.ts:20-22 | a batch passes iff every event passes; the result is each event parsed, in order |
| SyncController.ProcessSyncDeltaEndpoint | server/src/controllers/syncController.ts:42-67 | 401 without a user; it goes on iff the body has an `events` array every element of which passes, and then hands exactly the parsed events, stamped with the caller, to the service, with `processedEvents` the number submitted |
| SyncController.EventItems | server/src/controllers/syncController.ts:20-22 | the body's `events` member when it is an array, and nothing otherwise |
| SyncController.BatchResponse | server/src/controllers/syncController.ts:56-66 | the reply is the submitted count iff the service returned; a thrown error goes to the error handler |
| SyncController.OneBadEventRejectsBatch | server/src/controllers/syncController.ts:11-22 | one event failing the schema rejects the whole batch |
| SyncController.BatchTouchesOnlyCaller | server/src/controllers/syncController.ts:51-56 | a stamped batch leaves every other user's buffer unchanged |
| SyncController.ZeroTimestampParses | server/src/controllers/syncController.ts:14 | timestamp 0 passes the schema |
| SyncController.ZeroTimeBatch | server/src/controllers/syncController.ts:48-62 | a one-event batch with timestamp 0 is accepted as that event, parsed, with a count of 1 |
| SyncController.ProcessedCountIncludesSkipped | server/src/controllers/syncController.ts:56-62 | a batch whose event the service skips (timestamp 0) is still counted as processed, and the buffer is unchanged |
| SyncController.GetSyncStats | server/src/controllers/syncController.ts:69-84 | 401 without a user; otherwise the stats of the caller's own buffer |
| SyncController.ClearSyncData | server/src/controllers/syncController.ts:86-100 | 401 without a user; otherwise the caller's buffer is deleted and every other buffer stays, and the answer succeeds iff the audit write that follows the delete succeeds (a 500 otherwise, with the buffer already gone) |
| MoodService.BaseTempo | server/src/services/moodService.ts:71-87 | the genre is lowercased first; classic, lofi and custom pick their own tempo, custom falls back to electronic when its tempo is 0, and every other genre gets the electronic tempo |
| MoodService.GenreExamples | server/src/services/moodService.ts:72-87 | `LoFi` picks the lofi tempo and `classical` falls to the electronic tempo |
| MoodService.ClampSensitivity | server/src/services/moodService.ts:90 | the multiplier lies in [0.1, 2.0], equals the sensitivity inside that range and the nearer bound outside it |
| MoodService.Round | server/src/services/moodService.ts:91 | `Math.round` gives the integer within half a unit of x, halves rounding up |
| MoodService.RoundInteger | server/src/services/moodService.ts:91 | rounding a whole number gives it back |
| MoodService.AdjustedTempo | server/src/services/moodService.ts:90-91 | the tempo is base times the clamped sensitivity, rounded, with no clamp afterwards |
| MoodService.TempoExamples | server/src/services/moodService.ts:90-91 | sensitivity 5.0 acts as 2.0 and 0 as 0.1; 140 at 1.5 gives 210; sensitivity 1.0 keeps the base tempo |
| MoodService.FindMood | server/src/services/moodService.ts:33-36 | the mood with the id, or none iff no mood has it |
| MoodService.FindBackground | server/src/services/moodService.ts:65-67 | the background with the id, or none iff no background has it |
| MoodService.CalculateMoodTrigger | server/src/services/moodService.ts:43-109 | a trigger exists iff a mood-map entry is found, its `mood_id` is truthy and the mood exists; its tempo comes from the genre (default electronic) and sensitivity (default 1.0); the background is the one with the entry's `background_id` when that id is truthy and found, and none otherwise; `transition_type` is copied from the entry |
| MoodService.DefaultTempo | server/src/services/moodService.ts:47-48 | genre electronic at sensitivity 1.0 gives the electronic tempo |
| MoodService.DefaultsGiveElectronicTempo | server/src/services/moodService.ts:47-48 | a trigger computed with the default genre and sensitivity has the mood's electronic tempo |
| MoodMap.CreateMoodMap | server/src/models/MoodMap.ts:30-45 | the stored row takes the given fields; `transition_type` is `fade` when absent or empty |
| MoodMap.FindMoodMapById | server/src/models/MoodMap.ts:47-50 | the row with the id, or none iff no row has it |
| MoodMap.FindMoodMapsByPreset | server/src/models/MoodMap.ts:52-59 | the preset's rows, a permutation of them, sorted by (chapter, page_fraction) |
| MoodMap.FindMoodMapsByChapter | server/src/models/MoodMap.ts:61-68 | the preset's rows of the chapter, a permutation of them, sorted by page_fraction |
| MoodMap.FindMoodMapForProgress | server/src/models/MoodMap.ts:70-78 | none iff no row of the preset and the same chapter has page_fraction <= f; otherwise such a row with the largest page_fraction |
| MoodMap.NoCandidateInBetween | server/src/models/MoodMap.ts:73-75 | no candidate lies strictly between the result's fraction and f |
| MoodMap.EarlierChapterNeverMatches | server/src/models/MoodMap.ts:73 | rows of other chapters never match, so a position before its chapter's first breakpoint gives none |
| MoodMap.ExactBreakpoint | server/src/models/MoodMap.ts:73 | asking for exactly a breakpoint's fraction returns a row at that fraction |
| MoodMap.EntriesUndefined | server/src/models/MoodMap.ts:85-93 | the update data has no defined field iff the SET clause would be empty |
| MoodMap.UpdateRows | server/src/models/MoodMap.ts:97-103 | the UPDATE changes exactly the rows with the id, to the new values, and keeps the table's length |
| MoodMap.UpdateMoodMap | server/src/models/MoodMap.ts:80-106 | with no defined field the table is untouched and the current row is returned; otherwise the row is updated and read back |
| MoodMap.UpdateThenFind | server/src/models/MoodMap.ts:97-105 | reading an updated row back gives the old row with the defined fields replaced |
| MusicService.FindMusic | server/src/services/musicService.ts:175-178 | the track with the id, or none iff no track has it |
| MusicService.Clamp | server/src/services/musicService.ts:185 | the result lies in [30, 200], equals t inside that range and the nearer bound outside it |
| MusicService.GetTempoForMood | server/src/services/musicService.ts:174-186 | 404 iff the track is missing; a tempo is always within [30, 200]; initial tempo 0 gives `NaN` |
| MusicService.RatioCancels | server/src/services/musicService.ts:181-185 | for a non-zero initial tempo the result is the mood tempo rounded and clamped |
| MusicService.OutOfRangeIsClamped | server/src/services/musicService.ts:185 | a mood tempo below 30 gives 30 and above 200 gives 200 |
| MusicService.InRangeIsKept | server/src/services/musicService.ts:181-185 | a whole mood tempo in [30, 200] comes back unchanged |
| MoodPreset.CreateMoodPreset | server/src/models/MoodPreset.ts:66-80 | `is_default` is true only when given as true; the other columns are taken from the data |
| MoodPreset.CreateMoodTrigger | server/src/models/MoodPreset.ts:143-163 | a missing or zero `transition_duration` becomes 3000 and a missing or zero `priority` becomes 1, so neither is stored as 0; the other columns are copied |
| MoodPreset.FindMoodPresetById | server/src/models/MoodPreset.ts:82-85 | the preset with the id, or none iff no preset has it |
| MoodPreset.FindMoodPresetsByBook | server/src/models/MoodPreset.ts:87-96 | the book's presets whose creator exists, a permutation of them, defaults first, then oldest first |
| MoodPreset.DefaultPresetsFirst | server/src/models/MoodPreset.ts:93 | in the listing every default preset comes before every non-default one |
| MoodPreset.FindMoodPresetsByCreator | server/src/models/MoodPreset.ts:98-107 | the creator's presets whose book exists, a permutation of them, newest first |
| MoodPreset.GetDefaultPresetForBook | server/src/models/MoodPreset.ts:229-236 | some default preset of the book, or none iff the book has no default preset |
| MoodPreset.CanUserModifyPreset | server/src/models/MoodPreset.ts:215-227 | true iff the preset exists and the user exists and either created it or has role admin |
| MoodPreset.OwnershipCases | server/src/models/MoodPreset.ts:223-226 | an unknown preset gives false for everyone; an admin may modify every existing preset |
| MoodPreset.PgInteger | server/src/models/MoodPreset.ts:249-250 | the `INTEGER` cast of a range end is within half a unit of it |
| MoodPreset.PageRangeInclusive | server/src/models/MoodPreset.ts:247-251 | a range `[lo, hi]` matches a page iff lo <= page <= hi, both ends included, so a reversed range matches nothing |
| MoodPreset.GetMoodTriggersForPosition | server/src/models/MoodPreset.ts:239-256 | the result is a permutation of the matching triggers, sorted by priority ascending |
| MoodPreset.PositionResultMembers | server/src/models/MoodPreset.ts:244-251 | a trigger is returned iff it belongs to the preset, is active, and has no page range or a range holding the page |
| MoodPreset.FindMoodTriggersByPreset | server/src/models/MoodPreset.ts:170-179 | the preset's active triggers, a permutation of them, ordered by priority then creation time |
| MoodPreset.InactiveNeverListed | server/src/models/MoodPreset.ts:175 | an inactive trigger is never listed |
| MoodPreset.FindMoodTriggerById | server/src/models/MoodPreset.ts:165-168 | the trigger with the id, or none iff no trigger has it |
| MoodPreset.PresetEntriesUndefined | server/src/models/MoodPreset.ts:114-122 | the preset update has no defined field iff the SET clause would be empty |
| MoodPreset.UpdatePresetRows | server/src/models/MoodPreset.ts:126-132 | the UPDATE rewrites exactly the presets with the id and stamps `updated_at` |
| MoodPreset.PresetsAfterUpdate | server/src/models/MoodPreset.ts:109-135 | with no defined field the table is unchanged; otherwise no id changes and only the preset with the id changes |
| MoodPreset.UpdateMoodPreset | server/src/models/MoodPreset.ts:109-135 | the new table is `PresetsAfterUpdate`; the result is the preset read back, present iff it existed before |
| MoodPreset.TriggerEntriesUndefined | server/src/models/MoodPreset.ts:186-194 | the trigger update has no defined field iff the SET clause would be empty |
| MoodPreset.UpdateTriggerRows | server/src/models/MoodPreset.ts:198-204 | the UPDATE rewrites exactly the triggers with the id and stamps `updated_at` |
| MoodPreset.TriggersAfterUpdate | server/src/models/MoodPreset.ts:181-207 | with no defined field the table is unchanged; otherwise no id changes and only the trigger with the id changes |
| MoodPreset.UpdateMoodTrigger | server/src/models/MoodPreset.ts:181-207 | the new table is `TriggersAfterUpdate`; the result is the trigger read back, present iff it existed before |
| MoodPreset.DeleteMoodPreset | server/src/models/MoodPreset.ts:137-140 | the table loses exactly the presets with the id; the flag is true iff one existed |
| MoodPreset.DeleteMoodTrigger | server/src/models/MoodPreset.ts:209-212 | the table loses exactly the triggers with the id; the flag is true iff one existed |
| MoodPresetController.ParseCondition | server/src/controllers/moodPresetController.ts:36-45 | a condition passes iff it is an object whose members, each optional, have their shapes; the stored page range is present iff the body has one and holds its two numbers |
| MoodPresetController.PageRangeOrderUnchecked | server/src/controllers/moodPresetController.ts:37 | any two numbers form a valid page range, in either order |
| MoodPresetController.PageRangeNeedsTwoNumbers | server/src/controllers/moodPresetController.ts:37 | a page range of any length other than two is refused |
| MoodPresetController.ParseCreatePreset | server/src/controllers/moodPresetController.ts:20-25 | a body passes iff `book_id` is a uuid, `name` has 1..200 characters, and `description` and `is_default` are absent or of their types; the result holds exactly those members |
| MoodPresetController.CreatePresetRoundTrip | server/src/controllers/moodPresetController.ts:20-25 | a body of a uuid book id and a valid name parses to exactly those, with description and `is_default` undefined |
| MoodPresetController.ParseUpdatePreset | server/src/controllers/moodPresetController.ts:27-31 | a body passes iff it is an object whose name, if given, has 1..200 characters and whose description and `is_default` are absent or of their types; the result holds exactly those members; an array is refused |
| MoodPresetController.UpdatePresetRoundTrip | server/src/controllers/moodPresetController.ts:27-31 | a body naming only a valid name updates the name and nothing else |
| MoodPresetController.RequiredCondition | server/src/controllers/moodPresetController.ts:36-45 | the `trigger_condition` member passes iff it is present and valid, and is then that condition parsed |
| MoodPresetController.OptionalCondition | server/src/controllers/moodPresetController.ts:55-64 | an absent `trigger_condition` passes as undefined; a present one passes iff it is valid, and is then that condition parsed |
| MoodPresetController.ParseCreateTrigger | server/src/controllers/moodPresetController.ts:33-51 | a body passes iff it is an object with uuid preset and mood-type ids, a valid condition, an optional uuid track, an optional URL image, a duration within [100, 10000] and a priority within [1, 100] when given; the result holds exactly those members and `visual_effects` as given |
| MoodPresetController.CreateTriggerRoundTrip | server/src/controllers/moodPresetController.ts:33-51 | a body of two uuids and an empty condition parses to exactly those, with every optional member undefined |
| MoodPresetController.ParseUpdateTrigger | server/src/controllers/moodPresetController.ts:53-71 | a body passes iff it is an object whose members, each optional, meet the create rules and whose `is_active` is absent or a boolean; the result holds exactly those members |
| MoodPresetController.UpdateTriggerRoundTrip | server/src/controllers/moodPresetController.ts:53-71 | a body naming only `is_active` switches the trigger and defines nothing else |
| MoodPresetController.TriggerBoundsEnforced | server/src/controllers/moodPresetController.ts:49-50 | a duration or priority below 1 or above 10000 fails both trigger schemas |
| MoodPresetController.ValidatedTriggerDefaultsOnlyWhenAbsent | server/src/models/MoodPreset.ts:158-159 | after the schema a given duration or priority is never replaced by its default, since zero is already refused |
| MoodPresetController.PresetData | server/src/controllers/moodPresetController.ts:88-91 | the stored data is the parsed body with the caller as creator |
| MoodPresetController.CreatePreset | server/src/controllers/moodPresetController.ts:74-100 | 401, then the schema, then 403 unless the caller may modify the book; a request passing all three succeeds and stores `CreateMoodPreset` of the parsed body with the caller as creator, whatever the body says; a failure leaves the tables unchanged |
| MoodPresetController.CreatedPresetIsListed | server/src/controllers/moodPresetController.ts:74-135 | a preset just created is in the caller's own listing |
| MoodPresetController.GetPresetsByBook | server/src/controllers/moodPresetController.ts:102-118 | 400 iff the book id is empty; otherwise the book's preset listing |
| MoodPresetController.GetPresetsByCreator | server/src/controllers/moodPresetController.ts:120-135 | 401 iff there is no user; otherwise exactly the caller's presets whose book exists, newest first, each created by the caller |
| MoodPresetController.UpdatePreset | server/src/controllers/moodPresetController.ts:137-167 | 401, then 400 for an empty id, then 403 unless the caller may modify the preset, then the schema; success iff all pass, with the table updated; 404 never happens |
| MoodPresetController.DeletePreset | server/src/controllers/moodPresetController.ts:169-197 | the same guards as the update; success iff they pass, with the preset removed; 404 never happens |
| MoodPresetController.UnknownPresetIsForbidden | server/src/controllers/moodPresetController.ts:148-151 | updating or deleting a preset that does not exist gives 403, not 404 |
| MoodPresetController.CreateTrigger | server/src/controllers/moodPresetController.ts:200-223 | 401, then the schema, then 403 unless the caller may modify the named preset; a request passing all three succeeds and appends `CreateMoodTrigger` of the parsed body; a failure changes nothing |
| MoodPresetController.CreatedTriggerIsListed | server/src/controllers/moodPresetController.ts:200-241 | an active trigger just created, of a known mood type, is in its preset's trigger listing |
| MoodPresetController.GetTriggersByPreset | server/src/controllers/moodPresetController.ts:225-241 | 400 iff the preset id is empty; otherwise the preset's active triggers in order |
| MoodPresetController.GetTriggersForPosition | server/src/controllers/moodPresetController.ts:243-264 | 400 for an empty parameter or a page `parseInt` cannot read; otherwise the triggers at the parsed page |
| MoodPresetController.PositionPageParsing | server/src/controllers/moodPresetController.ts:250-253 | a page with leading digits and trailing text (`12abc`) is read as its digits; a page starting with a letter is 400 |
| MoodPresetController.UpdateTrigger | server/src/controllers/moodPresetController.ts:266-298 | 401, then 400, then 404 for a missing trigger, then 403 unless the caller may modify the trigger's preset, then the schema, whose failure changes nothing; the request succeeds iff all of these pass, and a success updates the table and returns the row read back |
| MoodPresetController.DeleteTrigger | server/src/controllers/moodPresetController.ts:300-330 | the same guards; success iff they pass, with the trigger removed |
| MoodPresetController.TriggerGuardOrder | server/src/controllers/moodPresetController.ts:278-286 | a missing trigger is 404 for everyone; an existing trigger of an unknown preset is 403 |
| MoodPresetController.MissingUserFirst | server/src/controllers/moodPresetController.ts:76-78 | every mutating handler answers 401 to a missing user before any other check, and changes nothing |
| ProgressHandler.PresetKey | server/src/websocket/handlers/progressHandler.ts:26-27 | a preset id is an integer key iff it is whole, and the key equals it |
| ProgressHandler.Resolve | server/src/websocket/handlers/progressHandler.ts:26-32 | a fractional preset id resolves nothing; the resolver is always asked for genre electronic with the user's stored sensitivity, so the tempo is the electronic tempo scaled by it |
| ProgressHandler.TriggerEvent | server/src/websocket/handlers/progressHandler.ts:34-48 | `backgroundImageUrl` is present iff the trigger has a background, and is then a signed file URL; name, tempo and transition are passed through unchecked; the timestamp is the clock |
| ProgressHandler.Dispatch | server/src/websocket/handlers/progressHandler.ts:34-100 | a `mood:trigger` is sent iff a mood was resolved: first to the sender, then, once the mood audit is written, the same event to the room without the sender; a failing audit write ends in `PROGRESS_UPDATE_ERROR` to the sender |
| ProgressHandler.OnProgressUpdate | server/src/websocket/handlers/progressHandler.ts:10-101 | a payload failing the schema gives `PROGRESS_UPDATE_ERROR` and nothing else; otherwise the deliveries go to the outbox with the room of the payload's `bookId`; sessions and rooms are unchanged |
| ProgressHandler.TriggerDeliveredIffResolved | server/src/websocket/handlers/progressHandler.ts:13-59 | a `mood:trigger` is delivered iff the payload parses, the user exists and a mood is resolved; the sender gets the first copy and no later one |
| ProgressHandler.ProgressDeliveries | server/src/websocket/handlers/progressHandler.ts:13-59 | a payload that does not parse gets only the generic error; an unknown user gets `User not found` and nothing else, whatever the audit writes would do; an error only ever goes to the sender |
| ProgressHandler.RoomGetsSameEvent | server/src/websocket/handlers/progressHandler.ts:51-59 | the room's copy goes to every other member of `book:<bookId>` from the payload, whether or not the sender is in it, and equals the sender's event |
| SocketServer.RoomNameInjective | server/src/websocket/socketServer.ts:98 | different book ids never share a `book:<id>` room name |
| SocketServer.FindUser | server/src/websocket/socketServer.ts:46 | the user with the id, or none iff no user has it |
| SocketServer.Authenticate | server/src/websocket/socketServer.ts:38-63 | a missing token gives `Authentication token required`, a failed verification `Invalid authentication token`, an unknown user `User not found`; otherwise the session is {userId, username, joinedAt = now} with no current book or preset |
| SocketServer.Joined | server/src/websocket/socketServer.ts:101-102 | `room:join` overwrites both current fields with the request and keeps the rest of the session |
| SocketServer.Left | server/src/websocket/socketServer.ts:131-132 | `room:leave` clears both current fields, whichever book was named, and keeps the rest of the session |
| SocketServer.JoinLeaveRoundTrip | server/src/websocket/socketServer.ts:98-132 | a second join replaces the first; a leave after joins restores the session of the handshake |
| SocketServer.Server.constructor | server/src/websocket/socketServer.ts:27-35 | the server starts with no sessions, no rooms and no deliveries |
| SocketServer.Server.Connect | server/src/websocket/socketServer.ts:66-83 | when the connection audit succeeds the session is added and it alone receives `sync:status` `connected`; when it fails nothing is sent and no session is recorded; rooms are unchanged (the process exit that follows a failed write is under "## Left out") |
| SocketServer.Server.Ping | server/src/websocket/socketServer.ts:91-93 | `pong` goes to the sender only and nothing else changes |
| SocketServer.Server.Join | server/src/websocket/socketServer.ts:96-116 | the session joins `book:<bookId>` without leaving any other room, its current fields are overwritten, and `user:joined` goes to the room's earlier members, not the joiner |
| SocketServer.Server.Leave | server/src/websocket/socketServer.ts:119-139 | the session leaves `book:<bookId>`, the remaining members get `user:left`, and both current fields are cleared |
| SocketServer.Server.UpdateSettings | server/src/websocket/socketServer.ts:142-157 | settings change no state; a failed audit write sends `Failed to update settings` to the sender |
| SocketServer.Server.Disconnect | server/src/websocket/socketServer.ts:160-179 | the session is removed from every room and from the sessions; `user:left` goes to `book:<currentBookId>` only when the audit succeeds and that id is truthy, so book 0 notifies nobody (the process exit that follows a failed write is under "## Left out") |
| ProgressHandler.UnknownTransitionSent | server/src/websocket/handlers/progressHandler.ts:46 | a transition outside fade, crossfade and jump is sent as it is, since it is cast and not checked |
| Events.ParseProgressUpdate | server/src/websocket/events.ts:4-10 | a progress update is valid iff `bookId`, `presetId`, `chapter`, `pageFraction` and `timestamp` are all numbers, with no sign or range limit, and the parsed values are those numbers |
| Events.ParseJoin | server/src/websocket/events.ts:12-15 | a join request is valid iff `bookId` and `presetId` are numbers |
| Events.ParseLeave | server/src/websocket/events.ts:17-19 | a leave request is valid iff `bookId` is a number |
| Events.ParseTheme | server/src/websocket/events.ts:25 | a theme is valid iff it is `light` or `dark` |
| Events.ParseSettings | server/src/websocket/events.ts:21-26 | a settings update is valid iff it is an object whose fields, each optional, are sensitivity in [0.1, 2.0], volume in [0, 100], a boolean `dynamicBg` and a valid theme; each parsed field, the theme included, is the payload's value or absent when the payload has none |
| Events.SettingsExamples | server/src/websocket/events.ts:21-26 | `{}` is a valid update that changes nothing; sensitivity 2.5 and theme `blue` are refused |
| RoleAuth.RoleNames | server/src/middleware/roleAuth.ts:5 | each role is named by its own text, in order |
| RoleAuth.RequireRole | server/src/middleware/roleAuth.ts:14-28 | 401 without a user; otherwise it passes iff the user's role is in the list, else 403 naming the roles joined by " or " |
| RoleAuth.RequireCreator | server/src/middleware/roleAuth.ts:31 | 401 without a user; otherwise it passes iff the role is creator or admin |
| RoleAuth.RequireAdmin | server/src/middleware/roleAuth.ts:32 | 401 without a user; otherwise it passes iff the role is admin |
| RoleAuth.RequireCreatorAndAdmin | server/src/middleware/roleAuth.ts:31-32 | a reader refused by `requireCreator` is told `creator or admin`, and a non-admin refused by `requireAdmin` is told `admin` |
| RoleAuth.SingleRoleIsList | server/src/middleware/roleAuth.ts:20 | a single role behaves exactly like the one-element list |
| RoleAuth.CanUploadBooks | server/src/middleware/roleAuth.ts:35-45 | 401 without a user; otherwise it passes iff the role is creator or admin, else 403 |
| RoleAuth.CanCreateMoodPresets | server/src/middleware/roleAuth.ts:48-58 | 401 without a user; otherwise it passes iff the role is creator or admin, else 403 |
| RoleAuth.CreatorGuardsAgree | server/src/middleware/roleAuth.ts:31-53 | the upload and preset guards admit exactly the users `requireCreator` admits |
| RoleAuth.CanModifyResource | server/src/middleware/roleAuth.ts:61-73 | 401 without a user; otherwise it passes iff the user is an admin or is the resource's creator, else 403 |
| BookController.RequireCreatorRole | server/src/controllers/bookController.ts:62-69 | 401 iff there is no user; a reader gets 403 with the handler's message; creators and admins pass unchanged |
| BookController.ParseCreateBook | server/src/controllers/bookController.ts:22-36 | a body is accepted iff each of its thirteen members passes its own rule (a title of 1 to 500 characters, an author of at most 300, an ISBN of at most 20, a language of at most 10, a genre of at most 100, counts of at least 1, a URL as cover, text path and type); the result holds exactly those values and the caller's id as creator; anything else is a schema rejection |
| BookController.CreateBookRoundTrip | server/src/controllers/bookController.ts:22-36 | a body of a valid title, a path and a type parses to exactly those, with every optional member undefined |
| BookController.CreateBookRecord | server/src/controllers/bookController.ts:60-84 | 401 without a user, 403 for a reader; otherwise the record is created iff the body meets the schema, and its creator is the caller |
| BookController.FormField | server/src/controllers/bookController.ts:101-111 | a form field is present iff the form has the key, and is that value |
| BookController.CountField | server/src/controllers/bookController.ts:128-129 | a page or word count is passed iff the field is truthy, and is then `parseInt` of its text (none for `NaN`) |
| BookController.StringsToJson | server/src/controllers/bookController.ts:117-125 | repeated `tags` fields become a JSON array of the same texts, in order |
| BookController.UploadTags | server/src/controllers/bookController.ts:117-125 | a missing or blank `tags` gives `[]`; repeated fields give their texts; a single text is parsed as JSON |
| BookController.UploadBook | server/src/controllers/bookController.ts:86-141 | 401, 403, `No file uploaded` and `Title is required` are checked in that order, and unparsable tags text fails; otherwise the upload keeps the file's path, size and type, the form's title, author, description, ISBN and genre and the caller as creator, defaults the language to `en`, and passes counts and tags as their own rules give them |
| BookController.UploadDefaults | server/src/controllers/bookController.ts:118-130 | a blank language is replaced by `en` like a missing one, and a blank tags field stores an empty list |
| BookController.GetBook | server/src/controllers/bookController.ts:143-167 | a blank id is 400; the book is returned iff it exists and is published, otherwise 404 |
| BookController.UnpublishedLooksMissing | server/src/controllers/bookController.ts:151-158 | an unpublished book gets the same status as one that does not exist |
| BookController.QueryText | server/src/controllers/bookController.ts:52-58 | a text query parameter is present iff the key is in the query |
| BookController.ParseBookQuery | server/src/controllers/bookController.ts:52-58 | `q`, `genre` and `tag` are taken as they are; `page` and `limit` are `Number` of their text, defaulting to 1 and 20 |
| BookController.SelectBookSource | server/src/controllers/bookController.ts:174-182 | a non-empty search text wins, then a non-empty genre, then a non-empty tag, else all published books, each case iff its condition holds |
| BookController.GetBooks | server/src/controllers/bookController.ts:169-204 | the total is the length of the chosen source's list and the page never holds more than that |
| BookController.SecondPageOfTag | server/src/controllers/bookController.ts:169-204 | `?tag=t&page=2` returns items 20 to 39 of the books with the tag |
| BookController.GetCreatorBooks | server/src/controllers/bookController.ts:207-226 | 401 without a user, 403 for a reader; otherwise exactly the caller's own books, newest upload first |
| BookController.OfCreator | server/src/models/Book.ts:105-112 | exactly the rows whose creator is the given user (the `WHERE creator_id = $1` of the query) |
| BookController.BooksOf | server/src/models/Book.ts:105-112 | `findBooksByCreator`: a permutation of the rows whose creator is the given user, ordered by `uploaded_at` descending |
| BookController.ParseUpdateBook | server/src/controllers/bookController.ts:38-50 | a body is accepted iff it is an object each of whose members, all optional, passes its own rule; the result holds exactly those values; an array is a schema rejection |
| BookController.RequireBookOwner | server/src/controllers/bookController.ts:230-243 | 401 without a user, 400 for a blank id, otherwise it passes iff `canUserModifyBook` holds and answers 403 otherwise |
| BookController.UpdateBookRecord | server/src/controllers/bookController.ts:228-258 | a failed guard is answered before the body is read, a body outside the schema is then rejected, and the update is accepted iff both pass, for the id and the parsed fields |
| BookController.UpdateBookBodies | server/src/controllers/bookController.ts:38-50 | for the owner, a body naming only `is_published` is accepted as that flag and nothing else, and an array body is rejected |
| BookController.WithoutBook | server/src/controllers/bookController.ts:276 | exactly the rows whose id differs |
| BookController.DeleteBookRecord | server/src/controllers/bookController.ts:260-288 | the book is removed iff the caller may modify it, and every other row stays |
| BookController.UnknownBookIsForbidden | server/src/controllers/bookController.ts:238-243 | a book id that does not exist gets 403, not 404, on update and delete |
| BookController.LimitOrDefault | server/src/controllers/bookController.ts:293 | a missing limit, a `NaN` limit and a limit of 0 all give the default; any other `parseInt` value is kept |
| BookController.PopularLimit | server/src/controllers/bookController.ts:291-303 | the popular list's limit is never 0 and is 10 without a query limit |
| BookController.RecentLimit | server/src/controllers/bookController.ts:306-318 | the recent list's limit is never 0 and is 20 without a query limit |
| BookController.LimitExamples | server/src/controllers/bookController.ts:293-308 | `limit=0` gives 10, `limit=none` gives 20, and `limit=<n>items` gives n |
| BookTable.FindBook | server/src/models/Book.ts:191-203 | the row with the id, or none iff no row has it |
| BookTable.BookOwnershipCases | server/src/models/Book.ts:191-203 | with ids as primary keys, a stored user may modify a stored book iff they created it or are an admin, and nobody may modify a book no row holds or act as a user no row holds |
| BookTable.FindBookIsRow | server/src/models/Book.ts:87-90 | under a primary key, the lookup by a stored row's id returns that row |
| BookTable.CanUserModifyBook | server/src/models/Book.ts:191-203 | true iff the book and the user both exist and the user is the book's creator or an admin |
| Pagination.TrimEnd | server/src/controllers/bookController.ts:56-57 | trailing white space is removed and nothing else |
| Pagination.Trim | server/src/controllers/bookController.ts:56-57 | the trimmed text neither starts nor ends with white space, is no longer than the input, and is empty for all-blank text |
| Pagination.DecimalValue | server/src/controllers/bookController.ts:56-57 | the value of decimal text is at least that of its whole part |
| Pagination.UnsignedDecimal | server/src/controllers/bookController.ts:56-57 | decimal text without a sign has a non-negative value |
| Pagination.NumberOf | server/src/controllers/bookController.ts:56-57 | `Number` of blank text is 0 |
| Pagination.UnsignedDecimalOfDigits | server/src/controllers/bookController.ts:56-57 | digit text has the value of its digits |
| Pagination.TrimOfDigits | server/src/controllers/bookController.ts:56-57 | digit text has no white space to trim |
| Pagination.NumberOfNatText | server/src/controllers/bookController.ts:56-57 | `Number` of the decimal text of n is n |
| Pagination.TrimKeepsLeadingLetter | server/src/controllers/bookController.ts:56-57 | trimming keeps a leading letter in front |
| Pagination.LeadingLetterIsNotDecimal | server/src/controllers/bookController.ts:56-57 | text starting with a letter is not decimal |
| Pagination.NumberOfWordIsNaN | server/src/controllers/bookController.ts:56-57 | `Number` of a word is `NaN` |
| Pagination.QueryNumber | server/src/controllers/bookController.ts:171 | a missing parameter takes the default; a present one is `Number` of its text |
| Pagination.Trunc | server/src/controllers/bookController.ts:187 | slice positions are truncated toward zero |
| Pagination.TruncOfInt | server/src/controllers/bookController.ts:187 | a whole position is kept |
| Pagination.SliceIndex | server/src/controllers/bookController.ts:187 | a slice position is truncated, counted from the end when negative, clamped to [0, length], and `NaN` is 0 |
| Pagination.SliceIndexOfInt | server/src/controllers/bookController.ts:187 | a whole non-negative position is clamped to the length; a negative one counts from the end |
| Pagination.Slice | server/src/controllers/bookController.ts:187 | the elements between the two positions, or none when the end comes first |
| Pagination.Paginate | server/src/controllers/bookController.ts:184-198 | the total is the list length and the page and limit are echoed; a `NaN` page or limit gives an empty page that reports no more |
| Pagination.Min | server/src/controllers/bookController.ts:187 | the smaller of the two |
| Pagination.WindowBounds | server/src/controllers/bookController.ts:185-186 | the window of page p lies inside the list |
| Pagination.Window | server/src/controllers/bookController.ts:185-187 | a window never holds more than the limit |
| Pagination.WholeIndices | server/src/controllers/bookController.ts:185-186 | for whole page and limit, the start is (page - 1) * limit and the end page * limit |
| Pagination.WholePage | server/src/controllers/bookController.ts:184-198 | for whole page >= 1 and limit, the page is items (page - 1) * limit up to page * limit, at most limit of them, and `hasMore` holds iff page * limit is below the total |
| Pagination.PageZeroIsEmpty | server/src/controllers/bookController.ts:184-198 | page 0 is always empty, yet reports more whenever the list is non-empty |
| Pagination.PageMinusOneCountsFromEnd | server/src/controllers/bookController.ts:184-198 | page -1 returns the second-to-last block of limit items, counted from the end |
| Pagination.PageMinusOneBounds | server/src/controllers/bookController.ts:185-186 | page -1 has start -2 * limit and end -limit |
| Pagination.PagesTile | server/src/controllers/bookController.ts:184-198 | pages 1 to k, concatenated, are the first k * limit items |
| Pagination.LastPageCompletesList | server/src/controllers/bookController.ts:197 | once a page reports no more, the pages up to it hold the whole list |
| Pagination.FirstPageOfTwenty | server/src/controllers/bookController.ts:184-198 | page 1 with limit 20 is the first 20 items |
| Pagination.DefaultPage | server/src/controllers/bookController.ts:171-198 | without `page` and `limit` the first 20 items are returned |
| Pagination.BlankPageIsEmpty | server/src/controllers/bookController.ts:56-57 | a blank `page` parameter is `Number("") == 0` and gives an empty page |
| MusicController.CreateMusic | server/src/controllers/musicController.ts:7-41 | a body is accepted iff the title has 1 to 100 characters, an optional genre at most 50, `filepath` is text, `is_public` is an optional boolean and `initial_tempo` is a number in [30, 200]; the result holds exactly those members |
| MusicController.CreateMusicRoundTrip | server/src/controllers/musicController.ts:7-13 | a body of a valid title, a path and a tempo in [30, 200] is created as exactly those |
| MusicController.ParseUpdateMusic | server/src/controllers/musicController.ts:15-20 | a body is accepted iff it is an object each of whose members, all optional, meets the create rule; the result holds exactly those members; an array is a schema rejection |
| MusicController.UpdateMusicRoundTrip | server/src/controllers/musicController.ts:15-20 | a body naming a valid title and tempo updates those two and nothing else |
| MusicController.EmptyUpdateAccepted | server/src/controllers/musicController.ts:15-20 | `{}` is a valid update that sets nothing, and an array is refused |
| MusicController.UploadMusic | server/src/controllers/musicController.ts:43-72 | `No file uploaded`, `Title is required` and `Initial tempo is required` are checked in that order, each iff its field is missing or falsy; the genre defaults to `unknown`, the tempo is `parseInt` of its text, and the track is private iff `is_public` is exactly `false` |
| MusicController.UploadSkipsTempoBounds | server/src/controllers/musicController.ts:53-61 | any decimal tempo text is accepted on upload and handed on as its value, without the create bounds |
| MusicController.CreateRefusesFastTempo | server/src/controllers/musicController.ts:12 | a tempo above 200 is refused by the create schema |
| MusicController.ZeroTempoUploadGivesNaN | server/src/controllers/musicController.ts:53-61 | an upload with tempo text `0` is accepted, and a track with initial tempo 0 makes the tempo adjustment `NaN` |
| MusicController.ParseMusicQuery | server/src/controllers/musicController.ts:22-27 | `q` and `genre` are present iff given, and then are the given text; `page` and `limit` are `Number` of their text, defaulting to 1 and 20 |
| MusicController.SelectMusicSource | server/src/controllers/musicController.ts:100-106 | a non-empty search text wins, then a non-empty genre, else all tracks, each case iff its condition holds |
| MusicController.GetMusicList | server/src/controllers/musicController.ts:95-128 | the total is the length of the chosen source's list and the page never holds more than that |
| MusicController.SearchTakesPrecedence | server/src/controllers/musicController.ts:100-106 | with a search text the genre is ignored, and an empty search text counts as none |
| MusicController.MusicId | server/src/controllers/musicController.ts:76-79 | an id is accepted iff `parseInt` reads a number from it, and is that number; otherwise 400 `Invalid music ID` |
| MusicController.GetMusic | server/src/controllers/musicController.ts:74-93 | the track is returned iff the id parses and a track has it, and it is that track; a parsed id with no track is 404 |
| MusicController.UpdateMusic | server/src/controllers/musicController.ts:130-151 | the id is checked before the body and the body before the lookup; the update is accepted iff all three pass |
| MusicController.WithoutMusic | server/src/controllers/musicController.ts:160 | exactly the rows whose id differs |
| MusicController.DeleteMusic | server/src/controllers/musicController.ts:153-172 | a bad id is 400 and an unknown one 404, both changing nothing; otherwise the track is removed and every other row stays, and the answer succeeds iff the audit write that follows the delete succeeds (a 500 otherwise, with the row already gone) |
| MusicController.NonNumericIdRejected | server/src/controllers/musicController.ts:76-157 | an id without leading digits is 400 on get, update and delete, whatever the table and the body hold |
| MusicController.TrailingTextInId | server/src/controllers/musicController.ts:76 | an id with trailing text after its digits is read as its digits |
| NodePath.LastIndex | server/src/utils/fileUtils.ts:13 | the position of the last occurrence of the character, or none iff it does not occur |
| NodePath.StripTrailingSlashes | server/src/services/signedUrlService.ts:58 | a prefix of the path that does not end in `/`, with only slashes removed |
| NodePath.Basename | server/src/services/signedUrlService.ts:58 | the last path component: it holds no `/` |
| NodePath.Extname | server/src/utils/fileUtils.ts:13 | empty, or a tail of the base name that starts with its only dot and is shorter than the base name; empty when the base name has no dot |
| NodePath.ExtnameOfStemAndExt | server/src/utils/fileUtils.ts:13-14 | the extension of a stem followed by a dotted extension is that extension |
| NodePath.DotFileHasNoExtension | server/src/services/signedUrlService.ts:40 | a name whose only dot leads it, such as `.bashrc`, has no extension |
| NodePath.LastDotCounts | server/src/services/signedUrlService.ts:40 | only the last dot counts: `a.tar.gz` has extension `.gz` |
| NodePath.BasenameLower | server/src/services/signedUrlService.ts:40 | the base name of the lower-cased path is the lower-cased base name |
| NodePath.ExtnameLower | server/src/utils/fileUtils.ts:40 | the extension of the lower-cased path is the lower-cased extension |
| FileUtils.Stem | server/src/utils/fileUtils.ts:13-14 | the stem followed by the extension is the base name; the stem is non-empty when there is an extension |
| FileUtils.MiddleHasNoSeparator | server/src/utils/fileUtils.ts:15-17 | the stem, timestamp and uuid part of a generated name hold no `/` |
| FileUtils.GeneratedNameShape | server/src/utils/fileUtils.ts:12-18 | a generated name starts with the original stem, ends with the original extension, and is at least 10 characters longer than both together |
| FileUtils.GeneratedNameKeepsExtension | server/src/utils/fileUtils.ts:12-18 | a generated name has the same extension as the original |
| FileUtils.ValidateFileType | server/src/utils/fileUtils.ts:39-42 | only an allowed type without upper-case letters can ever match, and a name without extension passes iff the list holds the empty text |
| FileUtils.ValidateFileTypeIgnoresCase | server/src/utils/fileUtils.ts:39-42 | the check does not depend on the case of the file name |
| FileUtils.UpperCaseEntryNeverMatches | server/src/utils/fileUtils.ts:40-41 | a list entry holding an upper-case letter never matches, since only the extension is lower-cased |
| FileUtils.NoExtensionNeedsEmptyEntry | server/src/utils/fileUtils.ts:40-41 | a name without extension is allowed iff the list holds the empty text |
| SignedUrlService.GenerateSignedUrl | server/src/services/signedUrlService.ts:13-21 | the URL is `/api/files/` followed by the token, and nothing else |
| SignedUrlService.TokenOf | server/src/services/signedUrlService.ts:20 | a token is read iff the URL starts with `/api/files/` |
| SignedUrlService.SignedUrlRoundTrip | server/src/services/signedUrlService.ts:13-29 | the token read back from a generated URL is the token signed |
| SignedUrlService.VerifySignedUrl | server/src/services/signedUrlService.ts:23-29 | a token that fails verification gives 401 `Invalid or expired file access token`; otherwise its payload |
| SignedUrlService.AccessMeansKnownType | server/src/services/signedUrlService.ts:31-81 | access is allowed iff the file exists and its lower-cased extension has a MIME type of its own |
| SignedUrlService.AccessIgnoresCase | server/src/services/signedUrlService.ts:31-50 | access does not depend on the case of the path |
| SignedUrlService.MimeType | server/src/services/signedUrlService.ts:61-74 | a listed extension gets its type; any other gets `application/octet-stream` |
| SignedUrlService.GetFileMetadata | server/src/services/signedUrlService.ts:52-81 | a missing file is 404 `File not found`; otherwise its size, the type of its lower-cased extension and its base name |
| SignedUrlService.AllowListHasMimeTypes | server/src/services/signedUrlService.ts:39-72 | the allowed extensions are exactly those with a type, and `.jpg` and `.jpeg` share `image/jpeg` |
| SignedUrlService.AllowedExtensionHasKnownType | server/src/services/signedUrlService.ts:39-74 | an allowed extension never falls back to `application/octet-stream` |
| SignedUrlService.AccessibleFileHasKnownType | server/src/services/signedUrlService.ts:31-81 | a file that passes the access check has a known type |
| SignedUrlService.PdfMimeType | server/src/services/signedUrlService.ts:62 | `.pdf` is `application/pdf` |
| SignedUrlService.LowerPdf | server/src/services/signedUrlService.ts:40 | `.PDF` lower-cases to `.pdf` |
| SignedUrlService.UpperCaseExtensionAccepted | server/src/services/signedUrlService.ts:40-62 | a file named with `.PDF` is accepted and typed as PDF |
| Text.DigitChar | server/src/models/MoodPreset.ts:116 | a digit below 10 is written as a decimal digit character |
| Text.DigitValue | server/src/controllers/musicController.ts:76 | a hex digit has a value below 16, and a decimal digit a value below 10 that it is written with |
| Text.NatToString | server/src/models/MoodPreset.ts:116 | a number is written as at least one decimal digit, with no leading zero except for 0 itself |
| Text.IntToString | server/src/websocket/socketServer.ts:98 | an integer's text starts with `-` iff it is negative |
| Text.DecimalRoundTrip | server/src/models/MoodPreset.ts:116 | the digits written for n read back as n |
| Text.NatToStringInjective | server/src/models/MoodPreset.ts:116 | different numbers are written differently |
| Text.IntToStringInjective | server/src/websocket/socketServer.ts:98 | different integers are written differently |
| Text.TrimStart | server/src/controllers/musicController.ts:76 | `parseInt` skips leading ECMAScript white space and line terminators and nothing else |
| Text.DigitPrefix | server/src/controllers/musicController.ts:76 | `parseInt` reads the longest run of digits at the front |
| Text.AllDigitsPrefix | server/src/controllers/musicController.ts:76 | digit text is read whole |
| Text.DigitPrefixStopsAt | server/src/controllers/musicController.ts:76 | reading stops at the first character that is not a digit |
| Text.ParseUnsigned | server/src/controllers/musicController.ts:76 | empty text or text not starting with a digit is `NaN`; a leading digit not followed by a `0x` prefix gives a number |
| Text.ParseInt | server/src/controllers/musicController.ts:76 | blank text is `NaN`; text starting with a digit reads as its unsigned part; a number is only read from text holding a decimal digit |
| Text.ParseUnsignedDecimal | server/src/controllers/musicController.ts:76 | the decimal text of n followed by text not starting with a digit reads as n (only `0` followed by `x` switches to hexadecimal) |
| Text.ParseIntDigitsLead | server/src/controllers/musicController.ts:76 | text starting with a digit reads without a sign |
| Text.ParseIntMinusDigits | server/src/controllers/musicController.ts:76 | a leading `-` negates the value read |
| Text.ParseIntRoundTrip | server/src/controllers/musicController.ts:76 | `parseInt` of the text of any integer is that integer |
| Text.ParseIntIgnoresTrailingText | server/src/controllers/moodPresetController.ts:250 | text after the digits is ignored |
| Text.ParseIntExamples | server/src/controllers/moodPresetController.ts:250-253 | `parseInt("12abc")` is 12 and `parseInt("abc")` is `NaN` |
| Text.ParseIntRejectsLetters | server/src/controllers/moodPresetController.ts:250-253 | text starting with an ASCII letter, upper or lower case, reads as `NaN` |
| Text.Lower | server/src/services/moodService.ts:72 | each ASCII upper-case letter is replaced by its lower-case letter, every other character is kept, and the length is kept |
| Text.LowerIdempotent | server/src/services/moodService.ts:72 | lower-casing twice is lower-casing once, and leaves no upper-case letter |
| Text.LowerKeepsLowerCase | server/src/services/moodService.ts:72 | text without upper-case letters is unchanged |
| Text.Join | server/src/middleware/roleAuth.ts:23 | no parts join to the empty text and a single part to itself |
| Text.JoinEnds | server/src/middleware/roleAuth.ts:23 | the joined text starts with the first part followed by the separator and ends with the last part |
| Sorting.KeyLeTransitive | server/src/models/MoodPreset.ts:93 | the `ORDER BY` key order is transitive |
| Sorting.SortedCons | server/src/models/MoodPreset.ts:93 | a key no greater than the head keeps a sorted list sorted |
| Sorting.Insert | server/src/models/MoodPreset.ts:93 | inserting into a sorted list keeps it sorted and adds exactly the new row |
| Sorting.InsertHeadBound | server/src/models/MoodPreset.ts:93 | after inserting a larger row behind the head, the head still leads |
| Sorting.SortBy | server/src/models/MoodPreset.ts:93-104 | an `ORDER BY` result is sorted by its key and is a permutation of the selected rows |
| Sorting.SortByMembers | server/src/models/MoodPreset.ts:176 | ordering keeps exactly the selected rows |
| SetClause.Defined | server/src/models/MoodPreset.ts:114-120 | the defined fields, in order; none iff every field is undefined |
| SetClause.DefinedStep | server/src/models/MoodPreset.ts:114-120 | one more entry adds itself to the defined fields iff it is defined |
| SetClause.NumberedAppend | server/src/models/MoodPreset.ts:116-118 | appending the next defined field keeps the clauses numbered `$1..$n` |
| SetClause.BuildSetClause | server/src/models/MoodPreset.ts:110-120 | one assignment `key = $j` per defined field, numbered from 1 in field order, with the matching values, and the next index after them |
| SetClause.PlanUpdate | server/src/models/MoodPreset.ts:109-135 | no `UPDATE` runs iff no field is defined; otherwise the values are those of the defined fields followed by the id, whose placeholder is `$(n + 1)` |
| Schema.RequiredText | server/src/controllers/musicController.ts:8 | a string field is accepted iff its length is within the bounds, and is that string |
| Schema.OptionalText | server/src/controllers/musicController.ts:9 | a missing field is accepted as absent; a present one is accepted iff it meets the required rule, and is then returned as that string |
| Schema.OptionalString | server/src/controllers/bookController.ts:25 | a field is accepted iff it is missing or a string |
| Schema.RequiredUuid | server/src/controllers/moodPresetController.ts:21 | a field is accepted iff it is a string in UUID form |
| Schema.OptionalUuid | server/src/controllers/moodPresetController.ts:46 | a missing field is accepted as absent; a present one is accepted iff it is a string in UUID form, and is then returned as that string |
| Schema.OptionalUrl | server/src/controllers/bookController.ts:29 | a field is accepted iff it is missing or a URL string; a missing one is absent and a present one is returned as that string |
| Schema.OptionalBool | server/src/controllers/musicController.ts:11 | a field is accepted iff it is missing or a boolean; a present one is returned as that boolean |
| Schema.OptionalNumberIn | server/src/controllers/musicController.ts:19 | a field is accepted iff it is missing or a number within the bounds; a present one is returned as that number |
| Schema.RequiredString | server/src/controllers/musicController.ts:10 | a field is accepted iff it is a string |
| Schema.RequiredNumberIn | server/src/controllers/musicController.ts:12 | a field is accepted iff it is a number within the bounds |
| Schema.OptionalNumberAtLeast | server/src/controllers/bookController.ts:32 | a field is accepted iff it is missing or a number at least the bound; a present one is returned as that number |
| Schema.OptionalNumber | server/src/controllers/bookController.ts:27 | a field is accepted iff it is missing or a number; a present one is returned as that number |
| Schema.Strings | server/src/controllers/bookController.ts:34 | the texts of an array of strings, in order |
| Schema.OptionalStringArray | server/src/controllers/bookController.ts:34 | a field is accepted iff it is missing or an array of strings; a present one is returned as those strings in order |
| Schema.ParseIntField | server/src/controllers/musicController.ts:61 | a single form value reads as `parseInt` of its text; a field repeated zero times is `NaN` |
| Schema.RepeatedFieldReadsFirst | server/src/controllers/musicController.ts:61 | a repeated field whose first text is a number reads as that number, since the comma that joins the texts stops `parseInt` |
| MoodPreset.OrDefault | server/src/models/MoodPreset.ts:158-159 | a missing or zero value takes the default; any other value is kept |
| MoodPreset.FindUser | server/src/models/MoodPreset.ts:89-91 | the user with the id, or none iff no user has it |
| MoodPreset.PresetsOfBook | server/src/models/MoodPreset.ts:87-96 | exactly the book's presets whose creator exists |
| MoodPreset.PresetsOfCreator | server/src/models/MoodPreset.ts:98-107 | exactly the creator's presets whose book exists |
| MoodPreset.TriggersAt | server/src/models/MoodPreset.ts:239-250 | exactly the preset's active triggers of a known mood type whose page range holds the page |
| MoodPreset.ActiveOfPreset | server/src/models/MoodPreset.ts:170-178 | exactly the preset's active triggers of a known mood type |
| MoodPreset.WithoutPreset | server/src/models/MoodPreset.ts:137-140 | exactly the presets with another id; the table shrinks iff a preset has the id |
| MoodPreset.WithoutTrigger | server/src/models/MoodPreset.ts:209-212 | exactly the triggers with another id; the table shrinks iff a trigger has the id |
| SyncService.KeptFor | server/src/services/syncService.ts:70-92 | a batch never keeps more events for a user than it holds |
| SyncService.ProcessStepBuffer | server/src/services/syncService.ts:22-31 | one event of a batch is appended to, and capped in, its own user's buffer iff it is well-formed and of a known type; every other buffer is unchanged |
| SyncService.LastOfBatch | server/src/services/syncService.ts:70-92 | the last event of a batch changes a user's buffer, and the events kept for that user, exactly as one step after the rest of the batch |

## Left out

- SQL execution and the database driver: each table is a sequence of rows, and each query is a filter and sort function over it. Row ids produced by the database are parameters.
- The row updates of `Book.ts` and `Music.ts`, with their own clause builders: `BookController.UpdateBookRecord` and `MusicController.UpdateMusic` return the id and the accepted fields, and stop there. The builder itself is modelled once, in `SetClause`, on the pattern of `MoodPreset.ts`.
- MusicController.CreateMusic does not model the audit write that `createNewMusic` awaits after the insert (musicService.ts:26); when it fails the source answers 500 after the row is stored, where the model reports success.
- MusicController.UploadMusic does not model the same write, reached through `handleMusicUpload`.
- MusicController.UpdateMusic does not model the audit write that `updateMusicService` awaits after the update (musicService.ts:99); when it fails the source answers 500 after the row is changed.
- Audit-log writes and logger calls. Where the outcome of an audit write changes what a handler emits or stores, that outcome is a parameter: the `auditOk` flag of `SocketServer.Server.Connect`, `SocketServer.Server.Disconnect`, `SocketServer.Server.UpdateSettings`, `SyncHandler.OnSyncEvent`, `SyncController.ClearSyncData` and `MusicController.DeleteMusic`, the two flags of `ProgressHandler.Dispatch`, and the position of the first failing write in `SyncService.SyncStore.ProcessSyncDelta`. The writes that follow a music row's creation or update are left out, as the lines above say. The writes of `bookService.ts` and `authService.ts` lie on no path of the modelled handlers.
- JWT signing and verification, bcrypt, uuid, multer and the `fs` calls. They are parameters: the verified payload, the existence flag, the file size, the uploaded file and the 8-character uuid prefix. `JSON.parse` of an upload's `tags` text is a parameter function too.
- Pagination.NumberOf models `Number()` on decimal text only. Exponents, hexadecimal (`0x`), binary (`0b`) and octal (`0o`) text and `Infinity` give `NaN` in the model, where JavaScript gives a number. Numeric separators (`1_000`) give `NaN` in both.
- Form values are text or repeated text. Query values are text only: a query is a map from each key to one text, and nested objects from the query-string parser are not modelled.
- BookController.ParseBookQuery assumes each key occurs once. Express turns a repeated key (`?q=a&q=b`) into an array, which `z.string()` refuses; the error handler then answers 500. The model cannot express that query and always parses.
- MusicController.ParseMusicQuery assumes the same, and a repeated key's 500 is likewise not modelled.
- BookController.PopularLimit reads a single `limit` text; a repeated `limit` reaches `parseInt` as an array, which reads its comma-joined text, and is not modelled.
- BookController.RecentLimit: the same.
- IEEE floating point: sensitivities, fractions and tempos are exact reals. `Math.round` is `Floor(x + 0.5)`, and the PostgreSQL integer cast rounds to the nearest integer.
- Schema.IsUrl approximates zod's URL check: a scheme of a letter followed by letters, digits, `+`, `-` or `.`, and then a colon. Full URL parsing is not modelled.
- String lengths in the schemas count characters, not UTF-16 code units.
- ProgressHandler.PresetKey: a progress update with a fractional `presetId` matches no mood-map row and so fires no trigger. Comparing a fraction with an integer column is left to the database, and the model takes it as no match.
- socket.io removes an empty room; the model keeps it with no members, which no delivery can tell apart.
- BookController.PopularLimit and BookController.RecentLimit state only that the limit is never 0 and what its default is. A negative limit goes to the database as it is, and what the database does with it is not modelled.
- The error handler does not map zod errors to 400, so the source answers a schema rejection with 500. The model keeps it as its own failure, `SchemaRejected`, without a status.
- The `room:join` and `room:leave` payloads are not validated by the source; the model takes them as typed values.
- The `sync:event` payload is typed `any` in the source and is stored as it comes; the model takes it as a typed value with text id and type, a numeric timestamp and optional numeric ids.
- The `sync:recover` payload is typed `any` in the source, and its `lastSyncTimestamp` is compared with `>`, which also converts numeric text such as `"5"`; SyncHandler.OnRecover takes the watermark as a typed number.
- SocketServer.Server.Connect: when the connection audit write fails, the rejection is not caught and the `unhandledRejection` listener of `server.ts` (lines 55-58) exits the process. The model only drops the new session and keeps serving every other one.
- SocketServer.Server.Disconnect: the same holds for a failing disconnection audit write; the model removes the session, sends nothing and keeps running.
- Interleaving between `await`s: each handler runs atomically.
- `moodHandler.ts` only logs. It is not part of this model, and neither are `auth.ts`, the routes, `app.ts`, `server.ts` or the configuration files.
- The mood-reference and mood-map reads and writes that are plain I/O, such as `getMoodReferences` and `createMoodReference`, are left out.
- BookController.GetBooks and MusicController.GetMusicList state only the total and a bound on the page. What the page holds is stated by `Pagination.WholePage` and the lemmas beside it.
- `user.mood_sensitivity` is not a column of the user model, so it is an optional value; a missing one takes the default 1.0.
- Lower: only the ASCII letters `A`-`Z` are lowercased, while `toLowerCase` maps every Unicode letter. No other character lowercases to a single letter of the genre names or of the ten allowed extensions, so those comparisons come out the same. An allowed-type list with other non-ASCII entries could compare differently.
- Ping intervals, keep-alive timeouts, CORS and rate limiting are left out.

## Findings

| source | as written | input that shows it | evidently intended | confidence | as-written member | corrected member |
|---|---|---|---|---|---|---|
| server/src/controllers/syncController.ts:7-9 | `GET /sync/delta` validates `req.query` with `z.number()`, but query values arrive as text, so every request is refused | `?lastSyncTimestamp=0` | the watermark is read from its text (for example with `z.coerce.number()`) and must be at least 0 | high, not executed | SyncController.DeltaQueryAsWrittenRefusesEveryQuery | SyncController.DeltaQueryRoundTrip |
