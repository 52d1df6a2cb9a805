/** The preset and trigger handlers of
    `server/src/controllers/moodPresetController.ts`: request schemas as
    partial functions from JSON, and each handler as the sequence of guards
    it runs before touching the tables. */
module MoodPresetController {
  import opened Common
  import opened Text
  import opened RoleAuth
  import opened MoodPreset
  import opened Schema
  import opened BookTable

  /** The tables the handlers read and write. */
  datatype Db = Db(
    presets: seq<MoodPresetRow>,
    triggers: seq<MoodTriggerRow>,
    users: seq<UserRow>,
    books: seq<BookRow>,
    moodTypes: set<string>)

  /** What a handler leaves behind: the tables, and the response data or
      the error it throws. */
  datatype Handled<T> = Handled(db: Db, outcome: Outcome<T>)

  /** `z.array(z.number()).length(2)`: no order between the two numbers. */
  predicate IsPageRange(j: Json) {
    j.JArr? && |j.items| == 2 && j.items[0].JNum? && j.items[1].JNum?
  }

  predicate IsReadingSpeed(j: Json) {
    NumberMember(j, "min").Some? && NumberMember(j, "max").Some?
  }

  /** The `trigger_condition` object schema: every member optional, each of
      its own shape. */
  predicate ValidCondition(j: Json) {
    j.JObj? &&
    (Member(j, "page_range").None? || IsPageRange(Member(j, "page_range").value)) &&
    (Member(j, "keywords").None? || IsStringArray(Member(j, "keywords").value)) &&
    (Member(j, "passage_text").None? || Member(j, "passage_text").value.JStr?) &&
    (Member(j, "time_of_day").None? || IsStringArray(Member(j, "time_of_day").value)) &&
    (Member(j, "reading_speed").None? || IsReadingSpeed(Member(j, "reading_speed").value))
  }

  /** The condition as stored, keeping the part the server interprets. */
  function ParseCondition(j: Json): (r: Outcome<TriggerCondition>)
    ensures r.Ok? <==> ValidCondition(j)
    ensures r.Ok? ==> (r.value.pageRange.Some? <==> Member(j, "page_range").Some?)
    ensures r.Ok? && r.value.pageRange.Some? ==>
      Member(j, "page_range") == Some(JArr([JNum(r.value.pageRange.value.lo), JNum(r.value.pageRange.value.hi)]))
  {
    if !ValidCondition(j) then Err(SchemaRejected)
    else
      var range := Member(j, "page_range");
      if range.None? then Ok(TriggerCondition(None))
      else
        var items := range.value.items;
        assert items == [JNum(items[0].n), JNum(items[1].n)];
        Ok(TriggerCondition(Some(PageRange(items[0].n, items[1].n))))
  }

  /** `page_range: [lo, hi]` is accepted for any two numbers, in either
      order. */
  lemma PageRangeOrderUnchecked(lo: real, hi: real)
    ensures ParseCondition(JObj([Field("page_range", JArr([JNum(lo), JNum(hi)]))])) ==
      Ok(TriggerCondition(Some(PageRange(lo, hi))))
  {
    var fields := [Field("page_range", JArr([JNum(lo), JNum(hi)]))];
    assert Lookup(fields, "page_range") == Some(JArr([JNum(lo), JNum(hi)]));
    assert Lookup(fields, "keywords") == None;
    assert Lookup(fields, "passage_text") == None;
    assert Lookup(fields, "time_of_day") == None;
    assert Lookup(fields, "reading_speed") == None;
  }

  /** A `page_range` of any other length than two is refused. */
  lemma PageRangeNeedsTwoNumbers(j: Json)
    requires Member(j, "page_range").Some? && Member(j, "page_range").value.JArr?
    requires |Member(j, "page_range").value.items| != 2
    ensures ParseCondition(j).Err?
  {
  }

  datatype CreatePresetBody = CreatePresetBody(bookId: string, name: string, description: Option<string>, isDefault: Option<bool>)

  /** `createPresetSchema`: an object whose four members each pass their
      own schema, and then exactly those members' values. */
  function ParseCreatePreset(body: Json): (r: Outcome<CreatePresetBody>)
    ensures r.Ok? ==> IsUuid(r.value.bookId) && 1 <= |r.value.name| <= 200
    ensures r.Ok? <==>
      body.JObj? && RequiredUuid(body, "book_id").Ok? && RequiredText(body, "name", 1, 200).Ok? &&
      OptionalString(body, "description").Ok? &&
      OptionalBool(body, "is_default").Ok?
    ensures r.Ok? ==>
      r.value == CreatePresetBody(StringMember(body, "book_id").value, StringMember(body, "name").value,
                                  OptionalString(body, "description").value, BoolMember(body, "is_default"))
    ensures r.Err? ==> r.failure == SchemaRejected
  {
    if !body.JObj? then Err(SchemaRejected)
    else
      var bookId := RequiredUuid(body, "book_id");
      var name := RequiredText(body, "name", 1, 200);
      var description := OptionalString(body, "description");
      var isDefault := OptionalBool(body, "is_default");
      if bookId.Err? || name.Err? || description.Err? || isDefault.Err? then Err(SchemaRejected)
      else Ok(CreatePresetBody(bookId.value, name.value, description.value, isDefault.value))
  }

  /** `updatePresetSchema`: an object whose present members each pass
      their own schema; an absent member stays undefined. */
  function ParseUpdatePreset(body: Json): (r: Outcome<UpdateMoodPresetData>)
    ensures r.Ok? && r.value.name.Some? ==> 1 <= |r.value.name.value| <= 200
    ensures r.Ok? <==>
      body.JObj? && OptionalText(body, "name", 1, 200).Ok? && OptionalString(body, "description").Ok? &&
      OptionalBool(body, "is_default").Ok?
    ensures r.Ok? ==>
      r.value == UpdateMoodPresetData(OptionalText(body, "name", 1, 200).value,
                                      OptionalString(body, "description").value, BoolMember(body, "is_default"))
    ensures r.Err? ==> r.failure == SchemaRejected
    ensures (body.JObj? && Member(body, "name").None? && Member(body, "description").None? &&
             Member(body, "is_default").None?) ==> r == Ok(UpdateMoodPresetData(None, None, None))
  {
    if !body.JObj? then Err(SchemaRejected)
    else
      var name := OptionalText(body, "name", 1, 200);
      var description := OptionalString(body, "description");
      var isDefault := OptionalBool(body, "is_default");
      if name.Err? || description.Err? || isDefault.Err? then Err(SchemaRejected)
      else Ok(UpdateMoodPresetData(name.value, description.value, isDefault.value))
  }

  /** The `trigger_condition` member where it is required. */
  function RequiredCondition(body: Json): (r: Outcome<TriggerCondition>)
    ensures r.Ok? <==> Member(body, "trigger_condition").Some? && ValidCondition(Member(body, "trigger_condition").value)
    ensures r.Ok? ==> r == ParseCondition(Member(body, "trigger_condition").value)
  {
    match Member(body, "trigger_condition")
    case Some(c) => ParseCondition(c)
    case None => Err(SchemaRejected)
  }

  /** The `trigger_condition` member where it may be absent. */
  function OptionalCondition(body: Json): (r: Outcome<Option<TriggerCondition>>)
    ensures Member(body, "trigger_condition").None? ==> r == Ok(None)
    ensures r.Ok? <==> Member(body, "trigger_condition").None? || ValidCondition(Member(body, "trigger_condition").value)
    ensures r.Ok? && r.value.Some? ==> Ok(r.value.value) == ParseCondition(Member(body, "trigger_condition").value)
  {
    match Member(body, "trigger_condition")
    case None => Ok(None)
    case Some(c) => (match ParseCondition(c) case Ok(v) => Ok(Some(v)) case Err(f) => Err(f))
  }

  /** `createTriggerSchema`: an object whose members each pass their own
      schema, and then exactly those members' values; `visual_effects` is
      taken as it is. */
  function ParseCreateTrigger(body: Json): (r: Outcome<CreateMoodTriggerData>)
    ensures r.Ok? ==> IsUuid(r.value.presetId) && IsUuid(r.value.moodTypeId)
    ensures r.Ok? && r.value.transitionDuration.Some? ==> 100.0 <= r.value.transitionDuration.value <= 10000.0
    ensures r.Ok? && r.value.priority.Some? ==> 1.0 <= r.value.priority.value <= 100.0
    ensures r.Ok? <==>
      body.JObj? && RequiredUuid(body, "preset_id").Ok? && RequiredUuid(body, "mood_type_id").Ok? &&
      RequiredCondition(body).Ok? && OptionalUuid(body, "music_track_id").Ok? &&
      OptionalUrl(body, "background_image_url").Ok? &&
      OptionalNumberIn(body, "transition_duration", 100.0, 10000.0).Ok? &&
      OptionalNumberIn(body, "priority", 1.0, 100.0).Ok?
    ensures r.Ok? ==>
      r.value == CreateMoodTriggerData(
        StringMember(body, "preset_id").value, StringMember(body, "mood_type_id").value,
        RequiredCondition(body).value, OptionalUuid(body, "music_track_id").value,
        OptionalUrl(body, "background_image_url").value, Member(body, "visual_effects"),
        NumberMember(body, "transition_duration"), NumberMember(body, "priority"))
    ensures r.Err? ==> r.failure == SchemaRejected
  {
    if !body.JObj? then Err(SchemaRejected)
    else
      var presetId := RequiredUuid(body, "preset_id");
      var moodTypeId := RequiredUuid(body, "mood_type_id");
      var condition := RequiredCondition(body);
      var track := OptionalUuid(body, "music_track_id");
      var image := OptionalUrl(body, "background_image_url");
      var effects := Member(body, "visual_effects");
      var duration := OptionalNumberIn(body, "transition_duration", 100.0, 10000.0);
      var priority := OptionalNumberIn(body, "priority", 1.0, 100.0);
      if presetId.Err? || moodTypeId.Err? || condition.Err? || track.Err? || image.Err? ||
         duration.Err? || priority.Err? then Err(SchemaRejected)
      else
        Ok(CreateMoodTriggerData(presetId.value, moodTypeId.value, condition.value, track.value,
          image.value, effects, duration.value, priority.value))
  }

  /** `updateTriggerSchema`: every member optional, `is_active` added; an
      absent member stays undefined. */
  function ParseUpdateTrigger(body: Json): (r: Outcome<UpdateMoodTriggerData>)
    ensures r.Ok? && r.value.transitionDuration.Some? ==> 100.0 <= r.value.transitionDuration.value <= 10000.0
    ensures r.Ok? && r.value.priority.Some? ==> 1.0 <= r.value.priority.value <= 100.0
    ensures r.Ok? && r.value.moodTypeId.Some? ==> IsUuid(r.value.moodTypeId.value)
    ensures r.Ok? <==>
      body.JObj? && OptionalUuid(body, "mood_type_id").Ok? && OptionalCondition(body).Ok? &&
      OptionalUuid(body, "music_track_id").Ok? && OptionalUrl(body, "background_image_url").Ok? &&
      OptionalNumberIn(body, "transition_duration", 100.0, 10000.0).Ok? &&
      OptionalBool(body, "is_active").Ok? &&
      OptionalNumberIn(body, "priority", 1.0, 100.0).Ok?
    ensures r.Ok? ==>
      r.value == UpdateMoodTriggerData(
        OptionalUuid(body, "mood_type_id").value, OptionalCondition(body).value,
        OptionalUuid(body, "music_track_id").value, OptionalUrl(body, "background_image_url").value,
        Member(body, "visual_effects"), NumberMember(body, "transition_duration"),
        BoolMember(body, "is_active"), NumberMember(body, "priority"))
    ensures r.Err? ==> r.failure == SchemaRejected
  {
    if !body.JObj? then Err(SchemaRejected)
    else
      var moodTypeId := OptionalUuid(body, "mood_type_id");
      var condition := OptionalCondition(body);
      var track := OptionalUuid(body, "music_track_id");
      var image := OptionalUrl(body, "background_image_url");
      var effects := Member(body, "visual_effects");
      var duration := OptionalNumberIn(body, "transition_duration", 100.0, 10000.0);
      var active := OptionalBool(body, "is_active");
      var priority := OptionalNumberIn(body, "priority", 1.0, 100.0);
      if moodTypeId.Err? || condition.Err? || track.Err? || image.Err? || duration.Err? ||
         active.Err? || priority.Err? then Err(SchemaRejected)
      else
        Ok(UpdateMoodTriggerData(moodTypeId.value, condition.value, track.value, image.value,
          effects, duration.value, active.value, priority.value))
  }

  /** A body carrying a UUID book id and a name of 1 to 200 characters
      parses back to those values, with the optional members undefined. */
  lemma CreatePresetRoundTrip(bookId: string, name: string)
    requires IsUuid(bookId) && 1 <= |name| <= 200
    ensures ParseCreatePreset(JObj([Field("book_id", JStr(bookId)), Field("name", JStr(name))])) ==
      Ok(CreatePresetBody(bookId, name, None, None))
  {
    var fields := [Field("book_id", JStr(bookId)), Field("name", JStr(name))];
    assert Lookup(fields, "book_id") == Some(JStr(bookId));
    assert Lookup(fields, "name") == Some(JStr(name));
    assert Lookup(fields, "description") == None;
    assert Lookup(fields, "is_default") == None;
  }

  /** An update naming only `name` parses to an update of the name alone. */
  lemma UpdatePresetRoundTrip(name: string)
    requires 1 <= |name| <= 200
    ensures ParseUpdatePreset(JObj([Field("name", JStr(name))])) == Ok(UpdateMoodPresetData(Some(name), None, None))
  {
    var fields := [Field("name", JStr(name))];
    assert Lookup(fields, "name") == Some(JStr(name));
    assert Lookup(fields, "description") == None;
    assert Lookup(fields, "is_default") == None;
  }

  /** The smallest trigger body: two UUIDs and an empty condition, parsed
      back with every optional member undefined. */
  lemma CreateTriggerRoundTrip(presetId: string, moodTypeId: string)
    requires IsUuid(presetId) && IsUuid(moodTypeId)
    ensures ParseCreateTrigger(JObj([Field("preset_id", JStr(presetId)), Field("mood_type_id", JStr(moodTypeId)),
                                     Field("trigger_condition", JObj([]))])) ==
      Ok(CreateMoodTriggerData(presetId, moodTypeId, TriggerCondition(None), None, None, None, None, None))
  {
    var fields := [Field("preset_id", JStr(presetId)), Field("mood_type_id", JStr(moodTypeId)),
                   Field("trigger_condition", JObj([]))];
    var body := JObj(fields);
    assert Lookup(fields, "preset_id") == Some(JStr(presetId));
    assert Lookup(fields, "mood_type_id") == Some(JStr(moodTypeId));
    assert Lookup(fields, "trigger_condition") == Some(JObj([]));
    OptionalTriggerMembersAbsent(fields);
    assert RequiredUuid(body, "preset_id") == Ok(presetId);
    assert RequiredUuid(body, "mood_type_id") == Ok(moodTypeId);
    assert RequiredCondition(body) == ParseCondition(JObj([]));
  }

  /** The optional members of the create-trigger schema, none of them
      present. */
  lemma OptionalTriggerMembersAbsent(fields: seq<Field>)
    requires forall i :: 0 <= i < |fields| ==> fields[i].key in {"preset_id", "mood_type_id", "trigger_condition"}
    ensures var body := JObj(fields);
      OptionalUuid(body, "music_track_id") == Ok(None) && OptionalUrl(body, "background_image_url") == Ok(None) &&
      Member(body, "visual_effects") == None &&
      OptionalNumberIn(body, "transition_duration", 100.0, 10000.0) == Ok(None) &&
      OptionalNumberIn(body, "priority", 1.0, 100.0) == Ok(None) &&
      NumberMember(body, "transition_duration") == None && NumberMember(body, "priority") == None
  {
    LookupAbsent(fields, "music_track_id");
    LookupAbsent(fields, "background_image_url");
    LookupAbsent(fields, "visual_effects");
    LookupAbsent(fields, "transition_duration");
    LookupAbsent(fields, "priority");
  }

  /** An update naming only `is_active` switches the trigger on or off and
      defines nothing else. */
  lemma UpdateTriggerRoundTrip(active: bool)
    ensures ParseUpdateTrigger(JObj([Field("is_active", JBool(active))])) ==
      Ok(UpdateMoodTriggerData(None, None, None, None, None, None, Some(active), None))
  {
    var fields := [Field("is_active", JBool(active))];
    assert Lookup(fields, "is_active") == Some(JBool(active));
    LookupAbsent(fields, "mood_type_id");
    LookupAbsent(fields, "trigger_condition");
    LookupAbsent(fields, "music_track_id");
    LookupAbsent(fields, "background_image_url");
    LookupAbsent(fields, "visual_effects");
    LookupAbsent(fields, "transition_duration");
    LookupAbsent(fields, "priority");
  }

  /** A duration or a priority outside its bounds fails the whole body,
      in both trigger schemas. */
  lemma TriggerBoundsEnforced(body: Json, x: real)
    requires Member(body, "transition_duration") == Some(JNum(x)) || Member(body, "priority") == Some(JNum(x))
    requires x < 1.0 || x > 10000.0
    ensures ParseCreateTrigger(body).Err?
    ensures ParseUpdateTrigger(body).Err?
  {
  }

  /** A trigger created through the handler never falls back to the
      default duration or priority because of a zero: the schema already
      refuses zero. */
  lemma ValidatedTriggerDefaultsOnlyWhenAbsent(body: Json)
    requires ParseCreateTrigger(body).Ok?
    ensures ParseCreateTrigger(body).value.transitionDuration.Some? ==>
      OrDefault(ParseCreateTrigger(body).value.transitionDuration, DefaultTransitionDuration) ==
      ParseCreateTrigger(body).value.transitionDuration.value
    ensures ParseCreateTrigger(body).value.priority.Some? ==>
      OrDefault(ParseCreateTrigger(body).value.priority, DefaultPriority) ==
      ParseCreateTrigger(body).value.priority.value
  {
  }

  // ---- Preset handlers ----

  const NotAuthenticated := "User not authenticated"

  /** `{ ...validatedData, creator_id }`: the parsed body with the caller as
      creator. */
  function PresetData(creatorId: int, data: CreatePresetBody): (r: CreateMoodPresetData)
    ensures r.creatorId == creatorId && r.bookId == data.bookId && r.name == data.name
    ensures r.description == data.description && r.isDefault == data.isDefault
  {
    CreateMoodPresetData(creatorId, data.bookId, data.name, data.description, data.isDefault)
  }

  /** `createPreset`: 401, then the schema, then ownership of the book
      (403). The creator is the caller, whatever the body says. */
  function CreatePreset(db: Db, user: Option<AuthUser>, body: Json, newId: string, now: int): (r: Handled<MoodPresetRow>)
    ensures user.None? ==> r == Handled(db, Fail(401, NotAuthenticated))
    ensures user.Some? && ParseCreatePreset(body).Err? ==> r == Handled(db, Err(SchemaRejected))
    ensures (user.Some? && ParseCreatePreset(body).Ok? &&
             !CanUserModifyBook(db.books, db.users, ParseCreatePreset(body).value.bookId, user.value.userId)) ==>
      r == Handled(db, Fail(403, "You can only create presets for your own books"))
    ensures r.outcome.Ok? <==>
      user.Some? && ParseCreatePreset(body).Ok? &&
      CanUserModifyBook(db.books, db.users, ParseCreatePreset(body).value.bookId, user.value.userId)
    ensures r.outcome.Ok? ==>
      r.outcome.value == CreateMoodPreset(PresetData(user.value.userId, ParseCreatePreset(body).value), newId, now)
    ensures r.outcome.Ok? ==>
      r.outcome.value.creatorId == user.value.userId &&
      CanUserModifyBook(db.books, db.users, r.outcome.value.bookId, user.value.userId) &&
      r.db == db.(presets := db.presets + [r.outcome.value])
    ensures r.outcome.Err? ==> r.db == db
  {
    if user.None? then Handled(db, Fail(401, NotAuthenticated))
    else
      match ParseCreatePreset(body)
      case Err(f) => Handled(db, Err(f))
      case Ok(data) =>
        if !CanUserModifyBook(db.books, db.users, data.bookId, user.value.userId) then
          Handled(db, Fail(403, "You can only create presets for your own books"))
        else
          var row := CreateMoodPreset(PresetData(user.value.userId, data), newId, now);
          Handled(db.(presets := db.presets + [row]), Ok(row))
  }

  /** `getPresetsByBook`. */
  function GetPresetsByBook(db: Db, bookId: string): (r: Outcome<seq<MoodPresetRow>>)
    ensures bookId == "" <==> r == Fail(400, "Book ID is required")
    ensures r.Ok? ==> r.value == FindMoodPresetsByBook(db.presets, db.users, bookId)
  {
    if bookId == "" then Fail(400, "Book ID is required")
    else Ok(FindMoodPresetsByBook(db.presets, db.users, bookId))
  }

  /** `getPresetsByCreator`: the caller's own presets. */
  function GetPresetsByCreator(db: Db, user: Option<AuthUser>): (r: Outcome<seq<MoodPresetRow>>)
    ensures user.None? <==> r == Fail(401, NotAuthenticated)
    ensures r.Ok? ==> r.value == FindMoodPresetsByCreator(db.presets, BookIds(db.books), user.value.userId)
    ensures r.Ok? ==> forall p :: p in r.value ==> p.creatorId == user.value.userId
  {
    if user.None? then Fail(401, NotAuthenticated)
    else
      var presets := FindMoodPresetsByCreator(db.presets, BookIds(db.books), user.value.userId);
      assert forall p :: p in presets ==> p in PresetsOfCreator(db.presets, BookIds(db.books), user.value.userId) by {
        forall p | p in presets
          ensures p in PresetsOfCreator(db.presets, BookIds(db.books), user.value.userId)
        {
          assert p in multiset(presets);
        }
      }
      Ok(presets)
  }

  /** A preset the handler creates is listed among its creator's presets
      right after. */
  lemma CreatedPresetIsListed(db: Db, user: AuthUser, body: Json, newId: string, now: int)
    requires CreatePreset(db, Some(user), body, newId, now).outcome.Ok?
    ensures var r := CreatePreset(db, Some(user), body, newId, now);
      r.outcome.value in GetPresetsByCreator(r.db, Some(user)).value
  {
    var r := CreatePreset(db, Some(user), body, newId, now);
    var row := r.outcome.value;
    var book := FindBook(db.books, row.bookId).value;
    assert row.bookId in BookIds(db.books) by {
      assert book in db.books && book.id == row.bookId;
    }
    assert row in r.db.presets;
    assert row in PresetsOfCreator(r.db.presets, BookIds(r.db.books), user.userId);
    var listed := FindMoodPresetsByCreator(r.db.presets, BookIds(r.db.books), user.userId);
    assert row in multiset(listed);
  }

  /** `updatePreset`: 401, 400 on an empty id, ownership (403), the schema,
      then the update. Ownership already fails on an unknown preset, so
      the handler's own 404 is never reached. */
  function UpdatePreset(db: Db, user: Option<AuthUser>, presetId: string, body: Json, now: int): (r: Handled<MoodPresetRow>)
    ensures user.None? ==> r == Handled(db, Fail(401, NotAuthenticated))
    ensures user.Some? && presetId == "" ==> r == Handled(db, Fail(400, "Preset ID is required"))
    ensures user.Some? && presetId != "" && !CanUserModifyPreset(db.presets, db.users, presetId, user.value.userId) ==>
      r == Handled(db, Fail(403, "You can only modify your own presets"))
    ensures r.outcome.Ok? <==>
      user.Some? && presetId != "" &&
      CanUserModifyPreset(db.presets, db.users, presetId, user.value.userId) && ParseUpdatePreset(body).Ok?
    ensures r.outcome.Ok? ==>
      r.db == db.(presets := PresetsAfterUpdate(db.presets, presetId, ParseUpdatePreset(body).value, now)) &&
      r.outcome.value.id == presetId && r.outcome.value in r.db.presets
    ensures r.outcome.Err? ==> r.db == db
    ensures forall m :: r.outcome != Fail(404, m)
  {
    if user.None? then Handled(db, Fail(401, NotAuthenticated))
    else if presetId == "" then Handled(db, Fail(400, "Preset ID is required"))
    else if !CanUserModifyPreset(db.presets, db.users, presetId, user.value.userId) then
      Handled(db, Fail(403, "You can only modify your own presets"))
    else
      match ParseUpdatePreset(body)
      case Err(f) => Handled(db, Err(f))
      case Ok(data) =>
        var presets := PresetsAfterUpdate(db.presets, presetId, data, now);
        var k :| 0 <= k < |db.presets| && db.presets[k].id == presetId;
        assert presets[k].id == presetId;
        match FindMoodPresetById(presets, presetId)
        case None => Handled(db, Fail(404, "Preset not found"))
        case Some(p) => Handled(db.(presets := presets), Ok(p))
  }

  /** `deletePreset`: the same guards as the update, and the same
      unreachable 404. */
  function DeletePreset(db: Db, user: Option<AuthUser>, presetId: string): (r: Handled<()>)
    ensures user.None? ==> r == Handled(db, Fail(401, NotAuthenticated))
    ensures user.Some? && presetId == "" ==> r == Handled(db, Fail(400, "Preset ID is required"))
    ensures user.Some? && presetId != "" && !CanUserModifyPreset(db.presets, db.users, presetId, user.value.userId) ==>
      r == Handled(db, Fail(403, "You can only delete your own presets"))
    ensures r.outcome.Ok? <==>
      user.Some? && presetId != "" && CanUserModifyPreset(db.presets, db.users, presetId, user.value.userId)
    ensures r.outcome.Ok? ==> r.db == db.(presets := WithoutPreset(db.presets, presetId))
    ensures r.outcome.Err? ==> r.db == db
    ensures forall m :: r.outcome != Fail(404, m)
  {
    if user.None? then Handled(db, Fail(401, NotAuthenticated))
    else if presetId == "" then Handled(db, Fail(400, "Preset ID is required"))
    else if !CanUserModifyPreset(db.presets, db.users, presetId, user.value.userId) then
      Handled(db, Fail(403, "You can only delete your own presets"))
    else
      var (rest, deleted) := DeleteMoodPreset(db.presets, presetId);
      if !deleted then Handled(db, Fail(404, "Preset not found"))
      else Handled(db.(presets := rest), Ok(()))
  }

  /** Asking to change a preset that does not exist is answered 403, not
      404, for every caller. */
  lemma UnknownPresetIsForbidden(db: Db, user: AuthUser, presetId: string, body: Json, now: int)
    requires presetId != ""
    requires FindMoodPresetById(db.presets, presetId).None?
    ensures UpdatePreset(db, Some(user), presetId, body, now).outcome == Fail(403, "You can only modify your own presets")
    ensures DeletePreset(db, Some(user), presetId).outcome == Fail(403, "You can only delete your own presets")
  {
  }

  // ---- Trigger handlers ----

  /** `createTrigger`: 401, the schema, then ownership of the preset the
      body names (403). */
  function CreateTrigger(db: Db, user: Option<AuthUser>, body: Json, newId: string, isActive: bool, now: int): (r: Handled<MoodTriggerRow>)
    ensures user.None? ==> r == Handled(db, Fail(401, NotAuthenticated))
    ensures user.Some? && ParseCreateTrigger(body).Err? ==> r == Handled(db, Err(SchemaRejected))
    ensures (user.Some? && ParseCreateTrigger(body).Ok? &&
             !CanUserModifyPreset(db.presets, db.users, ParseCreateTrigger(body).value.presetId, user.value.userId)) ==>
      r == Handled(db, Fail(403, "You can only create triggers for your own presets"))
    ensures r.outcome.Ok? <==>
      user.Some? && ParseCreateTrigger(body).Ok? &&
      CanUserModifyPreset(db.presets, db.users, ParseCreateTrigger(body).value.presetId, user.value.userId)
    ensures r.outcome.Ok? ==> r.outcome.value == CreateMoodTrigger(ParseCreateTrigger(body).value, newId, isActive, now)
    ensures r.outcome.Ok? ==>
      CanUserModifyPreset(db.presets, db.users, r.outcome.value.presetId, user.value.userId) &&
      r.db == db.(triggers := db.triggers + [r.outcome.value])
    ensures r.outcome.Err? ==> r.db == db
  {
    if user.None? then Handled(db, Fail(401, NotAuthenticated))
    else
      match ParseCreateTrigger(body)
      case Err(f) => Handled(db, Err(f))
      case Ok(data) =>
        if !CanUserModifyPreset(db.presets, db.users, data.presetId, user.value.userId) then
          Handled(db, Fail(403, "You can only create triggers for your own presets"))
        else
          var row := CreateMoodTrigger(data, newId, isActive, now);
          Handled(db.(triggers := db.triggers + [row]), Ok(row))
  }

  /** A trigger the handler creates active, of a known mood type, is listed
      among its preset's triggers right after. */
  lemma CreatedTriggerIsListed(db: Db, user: AuthUser, body: Json, newId: string, now: int)
    requires CreateTrigger(db, Some(user), body, newId, true, now).outcome.Ok?
    requires ParseCreateTrigger(body).value.moodTypeId in db.moodTypes
    ensures var r := CreateTrigger(db, Some(user), body, newId, true, now);
      r.outcome.value in GetTriggersByPreset(r.db, r.outcome.value.presetId).value
  {
    var r := CreateTrigger(db, Some(user), body, newId, true, now);
    var row := r.outcome.value;
    assert row.presetId != "" by {
      assert IsUuid(row.presetId);
    }
    assert row in r.db.triggers;
    assert row in ActiveOfPreset(r.db.triggers, r.db.moodTypes, row.presetId);
    assert row in multiset(FindMoodTriggersByPreset(r.db.triggers, r.db.moodTypes, row.presetId));
  }

  /** `getTriggersByPreset`. */
  function GetTriggersByPreset(db: Db, presetId: string): (r: Outcome<seq<MoodTriggerRow>>)
    ensures presetId == "" <==> r == Fail(400, "Preset ID is required")
    ensures r.Ok? ==> r.value == FindMoodTriggersByPreset(db.triggers, db.moodTypes, presetId)
  {
    if presetId == "" then Fail(400, "Preset ID is required")
    else Ok(FindMoodTriggersByPreset(db.triggers, db.moodTypes, presetId))
  }

  /** `getTriggersForPosition`: both path parameters must be non-empty, and
      the page is read with `parseInt`. */
  function GetTriggersForPosition(db: Db, presetId: string, page: string): (r: Outcome<seq<MoodTriggerRow>>)
    ensures presetId == "" || page == "" ==> r == Fail(400, "Preset ID and page number are required")
    ensures presetId != "" && page != "" && ParseInt(page).None? ==> r == Fail(400, "Invalid page number")
    ensures r.Ok? <==> presetId != "" && ParseInt(page).Some?
    ensures r.Ok? ==> r.value == GetMoodTriggersForPosition(db.triggers, db.moodTypes, presetId, ParseInt(page).value)
  {
    if presetId == "" || page == "" then Fail(400, "Preset ID and page number are required")
    else
      match ParseInt(page)
      case None => Fail(400, "Invalid page number")
      case Some(n) => Ok(GetMoodTriggersForPosition(db.triggers, db.moodTypes, presetId, n))
  }

  /** A page parameter with digits followed by other text is read as its
      leading number (`"12abc"` is page 12); one starting with a letter is
      a 400. */
  lemma PositionPageParsing(db: Db, presetId: string, n: nat, rest: string, word: string)
    requires presetId != ""
    requires rest == [] || !IsDigit(rest[0])
    requires n == 0 && rest != [] ==> rest[0] != 'x' && rest[0] != 'X'
    requires word != [] && ('a' <= word[0] <= 'z' || 'A' <= word[0] <= 'Z')
    ensures GetTriggersForPosition(db, presetId, NatToString(n) + rest) ==
      Ok(GetMoodTriggersForPosition(db.triggers, db.moodTypes, presetId, n))
    ensures GetTriggersForPosition(db, presetId, word) == Fail(400, "Invalid page number")
  {
    ParseIntIgnoresTrailingText(n, rest);
    ParseIntRejectsLetters(word);
  }

  /** `updateTrigger`: 401, 400, the trigger must exist (404), ownership of
      its preset (403), then the schema. The updated row is returned as
      read back, which may be nothing. */
  function UpdateTrigger(db: Db, user: Option<AuthUser>, triggerId: string, body: Json, now: int): (r: Handled<Option<MoodTriggerRow>>)
    ensures user.None? ==> r == Handled(db, Fail(401, NotAuthenticated))
    ensures user.Some? && triggerId == "" ==> r == Handled(db, Fail(400, "Trigger ID is required"))
    ensures user.Some? && triggerId != "" && FindMoodTriggerById(db.triggers, triggerId).None? ==>
      r == Handled(db, Fail(404, "Trigger not found"))
    ensures (user.Some? && triggerId != "" && FindMoodTriggerById(db.triggers, triggerId).Some? &&
             !CanUserModifyPreset(db.presets, db.users, FindMoodTriggerById(db.triggers, triggerId).value.presetId, user.value.userId)) ==>
      r == Handled(db, Fail(403, "You can only modify triggers for your own presets"))
    ensures (user.Some? && triggerId != "" && FindMoodTriggerById(db.triggers, triggerId).Some? &&
             CanUserModifyPreset(db.presets, db.users, FindMoodTriggerById(db.triggers, triggerId).value.presetId, user.value.userId) &&
             ParseUpdateTrigger(body).Err?) ==>
      r == Handled(db, Err(SchemaRejected))
    ensures r.outcome.Ok? <==>
      user.Some? && triggerId != "" && FindMoodTriggerById(db.triggers, triggerId).Some? &&
      CanUserModifyPreset(db.presets, db.users, FindMoodTriggerById(db.triggers, triggerId).value.presetId, user.value.userId) &&
      ParseUpdateTrigger(body).Ok?
    ensures r.outcome.Ok? ==>
      r.db == db.(triggers := TriggersAfterUpdate(db.triggers, triggerId, ParseUpdateTrigger(body).value, now)) &&
      r.outcome.value == FindMoodTriggerById(r.db.triggers, triggerId)
    ensures r.outcome.Err? ==> r.db == db
  {
    if user.None? then Handled(db, Fail(401, NotAuthenticated))
    else if triggerId == "" then Handled(db, Fail(400, "Trigger ID is required"))
    else
      match FindMoodTriggerById(db.triggers, triggerId)
      case None => Handled(db, Fail(404, "Trigger not found"))
      case Some(trigger) =>
        if !CanUserModifyPreset(db.presets, db.users, trigger.presetId, user.value.userId) then
          Handled(db, Fail(403, "You can only modify triggers for your own presets"))
        else
          match ParseUpdateTrigger(body)
          case Err(f) => Handled(db, Err(f))
          case Ok(data) =>
            var triggers := TriggersAfterUpdate(db.triggers, triggerId, data, now);
            Handled(db.(triggers := triggers), Ok(FindMoodTriggerById(triggers, triggerId)))
  }

  /** `deleteTrigger`: the same guards; once they pass the handler reports
      success whatever the delete did. */
  function DeleteTrigger(db: Db, user: Option<AuthUser>, triggerId: string): (r: Handled<()>)
    ensures user.None? ==> r == Handled(db, Fail(401, NotAuthenticated))
    ensures user.Some? && triggerId == "" ==> r == Handled(db, Fail(400, "Trigger ID is required"))
    ensures user.Some? && triggerId != "" && FindMoodTriggerById(db.triggers, triggerId).None? ==>
      r == Handled(db, Fail(404, "Trigger not found"))
    ensures (user.Some? && triggerId != "" && FindMoodTriggerById(db.triggers, triggerId).Some? &&
             !CanUserModifyPreset(db.presets, db.users, FindMoodTriggerById(db.triggers, triggerId).value.presetId, user.value.userId)) ==>
      r == Handled(db, Fail(403, "You can only delete triggers for your own presets"))
    ensures r.outcome.Ok? <==>
      user.Some? && triggerId != "" && FindMoodTriggerById(db.triggers, triggerId).Some? &&
      CanUserModifyPreset(db.presets, db.users, FindMoodTriggerById(db.triggers, triggerId).value.presetId, user.value.userId)
    ensures r.outcome.Ok? ==> r.db == db.(triggers := WithoutTrigger(db.triggers, triggerId))
    ensures r.outcome.Err? ==> r.db == db
  {
    if user.None? then Handled(db, Fail(401, NotAuthenticated))
    else if triggerId == "" then Handled(db, Fail(400, "Trigger ID is required"))
    else
      match FindMoodTriggerById(db.triggers, triggerId)
      case None => Handled(db, Fail(404, "Trigger not found"))
      case Some(trigger) =>
        if !CanUserModifyPreset(db.presets, db.users, trigger.presetId, user.value.userId) then
          Handled(db, Fail(403, "You can only delete triggers for your own presets"))
        else
          var (rest, _) := DeleteMoodTrigger(db.triggers, triggerId);
          Handled(db.(triggers := rest), Ok(()))
  }

  /** For the trigger handlers the order is 404 before 403: a missing
      trigger is reported as missing even to a caller who owns nothing,
      and an existing one owned by someone else is 403 whatever the body. */
  lemma TriggerGuardOrder(db: Db, user: AuthUser, triggerId: string, body: Json, now: int)
    requires triggerId != ""
    ensures FindMoodTriggerById(db.triggers, triggerId).None? ==>
      UpdateTrigger(db, Some(user), triggerId, body, now).outcome == Fail(404, "Trigger not found") &&
      DeleteTrigger(db, Some(user), triggerId).outcome == Fail(404, "Trigger not found")
    ensures (FindMoodTriggerById(db.triggers, triggerId).Some? &&
             FindMoodPresetById(db.presets, FindMoodTriggerById(db.triggers, triggerId).value.presetId).None?) ==>
      UpdateTrigger(db, Some(user), triggerId, body, now).outcome ==
        Fail(403, "You can only modify triggers for your own presets")
  {
  }

  /** Every handler that changes a table answers a missing user with 401
      before looking at anything else, and changes nothing. */
  lemma MissingUserFirst(db: Db, id: string, body: Json, newId: string, isActive: bool, now: int)
    ensures CreatePreset(db, None, body, newId, now) == Handled(db, Fail(401, NotAuthenticated))
    ensures UpdatePreset(db, None, id, body, now) == Handled(db, Fail(401, NotAuthenticated))
    ensures DeletePreset(db, None, id) == Handled(db, Fail(401, NotAuthenticated))
    ensures CreateTrigger(db, None, body, newId, isActive, now) == Handled(db, Fail(401, NotAuthenticated))
    ensures UpdateTrigger(db, None, id, body, now) == Handled(db, Fail(401, NotAuthenticated))
    ensures DeleteTrigger(db, None, id) == Handled(db, Fail(401, NotAuthenticated))
  {
  }
}
