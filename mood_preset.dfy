/** The preset and trigger-rule tables of `server/src/models/MoodPreset.ts`.
    Each query is a function over the rows of the tables it reads. */
module MoodPreset {
  import opened Common
  import opened Sorting
  import opened SetClause
  import opened RoleAuth

  datatype MoodPresetRow = MoodPresetRow(
    id: string,
    creatorId: int,
    bookId: string,
    name: string,
    description: Option<string>,
    isDefault: bool,
    createdAt: int,
    updatedAt: int)

  /** `[first, last]` pages of a trigger, as the client wrote them. */
  datatype PageRange = PageRange(lo: real, hi: real)

  /** The part of `trigger_condition` the server interprets. */
  datatype TriggerCondition = TriggerCondition(pageRange: Option<PageRange>)

  datatype MoodTriggerRow = MoodTriggerRow(
    id: string,
    presetId: string,
    moodTypeId: string,
    condition: TriggerCondition,
    musicTrackId: Option<string>,
    backgroundImageUrl: Option<string>,
    visualEffects: Option<Json>,
    transitionDuration: real,
    isActive: bool,
    priority: real,
    createdAt: int,
    updatedAt: int)

  /** A row of the users table, as far as the ownership check reads it. */
  datatype UserRow = UserRow(id: int, role: Role)

  datatype CreateMoodPresetData = CreateMoodPresetData(
    creatorId: int, bookId: string, name: string, description: Option<string>, isDefault: Option<bool>)

  /** `createMoodPreset`: `is_default` is false unless given as true. */
  function CreateMoodPreset(data: CreateMoodPresetData, id: string, now: int): (r: MoodPresetRow)
    ensures r.isDefault <==> data.isDefault == Some(true)
    ensures r.id == id && r.creatorId == data.creatorId && r.bookId == data.bookId &&
      r.name == data.name && r.description == data.description
  {
    MoodPresetRow(id, data.creatorId, data.bookId, data.name, data.description,
      data.isDefault == Some(true), now, now)
  }

  datatype CreateMoodTriggerData = CreateMoodTriggerData(
    presetId: string,
    moodTypeId: string,
    condition: TriggerCondition,
    musicTrackId: Option<string>,
    backgroundImageUrl: Option<string>,
    visualEffects: Option<Json>,
    transitionDuration: Option<real>,
    priority: Option<real>)

  const DefaultTransitionDuration: real := 3000.0
  const DefaultPriority: real := 1.0

  /** `value || fallback` for an optional number. */
  function OrDefault(v: Option<real>, fallback: real): (r: real)
    ensures v.Some? && v.value != 0.0 ==> r == v.value
    ensures v.None? || v.value == 0.0 ==> r == fallback
  {
    if v.Some? && v.value != 0.0 then v.value else fallback
  }

  /** `createMoodTrigger`: a missing or zero duration becomes 3000 ms and a
      missing or zero priority 1. `isActive` is the column's default, which
      the insert does not set. */
  function CreateMoodTrigger(data: CreateMoodTriggerData, id: string, isActive: bool, now: int): (r: MoodTriggerRow)
    ensures r.transitionDuration != 0.0 && r.priority != 0.0
    ensures r.transitionDuration == OrDefault(data.transitionDuration, DefaultTransitionDuration)
    ensures r.priority == OrDefault(data.priority, DefaultPriority)
    ensures r.id == id && r.presetId == data.presetId && r.moodTypeId == data.moodTypeId &&
      r.condition == data.condition && r.isActive == isActive
  {
    MoodTriggerRow(id, data.presetId, data.moodTypeId, data.condition, data.musicTrackId,
      data.backgroundImageUrl, data.visualEffects,
      OrDefault(data.transitionDuration, DefaultTransitionDuration),
      isActive, OrDefault(data.priority, DefaultPriority), now, now)
  }

  function FindMoodPresetById(presets: seq<MoodPresetRow>, id: string): (r: Option<MoodPresetRow>)
    ensures r.Some? ==> r.value in presets && r.value.id == id
    ensures r.None? <==> forall i :: 0 <= i < |presets| ==> presets[i].id != id
  {
    if presets == [] then None
    else if presets[0].id == id then Some(presets[0])
    else FindMoodPresetById(presets[1..], id)
  }

  function FindUser(users: seq<UserRow>, id: int): (r: Option<UserRow>)
    ensures r.Some? ==> r.value in users && r.value.id == id
    ensures r.None? <==> forall i :: 0 <= i < |users| ==> users[i].id != id
  {
    if users == [] then None
    else if users[0].id == id then Some(users[0])
    else FindUser(users[1..], id)
  }

  /** The presets of a book whose creator exists, default first, then
      oldest first. */
  function PresetsOfBook(presets: seq<MoodPresetRow>, users: seq<UserRow>, bookId: string): (r: seq<MoodPresetRow>)
    ensures forall p :: p in r <==> p in presets && p.bookId == bookId && FindUser(users, p.creatorId).Some?
  {
    if presets == [] then []
    else
      var p := presets[0];
      (if p.bookId == bookId && FindUser(users, p.creatorId).Some? then [p] else []) + PresetsOfBook(presets[1..], users, bookId)
  }

  function DefaultFirstKey(p: MoodPresetRow): SortKey {
    Key(if p.isDefault then 0.0 else 1.0, p.createdAt as real)
  }

  /** `findMoodPresetsByBook`. */
  function FindMoodPresetsByBook(presets: seq<MoodPresetRow>, users: seq<UserRow>, bookId: string): (r: seq<MoodPresetRow>)
    ensures SortedBy(r, DefaultFirstKey)
    ensures multiset(r) == multiset(PresetsOfBook(presets, users, bookId))
  {
    SortBy(PresetsOfBook(presets, users, bookId), DefaultFirstKey)
  }

  /** A default preset comes before every non-default one in the listing. */
  lemma DefaultPresetsFirst(presets: seq<MoodPresetRow>, users: seq<UserRow>, bookId: string, i: nat, j: nat)
    requires var r := FindMoodPresetsByBook(presets, users, bookId);
      i < |r| && j < |r| && r[i].isDefault && !r[j].isDefault
    ensures i < j
  {
    var r := FindMoodPresetsByBook(presets, users, bookId);
    if j < i {
      assert false;
    }
  }

  /** The presets of a creator whose book exists, newest first. */
  function PresetsOfCreator(presets: seq<MoodPresetRow>, bookIds: set<string>, creatorId: int): (r: seq<MoodPresetRow>)
    ensures forall p :: p in r <==> p in presets && p.creatorId == creatorId && p.bookId in bookIds
  {
    if presets == [] then []
    else
      var p := presets[0];
      (if p.creatorId == creatorId && p.bookId in bookIds then [p] else []) + PresetsOfCreator(presets[1..], bookIds, creatorId)
  }

  function NewestFirstKey(p: MoodPresetRow): SortKey { Key(-(p.createdAt as real), 0.0) }

  /** `findMoodPresetsByCreator`. */
  function FindMoodPresetsByCreator(presets: seq<MoodPresetRow>, bookIds: set<string>, creatorId: int): (r: seq<MoodPresetRow>)
    ensures SortedBy(r, NewestFirstKey)
    ensures multiset(r) == multiset(PresetsOfCreator(presets, bookIds, creatorId))
  {
    SortBy(PresetsOfCreator(presets, bookIds, creatorId), NewestFirstKey)
  }

  /** `getDefaultPresetForBook`: some default preset of the book. */
  function GetDefaultPresetForBook(presets: seq<MoodPresetRow>, bookId: string): (r: Option<MoodPresetRow>)
    ensures r.Some? ==> r.value in presets && r.value.bookId == bookId && r.value.isDefault
    ensures r.None? <==> forall i :: 0 <= i < |presets| ==> !(presets[i].bookId == bookId && presets[i].isDefault)
  {
    if presets == [] then None
    else if presets[0].bookId == bookId && presets[0].isDefault then Some(presets[0])
    else GetDefaultPresetForBook(presets[1..], bookId)
  }

  /** `canUserModifyPreset`: the preset and the user both exist, and the
      user created the preset or is an admin (by the role stored for the
      user). An unknown preset or user gives false. */
  function CanUserModifyPreset(presets: seq<MoodPresetRow>, users: seq<UserRow>, presetId: string, userId: int): (r: bool)
    ensures r <==>
      FindMoodPresetById(presets, presetId).Some? && FindUser(users, userId).Some? &&
      (FindMoodPresetById(presets, presetId).value.creatorId == userId || FindUser(users, userId).value.role == Admin)
    ensures r ==> exists i :: 0 <= i < |presets| && presets[i].id == presetId
  {
    var preset := FindMoodPresetById(presets, presetId);
    var user := FindUser(users, userId);
    if preset.None? || user.None? then false
    else preset.value.creatorId == userId || user.value.role == Admin
  }

  /** An admin may modify any existing preset; nobody may modify a preset
      that does not exist. */
  lemma OwnershipCases(presets: seq<MoodPresetRow>, users: seq<UserRow>, presetId: string, userId: int)
    ensures FindMoodPresetById(presets, presetId).None? ==> !CanUserModifyPreset(presets, users, presetId, userId)
    ensures FindMoodPresetById(presets, presetId).Some? && FindUser(users, userId) == Some(UserRow(userId, Admin)) ==>
      CanUserModifyPreset(presets, users, presetId, userId)
  {
  }

  /** PostgreSQL's cast of a JSON number to `INTEGER`: the nearest integer,
      halves away from zero. */
  function PgInteger(x: real): (r: int)
    ensures x - 0.5 <= r as real <= x + 0.5
  {
    if x >= 0.0 then (x + 0.5).Floor else -((-x + 0.5).Floor)
  }

  /** The position test of `getMoodTriggersForPosition`: no page range
      matches every page, otherwise the page lies in the range, both ends
      included. */
  predicate PageMatches(c: TriggerCondition, page: int) {
    c.pageRange.None? || (PgInteger(c.pageRange.value.lo) <= page <= PgInteger(c.pageRange.value.hi))
  }

  /** An integral range matches exactly its pages, and a reversed one
      matches none. */
  lemma PageRangeInclusive(lo: int, hi: int, page: int)
    ensures PageMatches(TriggerCondition(Some(PageRange(lo as real, hi as real))), page) <==> lo <= page <= hi
    ensures lo > hi ==> !PageMatches(TriggerCondition(Some(PageRange(lo as real, hi as real))), page)
  {
    assert PgInteger(lo as real) == lo;
    assert PgInteger(hi as real) == hi;
  }

  /** The rows the position query may return: active triggers of the
      preset whose mood type exists and whose condition matches the page. */
  predicate MatchesPosition(t: MoodTriggerRow, moodTypes: set<string>, presetId: string, page: int) {
    t.presetId == presetId && t.isActive && t.moodTypeId in moodTypes && PageMatches(t.condition, page)
  }

  function TriggersAt(triggers: seq<MoodTriggerRow>, moodTypes: set<string>, presetId: string, page: int): (r: seq<MoodTriggerRow>)
    ensures forall t :: t in r <==> t in triggers && MatchesPosition(t, moodTypes, presetId, page)
  {
    if triggers == [] then []
    else
      (if MatchesPosition(triggers[0], moodTypes, presetId, page) then [triggers[0]] else [])
        + TriggersAt(triggers[1..], moodTypes, presetId, page)
  }

  function PriorityKey(t: MoodTriggerRow): SortKey { Key(t.priority, 0.0) }

  /** `getMoodTriggersForPosition`: every matching trigger, ordered by
      priority. */
  function GetMoodTriggersForPosition(triggers: seq<MoodTriggerRow>, moodTypes: set<string>, presetId: string, page: int): (r: seq<MoodTriggerRow>)
    ensures SortedBy(r, PriorityKey)
    ensures multiset(r) == multiset(TriggersAt(triggers, moodTypes, presetId, page))
  {
    SortBy(TriggersAt(triggers, moodTypes, presetId, page), PriorityKey)
  }

  /** A trigger is in the position result exactly when it matches. */
  lemma PositionResultMembers(triggers: seq<MoodTriggerRow>, moodTypes: set<string>, presetId: string, page: int, t: MoodTriggerRow)
    ensures t in GetMoodTriggersForPosition(triggers, moodTypes, presetId, page) <==>
      t in triggers && MatchesPosition(t, moodTypes, presetId, page)
  {
    SortByMembers(TriggersAt(triggers, moodTypes, presetId, page), PriorityKey, t);
  }

  function ActiveOfPreset(triggers: seq<MoodTriggerRow>, moodTypes: set<string>, presetId: string): (r: seq<MoodTriggerRow>)
    ensures forall t :: t in r <==> t in triggers && t.presetId == presetId && t.isActive && t.moodTypeId in moodTypes
  {
    if triggers == [] then []
    else
      var t := triggers[0];
      (if t.presetId == presetId && t.isActive && t.moodTypeId in moodTypes then [t] else [])
        + ActiveOfPreset(triggers[1..], moodTypes, presetId)
  }

  function PriorityThenAgeKey(t: MoodTriggerRow): SortKey { Key(t.priority, t.createdAt as real) }

  /** `findMoodTriggersByPreset`: the preset's active triggers ordered by
      priority, then creation time. */
  function FindMoodTriggersByPreset(triggers: seq<MoodTriggerRow>, moodTypes: set<string>, presetId: string): (r: seq<MoodTriggerRow>)
    ensures SortedBy(r, PriorityThenAgeKey)
    ensures multiset(r) == multiset(ActiveOfPreset(triggers, moodTypes, presetId))
  {
    SortBy(ActiveOfPreset(triggers, moodTypes, presetId), PriorityThenAgeKey)
  }

  /** An inactive trigger is never listed. */
  lemma InactiveNeverListed(triggers: seq<MoodTriggerRow>, moodTypes: set<string>, presetId: string, t: MoodTriggerRow)
    requires !t.isActive
    ensures t !in FindMoodTriggersByPreset(triggers, moodTypes, presetId)
  {
    SortByMembers(ActiveOfPreset(triggers, moodTypes, presetId), PriorityThenAgeKey, t);
  }

  function FindMoodTriggerById(triggers: seq<MoodTriggerRow>, id: string): (r: Option<MoodTriggerRow>)
    ensures r.Some? ==> r.value in triggers && r.value.id == id
    ensures r.None? <==> forall i :: 0 <= i < |triggers| ==> triggers[i].id != id
  {
    if triggers == [] then None
    else if triggers[0].id == id then Some(triggers[0])
    else FindMoodTriggerById(triggers[1..], id)
  }

  /** The fields `updateMoodPreset` may change; `None` is `undefined`. */
  datatype UpdateMoodPresetData = UpdateMoodPresetData(name: Option<string>, description: Option<string>, isDefault: Option<bool>)

  function PresetEntries(data: UpdateMoodPresetData): seq<Entry<SqlValue>> {
    [Entry("name", if data.name.Some? then Some(SqlText(data.name.value)) else None),
     Entry("description", if data.description.Some? then Some(SqlText(data.description.value)) else None),
     Entry("is_default", if data.isDefault.Some? then Some(SqlBool(data.isDefault.value)) else None)]
  }

  predicate PresetUpdateEmpty(data: UpdateMoodPresetData) {
    data.name.None? && data.description.None? && data.isDefault.None?
  }

  lemma PresetEntriesUndefined(data: UpdateMoodPresetData)
    ensures PresetUpdateEmpty(data) <==> Defined(PresetEntries(data)) == []
  {
    var e := PresetEntries(data);
    assert e[0].value.None? <==> data.name.None?;
    assert e[1].value.None? <==> data.description.None?;
    assert e[2].value.None? <==> data.isDefault.None?;
  }

  /** A preset with the defined fields written over it and `updated_at`
      set to the clock. */
  function UpdatedPreset(p: MoodPresetRow, data: UpdateMoodPresetData, now: int): MoodPresetRow {
    p.(name := data.name.GetOr(p.name),
       description := if data.description.Some? then data.description else p.description,
       isDefault := data.isDefault.GetOr(p.isDefault),
       updatedAt := now)
  }

  function UpdatePresetRows(presets: seq<MoodPresetRow>, id: string, data: UpdateMoodPresetData, now: int): (r: seq<MoodPresetRow>)
    ensures |r| == |presets|
    ensures forall i :: 0 <= i < |presets| ==>
      r[i] == if presets[i].id == id then UpdatedPreset(presets[i], data, now) else presets[i]
  {
    if presets == [] then []
    else
      var head := if presets[0].id == id then UpdatedPreset(presets[0], data, now) else presets[0];
      [head] + UpdatePresetRows(presets[1..], id, data, now)
  }

  /** The preset table after `updateMoodPreset`: untouched when no field
      is defined. */
  function PresetsAfterUpdate(presets: seq<MoodPresetRow>, id: string, data: UpdateMoodPresetData, now: int): (r: seq<MoodPresetRow>)
    ensures PresetUpdateEmpty(data) ==> r == presets
    ensures |r| == |presets|
    ensures forall i :: 0 <= i < |presets| ==> r[i].id == presets[i].id
    ensures forall i :: 0 <= i < |presets| && presets[i].id != id ==> r[i] == presets[i]
  {
    if PresetUpdateEmpty(data) then presets else UpdatePresetRows(presets, id, data, now)
  }

  /** `updateMoodPreset`: the clause builder decides between returning the
      current row and running the update; either way the row with the id
      comes back, and only when it exists. */
  method UpdateMoodPreset(presets: seq<MoodPresetRow>, id: string, data: UpdateMoodPresetData, now: int)
    returns (newRows: seq<MoodPresetRow>, result: Option<MoodPresetRow>)
    ensures newRows == PresetsAfterUpdate(presets, id, data, now)
    ensures result == FindMoodPresetById(newRows, id)
    ensures result.Some? <==> FindMoodPresetById(presets, id).Some?
  {
    var plan := PlanUpdate(SqlText(id), PresetEntries(data));
    PresetEntriesUndefined(data);
    if plan.ReturnCurrent? {
      newRows := presets;
    } else {
      newRows := UpdatePresetRows(presets, id, data, now);
    }
    result := FindMoodPresetById(newRows, id);
  }

  /** A value bound by the trigger update. */
  datatype TriggerValue =
    | TText(s: string)
    | TNum(n: real)
    | TBool(b: bool)
    | TCondition(c: TriggerCondition)
    | TEffects(j: Json)

  /** The fields `updateMoodTrigger` may change; `None` is `undefined`. */
  datatype UpdateMoodTriggerData = UpdateMoodTriggerData(
    moodTypeId: Option<string>,
    condition: Option<TriggerCondition>,
    musicTrackId: Option<string>,
    backgroundImageUrl: Option<string>,
    visualEffects: Option<Json>,
    transitionDuration: Option<real>,
    isActive: Option<bool>,
    priority: Option<real>)

  function TriggerEntries(data: UpdateMoodTriggerData): seq<Entry<TriggerValue>> {
    [Entry("mood_type_id", if data.moodTypeId.Some? then Some(TText(data.moodTypeId.value)) else None),
     Entry("trigger_condition", if data.condition.Some? then Some(TCondition(data.condition.value)) else None),
     Entry("music_track_id", if data.musicTrackId.Some? then Some(TText(data.musicTrackId.value)) else None),
     Entry("background_image_url", if data.backgroundImageUrl.Some? then Some(TText(data.backgroundImageUrl.value)) else None),
     Entry("visual_effects", if data.visualEffects.Some? then Some(TEffects(data.visualEffects.value)) else None),
     Entry("transition_duration", if data.transitionDuration.Some? then Some(TNum(data.transitionDuration.value)) else None),
     Entry("is_active", if data.isActive.Some? then Some(TBool(data.isActive.value)) else None),
     Entry("priority", if data.priority.Some? then Some(TNum(data.priority.value)) else None)]
  }

  predicate TriggerUpdateEmpty(data: UpdateMoodTriggerData) {
    data.moodTypeId.None? && data.condition.None? && data.musicTrackId.None? &&
    data.backgroundImageUrl.None? && data.visualEffects.None? && data.transitionDuration.None? &&
    data.isActive.None? && data.priority.None?
  }

  lemma TriggerEntriesUndefined(data: UpdateMoodTriggerData)
    ensures TriggerUpdateEmpty(data) <==> Defined(TriggerEntries(data)) == []
  {
    var e := TriggerEntries(data);
    assert TriggerUpdateEmpty(data) <==> forall j :: 0 <= j < |e| ==> e[j].value.None? by {
      assert e[0].value.None? <==> data.moodTypeId.None?;
      assert e[1].value.None? <==> data.condition.None?;
      assert e[2].value.None? <==> data.musicTrackId.None?;
      assert e[3].value.None? <==> data.backgroundImageUrl.None?;
      assert e[4].value.None? <==> data.visualEffects.None?;
      assert e[5].value.None? <==> data.transitionDuration.None?;
      assert e[6].value.None? <==> data.isActive.None?;
      assert e[7].value.None? <==> data.priority.None?;
    }
  }

  function UpdatedTrigger(t: MoodTriggerRow, data: UpdateMoodTriggerData, now: int): MoodTriggerRow {
    t.(moodTypeId := data.moodTypeId.GetOr(t.moodTypeId),
       condition := data.condition.GetOr(t.condition),
       musicTrackId := if data.musicTrackId.Some? then data.musicTrackId else t.musicTrackId,
       backgroundImageUrl := if data.backgroundImageUrl.Some? then data.backgroundImageUrl else t.backgroundImageUrl,
       visualEffects := if data.visualEffects.Some? then data.visualEffects else t.visualEffects,
       transitionDuration := data.transitionDuration.GetOr(t.transitionDuration),
       isActive := data.isActive.GetOr(t.isActive),
       priority := data.priority.GetOr(t.priority),
       updatedAt := now)
  }

  function UpdateTriggerRows(triggers: seq<MoodTriggerRow>, id: string, data: UpdateMoodTriggerData, now: int): (r: seq<MoodTriggerRow>)
    ensures |r| == |triggers|
    ensures forall i :: 0 <= i < |triggers| ==>
      r[i] == if triggers[i].id == id then UpdatedTrigger(triggers[i], data, now) else triggers[i]
  {
    if triggers == [] then []
    else
      var head := if triggers[0].id == id then UpdatedTrigger(triggers[0], data, now) else triggers[0];
      [head] + UpdateTriggerRows(triggers[1..], id, data, now)
  }

  /** The trigger table after `updateMoodTrigger`. */
  function TriggersAfterUpdate(triggers: seq<MoodTriggerRow>, id: string, data: UpdateMoodTriggerData, now: int): (r: seq<MoodTriggerRow>)
    ensures TriggerUpdateEmpty(data) ==> r == triggers
    ensures |r| == |triggers|
    ensures forall i :: 0 <= i < |triggers| ==> r[i].id == triggers[i].id
    ensures forall i :: 0 <= i < |triggers| && triggers[i].id != id ==> r[i] == triggers[i]
  {
    if TriggerUpdateEmpty(data) then triggers else UpdateTriggerRows(triggers, id, data, now)
  }

  /** `updateMoodTrigger`, with the same empty-update rule. */
  method UpdateMoodTrigger(triggers: seq<MoodTriggerRow>, id: string, data: UpdateMoodTriggerData, now: int)
    returns (newRows: seq<MoodTriggerRow>, result: Option<MoodTriggerRow>)
    ensures newRows == TriggersAfterUpdate(triggers, id, data, now)
    ensures result == FindMoodTriggerById(newRows, id)
    ensures result.Some? <==> FindMoodTriggerById(triggers, id).Some?
  {
    var plan := PlanUpdate(TText(id), TriggerEntries(data));
    TriggerEntriesUndefined(data);
    if plan.ReturnCurrent? {
      newRows := triggers;
    } else {
      newRows := UpdateTriggerRows(triggers, id, data, now);
    }
    result := FindMoodTriggerById(newRows, id);
  }

  function WithoutPreset(presets: seq<MoodPresetRow>, id: string): (r: seq<MoodPresetRow>)
    ensures forall p :: p in r <==> p in presets && p.id != id
    ensures |r| <= |presets|
    ensures |r| == |presets| <==> forall i :: 0 <= i < |presets| ==> presets[i].id != id
  {
    if presets == [] then []
    else
      (if presets[0].id == id then [] else [presets[0]]) + WithoutPreset(presets[1..], id)
  }

  /** `deleteMoodPreset`: the table without the preset, and whether a row
      went. */
  function DeleteMoodPreset(presets: seq<MoodPresetRow>, id: string): (r: (seq<MoodPresetRow>, bool))
    ensures r.0 == WithoutPreset(presets, id)
    ensures r.1 <==> FindMoodPresetById(presets, id).Some?
  {
    var rest := WithoutPreset(presets, id);
    (rest, |rest| < |presets|)
  }

  function WithoutTrigger(triggers: seq<MoodTriggerRow>, id: string): (r: seq<MoodTriggerRow>)
    ensures forall t :: t in r <==> t in triggers && t.id != id
    ensures |r| <= |triggers|
    ensures |r| == |triggers| <==> forall i :: 0 <= i < |triggers| ==> triggers[i].id != id
  {
    if triggers == [] then []
    else
      (if triggers[0].id == id then [] else [triggers[0]]) + WithoutTrigger(triggers[1..], id)
  }

  /** `deleteMoodTrigger`. */
  function DeleteMoodTrigger(triggers: seq<MoodTriggerRow>, id: string): (r: (seq<MoodTriggerRow>, bool))
    ensures r.0 == WithoutTrigger(triggers, id)
    ensures r.1 <==> FindMoodTriggerById(triggers, id).Some?
  {
    var rest := WithoutTrigger(triggers, id);
    (rest, |rest| < |triggers|)
  }
}
