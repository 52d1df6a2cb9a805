/** The mood-map table of `server/src/models/MoodMap.ts`: breakpoints
    placing a mood at a (chapter, page fraction) position of a preset. Each
    query is a function over the table's rows. */
module MoodMap {
  import opened Common
  import opened Sorting
  import opened SetClause

  datatype MoodMapRow = MoodMapRow(
    id: int,
    presetId: int,
    chapter: real,
    pageFraction: real,
    moodId: Option<int>,
    backgroundId: Option<int>,
    transitionType: string)

  datatype CreateMoodMapData = CreateMoodMapData(
    presetId: int,
    chapter: real,
    pageFraction: real,
    moodId: Option<int>,
    backgroundId: Option<int>,
    transitionType: Option<string>)

  /** The row `createMoodMap` inserts under the id the database assigns: a
      missing or empty transition becomes `'fade'`. */
  function CreateMoodMap(data: CreateMoodMapData, id: int): (r: MoodMapRow)
    ensures r.transitionType != ""
    ensures data.transitionType.Some? && data.transitionType.value != "" ==>
      r.transitionType == data.transitionType.value
    ensures data.transitionType.None? || data.transitionType.value == "" ==> r.transitionType == "fade"
    ensures r.id == id && r.presetId == data.presetId && r.chapter == data.chapter &&
      r.pageFraction == data.pageFraction && r.moodId == data.moodId && r.backgroundId == data.backgroundId
  {
    var transition := if data.transitionType.Some? && data.transitionType.value != "" then data.transitionType.value else "fade";
    MoodMapRow(id, data.presetId, data.chapter, data.pageFraction, data.moodId, data.backgroundId, transition)
  }

  /** `findMoodMapById`: the first row with the id. */
  function FindMoodMapById(rows: seq<MoodMapRow>, id: int): (r: Option<MoodMapRow>)
    ensures r.Some? ==> r.value in rows && r.value.id == id
    ensures r.None? <==> forall i :: 0 <= i < |rows| ==> rows[i].id != id
  {
    if rows == [] then None
    else if rows[0].id == id then Some(rows[0])
    else FindMoodMapById(rows[1..], id)
  }

  function OfPreset(rows: seq<MoodMapRow>, presetId: int): (r: seq<MoodMapRow>)
    ensures forall x :: x in r <==> x in rows && x.presetId == presetId
  {
    if rows == [] then []
    else (if rows[0].presetId == presetId then [rows[0]] else []) + OfPreset(rows[1..], presetId)
  }

  function OfChapter(rows: seq<MoodMapRow>, chapter: real): (r: seq<MoodMapRow>)
    ensures forall x :: x in r <==> x in rows && x.chapter == chapter
  {
    if rows == [] then []
    else (if rows[0].chapter == chapter then [rows[0]] else []) + OfChapter(rows[1..], chapter)
  }

  function ChapterFractionKey(r: MoodMapRow): SortKey { Key(r.chapter, r.pageFraction) }

  function FractionKey(r: MoodMapRow): SortKey { Key(r.pageFraction, 0.0) }

  /** `findMoodMapsByPreset`: the preset's rows ordered by chapter, then
      page fraction. */
  function FindMoodMapsByPreset(rows: seq<MoodMapRow>, presetId: int): (r: seq<MoodMapRow>)
    ensures SortedBy(r, ChapterFractionKey)
    ensures multiset(r) == multiset(OfPreset(rows, presetId))
  {
    SortBy(OfPreset(rows, presetId), ChapterFractionKey)
  }

  /** `findMoodMapsByChapter`: the rows of one chapter of the preset,
      ordered by page fraction. */
  function FindMoodMapsByChapter(rows: seq<MoodMapRow>, presetId: int, chapter: real): (r: seq<MoodMapRow>)
    ensures SortedBy(r, FractionKey)
    ensures multiset(r) == multiset(OfChapter(OfPreset(rows, presetId), chapter))
  {
    SortBy(OfChapter(OfPreset(rows, presetId), chapter), FractionKey)
  }

  /** The rows `findMoodMapForProgress` may return: same preset, same
      chapter, and a page fraction at most `f`. */
  predicate Candidate(row: MoodMapRow, presetId: int, chapter: real, f: real) {
    row.presetId == presetId && row.chapter == chapter && row.pageFraction <= f
  }

  /** `findMoodMapForProgress`: a candidate with the largest page fraction,
      or `None` when there is none. Among candidates tied on the fraction
      the model returns the first; SQL leaves the choice open. */
  function FindMoodMapForProgress(rows: seq<MoodMapRow>, presetId: int, chapter: real, f: real): (r: Option<MoodMapRow>)
    ensures r.None? <==> forall i :: 0 <= i < |rows| ==> !Candidate(rows[i], presetId, chapter, f)
    ensures r.Some? ==> r.value in rows && Candidate(r.value, presetId, chapter, f)
    ensures r.Some? ==> forall i :: 0 <= i < |rows| && Candidate(rows[i], presetId, chapter, f) ==>
      rows[i].pageFraction <= r.value.pageFraction
  {
    if rows == [] then None
    else
      var rest := FindMoodMapForProgress(rows[1..], presetId, chapter, f);
      assert forall i :: 1 <= i < |rows| ==> rows[i] == rows[1..][i - 1];
      if !Candidate(rows[0], presetId, chapter, f) then rest
      else if rest.None? || rest.value.pageFraction < rows[0].pageFraction then Some(rows[0])
      else rest
  }

  /** No candidate lies strictly between the returned breakpoint and the
      requested position. */
  lemma NoCandidateInBetween(rows: seq<MoodMapRow>, presetId: int, chapter: real, f: real, row: MoodMapRow)
    requires FindMoodMapForProgress(rows, presetId, chapter, f).Some?
    requires row in rows && Candidate(row, presetId, chapter, f)
    ensures !(FindMoodMapForProgress(rows, presetId, chapter, f).value.pageFraction < row.pageFraction <= f)
  {
  }

  /** A breakpoint of an earlier chapter never matches: at the start of a
      chapter with no breakpoint of its own the result is `None`, not the
      last mood of the previous chapter. */
  lemma EarlierChapterNeverMatches(rows: seq<MoodMapRow>, presetId: int, chapter: real, f: real)
    requires forall i :: 0 <= i < |rows| ==> rows[i].chapter != chapter || rows[i].pageFraction > f
    ensures FindMoodMapForProgress(rows, presetId, chapter, f).None?
  {
  }

  /** Asking for exactly a breakpoint's fraction returns a row at that
      fraction, when no row of the chapter lies further on at or before it. */
  lemma ExactBreakpoint(rows: seq<MoodMapRow>, k: nat)
    requires k < |rows|
    ensures var r := FindMoodMapForProgress(rows, rows[k].presetId, rows[k].chapter, rows[k].pageFraction);
      r.Some? && r.value.pageFraction == rows[k].pageFraction
  {
    assert Candidate(rows[k], rows[k].presetId, rows[k].chapter, rows[k].pageFraction);
  }

  /** The fields `updateMoodMap` may change; `None` is `undefined`. */
  datatype UpdateMoodMapData = UpdateMoodMapData(
    chapter: Option<real>,
    pageFraction: Option<real>,
    moodId: Option<int>,
    backgroundId: Option<int>,
    transitionType: Option<string>)

  function NumValue(v: Option<real>): Option<SqlValue> {
    match v
    case Some(n) => Some(SqlNum(n))
    case None => None
  }

  function IdValue(v: Option<int>): Option<SqlValue> {
    match v
    case Some(n) => Some(SqlNum(n as real))
    case None => None
  }

  function TextValue(v: Option<string>): Option<SqlValue> {
    match v
    case Some(s) => Some(SqlText(s))
    case None => None
  }

  /** `Object.entries(moodMapData)`, in the order of the update type. */
  function Entries(data: UpdateMoodMapData): seq<Entry<SqlValue>> {
    [Entry("chapter", NumValue(data.chapter)),
     Entry("page_fraction", NumValue(data.pageFraction)),
     Entry("mood_id", IdValue(data.moodId)),
     Entry("background_id", IdValue(data.backgroundId)),
     Entry("transition_type", TextValue(data.transitionType))]
  }

  /** A row with the defined fields of the update written over it. */
  function Updated(row: MoodMapRow, data: UpdateMoodMapData): MoodMapRow {
    MoodMapRow(row.id, row.presetId,
      data.chapter.GetOr(row.chapter),
      data.pageFraction.GetOr(row.pageFraction),
      if data.moodId.Some? then data.moodId else row.moodId,
      if data.backgroundId.Some? then data.backgroundId else row.backgroundId,
      data.transitionType.GetOr(row.transitionType))
  }

  /** The table after `UPDATE MoodMap SET ... WHERE id = $n`. */
  function UpdateRows(rows: seq<MoodMapRow>, id: int, data: UpdateMoodMapData): (r: seq<MoodMapRow>)
    ensures |r| == |rows|
    ensures forall i :: 0 <= i < |rows| ==>
      r[i] == if rows[i].id == id then Updated(rows[i], data) else rows[i]
  {
    if rows == [] then []
    else [if rows[0].id == id then Updated(rows[0], data) else rows[0]] + UpdateRows(rows[1..], id, data)
  }

  predicate NothingDefined(data: UpdateMoodMapData) {
    data.chapter.None? && data.pageFraction.None? && data.moodId.None? &&
    data.backgroundId.None? && data.transitionType.None?
  }

  lemma EntriesUndefined(data: UpdateMoodMapData)
    ensures NothingDefined(data) <==> Defined(Entries(data)) == []
  {
    var e := Entries(data);
    assert e[0].value.None? <==> data.chapter.None?;
    assert e[1].value.None? <==> data.pageFraction.None?;
    assert e[2].value.None? <==> data.moodId.None?;
    assert e[3].value.None? <==> data.backgroundId.None?;
    assert e[4].value.None? <==> data.transitionType.None?;
  }

  /** `updateMoodMap`: with no defined field the table is untouched and the
      current row comes back; otherwise the rows with the id are updated and
      the updated row comes back (`None` when there is no such row). */
  method UpdateMoodMap(rows: seq<MoodMapRow>, id: int, data: UpdateMoodMapData)
    returns (newRows: seq<MoodMapRow>, result: Option<MoodMapRow>)
    ensures NothingDefined(data) ==> newRows == rows && result == FindMoodMapById(rows, id)
    ensures !NothingDefined(data) ==> newRows == UpdateRows(rows, id, data)
    ensures !NothingDefined(data) ==> result == FindMoodMapById(newRows, id)
    ensures result.Some? ==> result.value.id == id
  {
    var plan := PlanUpdate(SqlNum(id as real), Entries(data));
    EntriesUndefined(data);
    if plan.ReturnCurrent? {
      return rows, FindMoodMapById(rows, id);
    }
    newRows := UpdateRows(rows, id, data);
    result := FindMoodMapById(newRows, id);
  }

  /** Updating a row and reading it back gives the row with the new values
      and the old id and preset. */
  lemma UpdateThenFind(rows: seq<MoodMapRow>, id: int, data: UpdateMoodMapData)
    requires FindMoodMapById(rows, id).Some?
    ensures FindMoodMapById(UpdateRows(rows, id, data), id) == Some(Updated(FindMoodMapById(rows, id).value, data))
  {
    if rows[0].id != id {
      UpdateThenFind(rows[1..], id, data);
      assert UpdateRows(rows, id, data)[1..] == UpdateRows(rows[1..], id, data);
    }
  }
}
