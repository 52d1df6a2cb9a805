/** The music handlers of `server/src/controllers/musicController.ts`: the
    create and update schemas, the upload form defaults, the list's source
    choice and pagination, and the id check of the single-track handlers. */
module MusicController {
  import opened Common
  import opened Text
  import opened Schema
  import opened Pagination
  import opened MusicService

  // ---- Create and update ----

  /** A body accepted by `createMusicSchema`. */
  datatype CreateMusicData = CreateMusicData(
    title: string,
    genre: Option<string>,
    filepath: string,
    isPublic: Option<bool>,
    initialTempo: real)

  /** `createMusic`: the body is parsed with `createMusicSchema` and handed
      on as it is: accepted iff every member passes its own schema, and
      then exactly those members' values. */
  function CreateMusic(body: Json): (r: Outcome<CreateMusicData>)
    ensures r.Ok? <==>
      RequiredText(body, "title", 1, 100).Ok? &&
      OptionalText(body, "genre", 0, 50).Ok? &&
      StringMember(body, "filepath").Some? &&
      OptionalBool(body, "is_public").Ok? &&
      RequiredNumberIn(body, "initial_tempo", 30.0, 200.0).Ok?
    ensures r.Ok? ==>
      1 <= |r.value.title| <= 100 &&
      (r.value.genre.Some? ==> |r.value.genre.value| <= 50) &&
      30.0 <= r.value.initialTempo <= 200.0
    ensures r.Ok? ==>
      r.value == CreateMusicData(StringMember(body, "title").value, OptionalText(body, "genre", 0, 50).value,
        StringMember(body, "filepath").value, BoolMember(body, "is_public"), NumberMember(body, "initial_tempo").value)
    ensures r.Err? ==> r.failure == SchemaRejected
  {
    var title := RequiredText(body, "title", 1, 100);
    var genre := OptionalText(body, "genre", 0, 50);
    var filepath := RequiredString(body, "filepath");
    var isPublic := OptionalBool(body, "is_public");
    var tempo := RequiredNumberIn(body, "initial_tempo", 30.0, 200.0);
    if title.Err? || genre.Err? || filepath.Err? || isPublic.Err? || tempo.Err? then Err(SchemaRejected)
    else Ok(CreateMusicData(title.value, genre.value, filepath.value, isPublic.value, tempo.value))
  }

  /** A body accepted by `updateMusicSchema`: every field optional. */
  datatype UpdateMusicData = UpdateMusicData(
    title: Option<string>,
    genre: Option<string>,
    isPublic: Option<bool>,
    initialTempo: Option<real>)

  /** `updateMusicSchema.parse(body)`: a non-object is refused; an object
      is accepted iff every present member passes its own schema, and the
      result holds exactly those members' values. */
  function ParseUpdateMusic(body: Json): (r: Outcome<UpdateMusicData>)
    ensures r.Ok? ==>
      (r.value.title.Some? ==> 1 <= |r.value.title.value| <= 100) &&
      (r.value.genre.Some? ==> |r.value.genre.value| <= 50) &&
      (r.value.initialTempo.Some? ==> 30.0 <= r.value.initialTempo.value <= 200.0)
    ensures r.Ok? <==>
      body.JObj? && OptionalText(body, "title", 1, 100).Ok? && OptionalText(body, "genre", 0, 50).Ok? &&
      OptionalBool(body, "is_public").Ok? && OptionalNumberIn(body, "initial_tempo", 30.0, 200.0).Ok?
    ensures r.Ok? ==>
      r.value == UpdateMusicData(OptionalText(body, "title", 1, 100).value, OptionalText(body, "genre", 0, 50).value,
        BoolMember(body, "is_public"), NumberMember(body, "initial_tempo"))
    ensures r.Err? ==> r.failure == SchemaRejected
  {
    if !body.JObj? then Err(SchemaRejected)
    else
      var title := OptionalText(body, "title", 1, 100);
      var genre := OptionalText(body, "genre", 0, 50);
      var isPublic := OptionalBool(body, "is_public");
      var tempo := OptionalNumberIn(body, "initial_tempo", 30.0, 200.0);
      if title.Err? || genre.Err? || isPublic.Err? || tempo.Err? then Err(SchemaRejected)
      else Ok(UpdateMusicData(title.value, genre.value, isPublic.value, tempo.value))
  }

  /** The empty object is a valid update, and so is any body that is an
      object without the four fields; a body that is not an object, such as
      an array, is refused. */
  lemma EmptyUpdateAccepted(items: seq<Json>)
    ensures ParseUpdateMusic(JObj([])) == Ok(UpdateMusicData(None, None, None, None))
    ensures ParseUpdateMusic(JArr(items)) == Err(SchemaRejected)
  {
  }

  /** A body naming a title and a tempo within [30, 200] updates those two
      and nothing else. */
  lemma UpdateMusicRoundTrip(title: string, tempo: real)
    requires 1 <= |title| <= 100 && 30.0 <= tempo <= 200.0
    ensures ParseUpdateMusic(JObj([Field("title", JStr(title)), Field("initial_tempo", JNum(tempo))])) ==
      Ok(UpdateMusicData(Some(title), None, None, Some(tempo)))
  {
    var fields := [Field("title", JStr(title)), Field("initial_tempo", JNum(tempo))];
    assert Lookup(fields, "title") == Some(JStr(title));
    assert Lookup(fields, "initial_tempo") == Some(JNum(tempo));
    assert Lookup(fields, "genre") == None;
    assert Lookup(fields, "is_public") == None;
  }

  /** A body with a title, a path and a tempo within [30, 200] is created
      as exactly those values. */
  lemma CreateMusicRoundTrip(title: string, path: string, tempo: real)
    requires 1 <= |title| <= 100 && 30.0 <= tempo <= 200.0
    ensures CreateMusic(JObj([Field("title", JStr(title)), Field("filepath", JStr(path)),
                              Field("initial_tempo", JNum(tempo))])) ==
      Ok(CreateMusicData(title, None, path, None, tempo))
  {
    var fields := [Field("title", JStr(title)), Field("filepath", JStr(path)), Field("initial_tempo", JNum(tempo))];
    assert Lookup(fields, "title") == Some(JStr(title));
    assert Lookup(fields, "filepath") == Some(JStr(path));
    assert Lookup(fields, "initial_tempo") == Some(JNum(tempo));
    assert Lookup(fields, "genre") == None;
    assert Lookup(fields, "is_public") == None;
    var body := JObj(fields);
    assert RequiredText(body, "title", 1, 100) == Ok(title);
    assert OptionalText(body, "genre", 0, 50) == Ok(None);
    assert StringMember(body, "filepath") == Some(path);
    assert OptionalBool(body, "is_public") == Ok(None);
    assert BoolMember(body, "is_public") == None;
    assert NumberMember(body, "initial_tempo") == Some(tempo);
  }

  // ---- Upload ----

  /** What `uploadMusic` hands to the upload service. `initialTempo` is
      `parseInt` of the form field, `None` standing for `NaN`. */
  datatype MusicUpload = MusicUpload(
    file: UploadedFile,
    title: FormValue,
    genre: FormValue,
    initialTempo: Option<int>,
    isPublic: bool)

  /** `uploadMusic`: a file, a title and an initial tempo are required, in
      that order; the genre defaults to `unknown`, and the track is public
      unless the field is exactly the text `false`. */
  function UploadMusic(file: Option<UploadedFile>, form: map<string, FormValue>): (r: Outcome<MusicUpload>)
    ensures file.None? <==> r == Fail(400, "No file uploaded")
    ensures file.Some? && !TruthyField(form, "title") <==> r == Fail(400, "Title is required")
    ensures file.Some? && TruthyField(form, "title") && !TruthyField(form, "initial_tempo") <==>
      r == Fail(400, "Initial tempo is required")
    ensures r.Ok? <==> file.Some? && TruthyField(form, "title") && TruthyField(form, "initial_tempo")
    ensures r.Ok? ==>
      r.value.file == file.value && r.value.title == form["title"] &&
      r.value.initialTempo == ParseIntField(form["initial_tempo"]) &&
      (r.value.genre == if TruthyField(form, "genre") then form["genre"] else Single("unknown")) &&
      (!r.value.isPublic <==> "is_public" in form && form["is_public"] == Single("false"))
  {
    if file.None? then Fail(400, "No file uploaded")
    else if !TruthyField(form, "title") then Fail(400, "Title is required")
    else if !TruthyField(form, "initial_tempo") then Fail(400, "Initial tempo is required")
    else
      var genre := if TruthyField(form, "genre") then form["genre"] else Single("unknown");
      var isPublic := !("is_public" in form && form["is_public"] == Single("false"));
      Ok(MusicUpload(file.value, form["title"], genre, ParseIntField(form["initial_tempo"]), isPublic))
  }

  /** The upload path does not apply the create schema's tempo bounds: any
      decimal text is handed on as its value. */
  lemma UploadSkipsTempoBounds(file: UploadedFile, title: string, n: nat)
    requires title != ""
    ensures UploadMusic(Some(file), map["title" := Single(title), "initial_tempo" := Single(NatToString(n))]).Ok?
    ensures UploadMusic(Some(file), map["title" := Single(title), "initial_tempo" := Single(NatToString(n))])
      .value.initialTempo == Some(n)
  {
    var text := NatToString(n);
    var form := map["title" := Single(title), "initial_tempo" := Single(text)];
    assert form["title"] == Single(title) && form["initial_tempo"] == Single(text);
    assert TruthyField(form, "title") && TruthyField(form, "initial_tempo");
    assert ParseIntField(form["initial_tempo"]) == Some(n) by {
      ParseIntIgnoresTrailingText(n, []);
      assert text + [] == text;
    }
  }

  /** The create schema refuses the same tempo once it is above 200. */
  lemma CreateRefusesFastTempo(title: string, path: string, n: nat)
    requires n > 200
    ensures CreateMusic(JObj([Field("title", JStr(title)), Field("filepath", JStr(path)),
                              Field("initial_tempo", JNum(n as real))])).Err?
  {
    var fields := [Field("title", JStr(title)), Field("filepath", JStr(path)), Field("initial_tempo", JNum(n as real))];
    assert Lookup(fields, "initial_tempo") == Some(JNum(n as real));
  }

  /** A track uploaded with the tempo text `0` makes the tempo adjustment
      `NaN`. */
  lemma ZeroTempoUploadGivesNaN(file: UploadedFile, title: string, id: int)
    requires title != ""
    ensures UploadMusic(Some(file), map["title" := Single(title), "initial_tempo" := Single("0")]).Ok?
    ensures GetTempoForMood([MusicRow(id, 0)], id, 120.0) == Ok(NotANumber)
  {
    UploadSkipsTempoBounds(file, title, 0);
  }

  // ---- List ----

  /** Where the list comes from. */
  datatype MusicSource = SearchMusic(q: string) | MusicByGenre(genre: string) | AllMusic

  /** The parsed `searchQuerySchema` of a query whose keys each occur once:
      every such value is text, which the schema accepts. */
  datatype MusicQuery = MusicQuery(q: Option<string>, genre: Option<string>, page: JsNum, limit: JsNum)

  function ParseMusicQuery(query: map<string, string>): (r: MusicQuery)
    ensures r.q.Some? <==> "q" in query
    ensures r.q.Some? ==> r.q.value == query["q"]
    ensures r.genre.Some? <==> "genre" in query
    ensures r.genre.Some? ==> r.genre.value == query["genre"]
    ensures r.page == QueryNumber(query, "page", 1.0) && r.limit == QueryNumber(query, "limit", 20.0)
  {
    MusicQuery(
      if "q" in query then Some(query["q"]) else None,
      if "genre" in query then Some(query["genre"]) else None,
      QueryNumber(query, "page", 1.0),
      QueryNumber(query, "limit", 20.0))
  }

  predicate TruthyText(s: Option<string>) {
    s.Some? && s.value != ""
  }

  /** A non-empty `q` wins, then a non-empty `genre`, then everything. */
  function SelectMusicSource(q: Option<string>, genre: Option<string>): (r: MusicSource)
    ensures r.SearchMusic? <==> TruthyText(q)
    ensures r.MusicByGenre? <==> !TruthyText(q) && TruthyText(genre)
    ensures r.AllMusic? <==> !TruthyText(q) && !TruthyText(genre)
    ensures r.SearchMusic? ==> r.q == q.value
    ensures r.MusicByGenre? ==> r.genre == genre.value
  {
    if TruthyText(q) then SearchMusic(q.value)
    else if TruthyText(genre) then MusicByGenre(genre.value)
    else AllMusic
  }

  /** `getMusicList`: the chosen source's rows, paginated. */
  function GetMusicList<T>(query: map<string, string>, fetch: MusicSource -> seq<T>): (r: Page<T>)
    ensures r.total == |fetch(SelectMusicSource(ParseMusicQuery(query).q, ParseMusicQuery(query).genre))|
    ensures |r.items| <= r.total
  {
    var parsed := ParseMusicQuery(query);
    Paginate(fetch(SelectMusicSource(parsed.q, parsed.genre)), parsed.page, parsed.limit)
  }

  /** With a search text, the genre is ignored, and a blank search text
      counts as none. */
  lemma SearchTakesPrecedence<T>(q: string, genre: string, fetch: MusicSource -> seq<T>)
    requires q != ""
    ensures GetMusicList(map["q" := q, "genre" := genre], fetch).total == |fetch(SearchMusic(q))|
    ensures GetMusicList(map["q" := "", "genre" := genre], fetch).total ==
      |fetch(if genre != "" then MusicByGenre(genre) else AllMusic)|
  {
    SearchWins(q, genre, fetch);
    BlankSearchIgnored(genre, fetch);
  }

  lemma SearchWins<T>(q: string, genre: string, fetch: MusicSource -> seq<T>)
    requires q != ""
    ensures GetMusicList(map["q" := q, "genre" := genre], fetch).total == |fetch(SearchMusic(q))|
  {
    var parsed := ParseMusicQuery(map["q" := q, "genre" := genre]);
    assert parsed.q == Some(q) && parsed.genre == Some(genre);
    assert SelectMusicSource(parsed.q, parsed.genre) == SearchMusic(q);
  }

  lemma BlankSearchIgnored<T>(genre: string, fetch: MusicSource -> seq<T>)
    ensures GetMusicList(map["q" := "", "genre" := genre], fetch).total ==
      |fetch(if genre != "" then MusicByGenre(genre) else AllMusic)|
  {
    var parsed := ParseMusicQuery(map["q" := "", "genre" := genre]);
    assert parsed.q == Some("") && parsed.genre == Some(genre);
    assert SelectMusicSource(parsed.q, parsed.genre) == if genre != "" then MusicByGenre(genre) else AllMusic;
  }

  // ---- Single track ----

  /** `parseInt(req.params.id)`, refusing `NaN` with 400. */
  function MusicId(idText: string): (r: Outcome<int>)
    ensures r.Ok? <==> ParseInt(idText).Some?
    ensures r.Ok? ==> r.value == ParseInt(idText).value
    ensures r.Err? ==> r == Fail(400, "Invalid music ID")
  {
    match ParseInt(idText)
    case None => Fail(400, "Invalid music ID")
    case Some(id) => Ok(id)
  }

  /** `getMusic`. */
  function GetMusic(tracks: seq<MusicRow>, idText: string): (r: Outcome<MusicRow>)
    ensures r.Ok? <==> ParseInt(idText).Some? && FindMusic(tracks, ParseInt(idText).value).Some?
    ensures r.Ok? ==> r.value in tracks && r.value.id == ParseInt(idText).value
    ensures ParseInt(idText).Some? && r.Err? ==> r == Fail(404, "Music not found")
  {
    match MusicId(idText)
    case Err(f) => Err(f)
    case Ok(id) =>
      match FindMusic(tracks, id)
      case None => Fail(404, "Music not found")
      case Some(m) => Ok(m)
  }

  /** `updateMusic`: the id is checked before the body, the body before the
      row is looked up. The update itself belongs to the music table, which
      is not part of this model; the result is the id and the accepted
      fields. */
  function UpdateMusic(tracks: seq<MusicRow>, idText: string, body: Json): (r: Outcome<(int, UpdateMusicData)>)
    ensures ParseInt(idText).None? ==> r == Fail(400, "Invalid music ID")
    ensures ParseInt(idText).Some? && ParseUpdateMusic(body).Err? ==> r == Err(SchemaRejected)
    ensures r.Ok? <==>
      ParseInt(idText).Some? && ParseUpdateMusic(body).Ok? && FindMusic(tracks, ParseInt(idText).value).Some?
    ensures r.Ok? ==> r.value == (ParseInt(idText).value, ParseUpdateMusic(body).value)
  {
    match MusicId(idText)
    case Err(f) => Err(f)
    case Ok(id) =>
      match ParseUpdateMusic(body)
      case Err(f) => Err(f)
      case Ok(data) =>
        if FindMusic(tracks, id).None? then Fail(404, "Music not found") else Ok((id, data))
  }

  /** The rows other than those with the id. */
  function WithoutMusic(tracks: seq<MusicRow>, id: int): (r: seq<MusicRow>)
    ensures forall m :: m in r <==> m in tracks && m.id != id
    ensures |r| <= |tracks|
  {
    if tracks == [] then []
    else if tracks[0].id == id then WithoutMusic(tracks[1..], id)
    else [tracks[0]] + WithoutMusic(tracks[1..], id)
  }

  /** The table after a handler ran, and what it answered. */
  datatype Deleted = Deleted(tracks: seq<MusicRow>, outcome: Outcome<()>)

  /** `deleteMusic`. `deleteMusicService` answers 404 for an unknown track,
      removes the row, and then awaits the audit write, whose outcome is
      `auditOk`: when the write fails the row is already gone but the
      answer is the 500 of the error middleware. */
  function DeleteMusic(tracks: seq<MusicRow>, idText: string, auditOk: bool): (r: Deleted)
    ensures ParseInt(idText).None? ==> r == Deleted(tracks, Fail(400, "Invalid music ID"))
    ensures ParseInt(idText).Some? && FindMusic(tracks, ParseInt(idText).value).None? ==>
      r == Deleted(tracks, Fail(404, "Music not found"))
    ensures r.outcome.Ok? <==> ParseInt(idText).Some? && FindMusic(tracks, ParseInt(idText).value).Some? && auditOk
    ensures ParseInt(idText).Some? && FindMusic(tracks, ParseInt(idText).value).Some? ==>
      (!auditOk ==> r.outcome.Err? && r.outcome.failure.Uncaught?) &&
      forall m :: m in r.tracks <==> m in tracks && m.id != ParseInt(idText).value
  {
    match MusicId(idText)
    case Err(f) => Deleted(tracks, Err(f))
    case Ok(id) =>
      if FindMusic(tracks, id).None? then Deleted(tracks, Fail(404, "Music not found"))
      else
        var rest := WithoutMusic(tracks, id);
        if auditOk then Deleted(rest, Ok(())) else Deleted(rest, Err(Uncaught("Error")))
  }

  /** An id with no leading digits is refused with 400 by all three
      single-track handlers, whatever the table and the body hold; an id
      with trailing text is read up to its first non-digit. */
  lemma NonNumericIdRejected(tracks: seq<MusicRow>, idText: string, body: Json, auditOk: bool)
    requires ParseInt(idText).None?
    ensures GetMusic(tracks, idText) == Fail(400, "Invalid music ID")
    ensures UpdateMusic(tracks, idText, body) == Fail(400, "Invalid music ID")
    ensures DeleteMusic(tracks, idText, auditOk).outcome == Fail(400, "Invalid music ID")
  {
  }

  lemma TrailingTextInId(tracks: seq<MusicRow>, n: nat, rest: string)
    requires rest == [] || !IsDigit(rest[0])
    requires n == 0 && rest != [] ==> rest[0] != 'x' && rest[0] != 'X'
    ensures GetMusic(tracks, NatToString(n) + rest).Ok? <==> FindMusic(tracks, n).Some?
  {
    ParseIntIgnoresTrailingText(n, rest);
  }
}
