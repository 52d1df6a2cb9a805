/** The book handlers of `server/src/controllers/bookController.ts`: the
    role guard of create and upload, the upload form defaults, the
    published check of a single book, the list's source choice and
    pagination, the ownership guard of update and delete, and the default
    limits of the popular and recent lists. */
module BookController {
  import opened Common
  import opened Text
  import opened RoleAuth
  import opened Schema
  import opened Pagination
  import opened MoodPreset
  import opened BookTable
  import opened Sorting

  const NotAuthenticated := "User not authenticated"
  const CreatorsOnly := "Only creators can upload books"

  /** `if (!req.user) ... if (!['creator', 'admin'].includes(role)) ...`:
      401 without a user, then 403 with `message` unless the user is a
      creator or an admin. */
  function RequireCreatorRole(user: Option<AuthUser>, message: string): (r: Outcome<AuthUser>)
    ensures user.None? <==> r == Fail(401, NotAuthenticated)
    ensures r.Ok? <==> user.Some? && user.value.role in {Creator, Admin}
    ensures user.Some? && user.value.role == Reader ==> r == Fail(403, message)
    ensures r.Ok? ==> r.value == user.value
  {
    if user.None? then Fail(401, NotAuthenticated)
    else if !IsCreatorOrAdmin(user.value.role) then Fail(403, message)
    else Ok(user.value)
  }

  // ---- Create ----

  /** A body accepted by `createBookSchema`, with the creator added. */
  datatype CreateBookData = CreateBookData(
    creatorId: int,
    title: string,
    author: Option<string>,
    description: Option<string>,
    filePath: string,
    fileSize: Option<real>,
    fileType: string,
    coverImageUrl: Option<string>,
    isbn: Option<string>,
    language: Option<string>,
    pageCount: Option<real>,
    wordCount: Option<real>,
    tags: Option<seq<string>>,
    genre: Option<string>)

  /** `createBookSchema.parse(body)`, stamped with the creator's id: the
      body is accepted iff every member passes its own schema, and the
      result holds exactly those members' values. */
  function ParseCreateBook(body: Json, creatorId: int): (r: Outcome<CreateBookData>)
    ensures r.Ok? ==>
      r.value.creatorId == creatorId &&
      1 <= |r.value.title| <= 500 &&
      (r.value.author.Some? ==> |r.value.author.value| <= 300) &&
      (r.value.isbn.Some? ==> |r.value.isbn.value| <= 20) &&
      (r.value.language.Some? ==> |r.value.language.value| <= 10) &&
      (r.value.genre.Some? ==> |r.value.genre.value| <= 100) &&
      (r.value.pageCount.Some? ==> r.value.pageCount.value >= 1.0) &&
      (r.value.wordCount.Some? ==> r.value.wordCount.value >= 1.0) &&
      (r.value.coverImageUrl.Some? ==> IsUrl(r.value.coverImageUrl.value))
    ensures r.Ok? <==>
      RequiredText(body, "title", 1, 500).Ok? && OptionalText(body, "author", 0, 300).Ok? &&
      OptionalString(body, "description").Ok? && RequiredString(body, "file_path").Ok? &&
      OptionalNumber(body, "file_size").Ok? && RequiredString(body, "file_type").Ok? &&
      OptionalUrl(body, "cover_image_url").Ok? && OptionalText(body, "isbn", 0, 20).Ok? &&
      OptionalText(body, "language", 0, 10).Ok? && OptionalNumberAtLeast(body, "page_count", 1.0).Ok? &&
      OptionalNumberAtLeast(body, "word_count", 1.0).Ok? && OptionalStringArray(body, "tags").Ok? &&
      OptionalText(body, "genre", 0, 100).Ok?
    ensures r.Ok? ==> body.JObj?
    ensures r.Ok? ==>
      r.value == CreateBookData(creatorId, RequiredText(body, "title", 1, 500).value,
        OptionalText(body, "author", 0, 300).value, OptionalString(body, "description").value,
        RequiredString(body, "file_path").value, OptionalNumber(body, "file_size").value,
        RequiredString(body, "file_type").value,
        OptionalUrl(body, "cover_image_url").value, OptionalText(body, "isbn", 0, 20).value,
        OptionalText(body, "language", 0, 10).value, OptionalNumberAtLeast(body, "page_count", 1.0).value,
        OptionalNumberAtLeast(body, "word_count", 1.0).value, OptionalStringArray(body, "tags").value,
        OptionalText(body, "genre", 0, 100).value)
    ensures r.Err? ==> r.failure == SchemaRejected
  {
    var title := RequiredText(body, "title", 1, 500);
    var author := OptionalText(body, "author", 0, 300);
    var description := OptionalString(body, "description");
    var filePath := RequiredString(body, "file_path");
    var fileSize := OptionalNumber(body, "file_size");
    var fileType := RequiredString(body, "file_type");
    var cover := OptionalUrl(body, "cover_image_url");
    var isbn := OptionalText(body, "isbn", 0, 20);
    var language := OptionalText(body, "language", 0, 10);
    var pageCount := OptionalNumberAtLeast(body, "page_count", 1.0);
    var wordCount := OptionalNumberAtLeast(body, "word_count", 1.0);
    var tags := OptionalStringArray(body, "tags");
    var genre := OptionalText(body, "genre", 0, 100);
    if title.Err? || author.Err? || description.Err? || filePath.Err? || fileSize.Err? || fileType.Err? ||
       cover.Err? || isbn.Err? || language.Err? || pageCount.Err? || wordCount.Err? || tags.Err? || genre.Err?
    then Err(SchemaRejected)
    else
      Ok(CreateBookData(creatorId, title.value, author.value, description.value, filePath.value, fileSize.value,
        fileType.value, cover.value, isbn.value, language.value, pageCount.value, wordCount.value, tags.value,
        genre.value))
  }

  /** A body with only the three required members parses back to them,
      with every optional member undefined. */
  lemma CreateBookRoundTrip(title: string, path: string, fileType: string, creatorId: int)
    requires 1 <= |title| <= 500
    ensures ParseCreateBook(JObj([Field("title", JStr(title)), Field("file_path", JStr(path)),
                                  Field("file_type", JStr(fileType))]), creatorId) ==
      Ok(CreateBookData(creatorId, title, None, None, path, None, fileType, None, None, None, None, None, None, None))
  {
    var fields := [Field("title", JStr(title)), Field("file_path", JStr(path)), Field("file_type", JStr(fileType))];
    var body := JObj(fields);
    assert Lookup(fields, "title") == Some(JStr(title));
    assert Lookup(fields, "file_path") == Some(JStr(path));
    assert Lookup(fields, "file_type") == Some(JStr(fileType));
    OptionalMembersAbsent(fields);
    assert RequiredText(body, "title", 1, 500) == Ok(title);
    assert RequiredString(body, "file_path") == Ok(path);
    assert RequiredString(body, "file_type") == Ok(fileType);
  }

  /** The optional members of the create schema, none of them present. */
  lemma OptionalMembersAbsent(fields: seq<Field>)
    requires forall i :: 0 <= i < |fields| ==> fields[i].key in {"title", "file_path", "file_type"}
    ensures var body := JObj(fields);
      OptionalText(body, "author", 0, 300) == Ok(None) && OptionalString(body, "description") == Ok(None) &&
      OptionalNumber(body, "file_size") == Ok(None) && OptionalUrl(body, "cover_image_url") == Ok(None) &&
      OptionalText(body, "isbn", 0, 20) == Ok(None) && OptionalText(body, "language", 0, 10) == Ok(None) &&
      OptionalNumberAtLeast(body, "page_count", 1.0) == Ok(None) &&
      OptionalNumberAtLeast(body, "word_count", 1.0) == Ok(None) &&
      OptionalStringArray(body, "tags") == Ok(None) && OptionalText(body, "genre", 0, 100) == Ok(None) &&
      NumberMember(body, "file_size") == None && NumberMember(body, "page_count") == None &&
      NumberMember(body, "word_count") == None
  {
    LookupAbsent(fields, "author");
    LookupAbsent(fields, "description");
    LookupAbsent(fields, "file_size");
    LookupAbsent(fields, "cover_image_url");
    LookupAbsent(fields, "isbn");
    LookupAbsent(fields, "language");
    LookupAbsent(fields, "page_count");
    LookupAbsent(fields, "word_count");
    LookupAbsent(fields, "tags");
    LookupAbsent(fields, "genre");
  }

  /** `createBookRecord`: the role guard, then the schema; the creator is
      always the caller. */
  function CreateBookRecord(user: Option<AuthUser>, body: Json): (r: Outcome<CreateBookData>)
    ensures user.None? ==> r == Fail(401, NotAuthenticated)
    ensures user.Some? && user.value.role == Reader ==> r == Fail(403, CreatorsOnly)
    ensures r.Ok? <==>
      user.Some? && user.value.role != Reader && ParseCreateBook(body, user.value.userId).Ok?
    ensures r.Ok? ==> r.value.creatorId == user.value.userId
  {
    match RequireCreatorRole(user, CreatorsOnly)
    case Err(f) => Err(f)
    case Ok(u) => ParseCreateBook(body, u.userId)
  }

  // ---- Upload ----

  /** What `uploadBook` hands to `createBook`. A count is `None` when the
      field is missing or blank, and `Some(None)` when `parseInt` gives
      `NaN`. */
  datatype BookUpload = BookUpload(
    creatorId: int,
    title: FormValue,
    author: Option<FormValue>,
    description: Option<FormValue>,
    filePath: string,
    fileSize: nat,
    fileType: string,
    isbn: Option<FormValue>,
    language: FormValue,
    pageCount: Option<Option<int>>,
    wordCount: Option<Option<int>>,
    tags: Json,
    genre: Option<FormValue>)

  function FormField(form: map<string, FormValue>, key: string): (r: Option<FormValue>)
    ensures r.Some? <==> key in form
    ensures r.Some? ==> r.value == form[key]
  {
    if key in form then Some(form[key]) else None
  }

  /** `value ? parseInt(value) : undefined`. */
  function CountField(form: map<string, FormValue>, key: string): (r: Option<Option<int>>)
    ensures r.Some? <==> TruthyField(form, key)
    ensures r.Some? ==> r.value == ParseIntField(form[key])
  {
    if TruthyField(form, key) then Some(ParseIntField(form[key])) else None
  }

  function StringsToJson(items: seq<string>): (r: seq<Json>)
    ensures |r| == |items| && forall i :: 0 <= i < |items| ==> r[i] == JStr(items[i])
  {
    if items == [] then [] else [JStr(items[0])] + StringsToJson(items[1..])
  }

  /** `tags ? (Array.isArray(tags) ? tags : JSON.parse(tags)) : []`, where
      `parseJson` is `JSON.parse` and `None` means it throws. */
  function UploadTags(form: map<string, FormValue>, parseJson: string -> Option<Json>): (r: Outcome<Json>)
    ensures !TruthyField(form, "tags") ==> r == Ok(JArr([]))
    ensures TruthyField(form, "tags") && form["tags"].Repeated? ==> r == Ok(JArr(StringsToJson(form["tags"].texts)))
    ensures TruthyField(form, "tags") && form["tags"].Single? ==>
      r == match parseJson(form["tags"].text) case Some(j) => Ok(j) case None => Err(Uncaught("SyntaxError"))
  {
    if !TruthyField(form, "tags") then Ok(JArr([]))
    else
      match form["tags"]
      case Repeated(items) => Ok(JArr(StringsToJson(items)))
      case Single(text) =>
        match parseJson(text)
        case Some(j) => Ok(j)
        case None => Err(Uncaught("SyntaxError"))
  }

  /** `uploadBook`: the role guard, then a file, then a title; the
      language defaults to `en`. */
  function UploadBook(user: Option<AuthUser>, file: Option<UploadedFile>, form: map<string, FormValue>,
                      parseJson: string -> Option<Json>): (r: Outcome<BookUpload>)
    ensures user.None? ==> r == Fail(401, NotAuthenticated)
    ensures user.Some? && user.value.role == Reader ==> r == Fail(403, CreatorsOnly)
    ensures user.Some? && user.value.role != Reader && file.None? ==> r == Fail(400, "No file uploaded")
    ensures user.Some? && user.value.role != Reader && file.Some? && !TruthyField(form, "title") ==>
      r == Fail(400, "Title is required")
    ensures r.Ok? <==>
      user.Some? && user.value.role != Reader && file.Some? && TruthyField(form, "title") &&
      UploadTags(form, parseJson).Ok?
    ensures r.Ok? ==>
      r.value.creatorId == user.value.userId &&
      r.value.filePath == file.value.path && r.value.fileSize == file.value.size &&
      r.value.fileType == file.value.mimetype &&
      r.value.title == form["title"] &&
      r.value.author == FormField(form, "author") && r.value.description == FormField(form, "description") &&
      r.value.isbn == FormField(form, "isbn") && r.value.genre == FormField(form, "genre") &&
      (r.value.language == if TruthyField(form, "language") then form["language"] else Single("en")) &&
      r.value.pageCount == CountField(form, "page_count") &&
      r.value.wordCount == CountField(form, "word_count") &&
      r.value.tags == UploadTags(form, parseJson).value
  {
    match RequireCreatorRole(user, CreatorsOnly)
    case Err(f) => Err(f)
    case Ok(u) =>
      if file.None? then Fail(400, "No file uploaded")
      else if !TruthyField(form, "title") then Fail(400, "Title is required")
      else
        match UploadTags(form, parseJson)
        case Err(f) => Err(f)
        case Ok(tags) =>
          var language := if TruthyField(form, "language") then form["language"] else Single("en");
          Ok(BookUpload(u.userId, form["title"], FormField(form, "author"), FormField(form, "description"),
            file.value.path, file.value.size, file.value.mimetype, FormField(form, "isbn"), language,
            CountField(form, "page_count"), CountField(form, "word_count"), tags, FormField(form, "genre")))
  }

  /** A blank language is replaced like a missing one, and a missing or
      blank tags field stores an empty list. */
  lemma UploadDefaults(u: AuthUser, file: UploadedFile, title: string, parseJson: string -> Option<Json>)
    requires u.role != Reader && title != ""
    ensures UploadBook(Some(u), Some(file), map["title" := Single(title), "language" := Single("")], parseJson).Ok?
    ensures UploadBook(Some(u), Some(file), map["title" := Single(title), "language" := Single("")], parseJson)
      .value.language == Single("en")
    ensures UploadBook(Some(u), Some(file), map["title" := Single(title), "tags" := Single("")], parseJson)
      .value.tags == JArr([])
  {
  }

  // ---- Single book ----

  /** `getBook`: a missing id is 400; a missing book and an unpublished one
      are both 404. */
  function GetBook(books: seq<BookRow>, bookId: string): (r: Outcome<BookRow>)
    ensures bookId == "" <==> r == Fail(400, "Book ID is required")
    ensures r.Ok? <==> bookId != "" && FindBook(books, bookId).Some? && FindBook(books, bookId).value.isPublished
    ensures r.Ok? ==> r.value in books && r.value.id == bookId && r.value.isPublished
    ensures bookId != "" && r.Err? ==> r.failure.Http? && r.failure.status == 404
  {
    if bookId == "" then Fail(400, "Book ID is required")
    else
      match FindBook(books, bookId)
      case None => Fail(404, "Book not found")
      case Some(book) => if !book.isPublished then Fail(404, "Book not available") else Ok(book)
  }

  /** An unpublished book answers like a missing one, with status 404;
      only the message tells them apart. */
  lemma UnpublishedLooksMissing(books: seq<BookRow>, book: BookRow)
    requires book.id != "" && FindBook(books, book.id) == Some(book) && !book.isPublished
    ensures GetBook(books, book.id) == Fail(404, "Book not available")
    ensures GetBook(books, book.id).failure.status == GetBook([], book.id).failure.status
  {
  }

  // ---- List ----

  /** Where the list comes from. */
  datatype BookSource = SearchBooks(q: string) | BooksByGenre(genre: string) | BooksByTag(tag: string) | AllPublished

  /** The parsed `searchQuerySchema` of a query whose keys each occur once:
      every such value is text, which the schema accepts. */
  datatype BookQuery = BookQuery(q: Option<string>, genre: Option<string>, tag: Option<string>, page: JsNum, limit: JsNum)

  function QueryText(query: map<string, string>, key: string): (r: Option<string>)
    ensures r.Some? <==> key in query
    ensures r.Some? ==> r.value == query[key]
  {
    if key in query then Some(query[key]) else None
  }

  function ParseBookQuery(query: map<string, string>): (r: BookQuery)
    ensures r.q == QueryText(query, "q") && r.genre == QueryText(query, "genre") && r.tag == QueryText(query, "tag")
    ensures r.page == QueryNumber(query, "page", 1.0) && r.limit == QueryNumber(query, "limit", 20.0)
  {
    BookQuery(QueryText(query, "q"), QueryText(query, "genre"), QueryText(query, "tag"),
      QueryNumber(query, "page", 1.0), QueryNumber(query, "limit", 20.0))
  }

  predicate TruthyText(s: Option<string>) {
    s.Some? && s.value != ""
  }

  /** A non-empty `q` wins, then a non-empty `genre`, then a non-empty
      `tag`, then all published books. */
  function SelectBookSource(q: Option<string>, genre: Option<string>, tag: Option<string>): (r: BookSource)
    ensures r.SearchBooks? <==> TruthyText(q)
    ensures r.BooksByGenre? <==> !TruthyText(q) && TruthyText(genre)
    ensures r.BooksByTag? <==> !TruthyText(q) && !TruthyText(genre) && TruthyText(tag)
    ensures r.AllPublished? <==> !TruthyText(q) && !TruthyText(genre) && !TruthyText(tag)
    ensures r.SearchBooks? ==> r.q == q.value
    ensures r.BooksByGenre? ==> r.genre == genre.value
    ensures r.BooksByTag? ==> r.tag == tag.value
  {
    if TruthyText(q) then SearchBooks(q.value)
    else if TruthyText(genre) then BooksByGenre(genre.value)
    else if TruthyText(tag) then BooksByTag(tag.value)
    else AllPublished
  }

  /** `getBooks`: the chosen source's rows, paginated. `fetch` stands for
      the book model's queries. */
  function GetBooks<T>(query: map<string, string>, fetch: BookSource -> seq<T>): (r: Page<T>)
    ensures r.total == |fetch(SelectBookSource(QueryText(query, "q"), QueryText(query, "genre"), QueryText(query, "tag")))|
    ensures |r.items| <= r.total
  {
    var parsed := ParseBookQuery(query);
    Paginate(fetch(SelectBookSource(parsed.q, parsed.genre, parsed.tag)), parsed.page, parsed.limit)
  }

  /** A query with only `tag` and `page=2` lists items 20 to 39 of the
      books with that tag. */
  lemma SecondPageOfTag<T>(tag: string, fetch: BookSource -> seq<T>)
    requires tag != ""
    ensures GetBooks(map["tag" := tag, "page" := "2"], fetch).items == Window(fetch(BooksByTag(tag)), 2, 20)
  {
    var query := map["tag" := tag, "page" := "2"];
    assert "q" !in query && "genre" !in query && "limit" !in query;
    assert SelectBookSource(QueryText(query, "q"), QueryText(query, "genre"), QueryText(query, "tag")) == BooksByTag(tag);
    NumberOfNatText(2);
    assert NatToString(2) == "2";
    assert ParseBookQuery(query).page == Num(2 as real);
    assert ParseBookQuery(query).limit == Num(20 as real);
    WholePage(fetch(BooksByTag(tag)), 2, 20);
  }

  // ---- Creator's books ----

  /** `getCreatorBooks`: the caller's own books, published or not. */
  function GetCreatorBooks(books: seq<BookRow>, user: Option<AuthUser>): (r: Outcome<seq<BookRow>>)
    ensures user.None? ==> r == Fail(401, NotAuthenticated)
    ensures user.Some? && user.value.role == Reader ==> r == Fail(403, "Only creators can view their book management")
    ensures r.Ok? <==> user.Some? && user.value.role != Reader
    ensures r.Ok? ==> forall b :: b in r.value <==> b in books && b.creatorId == user.value.userId
    ensures r.Ok? ==> SortedBy(r.value, NewestUploadFirst)
  {
    match RequireCreatorRole(user, "Only creators can view their book management")
    case Err(f) => Err(f)
    case Ok(u) => Ok(BooksOf(books, u.userId))
  }

  /** The creator's rows, in table order. */
  function OfCreator(books: seq<BookRow>, creatorId: int): (r: seq<BookRow>)
    ensures forall b :: b in r <==> b in books && b.creatorId == creatorId
  {
    if books == [] then []
    else if books[0].creatorId == creatorId then [books[0]] + OfCreator(books[1..], creatorId)
    else OfCreator(books[1..], creatorId)
  }

  /** `ORDER BY uploaded_at DESC`. */
  function NewestUploadFirst(b: BookRow): SortKey { Key(-(b.uploadedAt as real), 0.0) }

  /** `findBooksByCreator`: exactly the creator's books, newest upload
      first. */
  function BooksOf(books: seq<BookRow>, creatorId: int): (r: seq<BookRow>)
    ensures SortedBy(r, NewestUploadFirst)
    ensures multiset(r) == multiset(OfCreator(books, creatorId))
    ensures forall b :: b in r <==> b in books && b.creatorId == creatorId
  {
    var r := SortBy(OfCreator(books, creatorId), NewestUploadFirst);
    assert forall b :: b in r <==> b in OfCreator(books, creatorId) by {
      forall b ensures b in r <==> b in OfCreator(books, creatorId) {
        SortByMembers(OfCreator(books, creatorId), NewestUploadFirst, b);
      }
    }
    r
  }

  // ---- Update and delete ----

  /** A body accepted by `updateBookSchema`: every field optional. */
  datatype UpdateBookData = UpdateBookData(
    title: Option<string>,
    author: Option<string>,
    description: Option<string>,
    coverImageUrl: Option<string>,
    isbn: Option<string>,
    language: Option<string>,
    pageCount: Option<real>,
    wordCount: Option<real>,
    isPublished: Option<bool>,
    tags: Option<seq<string>>,
    genre: Option<string>)

  /** `updateBookSchema.parse(body)`: a non-object is refused; an object
      is accepted iff every present member passes its own schema, and the
      result holds exactly those members' values. */
  function ParseUpdateBook(body: Json): (r: Outcome<UpdateBookData>)
    ensures r.Ok? ==>
      (r.value.title.Some? ==> 1 <= |r.value.title.value| <= 500) &&
      (r.value.pageCount.Some? ==> r.value.pageCount.value >= 1.0) &&
      (r.value.isPublished.Some? <==> Member(body, "is_published").Some?)
    ensures r.Ok? <==>
      body.JObj? &&
      OptionalText(body, "title", 1, 500).Ok? && OptionalText(body, "author", 0, 300).Ok? &&
      OptionalString(body, "description").Ok? && OptionalUrl(body, "cover_image_url").Ok? &&
      OptionalText(body, "isbn", 0, 20).Ok? && OptionalText(body, "language", 0, 10).Ok? &&
      OptionalNumberAtLeast(body, "page_count", 1.0).Ok? && OptionalNumberAtLeast(body, "word_count", 1.0).Ok? &&
      OptionalBool(body, "is_published").Ok? && OptionalStringArray(body, "tags").Ok? &&
      OptionalText(body, "genre", 0, 100).Ok?
    ensures r.Ok? ==>
      r.value == UpdateBookData(OptionalText(body, "title", 1, 500).value, OptionalText(body, "author", 0, 300).value,
        OptionalString(body, "description").value, OptionalUrl(body, "cover_image_url").value,
        OptionalText(body, "isbn", 0, 20).value, OptionalText(body, "language", 0, 10).value,
        NumberMember(body, "page_count"), NumberMember(body, "word_count"), BoolMember(body, "is_published"),
        OptionalStringArray(body, "tags").value, OptionalText(body, "genre", 0, 100).value)
    ensures r.Err? ==> r.failure == SchemaRejected
  {
    if !body.JObj? then Err(SchemaRejected)
    else
      var title := OptionalText(body, "title", 1, 500);
      var author := OptionalText(body, "author", 0, 300);
      var description := OptionalString(body, "description");
      var cover := OptionalUrl(body, "cover_image_url");
      var isbn := OptionalText(body, "isbn", 0, 20);
      var language := OptionalText(body, "language", 0, 10);
      var pageCount := OptionalNumberAtLeast(body, "page_count", 1.0);
      var wordCount := OptionalNumberAtLeast(body, "word_count", 1.0);
      var published := OptionalBool(body, "is_published");
      var tags := OptionalStringArray(body, "tags");
      var genre := OptionalText(body, "genre", 0, 100);
      if title.Err? || author.Err? || description.Err? || cover.Err? || isbn.Err? || language.Err? ||
         pageCount.Err? || wordCount.Err? || published.Err? || tags.Err? || genre.Err?
      then Err(SchemaRejected)
      else
        Ok(UpdateBookData(title.value, author.value, description.value, cover.value, isbn.value, language.value,
          pageCount.value, wordCount.value, published.value, tags.value, genre.value))
  }

  /** The guards shared by update and delete: 401, then a missing id 400,
      then ownership 403 with `message`. */
  function RequireBookOwner(books: seq<BookRow>, users: seq<UserRow>, user: Option<AuthUser>, bookId: string,
                            message: string): (r: Outcome<()>)
    ensures user.None? <==> r == Fail(401, NotAuthenticated)
    ensures user.Some? && bookId == "" ==> r == Fail(400, "Book ID is required")
    ensures r.Ok? <==> user.Some? && bookId != "" && CanUserModifyBook(books, users, bookId, user.value.userId)
    ensures r.Err? && user.Some? && bookId != "" ==> r == Fail(403, message)
  {
    if user.None? then Fail(401, NotAuthenticated)
    else if bookId == "" then Fail(400, "Book ID is required")
    else if !CanUserModifyBook(books, users, bookId, user.value.userId) then Fail(403, message)
    else Ok(())
  }

  /** `updateBookRecord`: the guards, then the schema. The row update
      belongs to the book model, which is not part of this model; the
      result is the id and the accepted fields. */
  function UpdateBookRecord(books: seq<BookRow>, users: seq<UserRow>, user: Option<AuthUser>, bookId: string,
                            body: Json): (r: Outcome<(string, UpdateBookData)>)
    ensures RequireBookOwner(books, users, user, bookId, "You can only modify your own books").Err? ==>
      r == Err(RequireBookOwner(books, users, user, bookId, "You can only modify your own books").failure)
    ensures (RequireBookOwner(books, users, user, bookId, "You can only modify your own books").Ok? &&
             ParseUpdateBook(body).Err?) ==> r == Err(SchemaRejected)
    ensures r.Ok? <==>
      RequireBookOwner(books, users, user, bookId, "You can only modify your own books").Ok? &&
      ParseUpdateBook(body).Ok?
    ensures r.Ok? ==> r.value == (bookId, ParseUpdateBook(body).value)
  {
    match RequireBookOwner(books, users, user, bookId, "You can only modify your own books")
    case Err(f) => Err(f)
    case Ok(_) =>
      match ParseUpdateBook(body)
      case Err(f) => Err(f)
      case Ok(data) => if FindBook(books, bookId).None? then Fail(404, "Book not found") else Ok((bookId, data))
  }

  /** An update that only publishes or unpublishes parses to exactly that;
      a body that is not an object is refused once the guards pass. */
  lemma UpdateBookBodies(books: seq<BookRow>, users: seq<UserRow>, user: AuthUser, bookId: string,
                         published: bool, items: seq<Json>)
    requires RequireBookOwner(books, users, Some(user), bookId, "You can only modify your own books").Ok?
    ensures ParseUpdateBook(JObj([Field("is_published", JBool(published))])) ==
      Ok(UpdateBookData(None, None, None, None, None, None, None, None, Some(published), None, None))
    ensures UpdateBookRecord(books, users, Some(user), bookId, JArr(items)) == Err(SchemaRejected)
  {
    var fields := [Field("is_published", JBool(published))];
    assert Lookup(fields, "is_published") == Some(JBool(published));
    LookupAbsent(fields, "title");
    LookupAbsent(fields, "author");
    LookupAbsent(fields, "description");
    LookupAbsent(fields, "cover_image_url");
    LookupAbsent(fields, "isbn");
    LookupAbsent(fields, "language");
    LookupAbsent(fields, "page_count");
    LookupAbsent(fields, "word_count");
    LookupAbsent(fields, "tags");
    LookupAbsent(fields, "genre");
  }

  function WithoutBook(books: seq<BookRow>, id: string): (r: seq<BookRow>)
    ensures forall b :: b in r <==> b in books && b.id != id
  {
    if books == [] then []
    else if books[0].id == id then WithoutBook(books[1..], id)
    else [books[0]] + WithoutBook(books[1..], id)
  }

  /** `deleteBookRecord`: the guards, then the delete; the remaining
      rows. */
  function DeleteBookRecord(books: seq<BookRow>, users: seq<UserRow>, user: Option<AuthUser>, bookId: string)
    : (r: Outcome<seq<BookRow>>)
    ensures user.None? ==> r == Fail(401, NotAuthenticated)
    ensures r.Ok? <==> RequireBookOwner(books, users, user, bookId, "You can only delete your own books").Ok?
    ensures r.Ok? ==> forall b :: b in r.value <==> b in books && b.id != bookId
  {
    match RequireBookOwner(books, users, user, bookId, "You can only delete your own books")
    case Err(f) => Err(f)
    case Ok(_) => if FindBook(books, bookId).None? then Fail(404, "Book not found") else Ok(WithoutBook(books, bookId))
  }

  /** Ownership is false for an unknown book, so update and delete of a
      book that does not exist answer 403, never 404. */
  lemma UnknownBookIsForbidden(books: seq<BookRow>, users: seq<UserRow>, u: AuthUser, bookId: string, body: Json)
    requires bookId != "" && FindBook(books, bookId).None?
    ensures UpdateBookRecord(books, users, Some(u), bookId, body) == Fail(403, "You can only modify your own books")
    ensures DeleteBookRecord(books, users, Some(u), bookId) == Fail(403, "You can only delete your own books")
  {
  }

  // ---- Popular and recent ----

  /** `parseInt(req.query.limit) || fallback`: a missing limit is
      `parseInt(undefined)`, which is `NaN`; `NaN` and 0 both give the
      fallback. */
  function LimitOrDefault(query: map<string, string>, fallback: int): (r: int)
    ensures "limit" !in query ==> r == fallback
    ensures "limit" in query && ParseInt(query["limit"]).Some? && ParseInt(query["limit"]).value != 0 ==>
      r == ParseInt(query["limit"]).value
    ensures "limit" in query && (ParseInt(query["limit"]).None? || ParseInt(query["limit"]) == Some(0)) ==>
      r == fallback
  {
    if "limit" !in query then fallback
    else
      match ParseInt(query["limit"])
      case None => fallback
      case Some(n) => if n == 0 then fallback else n
  }

  /** `getPopular`: the limit, 10 by default. */
  function PopularLimit(query: map<string, string>): (r: int)
    ensures r != 0
    ensures "limit" !in query ==> r == 10
  {
    LimitOrDefault(query, 10)
  }

  /** `getRecent`: the limit, 20 by default. */
  function RecentLimit(query: map<string, string>): (r: int)
    ensures r != 0
    ensures "limit" !in query ==> r == 20
  {
    LimitOrDefault(query, 20)
  }

  /** `limit=0` and a limit without digits give the default, and a limit
      with trailing text is read up to its first non-digit. */
  lemma LimitExamples(n: nat)
    requires n != 0
    ensures PopularLimit(map["limit" := "0"]) == 10
    ensures RecentLimit(map["limit" := "none"]) == 20
    ensures PopularLimit(map["limit" := NatToString(n) + "items"]) == n
  {
    assert PopularLimit(map["limit" := "0"]) == 10 by {
      ParseIntRoundTrip(0);
      assert IntToString(0) == "0";
    }
    assert RecentLimit(map["limit" := "none"]) == 20 by {
      ParseIntRejectsLetters("none");
    }
    assert PopularLimit(map["limit" := NatToString(n) + "items"]) == n by {
      ParseIntIgnoresTrailingText(n, "items");
    }
  }
}
