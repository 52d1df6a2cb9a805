/** The rows of the books table that the handlers read, and the ownership
    query of the book model (`canUserModifyBook`), which the preset and book
    handlers both call. */
module BookTable {
  import opened Common
  import opened RoleAuth
  import opened MoodPreset

  /** The columns of a book row the handlers read; `uploadedAt` is the
      upload time in milliseconds. */
  datatype BookRow = BookRow(id: string, creatorId: int, isPublished: bool, uploadedAt: int)

  function FindBook(books: seq<BookRow>, id: string): (r: Option<BookRow>)
    ensures r.Some? ==> r.value in books && r.value.id == id
    ensures r.None? <==> forall i :: 0 <= i < |books| ==> books[i].id != id
  {
    if books == [] then None
    else if books[0].id == id then Some(books[0])
    else FindBook(books[1..], id)
  }

  /** `canUserModifyBook` (the book model): the book and the user exist, and
      the user created the book or is an admin. */
  function CanUserModifyBook(books: seq<BookRow>, users: seq<UserRow>, bookId: string, userId: int): (r: bool)
    ensures r <==>
      FindBook(books, bookId).Some? && FindUser(users, userId).Some? &&
      (FindBook(books, bookId).value.creatorId == userId || FindUser(users, userId).value.role == Admin)
  {
    var book := FindBook(books, bookId);
    var user := FindUser(users, userId);
    book.Some? && user.Some? && (book.value.creatorId == userId || user.value.role == Admin)
  }

  /** `id` is the primary key of both tables. */
  predicate BookIdsUnique(books: seq<BookRow>) {
    forall i, j :: 0 <= i < j < |books| ==> books[i].id != books[j].id
  }

  predicate UserIdsUnique(users: seq<UserRow>) {
    forall i, j :: 0 <= i < j < |users| ==> users[i].id != users[j].id
  }

  /** Under a primary key the lookup finds the one row with the id. */
  lemma FindBookIsRow(books: seq<BookRow>, b: BookRow)
    requires BookIdsUnique(books) && b in books
    ensures FindBook(books, b.id) == Some(b)
  {
    var j :| 0 <= j < |books| && books[j] == b;
    var r := FindBook(books, b.id);
    assert r.Some?;
    var i :| 0 <= i < |books| && books[i] == r.value;
    if i < j || j < i {
      assert false;
    }
  }

  lemma FindUserIsRow(users: seq<UserRow>, u: UserRow)
    requires UserIdsUnique(users) && u in users
    ensures FindUser(users, u.id) == Some(u)
  {
    var j :| 0 <= j < |users| && users[j] == u;
    var r := FindUser(users, u.id);
    assert r.Some?;
    var i :| 0 <= i < |users| && users[i] == r.value;
    if i < j || j < i {
      assert false;
    }
  }

  /** Who may modify a book, stated on the rows: a stored user may modify a
      stored book iff they created it or are an admin, and nobody may modify
      a book that no row holds or act as a user that no row holds. */
  lemma BookOwnershipCases(books: seq<BookRow>, users: seq<UserRow>, b: BookRow, u: UserRow, bookId: string, userId: int)
    requires BookIdsUnique(books) && UserIdsUnique(users)
    ensures b in books && u in users ==>
      (CanUserModifyBook(books, users, b.id, u.id) <==> b.creatorId == u.id || u.role == Admin)
    ensures (forall x :: x in books ==> x.id != bookId) ==> !CanUserModifyBook(books, users, bookId, userId)
    ensures (forall x :: x in users ==> x.id != userId) ==> !CanUserModifyBook(books, users, bookId, userId)
  {
    if b in books && u in users {
      FindBookIsRow(books, b);
      FindUserIsRow(users, u);
    }
    if (forall x :: x in books ==> x.id != bookId) {
      assert forall i :: 0 <= i < |books| ==> books[i].id != bookId by {
        forall i | 0 <= i < |books| ensures books[i].id != bookId {
          assert books[i] in books;
        }
      }
    }
    if (forall x :: x in users ==> x.id != userId) {
      assert forall i :: 0 <= i < |users| ==> users[i].id != userId by {
        forall i | 0 <= i < |users| ensures users[i].id != userId {
          assert users[i] in users;
        }
      }
    }
  }

  function BookIds(books: seq<BookRow>): set<string> {
    set b | b in books :: b.id
  }
}
