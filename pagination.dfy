/** The list pagination shared by the book and music list handlers
    (`server/src/controllers/bookController.ts` and
    `server/src/controllers/musicController.ts`): the query's `page` and
    `limit` strings go through JavaScript's `Number`, the window starts at
    `(page - 1) * limit`, ends `limit` later, and is cut out with
    `Array.prototype.slice`; `hasMore` compares the window's end with the
    full length. */
module Pagination {
  import opened Common
  import opened Text

  /** A JavaScript number as far as the query strings can produce one: a
      finite decimal value, or `NaN`. */
  datatype JsNum = Num(v: real) | NaN

  function Pow10(k: nat): (r: nat)
    ensures r >= 1
  {
    if k == 0 then 1 else 10 * Pow10(k - 1)
  }

  function TrimEnd(s: string): (r: string)
    ensures |r| <= |s| && r == s[..|r|]
    ensures r == [] || !IsSpace(r[|r| - 1])
    ensures forall i :: |r| <= i < |s| ==> IsSpace(s[i])
  {
    if s != [] && IsSpace(s[|s| - 1]) then TrimEnd(s[..|s| - 1]) else s
  }

  /** `s.trim()`, for the white space `Number` skips. */
  function Trim(s: string): (r: string)
    ensures r == [] || (!IsSpace(r[0]) && !IsSpace(r[|r| - 1]))
    ensures |r| <= |s|
    ensures (forall i :: 0 <= i < |s| ==> IsSpace(s[i])) ==> r == []
  {
    var t := TrimStart(s);
    var r := TrimEnd(t);
    assert r != [] ==> r[0] == t[0] && t[0] == s[|s| - |t|];
    r
  }

  /** The value of the digits `whole` followed by a point and the digits
      `frac`. */
  function DecimalValue(whole: string, frac: string): (r: real)
    requires AllDigits(whole) && AllDigits(frac)
    ensures r >= DigitsValue(whole, 10) as real
  {
    DigitsValue(whole, 10) as real + DigitsValue(frac, 10) as real / Pow10(|frac|) as real
  }

  /** The value of unsigned decimal text: digits, optionally a point and
      more digits, with at least one digit in all. */
  function UnsignedDecimal(u: string): (r: Option<real>)
    ensures r.Some? ==> r.value >= 0.0
  {
    var whole := DigitPrefix(u, false);
    var rest := u[|whole|..];
    if rest == [] then
      if whole == [] then None else Some(DigitsValue(whole, 10) as real)
    else if rest[0] == '.' && AllDigits(rest[1..]) && (whole != [] || |rest| > 1) then
      var frac := rest[1..];
      Some(DecimalValue(whole, frac))
    else None
  }

  /** `Number(s)` on a query string: surrounding white space is ignored,
      blank text is 0, a sign may precede decimal text, and anything else is
      `NaN`. */
  function NumberOf(s: string): (r: JsNum)
    ensures Trim(s) == [] ==> r == Num(0.0)
  {
    var t := Trim(s);
    if t == [] then Num(0.0)
    else
      var u := if t[0] == '-' || t[0] == '+' then t[1..] else t;
      match UnsignedDecimal(u)
      case None => NaN
      case Some(v) => Num(if t[0] == '-' then -v else v)
  }

  lemma UnsignedDecimalOfDigits(u: string)
    requires AllDigits(u) && u != []
    ensures UnsignedDecimal(u) == Some(DigitsValue(u, 10) as real)
  {
    AllDigitsPrefix(u);
    assert u[|u|..] == [];
  }

  lemma TrimOfDigits(s: string)
    requires AllDigits(s) && s != []
    ensures Trim(s) == s
  {
    assert TrimStart(s) == s;
    assert !IsSpace(s[|s| - 1]);
  }

  /** The decimal text of a natural number is read back as that number. */
  lemma NumberOfNatText(n: nat)
    ensures NumberOf(NatToString(n)) == Num(n as real)
  {
    var s := NatToString(n);
    TrimOfDigits(s);
    assert s[0] != '-' && s[0] != '+';
    UnsignedDecimalOfDigits(s);
    DecimalRoundTrip(n);
  }

  lemma TrimKeepsLeadingLetter(s: string)
    requires s != [] && 'a' <= s[0] <= 'z'
    ensures Trim(s) != [] && Trim(s)[0] == s[0]
  {
    assert TrimStart(s) == s;
    assert !IsSpace(s[0]);
  }

  lemma LeadingLetterIsNotDecimal(t: string)
    requires t != [] && 'a' <= t[0] <= 'z'
    ensures UnsignedDecimal(t) == None
  {
    assert DigitPrefix(t, false) == [];
    assert t[0..] == t;
  }

  /** Text that does not start with a sign, a point or a digit is `NaN`. */
  lemma NumberOfWordIsNaN(s: string)
    requires s != [] && 'a' <= s[0] <= 'z'
    ensures NumberOf(s) == NaN
  {
    TrimKeepsLeadingLetter(s);
    LeadingLetterIsNotDecimal(Trim(s));
  }

  /** A `page` or `limit` query parameter: `Number` of its text, or the
      default when the parameter is absent. */
  function QueryNumber(query: map<string, string>, key: string, default: real): (r: JsNum)
    ensures key !in query ==> r == Num(default)
    ensures key in query ==> r == NumberOf(query[key])
  {
    if key in query then NumberOf(query[key]) else Num(default)
  }

  function Sub(a: JsNum, b: real): JsNum {
    if a.Num? then Num(a.v - b) else NaN
  }

  function Mul(a: JsNum, b: JsNum): JsNum {
    if a.Num? && b.Num? then Num(a.v * b.v) else NaN
  }

  function Add(a: JsNum, b: JsNum): JsNum {
    if a.Num? && b.Num? then Num(a.v + b.v) else NaN
  }

  /** `a < b` for a number `b`: false whenever `a` is `NaN`. */
  predicate LessThan(a: JsNum, b: real) {
    a.Num? && a.v < b
  }

  /** Truncation toward zero, as `slice` applies to a fractional index. */
  function Trunc(x: real): (r: int)
    ensures x >= 0.0 ==> r as real <= x < r as real + 1.0
    ensures x < 0.0 ==> r as real - 1.0 < x <= r as real
  {
    if x >= 0.0 then x.Floor else -((-x).Floor)
  }

  lemma TruncOfInt(n: int)
    ensures Trunc(n as real) == n
  {
  }

  /** The position an index argument of `slice` denotes in a sequence of
      length `len`: `NaN` is 0, a negative index counts back from the end,
      and either is clamped to `[0, len]`. */
  function SliceIndex(x: JsNum, len: nat): (r: nat)
    ensures r <= len
    ensures x.Num? && Trunc(x.v) >= 0 ==> r == if Trunc(x.v) < len then Trunc(x.v) else len
    ensures x.Num? && Trunc(x.v) < 0 ==> r == if len + Trunc(x.v) < 0 then 0 else len + Trunc(x.v)
    ensures x.NaN? ==> r == 0
  {
    var i := if x.Num? then Trunc(x.v) else 0;
    if i < 0 then (if len + i < 0 then 0 else len + i)
    else if i < len then i else len
  }

  /** A whole-number index: non-negative ones are clamped to the length,
      negative ones count back from the end. */
  lemma SliceIndexOfInt(i: int, len: nat)
    ensures i >= 0 ==> SliceIndex(Num(i as real), len) == Min(i, len)
    ensures i < 0 ==> SliceIndex(Num(i as real), len) == if len + i < 0 then 0 else len + i
  {
    TruncOfInt(i);
  }

  /** `s.slice(start, end)`: the elements from the start position up to,
      not including, the end position; empty when the end comes first. */
  function Slice<T>(s: seq<T>, start: JsNum, end: JsNum): (r: seq<T>)
    ensures |r| <= |s|
    ensures SliceIndex(start, |s|) <= SliceIndex(end, |s|) ==>
      r == s[SliceIndex(start, |s|)..SliceIndex(end, |s|)]
    ensures SliceIndex(end, |s|) < SliceIndex(start, |s|) ==> r == []
  {
    var from := SliceIndex(start, |s|);
    var to := SliceIndex(end, |s|);
    if from <= to then s[from..to] else []
  }

  /** One page of a list, with the `pagination` object of the response. */
  datatype Page<T> = Page(items: seq<T>, page: JsNum, limit: JsNum, total: nat, hasMore: bool)

  function StartIndex(page: JsNum, limit: JsNum): JsNum {
    Mul(Sub(page, 1.0), limit)
  }

  function EndIndex(page: JsNum, limit: JsNum): JsNum {
    Add(StartIndex(page, limit), limit)
  }

  /** The page a list handler answers with. */
  function Paginate<T>(all: seq<T>, page: JsNum, limit: JsNum): (r: Page<T>)
    ensures r.total == |all| && r.page == page && r.limit == limit
    ensures |r.items| <= |all|
    ensures page.NaN? || limit.NaN? ==> r.items == [] && !r.hasMore
  {
    var start := StartIndex(page, limit);
    var end := EndIndex(page, limit);
    var hasMore := LessThan(end, |all| as real);
    assert hasMore ==> end.v < |all| as real;
    Page(Slice(all, start, end), page, limit, |all|, hasMore)
  }

  function Min(a: int, b: int): (r: int)
    ensures r <= a && r <= b && (r == a || r == b)
  {
    if a <= b then a else b
  }

  lemma WindowBounds(page: nat, limit: nat, n: nat)
    requires page >= 1
    ensures 0 <= Min((page - 1) * limit, n) <= Min(page * limit, n) <= n
  {
    assert page * limit == (page - 1) * limit + limit;
  }

  /** Items `(page - 1) * limit` up to `page * limit` of the list, as far
      as it goes. */
  function Window<T>(all: seq<T>, page: nat, limit: nat): (r: seq<T>)
    requires page >= 1
    ensures |r| <= limit
  {
    WindowBounds(page, limit, |all|);
    assert page * limit == (page - 1) * limit + limit;
    all[Min((page - 1) * limit, |all|)..Min(page * limit, |all|)]
  }

  /** The start and end index of a page with whole numbers. */
  lemma WholeIndices(page: nat, limit: nat)
    requires page >= 1
    ensures StartIndex(Num(page as real), Num(limit as real)) == Num(((page - 1) * limit) as real)
    ensures EndIndex(Num(page as real), Num(limit as real)) == Num((page * limit) as real)
  {
    assert (page - 1) * limit + limit == page * limit;
    assert (page as real - 1.0) * (limit as real) == ((page - 1) * limit) as real;
  }

  /** With a whole page number from 1 and a whole limit, the page is the
      window of the list from `(page - 1) * limit` to `page * limit`, cut at
      its end, so it never holds more than `limit` items; and there is more
      exactly when the window ends before the list does. */
  lemma WholePage<T>(all: seq<T>, page: nat, limit: nat)
    requires page >= 1
    ensures Paginate(all, Num(page as real), Num(limit as real)).items == Window(all, page, limit)
    ensures |Paginate(all, Num(page as real), Num(limit as real)).items| <= limit
    ensures Paginate(all, Num(page as real), Num(limit as real)).hasMore <==> page * limit < |all|
  {
    WholeIndices(page, limit);
    WindowBounds(page, limit, |all|);
    var s := (page - 1) * limit;
    TruncOfInt(s);
    TruncOfInt(page * limit);
    var n := |all|;
    assert SliceIndex(Num(s as real), n) == Min(s, n);
    assert SliceIndex(Num((page * limit) as real), n) == Min(page * limit, n);
  }

  /** Page 0 is empty for any whole limit: its window ends at index 0. */
  lemma PageZeroIsEmpty<T>(all: seq<T>, limit: nat)
    ensures Paginate(all, Num(0.0), Num(limit as real)).items == []
    ensures Paginate(all, Num(0.0), Num(limit as real)).hasMore <==> all != []
  {
    var start := StartIndex(Num(0.0), Num(limit as real));
    var m: int := limit;
    assert start == Num((0 - m) as real);
    TruncOfInt(0 - m);
    var end := EndIndex(Num(0.0), Num(limit as real));
    assert end == Num(0.0);
  }

  /** Page -1 counts back from the end: with at least two pages' worth of
      items it is the next-to-last window of `limit` items. */
  lemma PageMinusOneCountsFromEnd<T>(all: seq<T>, limit: nat)
    requires 2 * limit <= |all|
    ensures Paginate(all, Num(-1.0), Num(limit as real)).items == all[|all| - 2 * limit..|all| - limit]
  {
    var n := |all|;
    var m: int := limit;
    var from, to := Num((0 - 2 * m) as real), Num((0 - m) as real);
    assert Paginate(all, Num(-1.0), Num(limit as real)).items == Slice(all, from, to) by {
      PageMinusOneBounds(m);
    }
    if m == 0 {
      assert SliceIndex(from, n) == 0 == SliceIndex(to, n) by {
        SliceIndexOfInt(0, n);
      }
    } else {
      assert SliceIndex(from, n) == n - 2 * m by {
        SliceIndexOfInt(0 - 2 * m, n);
      }
      assert SliceIndex(to, n) == n - m by {
        SliceIndexOfInt(0 - m, n);
      }
    }
  }

  /** Page -1 starts two windows before the end of the list and ends one
      window before it. */
  lemma PageMinusOneBounds(m: int)
    ensures StartIndex(Num(-1.0), Num(m as real)) == Num((0 - 2 * m) as real)
    ensures EndIndex(Num(-1.0), Num(m as real)) == Num((0 - m) as real)
  {
  }

  /** The first `k` windows of size `limit`, one after the other. */
  function FirstPages<T>(all: seq<T>, k: nat, limit: nat): seq<T> {
    if k == 0 then [] else FirstPages(all, k - 1, limit) + Window(all, k, limit)
  }

  /** Consecutive pages tile the list: pages 1 to `k` together are the list
      up to `k * limit`, in order, with nothing repeated or skipped. */
  lemma {:induction false} PagesTile<T>(all: seq<T>, k: nat, limit: nat)
    ensures Min(k * limit, |all|) >= 0
    ensures FirstPages(all, k, limit) == all[..Min(k * limit, |all|)]
  {
    if k > 0 {
      PagesTile(all, k - 1, limit);
      WindowBounds(k, limit, |all|);
      var a := Min((k - 1) * limit, |all|);
      var b := Min(k * limit, |all|);
      assert all[..a] + all[a..b] == all[..b];
    }
  }

  /** Following `hasMore` from page 1 lists everything: once page `k` says
      there is no more, pages 1 to `k` hold the whole list. */
  lemma LastPageCompletesList<T>(all: seq<T>, k: nat, limit: nat)
    requires k >= 1
    requires !Paginate(all, Num(k as real), Num(limit as real)).hasMore
    ensures FirstPages(all, k, limit) == all
  {
    WholePage(all, k, limit);
    PagesTile(all, k, limit);
  }

  lemma FirstPageOfTwenty<T>(all: seq<T>)
    ensures Paginate(all, Num(1.0), Num(20.0)).items == all[..Min(20, |all|)]
  {
    WholePage(all, 1, 20);
  }

  /** Without `page` and `limit` in the query the first 20 items are
      returned. */
  lemma DefaultPage<T>(all: seq<T>, query: map<string, string>)
    requires "page" !in query && "limit" !in query
    ensures Paginate(all, QueryNumber(query, "page", 1.0), QueryNumber(query, "limit", 20.0)).items ==
      all[..Min(20, |all|)]
  {
    var page := QueryNumber(query, "page", 1.0);
    var limit := QueryNumber(query, "limit", 20.0);
    assert page == Num(1.0) && limit == Num(20.0);
    FirstPageOfTwenty(all);
  }

  /** A blank `page` is `Number("") == 0`, which makes the page empty. */
  lemma BlankPageIsEmpty<T>(all: seq<T>, limit: nat)
    ensures Paginate(all, NumberOf(""), Num(limit as real)).items == []
  {
    PageZeroIsEmpty(all, limit);
  }
}
