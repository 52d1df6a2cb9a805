/** SQL `ORDER BY` over an in-memory table: a sort on a two-part key,
    ascending in both parts. A descending column is ordered by its negation.
    The order among rows with equal keys is unspecified in SQL; the model
    picks one. */
module Sorting {

  datatype SortKey = Key(major: real, minor: real)

  /** Lexicographic order on keys. */
  predicate KeyLe(a: SortKey, b: SortKey) {
    a.major < b.major || (a.major == b.major && a.minor <= b.minor)
  }

  ghost predicate SortedBy<T>(s: seq<T>, key: T -> SortKey) {
    forall i, j :: 0 <= i < j < |s| ==> KeyLe(key(s[i]), key(s[j]))
  }

  lemma KeyLeTransitive(a: SortKey, b: SortKey, c: SortKey)
    requires KeyLe(a, b) && KeyLe(b, c)
    ensures KeyLe(a, c)
  {
  }

  /** A sorted sequence stays sorted when an element whose key is at most
      its head's is put in front. */
  lemma SortedCons<T>(x: T, s: seq<T>, key: T -> SortKey)
    requires SortedBy(s, key)
    requires s != [] ==> KeyLe(key(x), key(s[0]))
    ensures SortedBy([x] + s, key)
  {
    var r := [x] + s;
    forall i, j | 0 <= i < j < |r|
      ensures KeyLe(key(r[i]), key(r[j]))
    {
      if i == 0 && j > 1 {
        KeyLeTransitive(key(x), key(s[0]), key(s[j - 1]));
      }
    }
  }

  /** `x` inserted into a sorted sequence before the first element whose key
      is larger. */
  function Insert<T(==)>(x: T, s: seq<T>, key: T -> SortKey): (r: seq<T>)
    requires SortedBy(s, key)
    ensures SortedBy(r, key)
    ensures multiset(r) == multiset(s) + multiset{x}
  {
    if s == [] then [x]
    else if KeyLe(key(x), key(s[0])) then
      SortedCons(x, s, key);
      [x] + s
    else
      var rest := Insert(x, s[1..], key);
      assert s == [s[0]] + s[1..];
      InsertHeadBound(x, s, rest, key);
      SortedCons(s[0], rest, key);
      [s[0]] + rest
  }

  /** The head of a sorted sequence bounds the keys of the other elements and
      of a larger `x`, so it stays first after `x` is inserted behind it. */
  lemma InsertHeadBound<T>(x: T, s: seq<T>, rest: seq<T>, key: T -> SortKey)
    requires s != [] && SortedBy(s, key) && !KeyLe(key(x), key(s[0]))
    requires multiset(rest) == multiset(s[1..]) + multiset{x}
    ensures rest != [] ==> KeyLe(key(s[0]), key(rest[0]))
  {
    if rest != [] {
      assert rest[0] in multiset(rest);
      if rest[0] != x {
        assert rest[0] in multiset(s[1..]);
        var k :| 0 <= k < |s[1..]| && s[1..][k] == rest[0];
        assert s[k + 1] == rest[0];
      }
    }
  }

  /** The rows of `s` ordered by `key`: the same rows, in key order. */
  function SortBy<T(==)>(s: seq<T>, key: T -> SortKey): (r: seq<T>)
    ensures SortedBy(r, key)
    ensures multiset(r) == multiset(s)
  {
    if s == [] then []
    else
      assert s == [s[0]] + s[1..];
      Insert(s[0], SortBy(s[1..], key), key)
  }

  /** Sorting keeps exactly the rows it was given. */
  lemma SortByMembers<T>(s: seq<T>, key: T -> SortKey, x: T)
    ensures x in SortBy(s, key) <==> x in s
  {
    var r := SortBy(s, key);
    assert x in r <==> x in multiset(r);
    assert x in s <==> x in multiset(s);
  }
}
