/** The row order of the repositories' `ORDER BY a DESC, b DESC` queries:
    a stable insertion sort on a pair of integer keys, largest first. The
    database leaves the order of rows with equal keys open; the model keeps
    their stored order. */
module Sorting {

  /** Key a ranks at or before key b when sorting descending on (a.0, a.1). */
  predicate RanksBefore(a: (int, int), b: (int, int)) {
    a.0 > b.0 || (a.0 == b.0 && a.1 >= b.1)
  }

  /** Key a ranks strictly before key b. */
  predicate StrictlyBefore(a: (int, int), b: (int, int)) {
    a.0 > b.0 || (a.0 == b.0 && a.1 > b.1)
  }

  predicate SortedDesc<T>(s: seq<T>, key: T -> (int, int)) {
    forall i, j :: 0 <= i < j < |s| ==> RanksBefore(key(s[i]), key(s[j]))
  }

  /** x placed into a sorted sequence after every element it does not
      rank strictly before. */
  function Insert<T>(x: T, s: seq<T>, key: T -> (int, int)): (r: seq<T>)
    requires SortedDesc(s, key)
    ensures |r| == |s| + 1 && multiset(r) == multiset(s) + multiset{x}
    ensures SortedDesc(r, key)
    ensures r[0] == x || (s != [] && r[0] == s[0])
  {
    if s == [] then [x]
    else if StrictlyBefore(key(x), key(s[0])) then [x] + s
    else
      var rest := Insert(x, s[1..], key);
      InsertBehind(x, s, rest, key);
      [s[0]] + rest
  }

  /** x inserted behind the head of s: the head stays in front of the
      sorted remainder into which x went. */
  lemma InsertBehind<T>(x: T, s: seq<T>, rest: seq<T>, key: T -> (int, int))
    requires s != [] && SortedDesc(s, key) && !StrictlyBefore(key(x), key(s[0]))
    requires SortedDesc(rest, key) && multiset(rest) == multiset(s[1..]) + multiset{x}
    ensures multiset([s[0]] + rest) == multiset(s) + multiset{x}
    ensures SortedDesc([s[0]] + rest, key)
  {
    assert s == [s[0]] + s[1..];
    forall j | 0 <= j < |rest|
      ensures RanksBefore(key(s[0]), key(rest[j]))
    {
      assert rest[j] in multiset(rest);
      if rest[j] != x {
        assert rest[j] in multiset(s[1..]);
        var k :| 0 <= k < |s[1..]| && s[1..][k] == rest[j];
        assert s[k + 1] == rest[j];
      }
    }
    var r := [s[0]] + rest;
    forall i, j | 0 <= i < j < |r|
      ensures RanksBefore(key(r[i]), key(r[j]))
    {
      if i > 0 {
        assert r[i] == rest[i - 1] && r[j] == rest[j - 1];
      } else {
        assert r[j] == rest[j - 1];
      }
    }
  }

  /** The rows ordered by key, largest first; rows with equal keys keep
      their stored order. */
  function SortBy<T>(s: seq<T>, key: T -> (int, int)): (r: seq<T>)
    ensures |r| == |s| && multiset(r) == multiset(s)
    ensures SortedDesc(r, key)
  {
    if s == [] then []
    else
      var init := s[..|s| - 1];
      assert s == init + [s[|s| - 1]];
      Insert(s[|s| - 1], SortBy(init, key), key)
  }

  /** The first row of a sorted result ranks at or before every row. */
  lemma SortByFirst<T>(s: seq<T>, key: T -> (int, int), x: T)
    requires x in s
    ensures SortBy(s, key) != [] && RanksBefore(key(SortBy(s, key)[0]), key(x))
    ensures SortBy(s, key)[0] in s
  {
    var r := SortBy(s, key);
    assert x in multiset(r);
    var k :| 0 <= k < |r| && r[k] == x;
    assert r[0] in multiset(s);
  }
}
