/**
 * Python's sorted(xs, key=..., reverse=...) on integer keys: a stable sort,
 * written as an insertion sort that places each item before the items of
 * equal key that follow it in the input.
 */
module Sorting {

  /** a may precede b in the requested direction. */
  predicate InOrder(a: int, b: int, descending: bool)
  {
    if descending then a >= b else a <= b
  }

  predicate SortedBy<T>(s: seq<T>, key: T -> int, descending: bool)
  {
    forall i, j :: 0 <= i < j < |s| ==> InOrder(key(s[i]), key(s[j]), descending)
  }

  /** Insert x into s ahead of the first item it may precede. */
  function Insert<T>(x: T, s: seq<T>, key: T -> int, descending: bool): seq<T>
  {
    if s == [] || InOrder(key(x), key(s[0]), descending) then [x] + s
    else [s[0]] + Insert(x, s[1..], key, descending)
  }

  function SortBy<T>(s: seq<T>, key: T -> int, descending: bool): seq<T>
  {
    if s == [] then [] else Insert(s[0], SortBy(s[1..], key, descending), key, descending)
  }

  /** An item that may precede every item of a sorted list may head it. */
  lemma ConsKeepsOrder<T>(h: T, r: seq<T>, key: T -> int, descending: bool)
    requires SortedBy(r, key, descending)
    requires forall k :: 0 <= k < |r| ==> InOrder(key(h), key(r[k]), descending)
    ensures SortedBy([h] + r, key, descending)
  {
    forall i, j | 0 <= i < j < |[h] + r|
      ensures InOrder(key(([h] + r)[i]), key(([h] + r)[j]), descending)
    {
      assert ([h] + r)[j] == r[j - 1];
      if i > 0 {
        assert ([h] + r)[i] == r[i - 1];
      }
    }
  }

  lemma {:induction false} InsertKeepsOrder<T>(x: T, s: seq<T>, key: T -> int, descending: bool)
    requires SortedBy(s, key, descending)
    ensures SortedBy(Insert(x, s, key, descending), key, descending)
    ensures multiset(Insert(x, s, key, descending)) == multiset(s) + multiset{x}
  {
    if s == [] || InOrder(key(x), key(s[0]), descending) {
    } else {
      var tail := s[1..];
      assert s == [s[0]] + tail;
      assert SortedBy(tail, key, descending);
      InsertKeepsOrder(x, tail, key, descending);
      var r := Insert(x, tail, key, descending);
      forall k | 0 <= k < |r|
        ensures InOrder(key(s[0]), key(r[k]), descending)
      {
        assert r[k] in multiset(tail) + multiset{x};
        if r[k] in multiset(tail) {
          var m :| 0 <= m < |tail| && tail[m] == r[k];
          assert s[m + 1] == r[k];
        }
      }
      ConsKeepsOrder(s[0], r, key, descending);
    }
  }

  /** sorted returns its input in order ... */
  lemma {:induction false} SortByIsSorted<T>(s: seq<T>, key: T -> int, descending: bool)
    ensures SortedBy(SortBy(s, key, descending), key, descending)
    ensures multiset(SortBy(s, key, descending)) == multiset(s)
  {
    if s != [] {
      SortByIsSorted(s[1..], key, descending);
      InsertKeepsOrder(s[0], SortBy(s[1..], key, descending), key, descending);
      assert s == [s[0]] + s[1..];
    }
  }

  /** ... with the same length. */
  lemma SortByLength<T>(s: seq<T>, key: T -> int, descending: bool)
    ensures |SortBy(s, key, descending)| == |s|
  {
    SortByIsSorted(s, key, descending);
    assert |multiset(SortBy(s, key, descending))| == |multiset(s)|;
  }

  /** The identity key, for sorting plain integers. */
  function Itself(x: int): int { x }
}
