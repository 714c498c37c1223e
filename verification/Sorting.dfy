/** Stable sorting by an integer key: what the source gets from Array.prototype.sort and toSorted. */
module Sorting {

  ghost predicate SortedBy<T>(s: seq<T>, key: T -> int) {
    forall i, j | 0 <= i < j < |s| :: key(s[i]) <= key(s[j])
  }

  function InsertBy<T>(x: T, s: seq<T>, key: T -> int): (r: seq<T>)
    ensures multiset(r) == multiset{x} + multiset(s)
  {
    if s == [] || key(x) <= key(s[0]) then [x] + s
    else
      assert s == [s[0]] + s[1..];
      [s[0]] + InsertBy(x, s[1..], key)
  }

  /** The elements of `s`, smallest key first, equal keys in their original order. */
  function SortBy<T>(s: seq<T>, key: T -> int): (r: seq<T>)
    ensures multiset(r) == multiset(s)
  {
    if s == [] then []
    else
      assert s == [s[0]] + s[1..];
      InsertBy(s[0], SortBy(s[1..], key), key)
  }

  lemma SameElements<T>(s: seq<T>, r: seq<T>)
    requires multiset(s) == multiset(r)
    ensures |s| == |r|
    ensures forall x :: x in s <==> x in r
  {
    assert |multiset(s)| == |s| && |multiset(r)| == |r|;
    forall x ensures x in s <==> x in r {
      assert x in s <==> x in multiset(s);
      assert x in r <==> x in multiset(r);
    }
  }

  lemma {:induction false} InsertByBounded<T>(x: T, s: seq<T>, key: T -> int, low: int)
    requires low <= key(x) && forall j | 0 <= j < |s| :: low <= key(s[j])
    ensures forall j | 0 <= j < |InsertBy(x, s, key)| :: low <= key(InsertBy(x, s, key)[j])
  {
    if s != [] && key(x) > key(s[0]) {
      InsertByBounded(x, s[1..], key, low);
    }
  }

  lemma {:induction false} InsertByKeepsOrder<T>(x: T, s: seq<T>, key: T -> int)
    requires SortedBy(s, key)
    ensures SortedBy(InsertBy(x, s, key), key)
  {
    if s != [] && key(x) > key(s[0]) {
      InsertByKeepsOrder(x, s[1..], key);
      InsertByBounded(x, s[1..], key, key(s[0]));
    }
  }

  lemma {:induction false} SortByIsSorted<T>(s: seq<T>, key: T -> int)
    ensures SortedBy(SortBy(s, key), key)
    ensures |SortBy(s, key)| == |s|
    ensures forall x :: x in s <==> x in SortBy(s, key)
  {
    SameElements(s, SortBy(s, key));
    if s != [] {
      SortByIsSorted(s[1..], key);
      InsertByKeepsOrder(s[0], SortBy(s[1..], key), key);
    }
  }
}
