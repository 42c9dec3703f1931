/** The stable sort that stands in for pandas' `sort_values` and
    `nlargest`: an insertion sort on a real-valued key. */
module Sorting {

  predicate SortedBy<T>(s: seq<T>, key: T -> real)
  {
    forall i, j :: 0 <= i < j < |s| ==> key(s[i]) <= key(s[j])
  }

  /** Inserts `x` before the first element whose key is not smaller. */
  function Insert<T>(x: T, s: seq<T>, key: T -> real): (r: seq<T>)
    ensures multiset(r) == multiset(s) + multiset{x}
    ensures |r| == |s| + 1
  {
    if s == [] then [x]
    else if key(x) <= key(s[0]) then [x] + s
    else
      assert s == [s[0]] + s[1..];
      [s[0]] + Insert(x, s[1..], key)
  }

  /** Every key in the insertion result is some key of `s` or that of `x`,
      so a lower bound of both bounds the result. */
  lemma {:induction false} InsertBound<T>(x: T, s: seq<T>, key: T -> real, lo: real)
    requires lo <= key(x)
    requires forall i :: 0 <= i < |s| ==> lo <= key(s[i])
    ensures forall i :: 0 <= i < |Insert(x, s, key)| ==> lo <= key(Insert(x, s, key)[i])
  {
    if s != [] && key(x) > key(s[0]) {
      InsertBound(x, s[1..], key, lo);
    }
  }

  lemma {:induction false} InsertSorted<T>(x: T, s: seq<T>, key: T -> real)
    requires SortedBy(s, key)
    ensures SortedBy(Insert(x, s, key), key)
  {
    if s != [] && key(x) > key(s[0]) {
      var rest := Insert(x, s[1..], key);
      InsertSorted(x, s[1..], key);
      InsertBound(x, s[1..], key, key(s[0]));
      assert Insert(x, s, key) == [s[0]] + rest;
    }
  }

  /** A permutation of `s` in ascending key order. */
  function SortBy<T>(s: seq<T>, key: T -> real): (r: seq<T>)
    ensures SortedBy(r, key)
    ensures multiset(r) == multiset(s)
    ensures |r| == |s|
  {
    if s == [] then []
    else
      var rest := SortBy(s[1..], key);
      InsertSorted(s[0], rest, key);
      assert s == [s[0]] + s[1..];
      Insert(s[0], rest, key)
  }

  /** The first `n` elements, or all of them when there are fewer. */
  function Take<T>(s: seq<T>, n: nat): (r: seq<T>)
    ensures |r| == if |s| < n then |s| else n
    ensures r == s[..|r|]
  {
    if |s| <= n then s else s[..n]
  }

  /** A prefix `top` of a sorted permutation `s` of `t` is part of `t`,
      and what `t` holds beyond it has keys no smaller than any of it. */
  lemma {:induction false} SortedPrefix<T>(t: seq<T>, s: seq<T>, key: T -> real, top: seq<T>)
    requires SortedBy(s, key) && multiset(s) == multiset(t)
    requires |top| <= |s| && top == s[..|top|]
    ensures multiset(top) <= multiset(t)
    ensures forall x, i :: x in multiset(t) - multiset(top) && 0 <= i < |top| ==> key(top[i]) <= key(x)
  {
    var n := |top|;
    assert s == top + s[n..];
    assert multiset(t) - multiset(top) == multiset(s[n..]);
    forall x, i | x in multiset(s[n..]) && 0 <= i < n
      ensures key(top[i]) <= key(x)
    {
      var k :| 0 <= k < |s[n..]| && s[n..][k] == x;
      assert s[n + k] == x;
    }
  }
}
