/** Ordering rows by an integer column, as `ORDER BY` does. The order of rows with equal
    keys is left open, as in SQL. */
module Sorting {

  ghost predicate SortedBy<T>(s: seq<T>, key: T -> int) {
    forall i, j :: 0 <= i < j < |s| ==> key(s[i]) <= key(s[j])
  }

  /** Every element of `s` has a key of at least `k`. */
  ghost predicate AllAtLeast<T>(s: seq<T>, key: T -> int, k: int) {
    forall i :: 0 <= i < |s| ==> k <= key(s[i])
  }

  /** `x` placed before the first element whose key is at least its own. */
  function InsertBy<T>(x: T, s: seq<T>, key: T -> int): (r: seq<T>)
    ensures |r| == |s| + 1
    ensures multiset(r) == multiset(s) + multiset{x}
  {
    if |s| == 0 then [x]
    else if key(x) <= key(s[0]) then [x] + s
    else
      assert s == [s[0]] + s[1..];
      [s[0]] + InsertBy(x, s[1..], key)
  }

  /** A lower bound on the keys of `s` and of `x` bounds the keys after insertion. */
  lemma {:induction false} InsertBounded<T>(x: T, s: seq<T>, key: T -> int, k: int)
    requires AllAtLeast(s, key, k) && k <= key(x)
    ensures AllAtLeast(InsertBy(x, s, key), key, k)
  {
    if |s| > 0 && key(x) > key(s[0]) {
      InsertBounded(x, s[1..], key, k);
    }
  }

  /** Inserting into a sorted sequence keeps it sorted. */
  lemma {:induction false} InsertSorted<T>(x: T, s: seq<T>, key: T -> int)
    requires SortedBy(s, key)
    ensures SortedBy(InsertBy(x, s, key), key)
  {
    if |s| == 0 {
    } else if key(x) <= key(s[0]) {
      assert AllAtLeast(s, key, key(x));
    } else {
      var rest := s[1..];
      assert SortedBy(rest, key);
      InsertSorted(x, rest, key);
      assert AllAtLeast(rest, key, key(s[0]));
      InsertBounded(x, rest, key, key(s[0]));
      var r := InsertBy(x, s, key);
      assert r == [s[0]] + InsertBy(x, rest, key);
    }
  }

  /** Insertion sort by `key`, smallest first. */
  function SortBy<T>(s: seq<T>, key: T -> int): (r: seq<T>)
    ensures |r| == |s|
    ensures multiset(r) == multiset(s)
    ensures SortedBy(r, key)
  {
    if |s| == 0 then []
    else
      assert s == [s[0]] + s[1..];
      var rest := SortBy(s[1..], key);
      InsertSorted(s[0], rest, key);
      InsertBy(s[0], rest, key)
  }

  /** A sorted sequence stays sorted when cut. */
  lemma SliceSorted<T>(s: seq<T>, key: T -> int, lo: nat, hi: nat)
    requires SortedBy(s, key) && lo <= hi <= |s|
    ensures SortedBy(s[lo..hi], key)
  {
    var p := s[lo..hi];
    forall i, j | 0 <= i < j < |p|
      ensures key(p[i]) <= key(p[j])
    {
      assert p[i] == s[lo + i] && p[j] == s[lo + j];
    }
  }
}
