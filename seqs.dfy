/**
 * Order-preserving filtering and a stable sort by an integer key: the two
 * list pipelines (`filter`, `compactMap`, `sorted`) the app runs over its
 * published arrays.
 */
module Seqs {

  /** `a` can be obtained from `b` by deleting elements (order preserved). */
  predicate IsSubsequence<T(==)>(a: seq<T>, b: seq<T>)
    decreases |b|
  {
    a == [] || (b != [] && if a[0] == b[0] then IsSubsequence(a[1..], b[1..]) else IsSubsequence(a, b[1..]))
  }

  /** `s.filter(p)`. */
  function Filter<T(==,!new)>(s: seq<T>, p: T -> bool): (r: seq<T>)
    ensures forall x :: x in r <==> x in s && p(x)
    ensures forall x :: multiset(r)[x] == if p(x) then multiset(s)[x] else 0
    ensures IsSubsequence(r, s)
    ensures |r| <= |s|
  {
    if s == [] then []
    else
      var rest := Filter(s[1..], p);
      assert s == [s[0]] + s[1..];
      if p(s[0]) then [s[0]] + rest else rest
  }

  lemma FilterAll<T(!new)>(s: seq<T>, p: T -> bool)
    requires forall x :: x in s ==> p(x)
    ensures Filter(s, p) == s
  {
    if s != [] {
      FilterAll(s[1..], p);
    }
  }

  /** Keys never decrease from left to right. */
  predicate SortedBy<T>(s: seq<T>, key: T -> int) {
    forall i, j :: 0 <= i < j < |s| ==> key(s[i]) <= key(s[j])
  }

  /** Prepending an element whose key bounds all others keeps the order. */
  lemma PrependSorted<T>(y: T, rest: seq<T>, key: T -> int)
    requires SortedBy(rest, key)
    requires forall z :: z in multiset(rest) ==> key(y) <= key(z)
    ensures SortedBy([y] + rest, key)
  {
    forall j | 0 <= j < |rest| ensures key(y) <= key(rest[j]) {
      assert rest[j] in multiset(rest);
    }
  }

  /** Inserts `x` before the first element whose key is not smaller. */
  function InsertBy<T>(x: T, s: seq<T>, key: T -> int): (r: seq<T>)
    requires SortedBy(s, key)
    ensures multiset(r) == multiset(s) + multiset{x}
    ensures SortedBy(r, key)
    ensures r[0] == x || (s != [] && r[0] == s[0])
  {
    if s == [] || key(x) <= key(s[0]) then [x] + s
    else
      var rest := InsertBy(x, s[1..], key);
      assert s == [s[0]] + s[1..];
      assert forall z :: z in multiset(rest) ==> key(s[0]) <= key(z) by {
        forall z | z in multiset(rest) ensures key(s[0]) <= key(z) {
          if z != x {
            assert z in multiset(s[1..]);
            var i :| 0 <= i < |s[1..]| && s[1..][i] == z;
            assert s[i + 1] == z;
          }
        }
      }
      PrependSorted(s[0], rest, key);
      [s[0]] + rest
  }

  /** A stable sort on ascending keys. */
  function SortBy<T>(s: seq<T>, key: T -> int): (r: seq<T>)
    ensures multiset(r) == multiset(s)
    ensures SortedBy(r, key)
  {
    if s == [] then []
    else
      assert s == [s[0]] + s[1..];
      InsertBy(s[0], SortBy(s[1..], key), key)
  }

  /** A subsequence of a sorted sequence is sorted. */
  lemma {:induction false} SubsequenceSorted<T>(a: seq<T>, b: seq<T>, key: T -> int)
    requires IsSubsequence(a, b) && SortedBy(b, key)
    ensures SortedBy(a, key)
    decreases |b|
  {
    if a != [] {
      if a[0] == b[0] {
        SubsequenceSorted(a[1..], b[1..], key);
        SubsequenceElements(a[1..], b[1..]);
        forall j | 0 < j < |a| ensures key(a[0]) <= key(a[j]) {
          assert a[j] == a[1..][j - 1];
          var k :| 0 <= k < |b[1..]| && b[1..][k] == a[j];
          assert b[k + 1] == a[j];
        }
      } else {
        SubsequenceSorted(a, b[1..], key);
      }
    }
  }

  lemma {:induction false} SubsequenceElements<T>(a: seq<T>, b: seq<T>)
    requires IsSubsequence(a, b)
    ensures forall i :: 0 <= i < |a| ==> exists k :: 0 <= k < |b| && b[k] == a[i]
    decreases |b|
  {
    if a != [] {
      if a[0] == b[0] {
        SubsequenceElements(a[1..], b[1..]);
        forall i | 0 < i < |a| ensures exists k :: 0 <= k < |b| && b[k] == a[i] {
          assert a[i] == a[1..][i - 1];
          var k :| 0 <= k < |b[1..]| && b[1..][k] == a[i];
          assert b[k + 1] == a[i];
        }
        assert b[0] == a[0];
      } else {
        SubsequenceElements(a, b[1..]);
        forall i | 0 <= i < |a| ensures exists k :: 0 <= k < |b| && b[k] == a[i] {
          var k :| 0 <= k < |b[1..]| && b[1..][k] == a[i];
          assert b[k + 1] == a[i];
        }
      }
    }
  }
}
