/**
 * `Array.prototype.sort` with a numeric comparator `(a, b) => key(a) - key(b)`:
 * a stable sort by an integer key, written as an insertion sort; and
 * `Array.prototype.sort()` of strings, with no comparator.
 */
module Sorting {

  predicate SortedBy<T>(xs: seq<T>, key: T -> int) {
    forall i, j :: 0 <= i < j < |xs| ==> key(xs[i]) <= key(xs[j])
  }

  /** Inserts `x` before the first element whose key is not smaller, keeping equal keys in order. */
  function InsertBy<T>(x: T, xs: seq<T>, key: T -> int): (r: seq<T>)
    requires SortedBy(xs, key)
    ensures SortedBy(r, key)
    ensures multiset(r) == multiset(xs) + multiset{x}
    ensures |r| == |xs| + 1
  {
    if xs == [] || key(x) <= key(xs[0]) then
      [x] + xs
    else
      var tail := xs[1..];
      assert SortedBy(tail, key) && forall k :: 0 <= k < |tail| ==> key(xs[0]) <= key(tail[k]) by {
        forall k | 0 <= k < |tail| ensures tail[k] == xs[k + 1] { }
      }
      var rest := InsertBy(x, tail, key);
      assert xs == [xs[0]] + tail;
      BoundKeptByInsert(xs[0], x, tail, rest, key);
      LowerHeadSorted(xs[0], rest, key);
      [xs[0]] + rest
  }

  /** A key at most every key of `tail` and at most `key(x)` is at most every key of a rearrangement of `tail` plus `x`. */
  lemma BoundKeptByInsert<T>(h: T, x: T, tail: seq<T>, rest: seq<T>, key: T -> int)
    requires forall k :: 0 <= k < |tail| ==> key(h) <= key(tail[k])
    requires key(h) <= key(x)
    requires multiset(rest) == multiset(tail) + multiset{x}
    ensures forall k :: 0 <= k < |rest| ==> key(h) <= key(rest[k])
  {
    forall k | 0 <= k < |rest| ensures key(h) <= key(rest[k]) {
      assert rest[k] in multiset(rest);
      if rest[k] != x {
        assert rest[k] in multiset(tail);
        var m :| 0 <= m < |tail| && tail[m] == rest[k];
      }
    }
  }

  /** A head whose key is at most every later key keeps a sorted list sorted. */
  lemma LowerHeadSorted<T>(h: T, rest: seq<T>, key: T -> int)
    requires SortedBy(rest, key)
    requires forall k :: 0 <= k < |rest| ==> key(h) <= key(rest[k])
    ensures SortedBy([h] + rest, key)
  {
    var r := [h] + rest;
    forall i, j | 0 <= i < j < |r| ensures key(r[i]) <= key(r[j]) {
      assert r[j] == rest[j - 1];
      if i > 0 { assert r[i] == rest[i - 1]; }
    }
  }

  /** The elements of `xs` in ascending key order. */
  function SortBy<T>(xs: seq<T>, key: T -> int): (r: seq<T>)
    ensures SortedBy(r, key)
    ensures multiset(r) == multiset(xs)
    ensures |r| == |xs|
  {
    if xs == [] then []
    else
      assert xs == [xs[0]] + xs[1..];
      InsertBy(xs[0], SortBy(xs[1..], key), key)
  }

  /** Sorting keeps exactly the elements it was given. */
  lemma SortByMembers<T>(xs: seq<T>, key: T -> int)
    ensures forall x :: x in SortBy(xs, key) <==> x in xs
  {
    var r := SortBy(xs, key);
    forall x ensures x in r <==> x in xs {
      assert x in r <==> x in multiset(r);
      assert x in xs <==> x in multiset(xs);
    }
  }

  /** Input already in key order comes back unchanged. */
  lemma {:induction false} SortBySortedIsIdentity<T>(xs: seq<T>, key: T -> int)
    requires SortedBy(xs, key)
    ensures SortBy(xs, key) == xs
  {
    if xs != [] {
      assert SortedBy(xs[1..], key) by {
        forall i, j | 0 <= i < j < |xs[1..]| ensures key(xs[1..][i]) <= key(xs[1..][j]) {
          assert xs[1..][i] == xs[i + 1] && xs[1..][j] == xs[j + 1];
        }
      }
      SortBySortedIsIdentity(xs[1..], key);
      assert xs[1..] == [] || key(xs[0]) <= key(xs[1..][0]);
    }
  }

  // ------------------------------------------------ sort() without comparator

  /** The default order of `sort()` on strings: character by character, a prefix first. */
  predicate TextLeq(a: string, b: string)
    decreases |a|
  {
    a == [] || (b != [] && (a[0] < b[0] || (a[0] == b[0] && TextLeq(a[1..], b[1..]))))
  }

  /** Any two strings are ordered one way or the other. */
  lemma {:induction false} TextLeqTotal(a: string, b: string)
    ensures TextLeq(a, b) || TextLeq(b, a)
    decreases |a|
  {
    if a != [] && b != [] && a[0] == b[0] {
      TextLeqTotal(a[1..], b[1..]);
    }
  }

  predicate TextSorted(xs: seq<string>) {
    forall i :: 0 <= i < |xs| - 1 ==> TextLeq(xs[i], xs[i + 1])
  }

  /** Inserts `x` before the first string it does not follow. */
  function InsertText(x: string, xs: seq<string>): (r: seq<string>)
    requires TextSorted(xs)
    ensures TextSorted(r)
    ensures multiset(r) == multiset(xs) + multiset{x}
    ensures |r| == |xs| + 1 && (r[0] == x || (xs != [] && r[0] == xs[0]))
  {
    if xs == [] || TextLeq(x, xs[0]) then
      [x] + xs
    else
      TextLeqTotal(x, xs[0]);
      var tail := xs[1..];
      assert TextSorted(tail) by {
        forall i | 0 <= i < |tail| - 1 ensures TextLeq(tail[i], tail[i + 1]) {
          assert tail[i] == xs[i + 1] && tail[i + 1] == xs[i + 2];
        }
      }
      var rest := InsertText(x, tail);
      assert xs == [xs[0]] + tail;
      assert TextLeq(xs[0], rest[0]);
      [xs[0]] + rest
  }

  /** `xs.sort()` on strings: the same strings in ascending order. */
  function SortTexts(xs: seq<string>): (r: seq<string>)
    ensures TextSorted(r)
    ensures multiset(r) == multiset(xs)
  {
    if xs == [] then []
    else
      assert xs == [xs[0]] + xs[1..];
      InsertText(xs[0], SortTexts(xs[1..]))
  }
}
