/**
 * The standard library's `sort`, as the day modules use it: `Vec::sort` on
 * integers (day 1) and on pairs of page numbers (day 5). Its algorithm is not
 * part of this model; what the callers rely on is its promise, a sorted
 * permutation of the input. `Sort` below is an insertion sort that keeps that
 * promise, and `SortedPermutationUnique` shows that under a total order every
 * algorithm keeping it returns the same sequence.
 */
module Sorting {

  /** `le` is total and transitive. */
  ghost predicate TotalPreorder<T(!new)>(le: (T, T) -> bool) {
    && (forall a, b :: le(a, b) || le(b, a))
    && (forall a, b, c :: le(a, b) && le(b, c) ==> le(a, c))
  }

  /** `le` is a total order: a total preorder in which no two distinct values tie. */
  ghost predicate TotalOrder<T(!new)>(le: (T, T) -> bool) {
    && TotalPreorder(le)
    && (forall a, b :: le(a, b) && le(b, a) ==> a == b)
  }

  predicate SortedBy<T(!new)>(s: seq<T>, le: (T, T) -> bool) {
    forall i, j :: 0 <= i < j < |s| ==> le(s[i], s[j])
  }

  /** Inserts `x` into the sorted `s` before the first element it does not follow. */
  function Insert<T(!new)>(x: T, s: seq<T>, le: (T, T) -> bool): (r: seq<T>)
    requires TotalPreorder(le)
    requires SortedBy(s, le)
    ensures SortedBy(r, le)
    ensures multiset(r) == multiset(s) + multiset{x}
    ensures |r| == |s| + 1
    ensures r[0] == x || (s != [] && r[0] == s[0])
  {
    if s == [] then [x]
    else if le(x, s[0]) then
      ConsSorted(x, s, le);
      [x] + s
    else
      var tail := Insert(x, s[1..], le);
      assert s == [s[0]] + s[1..];
      assert le(s[0], tail[0]);
      ConsSorted(s[0], tail, le);
      [s[0]] + tail
  }

  /** An element that precedes the head of a sorted sequence can be put in front of it. */
  lemma ConsSorted<T(!new)>(h: T, t: seq<T>, le: (T, T) -> bool)
    requires TotalPreorder(le)
    requires SortedBy(t, le) && (t != [] ==> le(h, t[0]))
    ensures SortedBy([h] + t, le)
  {
    var r := [h] + t;
    forall i, j | 0 <= i < j < |r|
      ensures le(r[i], r[j])
    {
      if i == 0 {
        assert r[j] == t[j - 1];
        if j > 1 {
          assert le(t[0], t[j - 1]);
        }
      } else {
        assert r[i] == t[i - 1] && r[j] == t[j - 1];
      }
    }
  }

  /** The model of `Vec::sort`: a sorted permutation of `s`. */
  function Sort<T(!new)>(s: seq<T>, le: (T, T) -> bool): (r: seq<T>)
    requires TotalPreorder(le)
    ensures SortedBy(r, le)
    ensures multiset(r) == multiset(s)
    ensures |r| == |s|
  {
    if s == [] then []
    else
      assert s == [s[0]] + s[1..];
      Insert(s[0], Sort(s[1..], le), le)
  }

  /**
   * Under a total order a sequence has exactly one sorted permutation, so
   * `Sort` agrees with the standard library's sort whatever algorithm it uses.
   */
  lemma {:induction false} SortedPermutationUnique<T(!new)>(a: seq<T>, b: seq<T>, le: (T, T) -> bool)
    requires TotalOrder(le)
    requires SortedBy(a, le) && SortedBy(b, le)
    requires multiset(a) == multiset(b)
    ensures a == b
  {
    if a == [] {
      assert |b| == |multiset(b)| == 0;
    } else {
      assert |b| == |multiset(b)| == |multiset(a)| == |a|;
      SameHead(a, b, le);
      var ta, tb := a[1..], b[1..];
      assert a == [a[0]] + ta && b == [b[0]] + tb;
      assert multiset(ta) == multiset(a) - multiset{a[0]} by {
        assert multiset(a) == multiset([a[0]]) + multiset(ta);
      }
      assert multiset(tb) == multiset(b) - multiset{b[0]} by {
        assert multiset(b) == multiset([b[0]]) + multiset(tb);
      }
      SortedPermutationUnique(ta, tb, le);
    }
  }

  /** Two sorted permutations of each other start with the same element. */
  lemma SameHead<T(!new)>(a: seq<T>, b: seq<T>, le: (T, T) -> bool)
    requires TotalOrder(le)
    requires SortedBy(a, le) && SortedBy(b, le)
    requires multiset(a) == multiset(b) && |a| > 0
    ensures |b| > 0 && a[0] == b[0]
  {
    assert a[0] in multiset(b);
    var k :| 0 <= k < |b| && b[k] == a[0];
    assert b[0] in multiset(a);
    var m :| 0 <= m < |a| && a[m] == b[0];
    assert le(b[0], a[0]) && le(a[0], b[0]);
  }
}
