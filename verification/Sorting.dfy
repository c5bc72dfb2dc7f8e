/**
 * A stable insertion sort over a caller-supplied ordering. The analytics code
 * sorts with Swift's `sorted(by:)`; the model sorts with the non-strict form
 * `leq` of the same comparator, and elements that compare equal keep their
 * input order.
 */
module Sorting {
  import opened Sequences

  /** `leq` orders every pair and is transitive. */
  ghost predicate IsTotalPreorder<T(!new)>(leq: (T, T) -> bool)
  {
    && (forall a, b :: leq(a, b) || leq(b, a))
    && (forall a, b, c :: leq(a, b) && leq(b, c) ==> leq(a, c))
  }

  predicate SortedBy<T>(s: seq<T>, leq: (T, T) -> bool)
  {
    forall i, j :: 0 <= i < j < |s| ==> leq(s[i], s[j])
  }

  /** Places `x` in front of the first element it may precede. */
  function Insert<T>(x: T, s: seq<T>, leq: (T, T) -> bool): (r: seq<T>)
    ensures |r| == |s| + 1
    ensures multiset(r) == multiset(s) + multiset{x}
  {
    if |s| == 0 || leq(x, s[0]) then [x] + s
    else
      assert s == [s[0]] + s[1..];
      [s[0]] + Insert(x, s[1..], leq)
  }

  function InsertionSort<T>(s: seq<T>, leq: (T, T) -> bool): (r: seq<T>)
    ensures |r| == |s|
    ensures multiset(r) == multiset(s)
  {
    if |s| == 0 then []
    else
      assert s == [s[0]] + s[1..];
      Insert(s[0], InsertionSort(s[1..], leq), leq)
  }

  lemma {:induction false} InsertKeepsSorted<T(!new)>(x: T, s: seq<T>, leq: (T, T) -> bool)
    requires IsTotalPreorder(leq)
    requires SortedBy(s, leq)
    ensures SortedBy(Insert(x, s, leq), leq)
  {
    if |s| == 0 || leq(x, s[0]) {
    } else {
      var tail := Insert(x, s[1..], leq);
      InsertKeepsSorted(x, s[1..], leq);
      assert leq(s[0], x);
      forall y | y in tail
        ensures leq(s[0], y)
      {
        assert y in multiset(tail);
        if y != x {
          assert y in multiset(s[1..]);
          var k :| 0 <= k < |s[1..]| && s[1..][k] == y;
          assert s[k + 1] == y;
        }
      }
      var r := [s[0]] + tail;
      forall i, j | 0 <= i < j < |r|
        ensures leq(r[i], r[j])
      {
        if i == 0 {
          assert r[j] == tail[j - 1];
          assert r[j] in tail;
        } else {
          assert r[i] == tail[i - 1] && r[j] == tail[j - 1];
        }
      }
    }
  }

  /** The sort yields an ordered permutation of its input. */
  lemma {:induction false} InsertionSortSorted<T(!new)>(s: seq<T>, leq: (T, T) -> bool)
    requires IsTotalPreorder(leq)
    ensures SortedBy(InsertionSort(s, leq), leq)
    ensures multiset(InsertionSort(s, leq)) == multiset(s)
  {
    if |s| > 0 {
      InsertionSortSorted(s[1..], leq);
      InsertKeepsSorted(s[0], InsertionSort(s[1..], leq), leq);
    }
  }

  /** Dropping elements from an ordered sequence leaves it ordered. */
  lemma {:induction false} FilterKeepsSorted<T(!new)>(s: seq<T>, p: T -> bool, leq: (T, T) -> bool)
    requires SortedBy(s, leq)
    ensures SortedBy(Filter(s, p), leq)
  {
    if |s| > 0 {
      var init := s[..|s| - 1];
      var last := s[|s| - 1];
      assert SortedBy(init, leq);
      FilterKeepsSorted(init, p, leq);
      var r := Filter(s, p);
      var fi := Filter(init, p);
      if p(last) {
        assert r == fi + [last];
        forall i, j | 0 <= i < j < |r|
          ensures leq(r[i], r[j])
        {
          if j == |r| - 1 {
            assert r[i] in fi;
            var k :| 0 <= k < |init| && init[k] == r[i];
            assert s[k] == r[i];
          } else {
            assert r[i] == fi[i] && r[j] == fi[j];
          }
        }
      } else {
        assert r == fi;
      }
    }
  }

  /**
   * `s[k]` may precede every element of `s`, and no earlier element may
   * precede it: the first of the least elements.
   */
  predicate IsFirstLeast<T>(s: seq<T>, k: int, leq: (T, T) -> bool)
  {
    && 0 <= k < |s|
    && (forall j :: 0 <= j < |s| ==> leq(s[k], s[j]))
    && (forall j :: 0 <= j < k ==> !leq(s[j], s[k]))
  }

  /** Stability at the front: the sort puts the first of the least elements first. */
  lemma {:induction false} InsertionSortHead<T(!new)>(s: seq<T>, leq: (T, T) -> bool)
    requires IsTotalPreorder(leq)
    requires |s| > 0
    ensures exists k :: IsFirstLeast(s, k, leq) && InsertionSort(s, leq)[0] == s[k]
  {
    var tail := s[1..];
    var t := InsertionSort(tail, leq);
    assert InsertionSort(s, leq) == Insert(s[0], t, leq);
    if |s| == 1 {
      assert IsFirstLeast(s, 0, leq);
    } else {
      assert forall j :: 1 <= j < |s| ==> s[j] == tail[j - 1];
      InsertionSortHead(tail, leq);
      var k' :| IsFirstLeast(tail, k', leq) && t[0] == tail[k'];
      if leq(s[0], t[0]) {
        FirstIsLeast(s, k', leq);
      } else {
        LaterIsLeast(s, k', leq);
      }
    }
  }

  /** When the head precedes the tail's first least element, the head is the first least element. */
  lemma FirstIsLeast<T(!new)>(s: seq<T>, k': nat, leq: (T, T) -> bool)
    requires IsTotalPreorder(leq)
    requires |s| > 1 && IsFirstLeast(s[1..], k', leq) && leq(s[0], s[1..][k'])
    ensures IsFirstLeast(s, 0, leq)
  {
    forall j | 0 < j < |s|
      ensures leq(s[0], s[j])
    {
      assert leq(s[1..][k'], s[1..][j - 1]);
    }
  }

  /** When it does not, the tail's first least element is the first least element of the whole. */
  lemma LaterIsLeast<T(!new)>(s: seq<T>, k': nat, leq: (T, T) -> bool)
    requires IsTotalPreorder(leq)
    requires |s| > 1 && IsFirstLeast(s[1..], k', leq) && !leq(s[0], s[1..][k'])
    ensures IsFirstLeast(s, k' + 1, leq)
  {
    var k := k' + 1;
    assert s[k] == s[1..][k'];
    forall j | 0 < j < |s|
      ensures leq(s[k], s[j])
    {
      assert s[j] == s[1..][j - 1];
    }
    forall j | 0 < j < k
      ensures !leq(s[j], s[k])
    {
      assert s[j] == s[1..][j - 1];
    }
  }
}
