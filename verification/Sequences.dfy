/**
 * Sequence utilities shared by the analytics modules: order-preserving
 * filtering (Swift's `filter`), integer and real sums (`reduce(0, +)`) and
 * arithmetic means.
 */
module Sequences {

  /** Keeps the elements that satisfy `p`, in their original order. */
  function Filter<T(!new)>(s: seq<T>, p: T -> bool): (r: seq<T>)
    ensures |r| <= |s|
    ensures forall x :: x in r <==> x in s && p(x)
  {
    if |s| == 0 then []
    else
      var init := Filter(s[..|s| - 1], p);
      assert s == s[..|s| - 1] + [s[|s| - 1]];
      if p(s[|s| - 1]) then init + [s[|s| - 1]] else init
  }

  /** `Filter` keeps every occurrence of an element satisfying `p` and drops every other. */
  lemma {:induction false} FilterMultiset<T(!new)>(s: seq<T>, p: T -> bool)
    ensures forall x :: multiset(Filter(s, p))[x] == if p(x) then multiset(s)[x] else 0
  {
    if |s| > 0 {
      var init, last := s[..|s| - 1], s[|s| - 1];
      FilterMultiset(init, p);
      assert s == init + [last];
      assert multiset(s) == multiset(init) + multiset{last};
    }
  }

  /** A sequence with no members is empty. */
  lemma NoMembersIsEmpty<T>(s: seq<T>)
    requires forall x :: x !in s
    ensures s == []
  {
    assert forall x :: x in multiset(s) <==> x in s;
    assert multiset(s) == multiset{};
  }

  /** A slice of the tail is the slice one place further on. */
  lemma SliceOfTail<T>(s: seq<T>, i: nat, j: nat)
    requires |s| > 0 && i <= j <= |s| - 1
    ensures s[1..][i..j] == s[i + 1..j + 1]
  {
    assert forall k :: 0 <= k < j - i ==> s[1..][i..j][k] == s[i + 1 + k];
  }

  /** Dropping the last element of `a + b`, for a non-empty `b`, drops the last element of `b`. */
  lemma DropLastOfAppend<T>(a: seq<T>, b: seq<T>)
    requires |b| > 0
    ensures (a + b)[..|a + b| - 1] == a + b[..|b| - 1]
    ensures (a + b)[|a + b| - 1] == b[|b| - 1]
  {
    var ab, b' := a + b, b[..|b| - 1];
    assert forall k :: 0 <= k < |ab| - 1 ==> ab[..|ab| - 1][k] == (a + b')[k];
  }

  /** A slice splits into two adjoining slices. */
  lemma SplitSlice<T>(s: seq<T>, i: nat, j: nat, k: nat)
    requires i <= j <= k <= |s|
    ensures s[i..k] == s[i..j] + s[j..k]
  {
    assert forall n :: 0 <= n < k - i ==> s[i..k][n] == (s[i..j] + s[j..k])[n];
  }

  /** A slice of a slice is a slice of the whole. */
  lemma SliceOfSlice<T>(s: seq<T>, i: nat, j: nat, m: nat, n: nat)
    requires i <= j <= |s| && m <= n <= j - i
    ensures s[i..j][m..n] == s[i + m..i + n]
  {
    var inner := s[i..j];
    assert forall k :: 0 <= k < n - m ==> inner[m..n][k] == inner[m + k] == s[i + m + k];
  }

  /** Filtering commutes with concatenation: relative order is preserved. */
  lemma {:induction false} FilterAppend<T(!new)>(a: seq<T>, b: seq<T>, p: T -> bool)
    ensures Filter(a + b, p) == Filter(a, p) + Filter(b, p)
  {
    if |b| == 0 {
      assert a + b == a;
    } else {
      var b' := b[..|b| - 1];
      assert (a + b)[..|a + b| - 1] == a + b';
      FilterAppend(a, b', p);
    }
  }

  /** Filtering a sequence whose elements all satisfy `p` changes nothing. */
  lemma {:induction false} FilterKeepsAll<T(!new)>(s: seq<T>, p: T -> bool)
    requires forall i :: 0 <= i < |s| ==> p(s[i])
    ensures Filter(s, p) == s
  {
    if |s| > 0 {
      var init, last := s[..|s| - 1], s[|s| - 1];
      assert forall i :: 0 <= i < |init| ==> init[i] == s[i];
      FilterKeepsAll(init, p);
      assert p(last);
      assert Filter(s, p) == init + [last];
      assert init + [last] == s;
    }
  }

  /** Two complementary filters split a sequence: their multisets add up to it. */
  lemma FilterPartition<T(!new)>(s: seq<T>, p: T -> bool, q: T -> bool)
    requires forall x :: q(x) == !p(x)
    ensures multiset(Filter(s, p)) + multiset(Filter(s, q)) == multiset(s)
    ensures |Filter(s, p)| + |Filter(s, q)| == |s|
    ensures forall x :: !(x in Filter(s, p) && x in Filter(s, q))
  {
    FilterMultiset(s, p);
    FilterMultiset(s, q);
    var m := multiset(Filter(s, p)) + multiset(Filter(s, q));
    assert forall x :: m[x] == multiset(s)[x];
    assert m == multiset(s);
    assert |m| == |multiset(s)|;
  }

  /** The index of the first element satisfying `p`, or `|s|` when there is none. */
  function FirstIndex<T>(s: seq<T>, p: T -> bool): (k: nat)
    ensures k <= |s|
    ensures k < |s| ==> p(s[k])
    ensures forall j :: 0 <= j < k ==> !p(s[j])
  {
    if |s| == 0 then 0
    else if p(s[0]) then 0
    else
      var k := 1 + FirstIndex(s[1..], p);
      assert forall j :: 1 <= j < k ==> s[j] == s[1..][j - 1];
      k
  }

  /** An index before which nothing satisfies `p`, and which is `|s|` or satisfies `p`, is the first index. */
  lemma FirstIndexIs<T>(s: seq<T>, p: T -> bool, k: nat)
    requires k <= |s|
    requires k < |s| ==> p(s[k])
    requires forall j :: 0 <= j < k ==> !p(s[j])
    ensures FirstIndex(s, p) == k
  {
    var first := FirstIndex(s, p);
    assert first <= k;
  }

  /** The first element `filter` keeps is the first element satisfying `p`. */
  lemma {:induction false} FilterHeadIsFirst<T(!new)>(s: seq<T>, p: T -> bool)
    ensures |Filter(s, p)| == 0 <==> FirstIndex(s, p) == |s|
    ensures |Filter(s, p)| > 0 ==> Filter(s, p)[0] == s[FirstIndex(s, p)]
  {
    if |s| > 0 {
      var init := s[..|s| - 1];
      var x := s[|s| - 1];
      FilterHeadIsFirst(init, p);
      var k := FirstIndex(init, p);
      var first := FirstIndex(s, p);
      if k < |init| {
        assert s[k] == init[k];
        assert forall j :: 0 <= j < k ==> s[j] == init[j];
        assert first == k;
      } else if p(x) {
        assert forall j :: 0 <= j < |init| ==> s[j] == init[j];
        assert first == |init|;
      } else {
        assert forall j :: 0 <= j < |init| ==> s[j] == init[j];
        assert first == |s|;
      }
    }
  }

  function Sum(s: seq<int>): int
  {
    if |s| == 0 then 0 else Sum(s[..|s| - 1]) + s[|s| - 1]
  }

  function SumReals(s: seq<real>): real
  {
    if |s| == 0 then 0.0 else SumReals(s[..|s| - 1]) + s[|s| - 1]
  }

  /** Each element in [lo, hi] bounds the sum between |s| * lo and |s| * hi. */
  lemma {:induction false} SumBounds(s: seq<int>, lo: int, hi: int)
    requires forall i :: 0 <= i < |s| ==> lo <= s[i] <= hi
    ensures lo * |s| <= Sum(s) <= hi * |s|
  {
    if |s| > 0 {
      var init := s[..|s| - 1];
      SumBounds(init, lo, hi);
      assert lo * |s| == lo * |init| + lo && hi * |s| == hi * |init| + hi;
    }
  }

  /**
   * `Double(s.count)`, counted up in floating point. Kept apart from `|s|`
   * so that quotients by it stay out of integer arithmetic; `CountIsLength`
   * relates the two.
   */
  function Count<T>(s: seq<T>): real
  {
    if |s| == 0 then 0.0 else Count(s[..|s| - 1]) + 1.0
  }

  lemma {:induction false} CountIsLength<T>(s: seq<T>)
    ensures Count(s) == |s| as real
  {
    if |s| > 0 {
      CountIsLength(s[..|s| - 1]);
    }
  }

  /** `Double(s.reduce(0, +))`, accumulated in floating point. */
  function RealSum(s: seq<int>): real
  {
    if |s| == 0 then 0.0 else RealSum(s[..|s| - 1]) + s[|s| - 1] as real
  }

  lemma {:induction false} RealSumIsSum(s: seq<int>)
    ensures RealSum(s) == Sum(s) as real
  {
    if |s| > 0 {
      RealSumIsSum(s[..|s| - 1]);
    }
  }

  /** `Double(numerator) / Double(denominator)`. */
  function Ratio(numerator: int, denominator: int): real
    requires denominator > 0
  {
    numerator as real / denominator as real
  }

  /** `avg` is the mean of the non-empty `s`: times the length it gives the sum. */
  predicate IsMeanOf(avg: real, s: seq<int>)
  {
    avg * |s| as real == Sum(s) as real
  }

  /** The arithmetic mean as Swift computes it: `Double(sum) / Double(count)`. */
  function Mean(s: seq<int>): real
    requires |s| > 0
  {
    CountIsLength(s);
    RealSum(s) / Count(s)
  }

  /** `Mean` is the integer sum over the length, so mean times length is the sum. */
  lemma MeanIsQuotient(s: seq<int>)
    requires |s| > 0
    ensures Mean(s) == Sum(s) as real / |s| as real
    ensures Mean(s) * |s| as real == Sum(s) as real
  {
    CountIsLength(s);
    RealSumIsSum(s);
  }

  /** The mean of a non-empty list of averages. */
  function MeanOfReals(s: seq<real>): real
    requires |s| > 0
  {
    CountIsLength(s);
    SumReals(s) / Count(s)
  }

  /** Mean times length is the sum. */
  lemma MeanOfRealsTimesCount(s: seq<real>)
    requires |s| > 0
    ensures MeanOfReals(s) * |s| as real == SumReals(s)
  {
    CountIsLength(s);
  }

  /** The mean of values in [lo, hi] lies in [lo, hi]. */
  lemma MeanBounds(s: seq<int>, lo: int, hi: int)
    requires |s| > 0
    requires forall i :: 0 <= i < |s| ==> lo <= s[i] <= hi
    ensures lo as real <= Mean(s) <= hi as real
  {
    SumBounds(s, lo, hi);
    QuotientBounds(Sum(s), |s|, lo, hi);
    MeanIsQuotient(s);
  }

  /** Dividing an integer in [lo * n, hi * n] by a positive n lands in [lo, hi]. */
  lemma QuotientBounds(a: int, n: int, lo: int, hi: int)
    requires n > 0
    requires lo * n <= a <= hi * n
    ensures lo as real <= a as real / n as real <= hi as real
  {
    assert (lo * n) as real == lo as real * n as real;
    assert (hi * n) as real == hi as real * n as real;
  }

  function Min(a: real, b: real): real { if a <= b then a else b }

  function Abs(x: real): real { if x < 0.0 then -x else x }
}
