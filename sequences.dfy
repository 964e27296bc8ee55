/** The array combinators the cart code leans on: `find`, `filter` and a numeric `reduce`. */
module Sequences {
  import opened Wrappers

  /** `s.find(matches)`: the first element that satisfies `matches`, if there is one. */
  function FindFirst<T>(s: seq<T>, matches: T -> bool): (r: Option<T>)
    ensures r.None? <==> forall i | 0 <= i < |s| :: !matches(s[i])
    ensures r.Some? ==> exists k | 0 <= k < |s| :: s[k] == r.value && matches(r.value) &&
                          forall j | 0 <= j < k :: !matches(s[j])
    decreases |s|
  {
    if s == [] then None
    else if matches(s[0]) then Some(s[0])
    else
      var r := FindFirst(s[1..], matches);
      assert forall j | 0 <= j < |s| - 1 :: s[1..][j] == s[j + 1];
      r
  }

  /** `s.filter(keep)`: the elements of `s` that satisfy `keep`, in their original order. */
  function Filter<T>(s: seq<T>, keep: T -> bool): (r: seq<T>)
    ensures |r| <= |s|
    ensures forall i | 0 <= i < |r| :: keep(r[i])
    ensures forall i | 0 <= i < |r| :: r[i] in s
    decreases |s|
  {
    if s == [] then []
    else if keep(s[0]) then [s[0]] + Filter(s[1..], keep)
    else Filter(s[1..], keep)
  }

  /** Nothing that satisfies `keep` is lost: every such element of `s` is in the result. */
  lemma {:induction false} FilterKeepsKept<T>(s: seq<T>, keep: T -> bool)
    ensures forall i | 0 <= i < |s| && keep(s[i]) :: s[i] in Filter(s, keep)
    decreases |s|
  {
    if s != [] {
      FilterKeepsKept(s[1..], keep);
      forall i | 1 <= i < |s| && keep(s[i])
        ensures s[i] in Filter(s, keep)
      {
        assert s[1..][i - 1] == s[i];
      }
    }
  }

  /** Filtering distributes over concatenation, so order is preserved piecewise. */
  lemma {:induction false} FilterAppend<T>(a: seq<T>, b: seq<T>, keep: T -> bool)
    ensures Filter(a + b, keep) == Filter(a, keep) + Filter(b, keep)
    decreases |a|
  {
    if a == [] {
      assert a + b == b;
    } else {
      assert (a + b)[0] == a[0];
      assert (a + b)[1..] == a[1..] + b;
      FilterAppend(a[1..], b, keep);
    }
  }

  /** A filter that keeps every element returns its input unchanged. */
  lemma {:induction false} FilterKeepsAll<T>(s: seq<T>, keep: T -> bool)
    requires forall i | 0 <= i < |s| :: keep(s[i])
    ensures Filter(s, keep) == s
    decreases |s|
  {
    if s != [] {
      FilterKeepsAll(s[1..], keep);
    }
  }

  /** A filter that rejects every element returns the empty sequence. */
  lemma {:induction false} FilterDropsAll<T>(s: seq<T>, keep: T -> bool)
    requires forall i | 0 <= i < |s| :: !keep(s[i])
    ensures Filter(s, keep) == []
    decreases |s|
  {
    if s != [] {
      FilterDropsAll(s[1..], keep);
    }
  }

  /** Filtering around one element, when everything else passes, can only drop that element. */
  lemma FilterAround<T>(before: seq<T>, x: T, after: seq<T>, keep: T -> bool)
    requires forall i | 0 <= i < |before| :: keep(before[i])
    requires forall i | 0 <= i < |after| :: keep(after[i])
    ensures Filter(before + [x] + after, keep) == before + (if keep(x) then [x] else []) + after
  {
    FilterAppend(before + [x], after, keep);
    FilterAppend(before, [x], keep);
    FilterKeepsAll(before, keep);
    FilterKeepsAll(after, keep);
    assert Filter([x], keep) == if keep(x) then [x] else [];
  }

  /** Filtering twice with the same test is filtering once. */
  lemma FilterIdempotent<T>(s: seq<T>, keep: T -> bool)
    ensures Filter(Filter(s, keep), keep) == Filter(s, keep)
  {
    FilterKeepsAll(Filter(s, keep), keep);
  }

  /** `s.reduce((sum, x) => sum + f(x), 0)`: a left fold that adds `f` of each element. */
  function SumOf<T>(s: seq<T>, f: T -> int): int
    decreases |s|
  {
    if s == [] then 0 else SumOf(s[..|s| - 1], f) + f(s[|s| - 1])
  }

  /** The sum over a concatenation is the sum of the sums. */
  lemma {:induction false} SumOfAppend<T>(a: seq<T>, b: seq<T>, f: T -> int)
    ensures SumOf(a + b, f) == SumOf(a, f) + SumOf(b, f)
    decreases |b|
  {
    if b == [] {
      assert a + b == a;
    } else {
      var ab := a + b;
      assert ab[..|ab| - 1] == a + b[..|b| - 1];
      assert ab[|ab| - 1] == b[|b| - 1];
      SumOfAppend(a, b[..|b| - 1], f);
    }
  }

  /** The sum of one element is that element's value. */
  lemma SumOfSingleton<T>(x: T, f: T -> int)
    ensures SumOf([x], f) == f(x)
  {
    assert [x][..0] == [];
  }

  /** Summing non-negative values gives a non-negative sum. */
  lemma {:induction false} SumOfNonNegative<T>(s: seq<T>, f: T -> int)
    requires forall i | 0 <= i < |s| :: f(s[i]) >= 0
    ensures SumOf(s, f) >= 0
    decreases |s|
  {
    if s != [] {
      SumOfNonNegative(s[..|s| - 1], f);
    }
  }

  /** Summing values that are each at least one gives at least the number of elements. */
  lemma {:induction false} SumOfAtLeastLength<T>(s: seq<T>, f: T -> int)
    requires forall i | 0 <= i < |s| :: f(s[i]) >= 1
    ensures SumOf(s, f) >= |s|
    decreases |s|
  {
    if s != [] {
      SumOfAtLeastLength(s[..|s| - 1], f);
    }
  }

  /** A sequence is what precedes position `k`, the element at `k`, and what follows. */
  lemma SplitAt<T>(s: seq<T>, k: nat)
    requires k < |s|
    ensures s == s[..k] + [s[k]] + s[k + 1..]
  {
  }

  /** Replacing the element at `k` keeps what precedes and what follows it. */
  lemma UpdateAt<T>(s: seq<T>, k: nat, x: T)
    requires k < |s|
    ensures s[k := x] == s[..k] + [x] + s[k + 1..]
  {
  }

  /** The sum around one element: what precedes it, the element, what follows it. */
  lemma SumOfAround<T>(a: seq<T>, x: T, b: seq<T>, f: T -> int)
    ensures SumOf(a + [x] + b, f) == SumOf(a, f) + f(x) + SumOf(b, f)
  {
    SumOfAppend(a + [x], b, f);
    SumOfAppend(a, [x], f);
    SumOfSingleton(x, f);
  }

  /** Replacing the element at `k` changes the sum by the difference of the two values. */
  lemma SumOfUpdate<T>(s: seq<T>, k: nat, x: T, f: T -> int)
    requires k < |s|
    ensures SumOf(s[k := x], f) == SumOf(s, f) - f(s[k]) + f(x)
  {
    SplitAt(s, k);
    UpdateAt(s, k, x);
    SumOfAround(s[..k], s[k], s[k + 1..], f);
    SumOfAround(s[..k], x, s[k + 1..], f);
  }

  /** Removing the element at `k` lowers the sum by that element's value. */
  lemma SumOfRemove<T>(s: seq<T>, k: nat, f: T -> int)
    requires k < |s|
    ensures SumOf(s[..k] + s[k + 1..], f) == SumOf(s, f) - f(s[k])
  {
    SplitAt(s, k);
    SumOfAround(s[..k], s[k], s[k + 1..], f);
    SumOfAppend(s[..k], s[k + 1..], f);
  }
}
