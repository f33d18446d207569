/** Sequence operations the dashboards are built from: `Array.filter`,
    `reduce` sums, `slice(0, n)` and the set of mapped values. */
module Seqs {

  /** `a` can be obtained from `b` by deleting elements: same order, no
      element invented. Matching greedily is complete for this relation. */
  predicate IsSubsequence<T(==)>(a: seq<T>, b: seq<T>)
    decreases |b|
  {
    if |a| == 0 then true
    else if |b| == 0 then false
    else if a[0] == b[0] then IsSubsequence(a[1..], b[1..])
    else IsSubsequence(a, b[1..])
  }

  /** `Array.prototype.filter`: keeps, in order, the elements satisfying `keep`. */
  function Filter<T(==,!new)>(s: seq<T>, keep: T -> bool): (r: seq<T>)
    ensures |r| <= |s|
    ensures forall i :: 0 <= i < |r| ==> r[i] in s && keep(r[i])
    ensures forall i :: 0 <= i < |s| && keep(s[i]) ==> s[i] in r
    ensures IsSubsequence(r, s)
    ensures forall x :: multiset(r)[x] == if keep(x) then multiset(s)[x] else 0
  {
    if |s| == 0 then []
    else
      assert s == [s[0]] + s[1..];
      if keep(s[0]) then [s[0]] + Filter(s[1..], keep)
      else Filter(s[1..], keep)
  }

  /** `reduce((sum, x) => sum + f(x), 0)`. */
  function SumOf<T>(s: seq<T>, f: T -> int): int
  {
    if |s| == 0 then 0 else f(s[0]) + SumOf(s[1..], f)
  }

  /** Reference definition of a filtered sum: each element contributes
      `f(x)` when it is kept and 0 otherwise. */
  function SumWhere<T>(s: seq<T>, keep: T -> bool, f: T -> int): int
  {
    if |s| == 0 then 0
    else (if keep(s[0]) then f(s[0]) else 0) + SumWhere(s[1..], keep, f)
  }

  /** Summing after filtering is the conditional sum over the whole list. */
  lemma {:induction false} SumOfFilter<T(!new)>(s: seq<T>, keep: T -> bool, f: T -> int)
    ensures SumOf(Filter(s, keep), f) == SumWhere(s, keep, f)
  {
    if |s| > 0 {
      SumOfFilter(s[1..], keep, f);
      if keep(s[0]) {
        assert Filter(s, keep) == [s[0]] + Filter(s[1..], keep);
        assert ([s[0]] + Filter(s[1..], keep))[1..] == Filter(s[1..], keep);
      }
    }
  }

  /** A conditional sum of non-negative contributions is non-negative and
      bounded by the unconditional sum. */
  lemma {:induction false} SumWhereBounds<T>(s: seq<T>, keep: T -> bool, f: T -> int)
    requires forall i :: 0 <= i < |s| ==> f(s[i]) >= 0
    ensures 0 <= SumWhere(s, keep, f) <= SumOf(s, f)
  {
    if |s| > 0 {
      SumWhereBounds(s[1..], keep, f);
    }
  }

  /** A filter whose predicate holds everywhere returns its input. */
  lemma {:induction false} FilterKeepsAll<T(!new)>(s: seq<T>, keep: T -> bool)
    requires forall i :: 0 <= i < |s| ==> keep(s[i])
    ensures Filter(s, keep) == s
  {
    if |s| > 0 {
      FilterKeepsAll(s[1..], keep);
      assert [s[0]] + s[1..] == s;
    }
  }

  /** The elements kept and the elements dropped together account for the
      whole list. */
  lemma {:induction false} FilterComplement<T(!new)>(s: seq<T>, keep: T -> bool, drop: T -> bool)
    requires forall x :: drop(x) == !keep(x)
    ensures |Filter(s, keep)| + |Filter(s, drop)| == |s|
  {
    if |s| > 0 {
      FilterComplement(s[1..], keep, drop);
    }
  }

  /** Keeping the first `n` elements, as `slice(0, n)` does. */
  function Take<T>(s: seq<T>, n: nat): (r: seq<T>)
    ensures |r| == if |s| < n then |s| else n
    ensures r == s[..|r|]
  {
    if |s| < n then s else s[..n]
  }

  /** The set of values `f` takes on `s`: `new Set(s.map(f))`. */
  function Image<T, U>(s: seq<T>, f: T -> U): (r: set<U>)
    ensures |r| <= |s|
    ensures forall i :: 0 <= i < |s| ==> f(s[i]) in r
    ensures forall y :: y in r ==> exists i :: 0 <= i < |s| && f(s[i]) == y
  {
    if |s| == 0 then {}
    else
      var rest := Image(s[1..], f);
      assert forall y :: y in rest ==> exists i :: 0 <= i < |s| && f(s[i]) == y by {
        forall y | y in rest ensures exists i :: 0 <= i < |s| && f(s[i]) == y {
          var j :| 0 <= j < |s[1..]| && f(s[1..][j]) == y;
          assert f(s[j + 1]) == y;
        }
      }
      {f(s[0])} + rest
  }

  /** Two predicates that agree everywhere filter alike. */
  lemma {:induction false} FilterSame<T(!new)>(s: seq<T>, p: T -> bool, q: T -> bool)
    requires forall x :: p(x) == q(x)
    ensures Filter(s, p) == Filter(s, q)
  {
    if |s| > 0 {
      FilterSame(s[1..], p, q);
    }
  }

  /** A subsequence as long as its source is the source itself. */
  lemma {:induction false} SubsequenceOfSameLength<T>(a: seq<T>, b: seq<T>)
    requires IsSubsequence(a, b) && |a| == |b|
    ensures a == b
  {
    if |a| > 0 {
      if a[0] == b[0] {
        SubsequenceOfSameLength(a[1..], b[1..]);
        assert a == [a[0]] + a[1..] && b == [b[0]] + b[1..];
      } else {
        SubsequenceShorter(a, b[1..]);
      }
    }
  }

  /** A subsequence is never longer than its source. */
  lemma {:induction false} SubsequenceShorter<T>(a: seq<T>, b: seq<T>)
    requires IsSubsequence(a, b)
    ensures |a| <= |b|
    decreases |b|
  {
    if |a| > 0 {
      if a[0] == b[0] {
        SubsequenceShorter(a[1..], b[1..]);
      } else {
        SubsequenceShorter(a, b[1..]);
      }
    }
  }

  /** Filtering by a stronger predicate keeps no more elements. */
  lemma {:induction false} FilterWeaker<T(!new)>(s: seq<T>, strong: T -> bool, weak: T -> bool)
    requires forall x :: strong(x) ==> weak(x)
    ensures |Filter(s, strong)| <= |Filter(s, weak)|
  {
    if |s| > 0 {
      FilterWeaker(s[1..], strong, weak);
    }
  }
}
