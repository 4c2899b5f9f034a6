/**
 * The array operations the store and the components are written with —
 * `filter`, `find`, `map` over matching entries and `reduce` into a sum —
 * as recursive functions whose contracts say what each computes.
 */
module Seqs {
  import opened Wrappers

  /** `r` can be obtained from `s` by deleting elements; the order of what is kept is unchanged. */
  predicate IsSubsequence<T(==,!new)>(r: seq<T>, s: seq<T>)
    decreases |s|
  {
    r == [] ||
    (s != [] &&
     ((r[0] == s[0] && IsSubsequence(r[1..], s[1..])) || IsSubsequence(r, s[1..])))
  }

  /** Every list is a subsequence of itself. */
  lemma {:induction false} SubsequenceOfSelf<T(!new)>(s: seq<T>)
    ensures IsSubsequence(s, s)
  {
    if s != [] {
      SubsequenceOfSelf(s[1..]);
    }
  }

  /** A subsequence of a subsequence of `c` is a subsequence of `c`. */
  lemma {:induction false} SubsequenceTransitive<T(!new)>(a: seq<T>, b: seq<T>, c: seq<T>)
    requires IsSubsequence(a, b) && IsSubsequence(b, c)
    ensures IsSubsequence(a, c)
    decreases |c|
  {
    if a == [] {
      return;
    }
    if b[0] == c[0] && IsSubsequence(b[1..], c[1..]) {
      if a[0] == b[0] && IsSubsequence(a[1..], b[1..]) {
        SubsequenceTransitive(a[1..], b[1..], c[1..]);
      } else {
        SubsequenceTransitive(a, b[1..], c[1..]);
      }
    } else {
      SubsequenceTransitive(a, b, c[1..]);
    }
  }

  /**
   * `s.filter(p)`: the elements of `s` that satisfy `p`, each as often as in
   * `s`, none other, in their original order.
   */
  function Filter<T(==,!new)>(s: seq<T>, p: T -> bool): (r: seq<T>)
    ensures |r| <= |s|
    ensures forall i :: 0 <= i < |r| ==> p(r[i])
    ensures forall x :: x in r <==> x in s && p(x)
    ensures forall x :: multiset(r)[x] == if p(x) then multiset(s)[x] else 0
    ensures IsSubsequence(r, s)
  {
    if s == [] then []
    else
      var rest := Filter(s[1..], p);
      assert s == [s[0]] + s[1..];
      if p(s[0]) then [s[0]] + rest else rest
  }

  /** A filter that every element passes returns the list it was given. */
  lemma {:induction false} FilterKeepsAll<T(!new)>(s: seq<T>, p: T -> bool)
    requires forall i :: 0 <= i < |s| ==> p(s[i])
    ensures Filter(s, p) == s
  {
    if s != [] {
      FilterKeepsAll(s[1..], p);
    }
  }

  /** Filters by two predicates that agree on every element return the same list. */
  lemma {:induction false} FilterCongruent<T(!new)>(s: seq<T>, p: T -> bool, q: T -> bool)
    requires forall i :: 0 <= i < |s| ==> p(s[i]) == q(s[i])
    ensures Filter(s, p) == Filter(s, q)
  {
    if s != [] {
      FilterCongruent(s[1..], p, q);
    }
  }

  /** `s.filter(p).length`. */
  function Count<T(==,!new)>(s: seq<T>, p: T -> bool): (n: nat)
    ensures n <= |s|
  {
    |Filter(s, p)|
  }

  /** The position of the first element of `s` satisfying `p`, if any. */
  function FirstIndex<T>(s: seq<T>, p: T -> bool): (r: Option<nat>)
    ensures r.Some? ==> r.value < |s| && p(s[r.value])
    ensures r.Some? ==> forall j :: 0 <= j < r.value ==> !p(s[j])
    ensures r.None? ==> forall j :: 0 <= j < |s| ==> !p(s[j])
  {
    if s == [] then None
    else if p(s[0]) then Some(0)
    else match FirstIndex(s[1..], p)
      case None => None
      case Some(i) => Some(i + 1)
  }

  /** `s.find(p)`, with `undefined` as `None`. */
  function Find<T(==,!new)>(s: seq<T>, p: T -> bool): (r: Option<T>)
    ensures r.Some? ==> r.value in s && p(r.value)
    ensures r.Some? ==> exists i :: 0 <= i < |s| && s[i] == r.value && forall j :: 0 <= j < i ==> !p(s[j])
    ensures r.None? <==> forall x :: x in s ==> !p(x)
  {
    match FirstIndex(s, p)
    case None => None
    case Some(i) => Some(s[i])
  }

  /** `s.map(x => target(x) ? f(x) : x)`: every targeted entry rewritten, every other one kept. */
  function UpdateWhere<T>(s: seq<T>, target: T -> bool, f: T -> T): (r: seq<T>)
    ensures |r| == |s|
    ensures forall i :: 0 <= i < |s| && target(s[i]) ==> r[i] == f(s[i])
    ensures forall i :: 0 <= i < |s| && !target(s[i]) ==> r[i] == s[i]
  {
    if s == [] then []
    else [if target(s[0]) then f(s[0]) else s[0]] + UpdateWhere(s[1..], target, f)
  }

  /** When nothing is targeted, the rewrite returns the list it was given. */
  lemma UpdateWhereNoTarget<T>(s: seq<T>, target: T -> bool, f: T -> T)
    requires forall i :: 0 <= i < |s| ==> !target(s[i])
    ensures UpdateWhere(s, target, f) == s
  {
    var r := UpdateWhere(s, target, f);
    assert |r| == |s|;
    forall i | 0 <= i < |s| ensures r[i] == s[i] { }
  }

  /** `s.reduce((sum, x) => sum + f(x), 0)`. */
  function Sum<T>(s: seq<T>, f: T -> int): int
  {
    if s == [] then 0 else f(s[0]) + Sum(s[1..], f)
  }

  /** A sum of non-negative terms is non-negative. */
  lemma {:induction false} SumNonNegative<T>(s: seq<T>, f: T -> int)
    requires forall i :: 0 <= i < |s| ==> f(s[i]) >= 0
    ensures Sum(s, f) >= 0
  {
    if s != [] {
      SumNonNegative(s[1..], f);
    }
  }

  /** Splitting a list by a predicate and its complement splits its sum. */
  lemma {:induction false} SumSplit<T(!new)>(s: seq<T>, f: T -> int, p: T -> bool, q: T -> bool)
    requires forall x :: q(x) <==> !p(x)
    ensures Sum(Filter(s, p), f) + Sum(Filter(s, q), f) == Sum(s, f)
  {
    if s != [] {
      SumSplit(s[1..], f, p, q);
    }
  }

  /** Splitting a list by a predicate and its complement splits its length. */
  lemma {:induction false} CountSplit<T(!new)>(s: seq<T>, p: T -> bool, q: T -> bool)
    requires forall x :: q(x) <==> !p(x)
    ensures Count(s, p) + Count(s, q) == |s|
  {
    if s != [] {
      CountSplit(s[1..], p, q);
    }
  }

  /** Three predicates of which every element satisfies exactly one split a list's length three ways. */
  lemma {:induction false} CountPartition3<T(!new)>(s: seq<T>, p: T -> bool, q: T -> bool, r: T -> bool)
    requires forall x :: (p(x) ==> !q(x) && !r(x)) && (q(x) ==> !r(x)) && (p(x) || q(x) || r(x))
    ensures Count(s, p) + Count(s, q) + Count(s, r) == |s|
  {
    if s != [] {
      CountPartition3(s[1..], p, q, r);
    }
  }

  /** With non-negative terms, the sums over two exclusive selections add up to at most the whole sum. */
  lemma {:induction false} SumDisjointBound<T(!new)>(s: seq<T>, f: T -> int, p: T -> bool, q: T -> bool)
    requires forall i :: 0 <= i < |s| ==> f(s[i]) >= 0
    requires forall x :: !(p(x) && q(x))
    ensures Sum(Filter(s, p), f) + Sum(Filter(s, q), f) <= Sum(s, f)
  {
    if s != [] {
      SumDisjointBound(s[1..], f, p, q);
    }
  }
}
