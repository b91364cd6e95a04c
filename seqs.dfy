/**
 * The list operations the application's code is written with:
 * `filter`, `filter(...).length` and `reduce` sums, and `slice`.
 */
module Seqs {
  /** `xs.filter(p)`. */
  function Filter<T>(xs: seq<T>, p: T -> bool): (r: seq<T>)
    ensures |r| <= |xs|
    ensures forall i :: 0 <= i < |r| ==> p(r[i])
    ensures forall i :: 0 <= i < |r| ==> r[i] in xs
  {
    if xs == [] then []
    else if p(xs[0]) then [xs[0]] + Filter(xs[1..], p)
    else Filter(xs[1..], p)
  }

  /** An element of `xs` that satisfies `p` survives the filter. */
  lemma {:induction false} FilterKeeps<T>(xs: seq<T>, p: T -> bool, i: nat)
    requires i < |xs| && p(xs[i])
    ensures xs[i] in Filter(xs, p)
  {
    if i > 0 {
      FilterKeeps(xs[1..], p, i - 1);
    }
  }

  lemma FilterMembership<T>(xs: seq<T>, p: T -> bool)
    ensures forall x :: x in Filter(xs, p) <==> x in xs && p(x)
  {
    forall x | x in xs && p(x) ensures x in Filter(xs, p) {
      var i :| 0 <= i < |xs| && xs[i] == x;
      FilterKeeps(xs, p, i);
    }
  }

  /** `r` is `xs` with some elements removed and the rest kept in order. */
  predicate IsSubsequence<T(==)>(r: seq<T>, xs: seq<T>)
    decreases |xs|
  {
    if r == [] then true
    else if xs == [] then false
    else (r[0] == xs[0] && IsSubsequence(r[1..], xs[1..])) || IsSubsequence(r, xs[1..])
  }

  lemma {:induction false} FilterIsSubsequence<T>(xs: seq<T>, p: T -> bool)
    ensures IsSubsequence(Filter(xs, p), xs)
  {
    if xs != [] {
      FilterIsSubsequence(xs[1..], p);
      if p(xs[0]) {
        assert Filter(xs, p)[1..] == Filter(xs[1..], p);
      }
    }
  }

  lemma {:induction false} FilterConcat<T>(a: seq<T>, b: seq<T>, p: T -> bool)
    ensures Filter(a + b, p) == Filter(a, p) + Filter(b, p)
  {
    if a == [] {
      assert a + b == b;
    } else {
      assert (a + b)[1..] == a[1..] + b;
      FilterConcat(a[1..], b, p);
    }
  }

  /** A filter whose predicate holds everywhere keeps the list as it is. */
  lemma {:induction false} FilterAll<T>(xs: seq<T>, p: T -> bool)
    requires forall i :: 0 <= i < |xs| ==> p(xs[i])
    ensures Filter(xs, p) == xs
  {
    if xs != [] {
      FilterAll(xs[1..], p);
      assert xs == [xs[0]] + xs[1..];
    }
  }

  /** Two predicates that agree on every element filter alike. */
  lemma {:induction false} FilterSame<T>(xs: seq<T>, p: T -> bool, q: T -> bool)
    requires forall i :: 0 <= i < |xs| ==> p(xs[i]) == q(xs[i])
    ensures Filter(xs, p) == Filter(xs, q)
  {
    if xs != [] {
      FilterSame(xs[1..], p, q);
    }
  }

  /** `xs.filter(p).length`. */
  function Count<T>(xs: seq<T>, p: T -> bool): nat
  {
    |Filter(xs, p)|
  }

  lemma {:induction false} CountConcat<T>(a: seq<T>, b: seq<T>, p: T -> bool)
    ensures Count(a + b, p) == Count(a, p) + Count(b, p)
  {
    FilterConcat(a, b, p);
  }

  /**
   * Three mutually exclusive predicates count at most the whole list, and
   * exactly the whole list when every element satisfies one of them.
   */
  lemma {:induction false} CountThree<T>(xs: seq<T>, p: T -> bool, q: T -> bool, s: T -> bool)
    requires forall x :: !(p(x) && q(x)) && !(p(x) && s(x)) && !(q(x) && s(x))
    ensures Count(xs, p) + Count(xs, q) + Count(xs, s) <= |xs|
    ensures (forall i :: 0 <= i < |xs| ==> p(xs[i]) || q(xs[i]) || s(xs[i]))
            ==> Count(xs, p) + Count(xs, q) + Count(xs, s) == |xs|
  {
    if xs != [] {
      CountThree(xs[1..], p, q, s);
    }
  }

  /** Two mutually exclusive predicates count at most the whole list. */
  lemma {:induction false} CountTwo<T>(xs: seq<T>, p: T -> bool, q: T -> bool)
    requires forall x :: !(p(x) && q(x))
    ensures Count(xs, p) + Count(xs, q) <= |xs|
  {
    if xs != [] {
      CountTwo(xs[1..], p, q);
    }
  }

  /** `xs.reduce((acc, x) => acc + f(x), 0)`. */
  function Sum<T>(xs: seq<T>, f: T -> int): int
  {
    if xs == [] then 0 else f(xs[0]) + Sum(xs[1..], f)
  }

  lemma {:induction false} SumConcat<T>(a: seq<T>, b: seq<T>, f: T -> int)
    ensures Sum(a + b, f) == Sum(a, f) + Sum(b, f)
  {
    if a == [] {
      assert a + b == b;
    } else {
      assert (a + b)[1..] == a[1..] + b;
      SumConcat(a[1..], b, f);
    }
  }

  lemma {:induction false} SumNonNegative<T>(xs: seq<T>, f: T -> int)
    requires forall i :: 0 <= i < |xs| ==> f(xs[i]) >= 0
    ensures Sum(xs, f) >= 0
  {
    if xs != [] {
      SumNonNegative(xs[1..], f);
    }
  }

  /** `xs.map(f)`. */
  function Map<T, U>(xs: seq<T>, f: T -> U): (r: seq<U>)
    ensures |r| == |xs|
    ensures forall i :: 0 <= i < |xs| ==> r[i] == f(xs[i])
  {
    seq(|xs|, i requires 0 <= i < |xs| => f(xs[i]))
  }

  /** JavaScript's `xs.slice(start, end)`, negative arguments counting from the end. */
  function Slice<T>(xs: seq<T>, start: int, end: int): (r: seq<T>)
    ensures |r| <= |xs|
  {
    var n := |xs|;
    var s := if start < 0 then (if n + start < 0 then 0 else n + start) else (if start > n then n else start);
    var e := if end < 0 then (if n + end < 0 then 0 else n + end) else (if end > n then n else end);
    if s < e then xs[s..e] else []
  }

  /** For non-negative arguments `slice` is the clipped contiguous range. */
  lemma SliceNonNegative<T>(xs: seq<T>, start: nat, end: nat)
    requires start <= end
    ensures Slice(xs, start, end) == if start >= |xs| then [] else xs[start..if end > |xs| then |xs| else end]
  {
  }

  /** What the element at `k` contributes to the count and the sum of a filter. */
  lemma FilterSumWithout<T>(b: seq<T>, k: nat, p: T -> bool, f: T -> int)
    requires k < |b|
    ensures |Filter(b, p)| == (if p(b[k]) then 1 else 0) + |Filter(b[..k] + b[k + 1..], p)|
    ensures Sum(Filter(b, p), f) == (if p(b[k]) then f(b[k]) else 0) + Sum(Filter(b[..k] + b[k + 1..], p), f)
  {
    var x, y := b[..k], b[k + 1..];
    assert b == x + ([b[k]] + y);
    FilterConcat(x, [b[k]] + y, p);
    FilterConcat([b[k]], y, p);
    FilterConcat(x, y, p);
    var m := Filter([b[k]], p);
    assert m == if p(b[k]) then [b[k]] else [];
    SumConcat(Filter(x, p), m + Filter(y, p), f);
    SumConcat(m, Filter(y, p), f);
    SumConcat(Filter(x, p), Filter(y, p), f);
  }

  /** The count and the sum of a filter do not depend on the order of the list. */
  lemma {:induction false} FilterSumPermutation<T>(a: seq<T>, b: seq<T>, p: T -> bool, f: T -> int)
    requires multiset(a) == multiset(b)
    ensures |Filter(a, p)| == |Filter(b, p)|
    ensures Sum(Filter(a, p), f) == Sum(Filter(b, p), f)
    decreases |a|
  {
    if a == [] {
      assert |b| == |multiset(b)| == 0;
    } else {
      var k := MatchHead(a, b);
      FilterSumPermutation(a[1..], b[..k] + b[k + 1..], p, f);
      FilterSumWithout(a, 0, p, f);
      FilterSumWithout(b, k, p, f);
    }
  }

  /** The first element of `a` sits at some `k` in a permutation `b`, and the rests are permutations too. */
  lemma MatchHead<T>(a: seq<T>, b: seq<T>) returns (k: nat)
    requires a != [] && multiset(a) == multiset(b)
    ensures k < |b| && b[k] == a[0]
    ensures a[..0] + a[1..] == a[1..]
    ensures multiset(a[1..]) == multiset(b[..k] + b[k + 1..])
  {
    assert a == [a[0]] + a[1..];
    assert multiset(a) == multiset{a[0]} + multiset(a[1..]);
    k := IndexOf(b, a[0]);
    MultisetWithout(b, k);
    assert a[..0] == [];
  }

  /** Taking out the element at `k` takes one occurrence of it out of the multiset. */
  lemma MultisetWithout<T>(b: seq<T>, k: nat)
    requires k < |b|
    ensures multiset(b[..k] + b[k + 1..]) == multiset(b) - multiset{b[k]}
  {
    assert b == b[..k] + [b[k]] + b[k + 1..];
  }

  /** An element of a sequence sits at some index. */
  lemma IndexOf<T>(b: seq<T>, x: T) returns (k: nat)
    requires x in multiset(b)
    ensures k < |b| && b[k] == x
  {
    assert x in b;
    k :| 0 <= k < |b| && b[k] == x;
  }

  lemma NonEmptyHasElement<T>(s: set<T>)
    requires s != {}
    ensures exists x :: x in s
  {
    if forall x :: x !in s {
      assert false;
    }
  }

  /** Some element of a non-empty set: the next row a `for` loop over a query result visits. */
  method Pick<T>(s: set<T>) returns (x: T)
    requires s != {}
    ensures x in s
  {
    NonEmptyHasElement(s);
    x :| x in s;
  }
}
