/** Sequence helpers shared by the descriptor modules: mapping, filtering,
    summation and the permutation facts that make every reduction of the
    engine independent of atom order. Sums are built from the end so that a
    loop that appends or accumulates left to right matches them step by step. */
module Seqs {

  function Map<A, B>(s: seq<A>, f: A -> B): (r: seq<B>)
    ensures |r| == |s|
    ensures forall i :: 0 <= i < |s| ==> r[i] == f(s[i])
  {
    seq(|s|, i requires 0 <= i < |s| => f(s[i]))
  }

  /** The elements of `s` that satisfy `p`, in their original order (a list comprehension with a guard). */
  function Filter<A>(s: seq<A>, p: A -> bool): (r: seq<A>)
    ensures |r| <= |s|
    ensures forall x :: x in r ==> x in s && p(x)
    ensures forall x :: x in s && p(x) ==> x in r
  {
    if s == [] then []
    else
      var rest := Filter(s[..|s| - 1], p);
      if p(s[|s| - 1]) then rest + [s[|s| - 1]] else rest
  }

  /** Filtering keeps every occurrence of a value that passes and none of one
      that fails, so repeated values keep their multiplicity. */
  lemma {:induction false} FilterMultiset<A>(s: seq<A>, p: A -> bool)
    ensures forall x :: x in s ==> multiset(Filter(s, p))[x] == if p(x) then multiset(s)[x] else 0
    decreases |s|
  {
    if s != [] {
      var n := |s| - 1;
      FilterMultiset(s[..n], p);
      assert s == s[..n] + [s[n]];
      FilterSnoc(s[..n], s[n], p);
      forall x | x in s
        ensures multiset(Filter(s, p))[x] == if p(x) then multiset(s)[x] else 0
      {
        if x !in s[..n] {
          assert multiset(s[..n])[x] == 0;
          assert multiset(Filter(s[..n], p))[x] == 0;
        }
      }
    }
  }

  /** Number of elements satisfying `p` (`sum(1 for x in s if p(x))`). */
  function Count<A>(s: seq<A>, p: A -> bool): nat
  {
    |Filter(s, p)|
  }

  function Sum(s: seq<real>): real
  {
    if s == [] then 0.0 else Sum(s[..|s| - 1]) + s[|s| - 1]
  }

  function SumOf<A>(s: seq<A>, f: A -> real): real
  {
    Sum(Map(s, f))
  }

  lemma SumSnoc(s: seq<real>, x: real)
    ensures Sum(s + [x]) == Sum(s) + x
  {
    assert (s + [x])[..|s|] == s;
  }

  lemma SumOfSnoc<A>(s: seq<A>, x: A, f: A -> real)
    ensures SumOf(s + [x], f) == SumOf(s, f) + f(x)
  {
    assert Map(s + [x], f) == Map(s, f) + [f(x)];
    SumSnoc(Map(s, f), f(x));
  }

  lemma FilterSnoc<A>(s: seq<A>, x: A, p: A -> bool)
    ensures Filter(s + [x], p) == if p(x) then Filter(s, p) + [x] else Filter(s, p)
  {
    assert (s + [x])[..|s|] == s;
  }

  lemma {:induction false} SumConcat(u: seq<real>, v: seq<real>)
    ensures Sum(u + v) == Sum(u) + Sum(v)
    decreases |v|
  {
    if v == [] {
      assert u + v == u;
    } else {
      var w := v[..|v| - 1];
      assert u + v == (u + w) + [v[|v| - 1]];
      assert v == w + [v[|v| - 1]];
      SumConcat(u, w);
      SumSnoc(u + w, v[|v| - 1]);
      SumSnoc(w, v[|v| - 1]);
    }
  }

  /** Summation does not depend on order: two sequences holding the same
      multiset of values have the same sum. */
  lemma {:induction false} SumPermutation(a: seq<real>, b: seq<real>)
    requires multiset(a) == multiset(b)
    ensures Sum(a) == Sum(b)
    decreases |a|
  {
    if a == [] {
      assert |b| == |multiset(b)| == 0;
    } else {
      var n := |a| - 1;
      var x := a[n];
      var k := MatchLast(a, b);
      var rest := b[..k] + b[k + 1..];
      SumPermutation(a[..n], rest);
      SumSnoc(a[..n], x);
      SumConcat(b[..k] + [x], b[k + 1..]);
      SumSnoc(b[..k], x);
      SumConcat(b[..k], b[k + 1..]);
    }
  }

  /** When b is a permutation of a non-empty a, some position of b holds the last
      element of a, and removing it leaves a permutation of the rest of a. */
  lemma MatchLast<A>(a: seq<A>, b: seq<A>) returns (k: nat)
    requires a != [] && multiset(a) == multiset(b)
    ensures k < |b| && b[k] == a[|a| - 1] && a == a[..|a| - 1] + [b[k]]
    ensures b == b[..k] + [b[k]] + b[k + 1..]
    ensures multiset(a[..|a| - 1]) == multiset(b[..k] + b[k + 1..])
  {
    var n := |a| - 1;
    var x := a[n];
    assert a == a[..n] + [x];
    assert x in multiset(a);
    k :| 0 <= k < |b| && b[k] == x;
    var rest := b[..k] + b[k + 1..];
    assert b == b[..k] + [x] + b[k + 1..];
    assert multiset(b) == multiset(rest) + multiset{x};
    assert multiset(a) == multiset(a[..n]) + multiset{x};
    assert multiset(a[..n]) == multiset(a) - multiset{x} == multiset(b) - multiset{x} == multiset(rest);
  }

  /** Mapping preserves "is a permutation of". */
  lemma {:induction false} MapPermutation<A, B>(a: seq<A>, b: seq<A>, f: A -> B)
    requires multiset(a) == multiset(b)
    ensures multiset(Map(a, f)) == multiset(Map(b, f))
    decreases |a|
  {
    if a == [] {
      assert |b| == |multiset(b)| == 0;
      assert b == [];
    } else {
      var n := |a| - 1;
      var x := a[n];
      var k := MatchLast(a, b);
      var rest := b[..k] + b[k + 1..];
      MapPermutation(a[..n], rest, f);
      MapConcat(a[..n], [x], f);
      MapConcat(b[..k] + [x], b[k + 1..], f);
      MapConcat(b[..k], [x], f);
      MapConcat(b[..k], b[k + 1..], f);
    }
  }

  lemma MapConcat<A, B>(u: seq<A>, v: seq<A>, f: A -> B)
    ensures Map(u + v, f) == Map(u, f) + Map(v, f)
  {
  }

  lemma {:induction false} FilterConcat<A>(u: seq<A>, v: seq<A>, p: A -> bool)
    ensures Filter(u + v, p) == Filter(u, p) + Filter(v, p)
    decreases |v|
  {
    if v == [] {
      assert u + v == u;
    } else {
      var w := v[..|v| - 1];
      assert u + v == (u + w) + [v[|v| - 1]];
      assert v == w + [v[|v| - 1]];
      FilterConcat(u, w, p);
      FilterSnoc(u + w, v[|v| - 1], p);
      FilterSnoc(w, v[|v| - 1], p);
    }
  }

  /** Filtering preserves "is a permutation of". */
  lemma {:induction false} FilterPermutation<A>(a: seq<A>, b: seq<A>, p: A -> bool)
    requires multiset(a) == multiset(b)
    ensures multiset(Filter(a, p)) == multiset(Filter(b, p))
    decreases |a|
  {
    if a == [] {
      assert |b| == |multiset(b)| == 0;
      assert b == [];
    } else {
      var n := |a| - 1;
      var x := a[n];
      var k := MatchLast(a, b);
      var rest := b[..k] + b[k + 1..];
      FilterPermutation(a[..n], rest, p);
      FilterSnoc(a[..n], x, p);
      FilterConcat(b[..k] + [x], b[k + 1..], p);
      FilterSnoc(b[..k], x, p);
      FilterConcat(b[..k], b[k + 1..], p);
    }
  }

  lemma SumOfPermutation<A>(a: seq<A>, b: seq<A>, f: A -> real)
    requires multiset(a) == multiset(b)
    ensures SumOf(a, f) == SumOf(b, f)
  {
    MapPermutation(a, b, f);
    SumPermutation(Map(a, f), Map(b, f));
  }

  /** A sum of non-negative terms is non-negative and at least each of its terms. */
  lemma {:induction false} SumOfNonNegative<A>(s: seq<A>, f: A -> real, k: nat)
    requires forall x :: x in s ==> f(x) >= 0.0
    requires k < |s|
    ensures SumOf(s, f) >= f(s[k]) >= 0.0
    decreases |s|
  {
    var n := |s| - 1;
    assert s == s[..n] + [s[n]];
    SumOfSnoc(s[..n], s[n], f);
    if k < n {
      SumOfNonNegative(s[..n], f, k);
    } else if n > 0 {
      SumOfNonNegative(s[..n], f, 0);
    } else {
      assert s[..n] == [];
      assert Map(s[..n], f) == [];
    }
  }

  lemma {:induction false} SumBounds(s: seq<real>, lo: real, hi: real)
    requires forall i :: 0 <= i < |s| ==> lo <= s[i] <= hi
    ensures lo * |s| as real <= Sum(s) <= hi * |s| as real
    decreases |s|
  {
    if s != [] {
      SumBounds(s[..|s| - 1], lo, hi);
    }
  }

  lemma SumOfNonNegativeAll<A>(s: seq<A>, f: A -> real)
    requires forall x :: x in s ==> f(x) >= 0.0
    ensures SumOf(s, f) >= 0.0
  {
    if s != [] {
      SumOfNonNegative(s, f, 0);
    }
  }

  /** A sum of terms each at most `hi` is at most `hi` times the number of terms. */
  lemma SumOfAtMost<A>(s: seq<A>, f: A -> real, lo: real, hi: real)
    requires forall x :: x in s ==> lo <= f(x) <= hi
    ensures lo * |s| as real <= SumOf(s, f) <= hi * |s| as real
  {
    var m := Map(s, f);
    forall i | 0 <= i < |m|
      ensures lo <= m[i] <= hi
    {
      assert s[i] in s;
    }
    SumBounds(m, lo, hi);
  }

  /** A flag that is set. */
  predicate Holds(flag: bool)
  {
    flag
  }

  /** Counting the set flags of a mask built with `p` counts the elements satisfying `p`. */
  lemma {:induction false} CountMapped<A>(s: seq<A>, p: A -> bool)
    ensures Count(Map(s, p), Holds) == Count(s, p)
    decreases |s|
  {
    if s != [] {
      var n := |s| - 1;
      CountMapped(s[..n], p);
      assert s == s[..n] + [s[n]];
      assert Map(s, p) == Map(s[..n], p) + [p(s[n])];
      FilterSnoc(s[..n], s[n], p);
      FilterSnoc(Map(s[..n], p), p(s[n]), Holds);
    }
  }

  /** The positions of the set flags of a mask, in increasing order. */
  function SelectedIndices(mask: seq<bool>): (r: seq<nat>)
    ensures |r| <= |mask|
    ensures forall k :: 0 <= k < |r| ==> r[k] < |mask| && mask[r[k]]
    ensures forall i :: 0 <= i < |mask| && mask[i] ==> i in r
    ensures forall j, k :: 0 <= j < k < |r| ==> r[j] < r[k]
  {
    if mask == [] then []
    else
      var rest := SelectedIndices(mask[..|mask| - 1]);
      if mask[|mask| - 1] then rest + [|mask| - 1] else rest
  }

  /** One index is selected per set flag: the number of selected indices is
      `sum(1 for flag in mask if flag)`. */
  lemma {:induction false} SelectedCount(mask: seq<bool>)
    ensures |SelectedIndices(mask)| == Count(mask, Holds)
    decreases |mask|
  {
    if mask != [] {
      var n := |mask| - 1;
      SelectedCount(mask[..n]);
      assert mask == mask[..n] + [mask[n]];
      FilterSnoc(mask[..n], mask[n], Holds);
    }
  }

  lemma SelectedIndicesSnoc(mask: seq<bool>, flag: bool)
    ensures SelectedIndices(mask + [flag]) == if flag then SelectedIndices(mask) + [|mask|] else SelectedIndices(mask)
  {
    assert (mask + [flag])[..|mask|] == mask;
  }

  /** One more pair adds its first part exactly when `p` holds on its second part. */
  lemma FilterZipSnoc<A, B>(a: seq<A>, b: seq<B>, p: B -> bool, q: ((A, B)) -> bool, first: ((A, B)) -> A)
    requires |a| == |b| > 0
    requires forall pr :: q(pr) == p(pr.1)
    requires forall pr :: first(pr) == pr.0
    ensures var n := |a| - 1;
            Map(Filter(Zip(a, b), q), first)
              == Map(Filter(Zip(a[..n], b[..n]), q), first) + (if p(b[n]) then [a[n]] else [])
  {
    var n := |a| - 1;
    var pairs := Zip(a[..n], b[..n]);
    assert Zip(a, b) == pairs + [(a[n], b[n])];
    FilterSnoc(pairs, (a[n], b[n]), q);
    MapConcat(Filter(pairs, q), [(a[n], b[n])], first);
  }

  /** The entries of `a` whose flag in `mask` is set, in order: one entry per
      selected index. */
  function Select<A>(a: seq<A>, mask: seq<bool>): (r: seq<A>)
    requires |a| == |mask|
    ensures |r| == |SelectedIndices(mask)|
    ensures forall k :: 0 <= k < |r| ==> SelectedIndices(mask)[k] < |a| && r[k] == a[SelectedIndices(mask)[k]]
  {
    if a == [] then []
    else
      var n := |a| - 1;
      var rest := Select(a[..n], mask[..n]);
      assert mask == mask[..n] + [mask[n]];
      SelectedIndicesSnoc(mask[..n], mask[n]);
      var r := if mask[n] then rest + [a[n]] else rest;
      assert forall k :: 0 <= k < |r| ==> SelectedIndices(mask)[k] < |a| && r[k] == a[SelectedIndices(mask)[k]] by {
        var idx, before := SelectedIndices(mask), SelectedIndices(mask[..n]);
        forall k | 0 <= k < |r|
          ensures idx[k] < |a| && r[k] == a[idx[k]]
        {
          if k < |rest| {
            assert idx[k] == before[k] && r[k] == rest[k];
          } else {
            assert idx[k] == n && r[k] == a[n];
          }
        }
      }
      r
  }

  /** Keeping the pairs whose second part passes `p` and projecting on the
      first part is selecting the entries of `a` by the mask of `p` over `b`. */
  lemma {:induction false} FilterZipSelects<A, B>(a: seq<A>, b: seq<B>, p: B -> bool,
                                                  q: ((A, B)) -> bool, first: ((A, B)) -> A)
    requires |a| == |b|
    requires forall pr :: q(pr) == p(pr.1)
    requires forall pr :: first(pr) == pr.0
    ensures Map(Filter(Zip(a, b), q), first) == Select(a, Map(b, p))
    decreases |a|
  {
    if a != [] {
      var n := |a| - 1;
      FilterZipSelects(a[..n], b[..n], p, q, first);
      FilterZipSnoc(a, b, p, q, first);
      assert Map(b, p)[..n] == Map(b[..n], p);
    }
  }

  /** The test "is exactly `symbol`". */
  function IsSymbol(symbol: string): string -> bool
  {
    e => e == symbol
  }

  /** One flag per atom, set exactly at the entries equal to `symbol`; it has as
      many set flags as there are such entries. */
  function ElementMask(elements: seq<string>, symbol: string): (r: seq<bool>)
    ensures |r| == |elements|
    ensures forall i :: 0 <= i < |r| ==> r[i] == (elements[i] == symbol)
    ensures Count(r, Holds) == Count(elements, IsSymbol(symbol))
  {
    CountMapped(elements, IsSymbol(symbol));
    Map(elements, IsSymbol(symbol))
  }

  /** Counting does not depend on order. */
  lemma CountPermutation<A>(a: seq<A>, b: seq<A>, p: A -> bool)
    requires multiset(a) == multiset(b)
    ensures Count(a, p) == Count(b, p)
  {
    FilterPermutation(a, b, p);
    calc {
      Count(a, p);
      |multiset(Filter(a, p))|;
      |multiset(Filter(b, p))|;
      Count(b, p);
    }
  }

  /** Pairs of corresponding elements, as long as the shorter input (`zip`). */
  function Zip<A, B>(a: seq<A>, b: seq<B>): (r: seq<(A, B)>)
    ensures |r| == if |a| <= |b| then |a| else |b|
    ensures forall i :: 0 <= i < |r| ==> r[i] == (a[i], b[i])
  {
    var n := if |a| <= |b| then |a| else |b|;
    seq(n, i requires 0 <= i < n => (a[i], b[i]))
  }

  function Fst<A, B>(pr: (A, B)): A { pr.0 }

  function Snd<A, B>(pr: (A, B)): B { pr.1 }

  lemma ZipFirst<A, B>(a: seq<A>, b: seq<B>)
    requires |a| == |b|
    ensures Map(Zip(a, b), Fst) == a
  {
  }

  lemma ZipSecond<A, B>(a: seq<A>, b: seq<B>)
    requires |a| == |b|
    ensures Map(Zip(a, b), Snd) == b
  {
  }

  lemma TakeSnoc<A>(s: seq<A>, k: nat)
    requires k < |s|
    ensures s[..k + 1] == s[..k] + [s[k]]
  {
  }
}
