/** The JavaScript array operations the views are written with (`filter`,
    `find`, `map`, `reduce` to a sum), as recursive functions over sequences,
    with the facts about them that the views' properties rest on. */
module Seqs {

  datatype Option<T> = None | Some(value: T)

  /** `xs.filter(p)`: the elements satisfying `p`, in their original order. */
  function Filter<T>(xs: seq<T>, p: T -> bool): (r: seq<T>)
    ensures |r| <= |xs|
    ensures forall x | x in r :: x in xs && p(x)
    ensures forall k :: 0 <= k < |xs| && p(xs[k]) ==> xs[k] in r
  {
    if xs == [] then []
    else if p(xs[0]) then [xs[0]] + Filter(xs[1..], p)
    else Filter(xs[1..], p)
  }

  /** `xs.find(p)`: the first element satisfying `p`, if any. */
  function Find<T>(xs: seq<T>, p: T -> bool): (r: Option<T>)
    ensures r.None? <==> forall k :: 0 <= k < |xs| ==> !p(xs[k])
    ensures r.Some? ==> exists k :: 0 <= k < |xs| && xs[k] == r.value && p(xs[k]) &&
                          forall j :: 0 <= j < k ==> !p(xs[j])
  {
    if xs == [] then None
    else if p(xs[0]) then Some(xs[0])
    else
      var r := Find(xs[1..], p);
      assert r.Some? ==> exists k :: 1 <= k < |xs| && xs[k] == r.value && p(xs[k]) &&
                           forall j :: 0 <= j < k ==> !p(xs[j]) by {
        if r.Some? {
          var k :| 0 <= k < |xs[1..]| && xs[1..][k] == r.value && p(xs[1..][k]) &&
                   forall j :: 0 <= j < k ==> !p(xs[1..][j]);
          assert xs[k + 1] == r.value;
          forall j | 0 <= j < k + 1 ensures !p(xs[j]) {
            if j > 0 { assert xs[j] == xs[1..][j - 1]; }
          }
        }
      }
      r
  }

  /** `xs.map(f)`. */
  function Map<T, U>(xs: seq<T>, f: T -> U): (r: seq<U>)
    ensures |r| == |xs|
    ensures forall i :: 0 <= i < |xs| ==> r[i] == f(xs[i])
  {
    if xs == [] then [] else [f(xs[0])] + Map(xs[1..], f)
  }

  /** `xs.reduce((acc, x) => acc + f(x), 0)`. */
  function Sum<T>(xs: seq<T>, f: T -> int): int
  {
    if xs == [] then 0 else f(xs[0]) + Sum(xs[1..], f)
  }

  /** Filtering distributes over concatenation: the order of the survivors is
      the order they had. */
  lemma {:induction false} FilterConcat<T>(xs: seq<T>, ys: seq<T>, p: T -> bool)
    ensures Filter(xs + ys, p) == Filter(xs, p) + Filter(ys, p)
  {
    if xs == [] {
      assert xs + ys == ys;
    } else {
      var zs := xs + ys;
      assert zs[0] == xs[0];
      assert zs[1..] == xs[1..] + ys;
      FilterConcat(xs[1..], ys, p);
      FilterCons(zs, p);
      FilterCons(xs, p);
    }
  }

  /** One step of a filter: the first element if it passes, then the rest. */
  lemma FilterCons<T>(xs: seq<T>, p: T -> bool)
    requires xs != []
    ensures Filter(xs, p) == (if p(xs[0]) then [xs[0]] else []) + Filter(xs[1..], p)
  {
  }

  /** A filter that every element passes keeps the whole sequence. */
  lemma {:induction false} FilterAll<T>(xs: seq<T>, p: T -> bool)
    requires forall k :: 0 <= k < |xs| ==> p(xs[k])
    ensures Filter(xs, p) == xs
  {
    if xs != [] {
      FilterAll(xs[1..], p);
      assert [xs[0]] + xs[1..] == xs;
    }
  }

  /** A filter that no element passes keeps nothing. */
  lemma {:induction false} FilterNone<T>(xs: seq<T>, p: T -> bool)
    requires forall k :: 0 <= k < |xs| ==> !p(xs[k])
    ensures Filter(xs, p) == []
  {
    if xs != [] {
      FilterNone(xs[1..], p);
    }
  }

  /** Two filters that select with the same decision on every element agree. */
  lemma {:induction false} FilterSame<T>(xs: seq<T>, p: T -> bool, q: T -> bool)
    requires forall k :: 0 <= k < |xs| ==> p(xs[k]) == q(xs[k])
    ensures Filter(xs, p) == Filter(xs, q)
  {
    if xs != [] {
      FilterSame(xs[1..], p, q);
    }
  }

  lemma {:induction false} SumConcat<T>(xs: seq<T>, ys: seq<T>, f: T -> int)
    ensures Sum(xs + ys, f) == Sum(xs, f) + Sum(ys, f)
  {
    if xs == [] {
      assert xs + ys == ys;
    } else {
      assert (xs + ys)[0] == xs[0];
      assert (xs + ys)[1..] == xs[1..] + ys;
      SumConcat(xs[1..], ys, f);
    }
  }

  /** A sum of non-negative terms is non-negative. */
  lemma {:induction false} SumNonNegative<T>(xs: seq<T>, f: T -> int)
    requires forall k :: 0 <= k < |xs| ==> f(xs[k]) >= 0
    ensures Sum(xs, f) >= 0
  {
    if xs != [] {
      SumNonNegative(xs[1..], f);
    }
  }

  /** A sum of non-negative terms is at least each of its terms. */
  lemma {:induction false} SumAtLeastTerm<T>(xs: seq<T>, f: T -> int, k: int)
    requires forall i :: 0 <= i < |xs| ==> f(xs[i]) >= 0
    requires 0 <= k < |xs|
    ensures Sum(xs, f) >= f(xs[k])
  {
    var tail := xs[1..];
    assert forall i :: 0 <= i < |tail| ==> f(tail[i]) >= 0 by {
      forall i | 0 <= i < |tail| ensures f(tail[i]) >= 0 { assert tail[i] == xs[i + 1]; }
    }
    if k == 0 {
      SumNonNegative(tail, f);
    } else {
      SumAtLeastTerm(tail, f, k - 1);
    }
  }

  /** When every term is non-negative, the sum is non-negative and at least
      each of its terms. */
  lemma SumBounds<T>(xs: seq<T>, f: T -> int)
    ensures (forall k :: 0 <= k < |xs| ==> f(xs[k]) >= 0) ==>
              Sum(xs, f) >= 0 && forall k :: 0 <= k < |xs| ==> Sum(xs, f) >= f(xs[k])
  {
    if forall k :: 0 <= k < |xs| ==> f(xs[k]) >= 0 {
      SumNonNegative(xs, f);
      forall k | 0 <= k < |xs| ensures Sum(xs, f) >= f(xs[k]) {
        SumAtLeastTerm(xs, f, k);
      }
    }
  }

  /** Two selections that never both hold: their sizes add up to at most the
      whole, and their sums add up to the sum over their union. */
  lemma {:induction false} DisjointFilters<T>(xs: seq<T>, p: T -> bool, q: T -> bool, pq: T -> bool, f: T -> int)
    requires forall k :: 0 <= k < |xs| ==> !(p(xs[k]) && q(xs[k]))
    requires forall k :: 0 <= k < |xs| ==> pq(xs[k]) == (p(xs[k]) || q(xs[k]))
    ensures |Filter(xs, p)| + |Filter(xs, q)| == |Filter(xs, pq)|
    ensures Sum(Filter(xs, p), f) + Sum(Filter(xs, q), f) == Sum(Filter(xs, pq), f)
  {
    if xs != [] {
      DisjointFilters(xs[1..], p, q, pq, f);
    }
  }
}
