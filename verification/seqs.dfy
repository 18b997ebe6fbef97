/** The array primitives the admin code is written with: `filter`, `find`,
    `map` with a per-element choice, and `slice(0, n)`. */
module Seqs {
  import opened Optional

  /** The elements of `xs` that satisfy `p`, in their original order
      (`Array.prototype.filter`). */
  function Filter<T>(xs: seq<T>, p: T -> bool): (r: seq<T>)
    ensures |r| <= |xs|
    ensures forall i :: 0 <= i < |r| ==> r[i] in xs && p(r[i])
    ensures forall x | x in xs :: (x in r <==> p(x))
  {
    if |xs| == 0 then []
    else
      assert xs == [xs[0]] + xs[1..];
      if p(xs[0]) then [xs[0]] + Filter(xs[1..], p) else Filter(xs[1..], p)
  }

  /** `[x]` when `x` passes `p`, `[]` otherwise: what the filter keeps of one
      element. */
  function Keep<T>(x: T, p: T -> bool): (r: seq<T>)
    ensures |r| <= 1
    ensures r == [x] <==> p(x)
  {
    if p(x) then [x] else []
  }

  /** Filtering a list with a given head: the head is kept exactly when it
      passes. */
  lemma FilterCons<T>(x: T, xs: seq<T>, p: T -> bool)
    ensures Filter([x] + xs, p) == Keep(x, p) + Filter(xs, p)
  {
    assert ([x] + xs)[1..] == xs;
  }

  /** A filter over a three-element list, one element at a time. */
  lemma FilterThree<T>(a: T, b: T, c: T, p: T -> bool)
    ensures Filter([a, b, c], p) == Keep(a, p) + (Keep(b, p) + Keep(c, p))
  {
    FilterCons(c, [], p);
    assert [c] + [] == [c];
    assert Keep(c, p) + [] == Keep(c, p);
    FilterCons(b, [c], p);
    assert [b] + [c] == [b, c];
    FilterCons(a, [b, c], p);
    assert [a] + [b, c] == [a, b, c];
  }

  /** A filter over a four-element list, one element at a time. */
  lemma FilterFour<T>(a: T, b: T, c: T, d: T, p: T -> bool)
    ensures Filter([a, b, c, d], p) == Keep(a, p) + (Keep(b, p) + (Keep(c, p) + Keep(d, p)))
  {
    assert [a, b, c, d] == [a] + [b, c, d];
    FilterCons(a, [b, c, d], p);
    FilterThree(b, c, d, p);
  }

  /** A filter over a six-element list, one element at a time. */
  lemma FilterSix<T>(a: T, b: T, c: T, d: T, e: T, f: T, p: T -> bool)
    ensures Filter([a, b, c, d, e, f], p) ==
      (Keep(a, p) + (Keep(b, p) + Keep(c, p))) + (Keep(d, p) + (Keep(e, p) + Keep(f, p)))
  {
    assert [a, b, c, d, e, f] == [a, b, c] + [d, e, f];
    FilterAppend([a, b, c], [d, e, f], p);
    FilterThree(a, b, c, p);
    FilterThree(d, e, f, p);
  }

  /** Filtering six elements of which exactly the first three pass. */
  lemma FilterFirstThreeOfSix<T>(a: T, b: T, c: T, d: T, e: T, f: T, p: T -> bool)
    requires p(a) && p(b) && p(c)
    requires !p(d) && !p(e) && !p(f)
    ensures Filter([a, b, c, d, e, f], p) == [a, b, c]
  {
    FilterSix(a, b, c, d, e, f, p);
    assert Keep(a, p) + (Keep(b, p) + Keep(c, p)) == [a, b, c];
    assert Keep(d, p) + (Keep(e, p) + Keep(f, p)) == [];
  }

  /** Filtering six elements of which exactly the first, third and fifth
      pass. */
  lemma FilterOddOfSix<T>(a: T, b: T, c: T, d: T, e: T, f: T, p: T -> bool)
    requires p(a) && p(c) && p(e)
    requires !p(b) && !p(d) && !p(f)
    ensures Filter([a, b, c, d, e, f], p) == [a, c, e]
  {
    FilterSix(a, b, c, d, e, f, p);
    assert Keep(a, p) + (Keep(b, p) + Keep(c, p)) == [a, c];
    assert Keep(d, p) + (Keep(e, p) + Keep(f, p)) == [e];
  }

  /** Filtering six elements of which exactly the second, fourth and sixth
      pass. */
  lemma FilterEvenOfSix<T>(a: T, b: T, c: T, d: T, e: T, f: T, p: T -> bool)
    requires !p(a) && !p(c) && !p(e)
    requires p(b) && p(d) && p(f)
    ensures Filter([a, b, c, d, e, f], p) == [b, d, f]
  {
    FilterSix(a, b, c, d, e, f, p);
    assert Keep(a, p) + (Keep(b, p) + Keep(c, p)) == [b];
    assert Keep(d, p) + (Keep(e, p) + Keep(f, p)) == [d, f];
  }

  /** Filtering distributes over concatenation: the relative order of the
      kept elements is the order they had in the input. */
  lemma {:induction false} FilterAppend<T>(xs: seq<T>, ys: seq<T>, p: T -> bool)
    ensures Filter(xs + ys, p) == Filter(xs, p) + Filter(ys, p)
  {
    if |xs| == 0 {
      assert xs + ys == ys;
    } else {
      assert (xs + ys)[1..] == xs[1..] + ys;
      FilterAppend(xs[1..], ys, p);
    }
  }

  /** A filter that keeps every element returns its input. */
  lemma {:induction false} FilterKeepsAll<T>(xs: seq<T>, p: T -> bool)
    requires forall x :: x in xs ==> p(x)
    ensures Filter(xs, p) == xs
  {
    if |xs| > 0 {
      FilterKeepsAll(xs[1..], p);
    }
  }

  /** Filtering twice by the same test is filtering once. */
  lemma FilterIdempotent<T>(xs: seq<T>, p: T -> bool)
    ensures Filter(Filter(xs, p), p) == Filter(xs, p)
  {
    FilterKeepsAll(Filter(xs, p), p);
  }

  /** Two tests that no element passes both select at most |xs| elements
      between them. */
  lemma {:induction false} FilterDisjointLength<T>(xs: seq<T>, p: T -> bool, q: T -> bool)
    requires forall x :: x in xs ==> !(p(x) && q(x))
    ensures |Filter(xs, p)| + |Filter(xs, q)| <= |xs|
  {
    if |xs| > 0 {
      FilterDisjointLength(xs[1..], p, q);
    }
  }

  /** Two tests that every element passes exactly one of partition the input:
      the lengths of the two filters add up to its length. */
  lemma {:induction false} FilterPartitionLength<T>(xs: seq<T>, p: T -> bool, q: T -> bool)
    requires forall x :: x in xs ==> (p(x) <==> !q(x))
    ensures |Filter(xs, p)| + |Filter(xs, q)| == |xs|
  {
    if |xs| > 0 {
      FilterPartitionLength(xs[1..], p, q);
    }
  }

  /** The first element of `xs` that satisfies `p`, or `None`
      (`Array.prototype.find`). */
  function Find<T>(xs: seq<T>, p: T -> bool): (r: Option<T>)
    ensures r.None? <==> forall i :: 0 <= i < |xs| ==> !p(xs[i])
    ensures r.Some? ==>
      (exists i :: 0 <= i < |xs| && xs[i] == r.value && p(xs[i]) &&
        (forall j :: 0 <= j < i ==> !p(xs[j])))
  {
    if |xs| == 0 then None
    else if p(xs[0]) then Some(xs[0])
    else
      var r := Find(xs[1..], p);
      assert r.Some? ==>
        (exists i :: 1 <= i < |xs| && xs[i] == r.value && p(xs[i]) &&
          (forall j :: 0 <= j < i ==> !p(xs[j]))) by {
        if r.Some? {
          var i :| 0 <= i < |xs[1..]| && xs[1..][i] == r.value && p(xs[1..][i]) &&
            forall j :: 0 <= j < i ==> !p(xs[1..][j]);
          assert xs[i + 1] == r.value;
          assert forall j :: 0 <= j < i + 1 ==> !p(xs[j]) by {
            forall j | 0 <= j < i + 1 ensures !p(xs[j]) {
              if j > 0 {
                assert xs[j] == xs[1..][j - 1];
              }
            }
          }
        }
      }
      r
  }

  /** `xs` with every element that satisfies `sel` replaced by `f` of it and
      every other element left as it was (`xs.map(x => sel(x) ? f(x) : x)`). */
  function MapWhere<T>(xs: seq<T>, sel: T -> bool, f: T -> T): (r: seq<T>)
    ensures |r| == |xs|
    ensures forall i :: 0 <= i < |xs| ==> r[i] == if sel(xs[i]) then f(xs[i]) else xs[i]
  {
    if |xs| == 0 then []
    else [if sel(xs[0]) then f(xs[0]) else xs[0]] + MapWhere(xs[1..], sel, f)
  }

  /** The first `n` elements of `xs`, or all of them when there are fewer
      (`xs.slice(0, n)`). */
  function Take<T>(xs: seq<T>, n: nat): (r: seq<T>)
    ensures |r| == if n < |xs| then n else |xs|
    ensures r == xs[..|r|]
  {
    if n < |xs| then xs[..n] else xs
  }
}
