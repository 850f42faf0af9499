/** The array operations the layout uses: `map`, and `filter` with a predicate and with
    its negation. */
module Lists {

  /** `xs.map(f)`: `f` applied to each element, in order. */
  function Map<T, U>(xs: seq<T>, f: T -> U): (ys: seq<U>)
    ensures |ys| == |xs|
    ensures forall i :: 0 <= i < |xs| ==> ys[i] == f(xs[i])
  {
    if xs == [] then [] else [f(xs[0])] + Map(xs[1..], f)
  }

  /** `xs.filter(p)`: the elements satisfying `p`, in order. */
  function Filter<T>(xs: seq<T>, p: T -> bool): (ys: seq<T>)
    ensures |ys| <= |xs|
    ensures forall y :: y in ys ==> y in xs && p(y)
  {
    if xs == [] then []
    else (if p(xs[0]) then [xs[0]] else []) + Filter(xs[1..], p)
  }

  /** `xs.filter(x => !p(x))`: the elements not satisfying `p`, in order. */
  function FilterOut<T>(xs: seq<T>, p: T -> bool): (ys: seq<T>)
    ensures |ys| <= |xs|
    ensures forall y :: y in ys ==> y in xs && !p(y)
  {
    if xs == [] then []
    else (if p(xs[0]) then [] else [xs[0]]) + FilterOut(xs[1..], p)
  }

  /** Every element satisfying `p` is kept, and every other is kept by the negation. */
  lemma {:induction false} FilterMembers<T>(xs: seq<T>, p: T -> bool, x: T)
    ensures x in Filter(xs, p) <==> x in xs && p(x)
    ensures x in FilterOut(xs, p) <==> x in xs && !p(x)
  {
    if xs != [] {
      FilterMembers(xs[1..], p, x);
      assert xs == [xs[0]] + xs[1..];
    }
  }

  /** The filter distributes over concatenation, so it keeps the input order. */
  lemma {:induction false} FilterAppend<T>(a: seq<T>, b: seq<T>, p: T -> bool)
    ensures Filter(a + b, p) == Filter(a, p) + Filter(b, p)
  {
    if a == [] {
      assert a + b == b;
    } else {
      assert (a + b)[0] == a[0];
      assert (a + b)[1..] == a[1..] + b;
      FilterAppend(a[1..], b, p);
    }
  }

  /** So does the negated filter. */
  lemma {:induction false} FilterOutAppend<T>(a: seq<T>, b: seq<T>, p: T -> bool)
    ensures FilterOut(a + b, p) == FilterOut(a, p) + FilterOut(b, p)
  {
    if a == [] {
      assert a + b == b;
    } else {
      assert (a + b)[0] == a[0];
      assert (a + b)[1..] == a[1..] + b;
      FilterOutAppend(a[1..], b, p);
    }
  }

  /** Together the two filters split the input: each element goes to exactly one side. */
  lemma {:induction false} FilterPartition<T>(xs: seq<T>, p: T -> bool)
    ensures multiset(Filter(xs, p)) + multiset(FilterOut(xs, p)) == multiset(xs)
    ensures |Filter(xs, p)| + |FilterOut(xs, p)| == |xs|
  {
    if xs != [] {
      FilterPartition(xs[1..], p);
      assert xs == [xs[0]] + xs[1..];
    }
  }

  /** When every element satisfies `p`, the filter keeps all and its negation none. */
  lemma {:induction false} FilterAll<T>(xs: seq<T>, p: T -> bool)
    requires forall i :: 0 <= i < |xs| ==> p(xs[i])
    ensures Filter(xs, p) == xs && FilterOut(xs, p) == []
  {
    if xs != [] {
      FilterAll(xs[1..], p);
    }
  }

  /** When no element satisfies `p`, the filter keeps none and its negation all. */
  lemma {:induction false} FilterNone<T>(xs: seq<T>, p: T -> bool)
    requires forall i :: 0 <= i < |xs| ==> !p(xs[i])
    ensures Filter(xs, p) == [] && FilterOut(xs, p) == xs
  {
    if xs != [] {
      FilterNone(xs[1..], p);
    }
  }
}
