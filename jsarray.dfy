/** `Array.prototype.filter` and `Array.prototype.find` on lists, with the
    facts the modelled pages and routes rely on: the filter keeps exactly the
    elements that pass, in their order; find picks the first that passes. */
module JsArray {
  import opened JsText

  /** `xs.filter(p)`. */
  function Filter<T>(xs: seq<T>, p: T -> bool): (r: seq<T>)
    ensures |r| <= |xs|
    ensures forall x | x in r :: x in xs && p(x)
    ensures forall x | x in xs && p(x) :: x in r
  {
    if |xs| == 0 then []
    else
      var before := Filter(xs[..|xs| - 1], p);
      var last := xs[|xs| - 1];
      assert forall x | x in xs :: x in xs[..|xs| - 1] || x == last;
      if p(last) then before + [last] else before
  }

  /** Filtering keeps the order: the filter of two lists one after the other
      is the filter of the first followed by the filter of the second. */
  lemma {:induction false} FilterAppend<T>(xs: seq<T>, ys: seq<T>, p: T -> bool)
    ensures Filter(xs + ys, p) == Filter(xs, p) + Filter(ys, p)
    decreases |ys|
  {
    if |ys| > 0 {
      var init := ys[..|ys| - 1];
      assert (xs + ys)[..|xs + ys| - 1] == xs + init;
      FilterAppend(xs, init, p);
    } else {
      assert xs + ys == xs;
    }
  }

  /** Filtering twice keeps what both tests keep. */
  lemma {:induction false} FilterFilter<T>(xs: seq<T>, p: T -> bool, q: T -> bool)
    ensures Filter(Filter(xs, p), q) == Filter(xs, x => p(x) && q(x))
    decreases |xs|
  {
    if |xs| > 0 {
      var init, last := xs[..|xs| - 1], xs[|xs| - 1];
      FilterFilter(init, p, q);
      if p(last) {
        var f := Filter(init, p);
        assert Filter(xs, p) == f + [last];
        assert (f + [last])[..|f + [last]| - 1] == f;
      }
    }
  }

  /** A test every element passes keeps the whole list. */
  lemma {:induction false} FilterAll<T>(xs: seq<T>, p: T -> bool)
    requires forall x | x in xs :: p(x)
    ensures Filter(xs, p) == xs
    decreases |xs|
  {
    if |xs| > 0 {
      FilterAll(xs[..|xs| - 1], p);
      assert xs[..|xs| - 1] + [xs[|xs| - 1]] == xs;
    }
  }

  /** Two tests that agree on every element keep the same elements. */
  lemma {:induction false} FilterSameTest<T>(xs: seq<T>, p: T -> bool, q: T -> bool)
    requires forall x | x in xs :: p(x) == q(x)
    ensures Filter(xs, p) == Filter(xs, q)
    decreases |xs|
  {
    if |xs| > 0 {
      FilterSameTest(xs[..|xs| - 1], p, q);
    }
  }

  /** `xs.find(p)`, as the index of the element found. */
  function Find<T>(xs: seq<T>, p: T -> bool): (r: Option<nat>)
    ensures r.Some? ==> r.value < |xs| && p(xs[r.value])
    ensures r.Some? ==> forall k | 0 <= k < r.value :: !p(xs[k])
    ensures r.None? <==> forall k | 0 <= k < |xs| :: !p(xs[k])
  {
    if |xs| == 0 then None
    else if p(xs[0]) then Some(0)
    else
      var rest := Find(xs[1..], p);
      assert forall k | 1 <= k < |xs| :: xs[k] == xs[1..][k - 1];
      if rest.Some? then Some(rest.value + 1) else None
  }
}
