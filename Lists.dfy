/**
 * The list idioms the handlers are written in: `next((x for x in xs if p(x)), None)`
 * and the comprehension `[f(x) for x in xs if p(x)]`.
 */
module Lists {
  import opened Wrappers

  /** Index of the first element satisfying `p`: `next(...)` over a generator. */
  function FirstIndex<T>(xs: seq<T>, p: T -> bool): (r: Option<nat>)
    ensures r.Some? ==> r.value < |xs| && p(xs[r.value])
    ensures r.Some? ==> forall j | 0 <= j < r.value :: !p(xs[j])
    ensures r.None? ==> forall j | 0 <= j < |xs| :: !p(xs[j])
    decreases |xs|
  {
    if xs == [] then None
    else if p(xs[0]) then Some(0)
    else
      match FirstIndex(xs[1..], p)
      case None => None
      case Some(k) => Some(k + 1)
  }

  /** `[f(x) for x in xs if p(x)]`, stated on the last element so that a loop
      appending left to right follows it prefix by prefix. */
  function FilterMap<T, U>(xs: seq<T>, p: T -> bool, f: T -> U): (r: seq<U>)
    ensures |r| <= |xs|
    ensures (forall j | 0 <= j < |xs| :: p(xs[j])) ==> |r| == |xs|
    ensures r == [] <==> forall j | 0 <= j < |xs| :: !p(xs[j])
    decreases |xs|
  {
    if xs == [] then []
    else
      var init := FilterMap(xs[..|xs| - 1], p, f);
      assert forall j | 0 <= j < |xs| - 1 :: xs[..|xs| - 1][j] == xs[j];
      init + (if p(xs[|xs| - 1]) then [f(xs[|xs| - 1])] else [])
  }

  /** Every element of the comprehension is `f` of a kept element. */
  lemma {:induction false} FilterMapFrom<T, U>(xs: seq<T>, p: T -> bool, f: T -> U, y: U)
    requires y in FilterMap(xs, p, f)
    ensures exists j | 0 <= j < |xs| :: p(xs[j]) && y == f(xs[j])
    decreases |xs|
  {
    var init := xs[..|xs| - 1];
    if y in FilterMap(init, p, f) {
      FilterMapFrom(init, p, f, y);
      var j :| 0 <= j < |init| && p(init[j]) && y == f(init[j]);
      assert xs[j] == init[j];
    } else {
      assert p(xs[|xs| - 1]) && y == f(xs[|xs| - 1]);
    }
  }

  /** Extending the input by one element extends the comprehension by at most that element. */
  lemma FilterMapSnoc<T, U>(xs: seq<T>, x: T, p: T -> bool, f: T -> U)
    ensures FilterMap(xs + [x], p, f) == FilterMap(xs, p, f) + (if p(x) then [f(x)] else [])
  {
    assert (xs + [x])[..|xs|] == xs;
  }

  /** Every kept element appears in the comprehension. */
  lemma {:induction false} FilterMapHas<T, U>(xs: seq<T>, p: T -> bool, f: T -> U, j: nat)
    requires j < |xs| && p(xs[j])
    ensures f(xs[j]) in FilterMap(xs, p, f)
    decreases |xs|
  {
    var init := xs[..|xs| - 1];
    if j < |xs| - 1 {
      assert init[j] == xs[j];
      FilterMapHas(init, p, f, j);
    }
  }

  /** The comprehension over two pieces is the comprehensions of the pieces, in order. */
  lemma {:induction false} FilterMapAppend<T, U>(xs: seq<T>, ys: seq<T>, p: T -> bool, f: T -> U)
    ensures FilterMap(xs + ys, p, f) == FilterMap(xs, p, f) + FilterMap(ys, p, f)
    decreases |ys|
  {
    if ys == [] {
      assert xs + ys == xs;
    } else {
      var init := ys[..|ys| - 1];
      var last := ys[|ys| - 1];
      var tail := if p(last) then [f(last)] else [];
      assert ys == init + [last];
      assert xs + ys == (xs + init) + [last];
      FilterMapSnoc(xs + init, last, p, f);
      FilterMapSnoc(init, last, p, f);
      FilterMapAppend(xs, init, p, f);
      calc {
        FilterMap(xs + ys, p, f);
        FilterMap(xs + init, p, f) + tail;
        (FilterMap(xs, p, f) + FilterMap(init, p, f)) + tail;
        FilterMap(xs, p, f) + (FilterMap(init, p, f) + tail);
        FilterMap(xs, p, f) + FilterMap(ys, p, f);
      }
    }
  }

  /** The first element satisfying `p` is the one `FirstIndex` finds. */
  lemma FirstIndexIs<T>(xs: seq<T>, p: T -> bool, k: nat)
    requires k < |xs| && p(xs[k])
    requires forall j | 0 <= j < k :: !p(xs[j])
    ensures FirstIndex(xs, p) == Some(k)
  {
  }
}
