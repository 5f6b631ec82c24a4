/** `Array.prototype.filter`, as the views use it, with the lemmas that
    fix the order of what it keeps. */
module Seqs {

  /** `xs.filter(p)`: the elements of `xs` satisfying `p`, in order. */
  function Filter<T(==)>(xs: seq<T>, p: T -> bool): (r: seq<T>)
    ensures |r| <= |xs|
    ensures forall i :: 0 <= i < |r| ==> p(r[i]) && r[i] in xs
    ensures forall i :: 0 <= i < |xs| && p(xs[i]) ==> xs[i] in r
  {
    if xs == [] then []
    else if p(xs[0]) then [xs[0]] + Filter(xs[1..], p)
    else Filter(xs[1..], p)
  }

  /** Filtering commutes with concatenation, so the filter keeps the
      relative order of the elements it retains. */
  lemma {:induction false} FilterAppend<T>(a: seq<T>, b: seq<T>, p: T -> bool)
    ensures Filter(a + b, p) == Filter(a, p) + Filter(b, p)
  {
    if a == [] {
      assert a + b == b;
    } else {
      assert (a + b)[1..] == a[1..] + b;
      FilterAppend(a[1..], b, p);
    }
  }

  /** The head of a filter that keeps something is the first element of
      the input that passes the test. */
  lemma {:induction false} FilterHead<T>(xs: seq<T>, p: T -> bool)
    requires Filter(xs, p) != []
    ensures exists i :: 0 <= i < |xs| && Filter(xs, p)[0] == xs[i] && p(xs[i])
                        && forall j :: 0 <= j < i ==> !p(xs[j])
  {
    if p(xs[0]) {
      assert Filter(xs, p)[0] == xs[0];
    } else {
      assert Filter(xs, p) == Filter(xs[1..], p);
      FilterHead(xs[1..], p);
      var i :| 0 <= i < |xs| - 1 && Filter(xs[1..], p)[0] == xs[1..][i] && p(xs[1..][i])
               && forall j :: 0 <= j < i ==> !p(xs[1..][j]);
      assert xs[i + 1] == xs[1..][i];
      forall j | 0 <= j < i + 1
        ensures !p(xs[j])
      {
        if j > 0 {
          assert xs[j] == xs[1..][j - 1];
        }
      }
    }
  }

  /** `[x]` when `x` passes the test, else the empty sequence. */
  function Keep<T>(x: T, p: T -> bool): seq<T> {
    if p(x) then [x] else []
  }

  /** The filter of a one-element sequence. */
  lemma FilterOne<T>(x: T, p: T -> bool)
    ensures Filter([x], p) == Keep(x, p)
  {
    assert [x][1..] == [];
  }

  /** The filter of a four-element sequence, element by element. */
  lemma Filter4<T>(a: T, b: T, c: T, d: T, p: T -> bool)
    ensures Filter([a, b, c, d], p) == Keep(a, p) + Keep(b, p) + Keep(c, p) + Keep(d, p)
  {
    FilterOne(a, p); FilterOne(b, p); FilterOne(c, p); FilterOne(d, p);
    assert [a, b, c, d] == [a] + [b] + [c] + [d];
    FilterAppend([a] + [b] + [c], [d], p);
    FilterAppend([a] + [b], [c], p);
    FilterAppend([a], [b], p);
  }
}
