/** The array operations the pages are built from (`filter`, `map`, `find` and
    the summing `reduce`), each stated once over sequences as a function, and
    the element-by-element loops that compute `filter`, `map` and `find`,
    each proved to compute its function. */
module Lists {

  datatype Option<T> = None | Some(value: T)

  /** `sub` is what remains of `s` after deleting some elements; the rest keep their order. */
  ghost predicate IsSubsequence<T>(sub: seq<T>, s: seq<T>)
    decreases |s|
  {
    sub == [] || (s != [] && ((sub[0] == s[0] && IsSubsequence(sub[1..], s[1..])) || IsSubsequence(sub, s[1..])))
  }

  /** `Array.prototype.filter`: the elements `keep` accepts, in their original
      order, each as often as it occurs in `xs`. */
  function Filter<T(!new)>(xs: seq<T>, keep: T -> bool): (r: seq<T>)
    ensures IsSubsequence(r, xs)
    ensures forall i :: 0 <= i < |r| ==> keep(r[i])
    ensures forall x :: x in r <==> x in xs && keep(x)
    ensures forall x :: multiset(r)[x] == if keep(x) then multiset(xs)[x] else 0
  {
    if xs == [] then []
    else
      assert xs == [xs[0]] + xs[1..];
      if keep(xs[0]) then [xs[0]] + Filter(xs[1..], keep) else Filter(xs[1..], keep)
  }

  /** `Array.prototype.map`. */
  function Map<T, U>(xs: seq<T>, f: T -> U): (r: seq<U>)
    ensures |r| == |xs|
    ensures forall i :: 0 <= i < |xs| ==> r[i] == f(xs[i])
  {
    seq(|xs|, i requires 0 <= i < |xs| => f(xs[i]))
  }

  /** A `reduce` that starts from 0 and adds `f` of each element. It is nested
      to the right here (`f(x0) + (f(x1) + ...)`), where `reduce` nests to the
      left; over exact reals both give the same number. Terms that are never
      negative add up to a total that is never negative. */
  function Sum<T>(xs: seq<T>, f: T -> real): (r: real)
    ensures (forall i :: 0 <= i < |xs| ==> f(xs[i]) >= 0.0) ==> r >= 0.0
  {
    if xs == [] then 0.0
    else
      assert forall i :: 0 <= i < |xs[1..]| ==> xs[1..][i] == xs[i + 1];
      f(xs[0]) + Sum(xs[1..], f)
  }

  /** `Array.prototype.find`: the first element that passes `p`, or nothing
      exactly when no element passes. */
  function Find<T>(xs: seq<T>, p: T -> bool): (r: Option<T>)
    ensures r.None? <==> forall i :: 0 <= i < |xs| ==> !p(xs[i])
    ensures r.Some? ==> exists i :: 0 <= i < |xs| && xs[i] == r.value && p(xs[i]) && forall j :: 0 <= j < i ==> !p(xs[j])
  {
    if xs == [] then None
    else if p(xs[0]) then
      assert 0 < |xs| && xs[0] == xs[0] && p(xs[0]);
      Some(xs[0])
    else
      assert forall i :: 0 <= i < |xs[1..]| ==> xs[1..][i] == xs[i + 1];
      var r := Find(xs[1..], p);
      assert r.Some? ==> exists i :: 0 < i < |xs| && xs[i] == r.value && p(xs[i]) && forall j :: 0 <= j < i ==> !p(xs[j]) by {
        if r.Some? {
          var i :| 0 <= i < |xs[1..]| && xs[1..][i] == r.value && p(xs[1..][i]) && forall j :: 0 <= j < i ==> !p(xs[1..][j]);
          assert forall j :: 0 <= j < i + 1 ==> !p(xs[j]) by {
            forall j | 0 <= j < i + 1 ensures !p(xs[j]) {
              if j > 0 { assert xs[j] == xs[1..][j - 1]; }
            }
          }
        }
      }
      r
  }

  /** A filter that accepts every element returns its input. */
  lemma {:induction false} FilterKeepsAll<T(!new)>(xs: seq<T>, keep: T -> bool)
    requires forall i :: 0 <= i < |xs| ==> keep(xs[i])
    ensures Filter(xs, keep) == xs
  {
    if xs != [] {
      FilterKeepsAll(xs[1..], keep);
      assert xs == [xs[0]] + xs[1..];
    }
  }

  /** Filtering twice with the same test is filtering once. */
  lemma FilterIdempotent<T(!new)>(xs: seq<T>, keep: T -> bool)
    ensures Filter(Filter(xs, keep), keep) == Filter(xs, keep)
  {
    FilterKeepsAll(Filter(xs, keep), keep);
  }

  /** Two tests that agree on every element of `xs` filter it alike. */
  lemma {:induction false} FilterAgrees<T(!new)>(xs: seq<T>, f: T -> bool, g: T -> bool)
    requires forall i :: 0 <= i < |xs| ==> f(xs[i]) == g(xs[i])
    ensures Filter(xs, f) == Filter(xs, g)
  {
    if xs != [] {
      FilterAgrees(xs[1..], f, g);
    }
  }

  /** Filtering distributes over concatenation. */
  lemma {:induction false} FilterConcat<T(!new)>(a: seq<T>, b: seq<T>, keep: T -> bool)
    ensures Filter(a + b, keep) == Filter(a, keep) + Filter(b, keep)
  {
    if a == [] {
      assert a + b == b;
    } else {
      assert (a + b)[0] == a[0];
      assert (a + b)[1..] == a[1..] + b;
      FilterConcat(a[1..], b, keep);
    }
  }

  /** Filtering one more element at the end, as the loop in RunFilter does. */
  lemma FilterSnoc<T(!new)>(xs: seq<T>, x: T, keep: T -> bool)
    ensures Filter(xs + [x], keep) == Filter(xs, keep) + (if keep(x) then [x] else [])
  {
    FilterConcat(xs, [x], keep);
    assert [x][0] == x && [x][1..] == [];
    assert Filter([x][1..], keep) == [];
    assert Filter([x], keep) == if keep(x) then [x] else [];
  }

  /** A filter that rejects one element and accepts all around it drops just that element. */
  lemma FilterDropsOne<T(!new)>(before: seq<T>, x: T, after: seq<T>, keep: T -> bool)
    requires forall i :: 0 <= i < |before| ==> keep(before[i])
    requires !keep(x)
    requires forall i :: 0 <= i < |after| ==> keep(after[i])
    ensures Filter(before + [x] + after, keep) == before + after
  {
    FilterKeepsAll(before, keep);
    FilterKeepsAll(after, keep);
    FilterSnoc(before, x, keep);
    assert Filter(before + [x], keep) == before + [];
    assert before + [] == before;
    FilterConcat(before + [x], after, keep);
  }

  /** The loop behind `filter`. */
  method RunFilter<T(!new)>(xs: seq<T>, keep: T -> bool) returns (r: seq<T>)
    ensures r == Filter(xs, keep)
  {
    r := [];
    var i := 0;
    while i < |xs|
      invariant 0 <= i <= |xs|
      invariant r == Filter(xs[..i], keep)
    {
      assert xs[..i + 1] == xs[..i] + [xs[i]];
      FilterSnoc(xs[..i], xs[i], keep);
      if keep(xs[i]) {
        r := r + [xs[i]];
      }
      i := i + 1;
    }
    assert xs[..i] == xs;
  }

  /** The loop behind `map`. */
  method RunMap<T, U>(xs: seq<T>, f: T -> U) returns (r: seq<U>)
    ensures r == Map(xs, f)
  {
    r := [];
    var i := 0;
    while i < |xs|
      invariant 0 <= i <= |xs|
      invariant |r| == i
      invariant forall k :: 0 <= k < i ==> r[k] == f(xs[k])
    {
      r := r + [f(xs[i])];
      i := i + 1;
    }
  }

  /** The loop behind `find`. */
  method RunFind<T>(xs: seq<T>, p: T -> bool) returns (r: Option<T>)
    ensures r == Find(xs, p)
  {
    var i := 0;
    while i < |xs|
      invariant 0 <= i <= |xs|
      invariant Find(xs[i..], p) == Find(xs, p)
    {
      assert xs[i..][0] == xs[i] && xs[i..][1..] == xs[i + 1..];
      if p(xs[i]) {
        return Some(xs[i]);
      }
      i := i + 1;
    }
    assert xs[i..] == [];
    return None;
  }
}
