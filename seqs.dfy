/** Option, and the array searches the merge engine is written with:
    `find`, `filter(...)[0]`, `filter`, and a `forEach` that keeps the last match. */
module Seqs {

  datatype Option<+T> = None | Some(value: T)

  /** Index of the first element satisfying `p` (JavaScript `findIndex`). */
  function FirstIndex<T>(s: seq<T>, p: T -> bool): (r: Option<nat>)
    ensures r.Some? ==> r.value < |s| && p(s[r.value])
    ensures r.Some? ==> forall m :: 0 <= m < r.value ==> !p(s[m])
    ensures r.None? <==> forall m :: 0 <= m < |s| ==> !p(s[m])
  {
    if s == [] then None
    else if p(s[0]) then Some(0)
    else
      match FirstIndex(s[1..], p)
      case None => None
      case Some(k) => Some(k + 1)
  }

  /** The first element satisfying `p` (JavaScript `find`, and `filter(p)[0]`). */
  function First<T>(s: seq<T>, p: T -> bool): (r: Option<T>)
    ensures r.Some? <==> FirstIndex(s, p).Some?
    ensures r.Some? ==> r.value == s[FirstIndex(s, p).value] && p(r.value)
  {
    match FirstIndex(s, p)
    case None => None
    case Some(k) => Some(s[k])
  }

  /** Index of the last element satisfying `p`. */
  function LastIndex<T>(s: seq<T>, p: T -> bool): (r: Option<nat>)
    ensures r.Some? ==> r.value < |s| && p(s[r.value])
    ensures r.Some? ==> forall m :: r.value < m < |s| ==> !p(s[m])
    ensures r.None? <==> forall m :: 0 <= m < |s| ==> !p(s[m])
  {
    if s == [] then None
    else if p(s[|s| - 1]) then Some(|s| - 1)
    else LastIndex(s[..|s| - 1], p)
  }

  /** The last element satisfying `p`. */
  function LastMatch<T>(s: seq<T>, p: T -> bool): Option<T>
  {
    match LastIndex(s, p)
    case None => None
    case Some(k) => Some(s[k])
  }

  /** Scanning one more element: it becomes the last match when it matches. */
  lemma LastMatchStep<T>(s: seq<T>, i: nat, p: T -> bool)
    requires i < |s|
    ensures LastMatch(s[..i + 1], p) == if p(s[i]) then Some(s[i]) else LastMatch(s[..i], p)
  {
    assert s[..i + 1][..i] == s[..i];
    match LastIndex(s[..i], p)
    case None =>
    case Some(k) =>
      assert s[..i + 1][k] == s[..i][k];
  }

  /** Some element satisfies `p` (JavaScript `some`). */
  predicate Any<T>(s: seq<T>, p: T -> bool)
  {
    exists i :: 0 <= i < |s| && p(s[i])
  }

  /** Scanning one more element for a match. */
  lemma AnyStep<T>(s: seq<T>, i: nat, p: T -> bool)
    requires i < |s|
    ensures Any(s[..i + 1], p) <==> Any(s[..i], p) || p(s[i])
  {
    var next := s[..i + 1];
    if Any(next, p) && !p(s[i]) {
      var k :| 0 <= k < |next| && p(next[k]);
      assert k < i && s[..i][k] == next[k];
    }
    if Any(s[..i], p) {
      var k :| 0 <= k < i && p(s[..i][k]);
      assert next[k] == s[..i][k];
    }
  }

  /** The elements satisfying `p`, in order (JavaScript `filter`). */
  function Filter<T>(s: seq<T>, p: T -> bool): (r: seq<T>)
    ensures |r| <= |s|
    ensures forall x :: x in r ==> x in s && p(x)
  {
    if s == [] then [] else Filter(s[..|s| - 1], p) + (if p(s[|s| - 1]) then [s[|s| - 1]] else [])
  }

  /** Filtering one more element of `s`. */
  lemma FilterStep<T>(s: seq<T>, i: nat, p: T -> bool)
    requires i < |s|
    ensures Filter(s[..i + 1], p) == Filter(s[..i], p) + if p(s[i]) then [s[i]] else []
  {
    assert s[..i + 1][..i] == s[..i];
  }

  /** Filtering distributes over concatenation: relative order is kept. */
  lemma {:induction false} FilterAppend<T>(a: seq<T>, b: seq<T>, p: T -> bool)
    ensures Filter(a + b, p) == Filter(a, p) + Filter(b, p)
  {
    if b == [] {
      assert a + b == a;
    } else {
      var b' := b[..|b| - 1];
      assert (a + b)[..|a + b| - 1] == a + b';
      FilterAppend(a, b', p);
    }
  }

  /** Nothing satisfying `p` is dropped. */
  lemma {:induction false} FilterComplete<T>(s: seq<T>, p: T -> bool, x: T)
    requires x in s && p(x)
    ensures x in Filter(s, p)
  {
    var n := |s| - 1;
    if s[n] != x {
      assert x in s[..n] by {
        var k :| 0 <= k < |s| && s[k] == x;
        assert k < n && s[..n][k] == x;
      }
      FilterComplete(s[..n], p, x);
    }
  }
  /** The last match among the filtered elements is the last match among all of them that
      passes the filter, and there is none exactly when no element passes both. */
  lemma LastOfFilter<T>(s: seq<T>, q: T -> bool, p: T -> bool)
    ensures var ms := Filter(s, q); var r := LastMatch(ms, p);
      (r.Some? ==> exists k :: 0 <= k < |ms| && ms[k] == r.value && forall m :: k < m < |ms| ==> !p(ms[m])) &&
      (r.None? <==> forall x :: x in s && q(x) ==> !p(x))
  {
    var ms := Filter(s, q);
    match LastIndex(ms, p)
    case None =>
      forall x | x in s && q(x) ensures !p(x) {
        FilterComplete(s, q, x);
        var k :| 0 <= k < |ms| && ms[k] == x;
      }
    case Some(k) =>
      assert ms[k] in ms;
  }


  /** The first element of the filtered sequence is the first match. */
  lemma {:induction false} FirstIsHeadOfFilter<T>(s: seq<T>, p: T -> bool)
    ensures First(s, p).None? <==> Filter(s, p) == []
    ensures Filter(s, p) != [] ==> First(s, p) == Some(Filter(s, p)[0])
  {
    if s != [] {
      var n := |s| - 1;
      var f := Filter(s[..n], p);
      FirstIsHeadOfFilter(s[..n], p);
      assert s == s[..n] + [s[n]];
      FirstAppend(s[..n], [s[n]], p);
      FirstOfSingleton(s[n], p);
      assert Filter(s, p) == f + (if p(s[n]) then [s[n]] else []);
      if f != [] {
        assert Filter(s, p)[0] == f[0];
      }
    }
  }

  lemma FirstOfSingleton<T>(x: T, p: T -> bool)
    ensures First([x], p) == if p(x) then Some(x) else None
  {
  }

  /** Writing `x` just past a prefix of length `i` in front of `t[i..]`. */
  lemma UpdateAfterPrefix<T>(a: seq<T>, t: seq<T>, i: nat, x: T)
    requires |a| == i < |t|
    ensures (a + t[i..])[i := x] == a + [x] + t[i + 1..]
  {
    assert t[i..] == [t[i]] + t[i + 1..];
  }

  /** An element of a slice known to equal `e`. */
  lemma IndexInSlice<T>(s: seq<T>, o: nat, e: seq<T>, d: nat)
    requires o + |e| <= |s| && s[o..o + |e|] == e && d < |e|
    ensures s[o + d] == e[d]
  {
    assert s[o..o + |e|][d] == s[o + d];
  }

  /** The middle part of a concatenation is the slice where it sits. */
  lemma SliceOfConcat<T>(x: seq<T>, y: seq<T>, z: seq<T>)
    ensures |x| + |y| <= |x + y + z| && (x + y + z)[|x|..|x| + |y|] == y
  {
  }

  lemma ConcatRegroup<T>(a: seq<T>, b: seq<T>, m: seq<T>, c: seq<T>, d: seq<T>)
    ensures a + (b + m + c) + d == (a + b) + m + (c + d)
  {
  }

  function Map<T, U>(f: T -> U, s: seq<T>): (r: seq<U>)
    ensures |r| == |s|
    ensures forall i :: 0 <= i < |s| ==> r[i] == f(s[i])
  {
    seq(|s|, i requires 0 <= i < |s| => f(s[i]))
  }

  /** A `forEach` whose body replaces each element by `f` of it. */
  method UpdateEach<T>(s: seq<T>, f: T -> T) returns (r: seq<T>)
    ensures r == Map(f, s)
  {
    r := s;
    var i := 0;
    while i < |r|
      invariant 0 <= i <= |r| == |s|
      invariant forall k :: 0 <= k < i ==> r[k] == f(s[k])
      invariant forall k :: i <= k < |r| ==> r[k] == s[k]
    {
      r := r[i := f(r[i])];
      i := i + 1;
    }
  }

  /** `find` on a concatenation: the first part is searched first. */
  lemma {:induction false} FirstAppend<T>(a: seq<T>, b: seq<T>, p: T -> bool)
    ensures First(a + b, p) == if First(a, p).Some? then First(a, p) else First(b, p)
  {
    if a == [] {
      assert a + b == b;
    } else if !p(a[0]) {
      assert (a + b)[1..] == a[1..] + b;
      FirstAppend(a[1..], b, p);
    }
  }

  /** `filter(p).find(q)` finds the first element satisfying both. */
  lemma {:induction false} FirstOfFilter<T>(s: seq<T>, p: T -> bool, q: T -> bool, both: T -> bool)
    requires forall x :: both(x) == (p(x) && q(x))
    ensures First(Filter(s, p), q) == First(s, both)
  {
    if s != [] {
      var n := |s| - 1;
      var tail := if p(s[n]) then [s[n]] else [];
      FirstOfFilter(s[..n], p, q, both);
      FirstAppend(Filter(s[..n], p), tail, q);
      assert s == s[..n] + [s[n]];
      FirstAppend(s[..n], [s[n]], both);
      FirstOfSingleton(s[n], q);
      FirstOfSingleton(s[n], both);
      assert First([], q) == None;
    }
  }


  /** Two predicates that agree on the elements of `s` pick the same first index. */
  lemma {:induction false} FirstIndexCongruent<T>(s: seq<T>, p: T -> bool, q: T -> bool)
    requires forall i :: 0 <= i < |s| ==> p(s[i]) == q(s[i])
    ensures FirstIndex(s, p) == FirstIndex(s, q) && First(s, p) == First(s, q)
  {
    if s != [] && !p(s[0]) {
      FirstIndexCongruent(s[1..], p, q);
    }
  }

  /** `xs.forEach(x => acc = step(acc, x))`: the accumulator after the whole list. */
  function Fold<S, T>(init: S, xs: seq<T>, step: (S, T) -> S): S
    decreases |xs|
  {
    if xs == [] then init else step(Fold(init, xs[..|xs| - 1], step), xs[|xs| - 1])
  }

  /** One more element is one more step. */
  lemma FoldAppend<S, T>(init: S, xs: seq<T>, x: T, step: (S, T) -> S)
    ensures Fold(init, xs + [x], step) == step(Fold(init, xs, step), x)
  {
    assert (xs + [x])[..|xs|] == xs;
  }

  /** Folding a concatenation is folding its first part, then going on from there. */
  lemma {:induction false} FoldConcat<S, T>(init: S, first: seq<T>, rest: seq<T>, step: (S, T) -> S)
    ensures Fold(init, first + rest, step) == Fold(Fold(init, first, step), rest, step)
    decreases |rest|
  {
    if rest == [] {
      assert first + rest == first;
    } else {
      var n := |rest| - 1;
      assert first + rest == (first + rest[..n]) + [rest[n]];
      FoldAppend(init, first + rest[..n], rest[n], step);
      FoldConcat(init, first, rest[..n], step);
      FoldAppend(Fold(init, first, step), rest[..n], rest[n], step);
      assert rest == rest[..n] + [rest[n]];
    }
  }
}
