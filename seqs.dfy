/** Sequence helpers standing for Java's stream pipelines
    (`filter(...).map(...).collect(toList())`, `forEach` appending to a builder). */
module Seqs {

  /** Concatenation of `f(x)` for every `x` of `xs`, in order. Defined on the
      last element so that a loop over a prefix of `xs` can keep it as invariant. */
  function FlatMap<A, B>(f: A -> seq<B>, xs: seq<A>): seq<B>
  {
    if |xs| == 0 then [] else FlatMap(f, xs[..|xs| - 1]) + f(xs[|xs| - 1])
  }

  /** `f(x)` for every `x` of `xs`, in order. */
  function MapSeq<A, B>(f: A -> B, xs: seq<A>): (r: seq<B>)
    ensures |r| == |xs|
    ensures forall i :: 0 <= i < |xs| ==> r[i] == f(xs[i])
  {
    if |xs| == 0 then [] else MapSeq(f, xs[..|xs| - 1]) + [f(xs[|xs| - 1])]
  }

  /** The elements of `xs` satisfying `p`, in order. */
  function Filter<A>(p: A -> bool, xs: seq<A>): seq<A>
  {
    if |xs| == 0 then [] else Filter(p, xs[..|xs| - 1]) + (if p(xs[|xs| - 1]) then [xs[|xs| - 1]] else [])
  }

  lemma AppendAssoc<A>(a: seq<A>, b: seq<A>, c: seq<A>)
    ensures a + b + c == a + (b + c)
  {
  }

  /** One step of a loop over `xs`: the prefix grows by `xs[i]`. */
  lemma FlatMapStep<A, B>(f: A -> seq<B>, xs: seq<A>, i: nat)
    requires i < |xs|
    ensures FlatMap(f, xs[..i + 1]) == FlatMap(f, xs[..i]) + f(xs[i])
  {
    assert xs[..i + 1][..i] == xs[..i];
  }

  lemma {:induction false} FlatMapAppend<A, B>(f: A -> seq<B>, xs: seq<A>, ys: seq<A>)
    ensures FlatMap(f, xs + ys) == FlatMap(f, xs) + FlatMap(f, ys)
    decreases |ys|
  {
    if |ys| == 0 {
      assert xs + ys == xs;
    } else {
      var zs := xs + ys;
      assert zs[..|zs| - 1] == xs + ys[..|ys| - 1];
      FlatMapAppend(f, xs, ys[..|ys| - 1]);
    }
  }

  /** Every element of `FlatMap(f, xs)` comes from `f(x)` for some `x` in `xs`. */
  lemma {:induction false} FlatMapMember<A, B>(f: A -> seq<B>, xs: seq<A>, y: B)
    requires y in FlatMap(f, xs)
    ensures exists x :: x in xs && y in f(x)
  {
    var n := |xs|;
    if y in FlatMap(f, xs[..n - 1]) {
      FlatMapMember(f, xs[..n - 1], y);
      var x :| x in xs[..n - 1] && y in f(x);
      assert x in xs;
    } else {
      assert y in f(xs[n - 1]);
    }
  }

  /** Conversely, `f(x)` for an `x` of `xs` contributes all its elements. */
  lemma {:induction false} FlatMapContains<A, B>(f: A -> seq<B>, xs: seq<A>, x: A, y: B)
    requires x in xs && y in f(x)
    ensures y in FlatMap(f, xs)
  {
    var n := |xs|;
    if xs[n - 1] != x {
      assert x in xs[..n - 1];
      FlatMapContains(f, xs[..n - 1], x, y);
    }
  }

  lemma MapSeqStep<A, B>(f: A -> B, xs: seq<A>, i: nat)
    requires i < |xs|
    ensures MapSeq(f, xs[..i + 1]) == MapSeq(f, xs[..i]) + [f(xs[i])]
  {
    assert xs[..i + 1][..i] == xs[..i];
  }

  lemma FilterStep<A>(p: A -> bool, xs: seq<A>, i: nat)
    requires i < |xs|
    ensures Filter(p, xs[..i + 1]) == Filter(p, xs[..i]) + (if p(xs[i]) then [xs[i]] else [])
  {
    assert xs[..i + 1][..i] == xs[..i];
  }

  lemma {:induction false} FilterMember<A>(p: A -> bool, xs: seq<A>, x: A)
    ensures x in Filter(p, xs) <==> x in xs && p(x)
  {
    if |xs| > 0 {
      var n := |xs|;
      FilterMember(p, xs[..n - 1], x);
      assert xs == xs[..n - 1] + [xs[n - 1]];
    }
  }

  /** A FlatMap whose step yields at most `[g(x)]` exactly when `p(x)` is the map of `g` over the filter. */
  lemma {:induction false} FlatMapIsMapFilter<A, B>(f: A -> seq<B>, p: A -> bool, g: A -> B, xs: seq<A>)
    requires forall x :: f(x) == (if p(x) then [g(x)] else [])
    ensures FlatMap(f, xs) == MapSeq(g, Filter(p, xs))
  {
    if |xs| > 0 {
      var n := |xs|;
      FlatMapIsMapFilter(f, p, g, xs[..n - 1]);
      var ys := Filter(p, xs[..n - 1]);
      if p(xs[n - 1]) {
        var zs := ys + [xs[n - 1]];
        assert zs[..|zs| - 1] == ys;
      }
    }
  }

  /** The number of elements of `xs` equal to `x`. */
  function Count<A(==)>(x: A, xs: seq<A>): nat
  {
    if |xs| == 0 then 0 else Count(x, xs[..|xs| - 1]) + (if xs[|xs| - 1] == x then 1 else 0)
  }

  lemma {:induction false} CountAppend<A>(x: A, xs: seq<A>, ys: seq<A>)
    ensures Count(x, xs + ys) == Count(x, xs) + Count(x, ys)
    decreases |ys|
  {
    if |ys| == 0 {
      assert xs + ys == xs;
    } else {
      var zs := xs + ys;
      assert zs[..|zs| - 1] == xs + ys[..|ys| - 1];
      CountAppend(x, xs, ys[..|ys| - 1]);
    }
  }

  lemma {:induction false} CountAbsent<A>(x: A, xs: seq<A>)
    requires x !in xs
    ensures Count(x, xs) == 0
  {
    if |xs| > 0 {
      CountAbsent(x, xs[..|xs| - 1]);
    }
  }

  /** In a sequence without repetitions, each element occurs once. */
  lemma {:induction false} CountDistinct<A>(xs: seq<A>, i: nat)
    requires forall j, k :: 0 <= j < k < |xs| ==> xs[j] != xs[k]
    requires i < |xs|
    ensures Count(xs[i], xs) == 1
  {
    var n := |xs| - 1;
    var front := xs[..n];
    if i == n {
      assert xs[i] !in front by {
        forall j | 0 <= j < n ensures front[j] != xs[i] { }
      }
      CountAbsent(xs[i], front);
    } else {
      assert front[i] == xs[i];
      CountDistinct(front, i);
    }
  }

  lemma FlatMapSingleton<A, B>(f: A -> seq<B>, x: A)
    ensures FlatMap(f, [x]) == f(x)
  {
    assert [x][..0] == [];
  }

  /** Prepending one element to a FlatMap. */
  lemma FlatMapCons<A, B>(f: A -> seq<B>, x: A, xs: seq<A>)
    ensures FlatMap(f, [x] + xs) == f(x) + FlatMap(f, xs)
  {
    FlatMapAppend(f, [x], xs);
    assert FlatMap(f, [x]) == FlatMap(f, []) + f(x);
  }

  /** A FlatMap over a map whose step yields exactly one element is a map. */
  lemma {:induction false} FlatMapOfMap<A, B, C>(f: B -> seq<C>, g: A -> B, h: A -> C, xs: seq<A>)
    requires forall x :: f(g(x)) == [h(x)]
    ensures FlatMap(f, MapSeq(g, xs)) == MapSeq(h, xs)
  {
    if |xs| > 0 {
      var n := |xs|;
      FlatMapOfMap(f, g, h, xs[..n - 1]);
      var ys := MapSeq(g, xs);
      assert ys[..n - 1] == MapSeq(g, xs[..n - 1]);
    }
  }
}
