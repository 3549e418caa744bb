/** Sequences built piece by piece. */
module Sequences {

  function FlatMap<A, B>(f: A -> seq<B>, xs: seq<A>): seq<B> {
    if xs == [] then [] else FlatMap(f, xs[..|xs|-1]) + f(xs[|xs|-1])
  }

  lemma {:induction false} FlatMapAppend<A, B>(f: A -> seq<B>, xs: seq<A>, ys: seq<A>)
    ensures FlatMap(f, xs + ys) == FlatMap(f, xs) + FlatMap(f, ys)
    decreases |ys|
  {
    if ys == [] {
      assert xs + ys == xs;
    } else {
      assert (xs + ys)[..|xs + ys| - 1] == xs + ys[..|ys|-1];
      FlatMapAppend(f, xs, ys[..|ys|-1]);
    }
  }

  lemma {:induction false} FlatMapOne<A, B>(f: A -> seq<B>, x: A)
    ensures FlatMap(f, [x]) == f(x)
  {
    assert [x][..0] == [];
  }

  lemma {:induction false} FlatMapAgree<A, B>(f: A -> seq<B>, g: A -> seq<B>, xs: seq<A>)
    requires forall i :: 0 <= i < |xs| ==> f(xs[i]) == g(xs[i])
    ensures FlatMap(f, xs) == FlatMap(g, xs)
  {
    if xs != [] {
      FlatMapAgree(f, g, xs[..|xs|-1]);
    }
  }

  /** Two sequences flatten alike when they can be cut so that both parts do. */
  lemma {:induction false} FlatMapCompose<A, B, C>(
    f: A -> seq<C>, g: B -> seq<C>, xs: seq<A>, k: nat, front: seq<B>, back: seq<B>, ys: seq<B>)
    requires k <= |xs| && ys == front + back
    requires FlatMap(g, front) == FlatMap(f, xs[..k]) && FlatMap(g, back) == FlatMap(f, xs[k..])
    ensures FlatMap(g, ys) == FlatMap(f, xs)
  {
    FlatMapAppend(g, front, back);
    FlatMapAppend(f, xs[..k], xs[k..]);
    assert xs[..k] + xs[k..] == xs;
  }

  lemma {:induction false} FlatMapPair<A, B>(f: A -> seq<B>, front: seq<A>, back: seq<A>, xs: seq<A>, us: seq<B>, vs: seq<B>)
    requires xs == front + back && FlatMap(f, front) == us && FlatMap(f, back) == vs
    ensures FlatMap(f, xs) == us + vs
  {
    FlatMapAppend(f, front, back);
  }

  lemma {:induction false} FlatMapMember<A, B>(f: A -> seq<B>, xs: seq<A>, y: B)
    ensures y in FlatMap(f, xs) <==> exists i :: 0 <= i < |xs| && y in f(xs[i])
  {
    if xs != [] {
      var n := |xs| - 1;
      FlatMapMember(f, xs[..n], y);
      assert y in f(xs[n]) ==> exists i :: 0 <= i < |xs| && y in f(xs[i]);
      assert forall i :: 0 <= i < n ==> xs[..n][i] == xs[i];
    }
  }

  /** Element `i` of `xs` stands for the stretch of `ys` between two consecutive cuts. */
  ghost predicate CutAt<A, B>(f: A -> seq<B>, xs: seq<A>, ys: seq<B>, cuts: seq<nat>, i: nat)
    requires i < |xs| && |cuts| == |xs| + 1
  {
    cuts[i] <= cuts[i+1] <= |ys| && f(xs[i]) == ys[cuts[i]..cuts[i+1]]
  }

  ghost predicate CutsAlong<A, B>(f: A -> seq<B>, xs: seq<A>, ys: seq<B>, cuts: seq<nat>) {
    |cuts| == |xs| + 1 && cuts[0] == 0 && forall i :: 0 <= i < |xs| ==> CutAt(f, xs, ys, cuts, i)
  }

  lemma {:induction false} FlatMapAlong<A, B>(f: A -> seq<B>, xs: seq<A>, ys: seq<B>, cuts: seq<nat>, n: nat)
    requires CutsAlong(f, xs, ys, cuts) && n <= |xs|
    ensures cuts[n] <= |ys| && FlatMap(f, xs[..n]) == ys[..cuts[n]]
  {
    if n > 0 {
      var k := n - 1;
      FlatMapAlong(f, xs, ys, cuts, k);
      assert CutAt(f, xs, ys, cuts, k);
      assert xs[..n][..k] == xs[..k];
      assert ys[..cuts[n]] == ys[..cuts[k]] + ys[cuts[k]..cuts[n]];
    }
  }

  lemma {:induction false} FlatMapEmpty<A, B>(f: A -> seq<B>, xs: seq<A>)
    ensures FlatMap(f, xs) == [] <==> forall i :: 0 <= i < |xs| ==> f(xs[i]) == []
  {
    if xs != [] {
      var n := |xs| - 1;
      FlatMapEmpty(f, xs[..n]);
      assert forall i :: 0 <= i < n ==> xs[..n][i] == xs[i];
    }
  }

  /** The same for lengths. */
  lemma {:induction false} FlatMapSizes<A, B, C, D>(
    f: A -> seq<C>, g: B -> seq<D>, xs: seq<A>, k: nat, front: seq<B>, back: seq<B>, ys: seq<B>)
    requires k <= |xs| && ys == front + back
    requires |FlatMap(g, front)| == |FlatMap(f, xs[..k])| && |FlatMap(g, back)| == |FlatMap(f, xs[k..])|
    ensures |FlatMap(g, ys)| == |FlatMap(f, xs)|
  {
    FlatMapAppend(g, front, back);
    FlatMapAppend(f, xs[..k], xs[k..]);
    assert xs[..k] + xs[k..] == xs;
  }

  /** Each state of a run follows from the one before by the move between them. */
  ghost predicate Chain<S, M>(next: (S, M, S) -> bool, run: seq<S>, moves: seq<M>) {
    |run| == |moves| + 1 && forall i :: 0 <= i < |moves| ==> next(run[i], moves[i], run[i + 1])
  }

  lemma ChainGrows<S, M>(next: (S, M, S) -> bool, run: seq<S>, moves: seq<M>, m: M, s: S)
    requires Chain(next, run, moves) && next(run[|moves|], m, s)
    ensures Chain(next, run + [s], moves + [m])
  {
  }
}
