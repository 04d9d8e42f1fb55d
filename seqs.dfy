/**
 * Concatenating the pieces a function maps each element of a sequence to.
 * Every nested `for` loop of the audit code that appends in traversal order
 * is described by one `FlatMap` per loop level.
 */
module Seqs {

  /** f(xs[0]) + f(xs[1]) + ... + f(xs[|xs|-1]), defined by peeling off the last element. */
  function FlatMap<A, B>(f: A -> seq<B>, xs: seq<A>): seq<B>
    decreases |xs|
  {
    if xs == [] then [] else FlatMap(f, xs[..|xs| - 1]) + f(xs[|xs| - 1])
  }

  lemma FlatMapSnoc<A, B>(f: A -> seq<B>, xs: seq<A>, x: A)
    ensures FlatMap(f, xs + [x]) == FlatMap(f, xs) + f(x)
  {
    assert (xs + [x])[..|xs|] == xs;
  }

  /** One more loop iteration: the prefix of length i + 1 adds f(xs[i]). */
  lemma FlatMapPrefix<A, B>(f: A -> seq<B>, xs: seq<A>, i: nat)
    requires i < |xs|
    ensures FlatMap(f, xs[..i + 1]) == FlatMap(f, xs[..i]) + f(xs[i])
  {
    assert xs[..i + 1][..i] == xs[..i];
  }

  lemma FlatMapOne<A, B>(f: A -> seq<B>, x: A)
    ensures FlatMap(f, [x]) == f(x)
  {
    assert [x][..0] == [];
  }

  lemma FlatMapTwo<A, B>(f: A -> seq<B>, x: A, y: A)
    ensures FlatMap(f, [x, y]) == f(x) + f(y)
  {
    assert [x, y][..1] == [x];
    FlatMapOne(f, x);
  }

  lemma {:induction false} FlatMapConcat<A, B>(f: A -> seq<B>, xs: seq<A>, ys: seq<A>)
    ensures FlatMap(f, xs + ys) == FlatMap(f, xs) + FlatMap(f, ys)
    decreases |ys|
  {
    if ys == [] {
      assert xs + ys == xs;
    } else {
      var ys' := ys[..|ys| - 1];
      var y := ys[|ys| - 1];
      assert ys == ys' + [y];
      assert xs + ys == (xs + ys') + [y];
      FlatMapConcat(f, xs, ys');
      FlatMapSnoc(f, xs + ys', y);
      FlatMapSnoc(f, ys', y);
      var a, b, c := FlatMap(f, xs), FlatMap(f, ys'), f(y);
      assert FlatMap(f, xs + ys) == (a + b) + c;
      assert (a + b) + c == a + (b + c);
    }
  }

  /** The whole is the part before xs[i], then f(xs[i]), then the part after. */
  lemma FlatMapSplit<A, B>(f: A -> seq<B>, xs: seq<A>, i: nat)
    requires i < |xs|
    ensures FlatMap(f, xs) == FlatMap(f, xs[..i]) + f(xs[i]) + FlatMap(f, xs[i + 1..])
  {
    assert xs == xs[..i + 1] + xs[i + 1..];
    FlatMapConcat(f, xs[..i + 1], xs[i + 1..]);
    FlatMapPrefix(f, xs, i);
  }

  /** An element of the result comes from the piece of some element of xs, and every piece is in the result. */
  lemma {:induction false} FlatMapMember<A, B>(f: A -> seq<B>, xs: seq<A>, y: B)
    ensures y in FlatMap(f, xs) <==> exists k :: 0 <= k < |xs| && y in f(xs[k])
    decreases |xs|
  {
    if xs != [] {
      var n := |xs| - 1;
      FlatMapMember(f, xs[..n], y);
      if y in f(xs[n]) {
        assert y in FlatMap(f, xs);
      }
      if exists k :: 0 <= k < |xs| && y in f(xs[k]) {
        var k :| 0 <= k < |xs| && y in f(xs[k]);
        if k < n {
          assert xs[..n][k] == xs[k];
        }
      }
      if y in FlatMap(f, xs[..n]) {
        var k :| 0 <= k < n && y in f(xs[..n][k]);
        assert xs[..n][k] == xs[k];
      }
    }
  }

  /** When every element maps to nothing, so does the whole sequence. */
  lemma {:induction false} FlatMapEmpty<A, B>(f: A -> seq<B>, xs: seq<A>)
    requires forall k :: 0 <= k < |xs| ==> f(xs[k]) == []
    ensures FlatMap(f, xs) == []
    decreases |xs|
  {
    if xs != [] {
      var n := |xs| - 1;
      assert forall k :: 0 <= k < n ==> xs[..n][k] == xs[k];
      FlatMapEmpty(f, xs[..n]);
    }
  }

  /** The rest of the loop from position i: f(xs[i]), then the rest from i + 1. */
  lemma FlatMapSuffix<A, B>(f: A -> seq<B>, xs: seq<A>, i: nat)
    requires i < |xs|
    ensures FlatMap(f, xs[i..]) == f(xs[i]) + FlatMap(f, xs[i + 1..])
  {
    assert xs[i..] == [xs[i]] + xs[i + 1..];
    FlatMapConcat(f, [xs[i]], xs[i + 1..]);
    assert FlatMap(f, [xs[i]]) == FlatMap(f, []) + f(xs[i]);
  }

  /** The sequence of g's images of the elements of xs. */
  function Map<A, B>(g: A -> B, xs: seq<A>): (ys: seq<B>)
    ensures |ys| == |xs| && forall k :: 0 <= k < |xs| ==> ys[k] == g(xs[k])
  {
    seq(|xs|, k requires 0 <= k < |xs| => g(xs[k]))
  }

  /** Rewriting each element by g does not change the result when f sees g(x) as h(x). */
  lemma {:induction false} FlatMapOfMap<A, B, C>(f: B -> seq<C>, g: A -> B, h: A -> seq<C>, xs: seq<A>)
    requires forall k :: 0 <= k < |xs| ==> f(g(xs[k])) == h(xs[k])
    ensures FlatMap(f, Map(g, xs)) == FlatMap(h, xs)
    decreases |xs|
  {
    if xs != [] {
      var n := |xs| - 1;
      assert Map(g, xs)[..n] == Map(g, xs[..n]);
      assert forall k :: 0 <= k < n ==> xs[..n][k] == xs[k];
      FlatMapOfMap(f, g, h, xs[..n]);
    }
  }

  /** Two functions that agree on every element give the same result. */
  lemma {:induction false} FlatMapCongruent<A, B>(f: A -> seq<B>, h: A -> seq<B>, xs: seq<A>)
    requires forall k :: 0 <= k < |xs| ==> f(xs[k]) == h(xs[k])
    ensures FlatMap(f, xs) == FlatMap(h, xs)
    decreases |xs|
  {
    if xs != [] {
      var n := |xs| - 1;
      assert forall k :: 0 <= k < n ==> xs[..n][k] == xs[k];
      FlatMapCongruent(f, h, xs[..n]);
    }
  }
}
