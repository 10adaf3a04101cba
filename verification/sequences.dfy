/**
 * Flat-mapping over a sequence of indices, and the fact that the multiset of
 * what comes out depends only on the multiset of indices that go in. This is
 * what makes the gathering phase's completion-order results a rearrangement
 * of its plan-order results.
 */
module Sequences {

  function FlatMap<A, B>(xs: seq<A>, g: A -> seq<B>): (r: seq<B>)
    ensures |xs| == 0 ==> r == []
    ensures |xs| == 1 ==> r == g(xs[0])
  {
    if |xs| == 0 then [] else g(xs[0]) + FlatMap(xs[1..], g)
  }

  lemma {:induction false} FlatMapAppend<A, B>(xs: seq<A>, ys: seq<A>, g: A -> seq<B>)
    ensures FlatMap(xs + ys, g) == FlatMap(xs, g) + FlatMap(ys, g)
    decreases |xs|
  {
    if |xs| == 0 {
      assert xs + ys == ys;
    } else {
      assert (xs + ys)[1..] == xs[1..] + ys;
      FlatMapAppend(xs[1..], ys, g);
    }
  }

  /** Rearranging the inputs rearranges the outputs. */
  lemma {:induction false} FlatMapPermutation<A, B>(xs: seq<A>, ys: seq<A>, g: A -> seq<B>)
    requires multiset(xs) == multiset(ys)
    ensures multiset(FlatMap(xs, g)) == multiset(FlatMap(ys, g))
    decreases |xs|
  {
    if |xs| == 0 {
      assert |multiset(ys)| == 0;
      assert ys == [];
    } else {
      var x := xs[0];
      assert x in multiset(ys);
      var j :| 0 <= j < |ys| && ys[j] == x;
      var rest := ys[..j] + ys[j + 1..];
      RemoveAtMultiset(ys, j);
      assert xs == [x] + xs[1..];
      assert multiset(xs[1..]) == multiset(xs) - multiset{x};
      FlatMapPermutation(xs[1..], rest, g);
      FlatMapRemoveAt(ys, j, g);
    }
  }

  /** Taking out the element at `j` takes one occurrence of it out of the multiset. */
  lemma RemoveAtMultiset<A>(ys: seq<A>, j: nat)
    requires j < |ys|
    ensures multiset(ys[..j] + ys[j + 1..]) == multiset(ys) - multiset{ys[j]}
  {
    assert ys == ys[..j] + [ys[j]] + ys[j + 1..];
    assert multiset(ys) == multiset(ys[..j]) + multiset{ys[j]} + multiset(ys[j + 1..]);
  }

  /** The flat map holds what the element at `j` produces alongside what the others produce. */
  lemma FlatMapRemoveAt<A, B>(ys: seq<A>, j: nat, g: A -> seq<B>)
    requires j < |ys|
    ensures multiset(FlatMap(ys, g)) == multiset(g(ys[j])) + multiset(FlatMap(ys[..j] + ys[j + 1..], g))
  {
    var x := ys[j];
    var before, after := ys[..j], ys[j + 1..];
    assert ys == (before + [x]) + after;
    FlatMapAppend(before + [x], after, g);
    FlatMapAppend(before, [x], g);
    FlatMapAppend(before, after, g);
    var fb, fa := FlatMap(before, g), FlatMap(after, g);
    assert FlatMap(ys, g) == (fb + g(x)) + fa;
    assert FlatMap(before + after, g) == fb + fa;
    assert multiset(FlatMap(ys, g)) == multiset(fb) + multiset(g(x)) + multiset(fa);
  }

  /** Two functions that agree on every element give the same flat map. */
  lemma {:induction false} FlatMapCongruence<A, B>(xs: seq<A>, g: A -> seq<B>, h: A -> seq<B>)
    requires forall i :: 0 <= i < |xs| ==> g(xs[i]) == h(xs[i])
    ensures FlatMap(xs, g) == FlatMap(xs, h)
    decreases |xs|
  {
    if |xs| > 0 {
      assert forall i :: 0 <= i < |xs[1..]| ==> g(xs[1..][i]) == h(xs[1..][i]) by {
        forall i | 0 <= i < |xs[1..]| ensures g(xs[1..][i]) == h(xs[1..][i]) {
          assert xs[1..][i] == xs[i + 1];
        }
      }
      FlatMapCongruence(xs[1..], g, h);
    }
  }
}
