/**
 * The random draws of the source, made explicit. A call of rnd.randint(lo, hi)
 * (inclusive at both ends) or np.random.randint(lo, hi + 1) becomes a free
 * natural number d that Pick maps into [lo, hi]; rnd.choice(xs) becomes a free
 * natural number that Choose maps to an element; a shuffle becomes a
 * permutation of the positions. The lemmas show that no outcome of the
 * original draw is lost and none is added.
 */
module Chance {

  /** The value of randint(lo, hi) selected by the raw draw d. */
  function Pick(lo: int, hi: int, d: nat): (v: int)
    requires lo <= hi
    ensures lo <= v <= hi
  {
    lo + d % (hi - lo + 1)
  }

  /** Every value of the inclusive range is the outcome of some draw. */
  lemma PickReachesEveryValue(lo: int, hi: int, v: int)
    requires lo <= v <= hi
    ensures exists d: nat :: Pick(lo, hi, d) == v
  {
    var d: nat := v - lo;
    assert d < hi - lo + 1;
    assert d % (hi - lo + 1) == d;
    assert Pick(lo, hi, d) == v;
  }

  /** The element that rnd.choice(xs) returns for the raw draw d. */
  function Choose<T>(xs: seq<T>, d: nat): (x: T)
    requires |xs| > 0
    ensures x in xs
  {
    xs[d % |xs|]
  }

  /** Every element of the list is the outcome of some draw. */
  lemma ChooseReachesEveryElement<T>(xs: seq<T>, k: nat)
    requires k < |xs|
    ensures exists d: nat :: Choose(xs, d) == xs[k]
  {
    assert k % |xs| == k;
    assert Choose(xs, k) == xs[k];
  }

  /** p lists every position 0 .. n-1 exactly once: the outcome of shuffling n items. */
  predicate IsPermutation(p: seq<nat>, n: nat)
  {
    && |p| == n
    && (forall i :: 0 <= i < n ==> p[i] < n)
    && (forall i, j :: 0 <= i < j < n ==> p[i] != p[j])
    && (forall k: nat :: k < n ==> k in p)
  }

  /** The list after the shuffle described by p: position i receives the item at p[i]. */
  function Apply<T>(xs: seq<T>, p: seq<nat>): (ys: seq<T>)
    requires IsPermutation(p, |xs|)
    ensures |ys| == |xs|
    ensures forall i :: 0 <= i < |xs| ==> ys[i] == xs[p[i]]
  {
    seq(|xs|, i requires 0 <= i < |xs| => xs[p[i]])
  }

  /** A shuffle neither loses nor invents an item. */
  lemma ApplyKeepsItems<T>(xs: seq<T>, p: seq<nat>)
    requires IsPermutation(p, |xs|)
    ensures forall x :: x in Apply(xs, p) <==> x in xs
  {
    var ys := Apply(xs, p);
    forall x | x in xs
      ensures x in ys
    {
      var j :| 0 <= j < |xs| && xs[j] == x;
      var jn: nat := j;
      assert jn in p;
      var i :| 0 <= i < |p| && p[i] == jn;
      assert ys[i] == x;
    }
  }

  /** A shuffle keeps distinct items distinct: no item is placed twice. */
  lemma ApplyKeepsDistinct<T>(xs: seq<T>, p: seq<nat>)
    requires IsPermutation(p, |xs|)
    requires forall i, j :: 0 <= i < j < |xs| ==> xs[i] != xs[j]
    ensures var ys := Apply(xs, p); forall i, j :: 0 <= i < j < |ys| ==> ys[i] != ys[j]
  {
    var ys := Apply(xs, p);
    forall i, j | 0 <= i < j < |ys|
      ensures ys[i] != ys[j]
    {
      assert p[i] != p[j];
      if p[i] < p[j] {
        assert xs[p[i]] != xs[p[j]];
      } else {
        assert xs[p[j]] != xs[p[i]];
      }
    }
  }
}
