/** Sequence helpers shared by the risk engine, the resource advisor and the
    comorbidity form: order-preserving subsequences and masked selection. */
module Sequences {

  /** `xs` occurs in `ys` in the same order, possibly with gaps. */
  ghost predicate Embeds<T>(xs: seq<T>, ys: seq<T>)
    decreases |ys|
  {
    if xs == [] then true
    else if ys == [] then false
    else Embeds(xs, ys[..|ys| - 1])
         || (xs[|xs| - 1] == ys[|ys| - 1] && Embeds(xs[..|xs| - 1], ys[..|ys| - 1]))
  }

  /** No element occurs twice. */
  ghost predicate NoDup<T>(xs: seq<T>) {
    forall i, j :: 0 <= i < j < |xs| ==> xs[i] != xs[j]
  }

  /** The elements of `xs` whose flag in `mask` is set, in their original order. */
  function Keep<T>(xs: seq<T>, mask: seq<bool>): (r: seq<T>)
    requires |mask| == |xs|
    ensures |r| <= |xs|
    ensures forall x :: x in r ==> x in xs
    ensures forall i :: 0 <= i < |xs| && mask[i] ==> xs[i] in r
    decreases |xs|
  {
    if xs == [] then []
    else Keep(xs[..|xs| - 1], mask[..|mask| - 1]) + (if mask[|mask| - 1] then [xs[|xs| - 1]] else [])
  }

  /** Selection from a four-element sequence, written out flag by flag. */
  lemma KeepOfFour<T>(xs: seq<T>, mask: seq<bool>)
    requires |xs| == 4 && |mask| == 4
    ensures Keep(xs, mask) == (if mask[0] then [xs[0]] else []) + (if mask[1] then [xs[1]] else [])
                              + (if mask[2] then [xs[2]] else []) + (if mask[3] then [xs[3]] else [])
  {
    assert xs[..3][..2] == xs[..2] && mask[..3][..2] == mask[..2];
    assert xs[..2][..1] == xs[..1] && mask[..2][..1] == mask[..1];
    assert xs[..1][..0] == [] && mask[..1][..0] == [];
    assert Keep(xs[..1], mask[..1]) == (if mask[0] then [xs[0]] else []);
    assert Keep(xs[..2], mask[..2]) == Keep(xs[..1], mask[..1]) + (if mask[1] then [xs[1]] else []);
    assert Keep(xs[..3], mask[..3]) == Keep(xs[..2], mask[..2]) + (if mask[2] then [xs[2]] else []);
  }

  /** Appending to the larger sequence keeps an embedding. */
  lemma EmbedsSnocRight<T>(xs: seq<T>, ys: seq<T>, y: T)
    requires Embeds(xs, ys)
    ensures Embeds(xs, ys + [y])
  {
  }

  /** Appending the same element to both sides keeps an embedding. */
  lemma EmbedsSnocBoth<T>(xs: seq<T>, ys: seq<T>, z: T)
    requires Embeds(xs, ys)
    ensures Embeds(xs + [z], ys + [z])
  {
  }

  /** A masked selection is an order-preserving subsequence of its source. */
  lemma {:induction false} KeepEmbeds<T>(xs: seq<T>, mask: seq<bool>)
    requires |mask| == |xs|
    ensures Embeds(Keep(xs, mask), xs)
    decreases |xs|
  {
    if xs != [] {
      var init, m := xs[..|xs| - 1], mask[..|mask| - 1];
      var last := xs[|xs| - 1];
      KeepEmbeds(init, m);
      assert init + [last] == xs;
      if mask[|mask| - 1] {
        EmbedsSnocBoth(Keep(init, m), init, last);
      } else {
        assert Keep(xs, mask) == Keep(init, m);
        EmbedsSnocRight(Keep(init, m), init, last);
      }
    }
  }

  /** Selecting from a duplicate-free sequence: an element is selected iff its flag is set,
      and the selection has no duplicates either. */
  lemma {:induction false} KeepDistinct<T>(xs: seq<T>, mask: seq<bool>)
    requires |mask| == |xs| && NoDup(xs)
    ensures NoDup(Keep(xs, mask))
    ensures forall i :: 0 <= i < |xs| ==> (xs[i] in Keep(xs, mask) <==> mask[i])
    decreases |xs|
  {
    if xs != [] {
      var init, m := xs[..|xs| - 1], mask[..|mask| - 1];
      var last := xs[|xs| - 1];
      KeepDistinct(init, m);
      var k := Keep(init, m);
      assert last !in init by {
        forall i | 0 <= i < |init| ensures init[i] != last {
          assert init[i] == xs[i];
        }
      }
      assert last !in k;
      forall i | 0 <= i < |xs| ensures xs[i] in Keep(xs, mask) <==> mask[i] {
        if i < |init| {
          assert xs[i] == init[i];
          assert xs[i] != last;
        }
      }
    }
  }

  /** Setting more flags selects a sequence the smaller selection embeds into. */
  lemma {:induction false} KeepMonotone<T>(xs: seq<T>, m1: seq<bool>, m2: seq<bool>)
    requires |m1| == |xs| && |m2| == |xs|
    requires forall i :: 0 <= i < |xs| && m1[i] ==> m2[i]
    ensures Embeds(Keep(xs, m1), Keep(xs, m2))
    decreases |xs|
  {
    if xs != [] {
      var n := |xs| - 1;
      var a, b := Keep(xs[..n], m1[..n]), Keep(xs[..n], m2[..n]);
      KeepMonotone(xs[..n], m1[..n], m2[..n]);
      if m1[n] {
        EmbedsSnocBoth(a, b, xs[n]);
      } else if m2[n] {
        assert Keep(xs, m1) == a;
        EmbedsSnocRight(a, b, xs[n]);
      } else {
        assert Keep(xs, m1) == a && Keep(xs, m2) == b;
      }
    }
  }
}
