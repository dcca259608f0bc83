/**
 * Python's filtering list comprehensions, `[f(x) for x in xs if keep(f(x))]`,
 * over any element types, with the positions such a filter keeps.
 */
module Comprehensions {

  /**
   * The positions a filtering comprehension `[... for x in xs if keep(x)]`
   * keeps: in range, increasing, and every position whose element passes.
   */
  function Positions<A>(keep: A -> bool, xs: seq<A>): (idx: seq<nat>)
    ensures forall j | 0 <= j < |idx| :: idx[j] < |xs| && keep(xs[idx[j]])
    ensures forall j, k | 0 <= j < k < |idx| :: idx[j] < idx[k]
    ensures forall i | 0 <= i < |xs| && keep(xs[i]) :: i in idx
  {
    if xs == [] then []
    else
      var n := |xs| - 1;
      var init := Positions(keep, xs[..n]);
      assert forall j | 0 <= j < |init| :: xs[..n][init[j]] == xs[init[j]];
      if keep(xs[n]) then init + [n] else init
  }

  /** The positions kept from one more element: its own is appended when it passes. */
  lemma PositionsStep<A>(keep: A -> bool, xs: seq<A>, i: nat)
    requires i < |xs|
    ensures Positions(keep, xs[..i + 1]) ==
      if keep(xs[i]) then Positions(keep, xs[..i]) + [i] else Positions(keep, xs[..i])
  {
    assert xs[..i + 1][..i] == xs[..i];
  }

  /**
   * The comprehension `[f(x) for x in xs if keep(f(x))]`: the images under
   * `f` that pass `keep`, in their order.
   */
  function Kept<A, B>(f: A -> B, keep: B -> bool, xs: seq<A>): (ys: seq<B>)
    ensures |ys| <= |xs|
    ensures forall j | 0 <= j < |ys| :: keep(ys[j])
  {
    if xs == [] then []
    else
      var init := Kept(f, keep, xs[..|xs| - 1]);
      var y := f(xs[|xs| - 1]);
      if keep(y) then init + [y] else init
  }

  /** The comprehension over one more element appends its image when that passes. */
  lemma KeptStep<A, B>(f: A -> B, keep: B -> bool, xs: seq<A>, i: nat)
    requires i < |xs|
    ensures Kept(f, keep, xs[..i + 1]) ==
      if keep(f(xs[i])) then Kept(f, keep, xs[..i]) + [f(xs[i])] else Kept(f, keep, xs[..i])
  {
    assert xs[..i + 1][..i] == xs[..i];
  }

  /**
   * The comprehension holds one value per element whose image passes, in
   * order: its j-th value is the image of the j-th such element.
   */
  lemma {:induction false} KeptFollowsInput<A, B>(f: A -> B, keep: B -> bool, passes: A -> bool, xs: seq<A>)
    requires forall x :: passes(x) == keep(f(x))
    ensures |Kept(f, keep, xs)| == |Positions(passes, xs)|
    ensures forall j | 0 <= j < |Kept(f, keep, xs)| :: Kept(f, keep, xs)[j] == f(xs[Positions(passes, xs)[j]])
  {
    if xs != [] {
      var n := |xs| - 1;
      var init := xs[..n];
      KeptFollowsInput(f, keep, passes, init);
      KeptStep(f, keep, xs, n);
      PositionsStep(passes, xs, n);
      assert xs[..n + 1] == xs;
      var ys := Kept(f, keep, init);
      var idx := Positions(passes, init);
      forall j | 0 <= j < |ys| ensures ys[j] == f(xs[idx[j]]) {
        assert init[idx[j]] == xs[idx[j]];
      }
    }
  }

  /** When every element passes and `f` leaves it unchanged, the comprehension gives back the input. */
  lemma {:induction false} KeptAll<A>(f: A -> A, keep: A -> bool, xs: seq<A>)
    requires forall j | 0 <= j < |xs| :: keep(f(xs[j])) && f(xs[j]) == xs[j]
    ensures Kept(f, keep, xs) == xs
  {
    if xs != [] {
      var init := xs[..|xs| - 1];
      assert forall j | 0 <= j < |init| :: init[j] == xs[j];
      KeptAll(f, keep, init);
      assert init + [xs[|xs| - 1]] == xs;
    }
  }
}
