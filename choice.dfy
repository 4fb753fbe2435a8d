/**
 * Count voters (include/blocks/signals/choice-3d.hpp, choice-4d.hpp): the
 * outputs depend only on how many inputs are nonzero.
 */
module Choice {
  import opened Context

  /** The number of nonzero inputs. */
  function NonzeroCount(xs: seq<real>): (c: nat)
    ensures c <= |xs|
    decreases |xs|
  {
    if xs == [] then 0 else NonzeroCount(xs[..|xs| - 1]) + (if On(xs[|xs| - 1]) then 1 else 0)
  }

  /** The count is the length minus the multiplicity of zero, so it only depends on the multiset of inputs. */
  lemma {:induction false} NonzeroCountMultiset(xs: seq<real>)
    ensures NonzeroCount(xs) == |xs| - multiset(xs)[0.0]
    decreases |xs|
  {
    if xs != [] {
      var front := xs[..|xs| - 1];
      NonzeroCountMultiset(front);
      assert xs == front + [xs[|xs| - 1]];
      assert multiset(xs) == multiset(front) + multiset{xs[|xs| - 1]};
    }
  }

  /** Rearranging the inputs does not change the count. */
  lemma NonzeroCountPermutation(xs: seq<real>, ys: seq<real>)
    requires multiset(xs) == multiset(ys)
    ensures NonzeroCount(xs) == NonzeroCount(ys)
  {
    NonzeroCountMultiset(xs);
    NonzeroCountMultiset(ys);
    assert |xs| == |multiset(xs)| == |ys|;
  }

  /** Switching more inputs on never lowers the count. */
  lemma {:induction false} NonzeroCountMonotone(xs: seq<real>, ys: seq<real>)
    requires |xs| == |ys|
    requires forall i :: 0 <= i < |xs| && On(xs[i]) ==> On(ys[i])
    ensures NonzeroCount(xs) <= NonzeroCount(ys)
    decreases |xs|
  {
    if xs != [] {
      NonzeroCountMonotone(xs[..|xs| - 1], ys[..|ys| - 1]);
    }
  }

  /** `Choice3D::compute`: the count of three inputs as the source sums it. */
  function Count3(xs: seq<real>): (c: int)
    requires |xs| == 3
    ensures c == NonzeroCount(xs)
  {
    assert xs[..2][..1] == xs[..1] && xs[..1][..0] == [];
    assert NonzeroCount(xs[..1]) == (if On(xs[0]) then 1 else 0);
    assert NonzeroCount(xs[..2]) == NonzeroCount(xs[..1]) + (if On(xs[1]) then 1 else 0);
    (if On(xs[0]) then 1 else 0) + (if On(xs[1]) then 1 else 0) + (if On(xs[2]) then 1 else 0)
  }

  /** The four Choice3D outputs: at least one, at least two, all three, all agree. */
  function Choice3D(xs: seq<real>): (out: seq<real>)
    requires |xs| == 3
    ensures |out| == 4
  {
    var count := Count3(xs);
    [Bool(count >= 1), Bool(count >= 2), Bool(count == 3), Bool(count == 0 || count == 3)]
  }

  /** The outputs are booleans, each threshold output implies the lower one, and agreement means none or all. */
  lemma Choice3DOutputs(xs: seq<real>)
    requires |xs| == 3
    ensures var out := Choice3D(xs);
      (forall k :: 0 <= k < 4 ==> out[k] == 0.0 || out[k] == 1.0) &&
      (out[2] == 1.0 ==> out[1] == 1.0) && (out[1] == 1.0 ==> out[0] == 1.0) &&
      (out[3] == 1.0 <==> (forall k :: 0 <= k < 3 ==> On(xs[k])) || (forall k :: 0 <= k < 3 ==> !On(xs[k])))
  {
  }

  /** Choice3D does not care which channel is which. */
  lemma Choice3DPermutation(xs: seq<real>, ys: seq<real>)
    requires |xs| == 3 && multiset(xs) == multiset(ys)
    ensures |ys| == 3 && Choice3D(xs) == Choice3D(ys)
  {
    NonzeroCountPermutation(xs, ys);
    assert |xs| == |multiset(xs)| == |ys|;
  }

  /** `Choice4D::compute`: the count of four inputs. */
  function Count4(xs: seq<real>): (c: int)
    requires |xs| == 4
    ensures c == NonzeroCount(xs)
  {
    assert xs[..3][..2] == xs[..2] && xs[..2][..1] == xs[..1] && xs[..1][..0] == [];
    assert NonzeroCount(xs[..1]) == (if On(xs[0]) then 1 else 0);
    assert NonzeroCount(xs[..2]) == NonzeroCount(xs[..1]) + (if On(xs[1]) then 1 else 0);
    assert NonzeroCount(xs[..3]) == NonzeroCount(xs[..2]) + (if On(xs[2]) then 1 else 0);
    (if On(xs[0]) then 1 else 0) + (if On(xs[1]) then 1 else 0) +
    (if On(xs[2]) then 1 else 0) + (if On(xs[3]) then 1 else 0)
  }

  /** The six Choice4D outputs: at least one, two, three, all four, all agree, exactly two. */
  function Choice4D(xs: seq<real>): (out: seq<real>)
    requires |xs| == 4
    ensures |out| == 6
  {
    var count := Count4(xs);
    [Bool(count >= 1), Bool(count >= 2), Bool(count >= 3), Bool(count == 4),
     Bool(count == 0 || count == 4), Bool(count == 2)]
  }

  /** Threshold outputs are nested and a tie of two is neither an agreement nor a majority of three. */
  lemma Choice4DOutputs(xs: seq<real>)
    requires |xs| == 4
    ensures var out := Choice4D(xs);
      (forall k :: 0 <= k < 6 ==> out[k] == 0.0 || out[k] == 1.0) &&
      (out[3] == 1.0 ==> out[2] == 1.0) && (out[2] == 1.0 ==> out[1] == 1.0) &&
      (out[1] == 1.0 ==> out[0] == 1.0) &&
      (out[5] == 1.0 ==> out[1] == 1.0 && out[2] == 0.0 && out[4] == 0.0)
  {
  }

  lemma Choice4DPermutation(xs: seq<real>, ys: seq<real>)
    requires |xs| == 4 && multiset(xs) == multiset(ys)
    ensures |ys| == 4 && Choice4D(xs) == Choice4D(ys)
  {
    NonzeroCountPermutation(xs, ys);
    assert |xs| == |multiset(xs)| == |ys|;
  }

  /** More inputs on never switches a threshold output of Choice4D off. */
  lemma Choice4DMonotone(xs: seq<real>, ys: seq<real>)
    requires |xs| == 4 && |ys| == 4
    requires forall i :: 0 <= i < 4 && On(xs[i]) ==> On(ys[i])
    ensures forall k :: 0 <= k < 4 && Choice4D(xs)[k] == 1.0 ==> Choice4D(ys)[k] == 1.0
  {
    NonzeroCountMonotone(xs, ys);
  }
}
