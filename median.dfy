/**
 * The median voter with failure detection (include/blocks/signals/median-3a.hpp):
 * three measurements X1..X3 with validity signals FG1..FG3 give a voted value Y,
 * the status outputs FG, S2V3, S1V3 and the deviation flags ABWX1..ABWX3.
 */
module Median {
  import opened Context

  /**
   * `perm` lists the channel indices in the order a sort by value puts them
   * (std::sort compares values only, so channels with equal values may come in
   * either order).
   */
  predicate SortsBy(xs: seq<real>, perm: seq<nat>)
  {
    |xs| == 3 && |perm| == 3 && perm[0] < 3 && perm[1] < 3 && perm[2] < 3 &&
    perm[0] != perm[1] && perm[0] != perm[2] && perm[1] != perm[2] &&
    xs[perm[0]] <= xs[perm[1]] <= xs[perm[2]]
  }

  /** An insertion sort of the three channel indices; it keeps equal values in channel order. */
  function Sort3(xs: seq<real>): (perm: seq<nat>)
    requires |xs| == 3
    ensures SortsBy(xs, perm)
  {
    var pair: seq<nat> := if xs[1] < xs[0] then [1, 0] else [0, 1];
    if !(xs[2] < xs[pair[1]]) then pair + [2]
    else if xs[2] < xs[pair[0]] then [2] + pair
    else [pair[0], 2, pair[1]]
  }

  /** Whether channel `i` deviates: it holds the maximum and the maximum is more than `tol` above the median, or likewise for the minimum. */
  function Deviates(xs: seq<real>, tol: real, perm: seq<nat>, i: nat): bool
    requires SortsBy(xs, perm)
  {
    (xs[perm[2]] - xs[perm[1]] > tol && perm[2] == i) || (xs[perm[1]] - xs[perm[0]] > tol && perm[0] == i)
  }

  /** The flags ABWX1..ABWX3. */
  function Flags(xs: seq<real>, tol: real, perm: seq<nat>): (abwx: seq<bool>)
    requires SortsBy(xs, perm)
    ensures |abwx| == 3
  {
    [Deviates(xs, tol, perm, 0), Deviates(xs, tol, perm, 1), Deviates(xs, tol, perm, 2)]
  }

  /** A channel is valid when its validity signal is on and it does not deviate. */
  function Validity(fgs: seq<real>, abwx: seq<bool>): (valid: seq<bool>)
    requires |fgs| == 3 && |abwx| == 3
    ensures |valid| == 3 && forall i :: 0 <= i < 3 ==> (valid[i] <==> On(fgs[i]) && !abwx[i])
  {
    [On(fgs[0]) && !abwx[0], On(fgs[1]) && !abwx[1], On(fgs[2]) && !abwx[2]]
  }

  function CountTrue(bs: seq<bool>): (c: nat)
    ensures c <= |bs|
    decreases |bs|
  {
    if bs == [] then 0 else CountTrue(bs[..|bs| - 1]) + (if bs[|bs| - 1] then 1 else 0)
  }

  lemma CountTrue3(bs: seq<bool>)
    requires |bs| == 3
    ensures CountTrue(bs) == (if bs[0] then 1 else 0) + (if bs[1] then 1 else 0) + (if bs[2] then 1 else 0)
  {
    assert bs[..2][..1] == bs[..1] && bs[..1][..0] == [];
    assert CountTrue(bs[..1]) == (if bs[0] then 1 else 0);
  }

  /** The values of the valid channels in channel order. */
  function ValidValues(xs: seq<real>, valid: seq<bool>): (vs: seq<real>)
    requires |xs| == |valid|
    ensures |vs| == CountTrue(valid)
    ensures forall v :: v in vs ==> v in xs
    decreases |xs|
  {
    if xs == [] then []
    else ValidValues(xs[..|xs| - 1], valid[..|valid| - 1]) + (if valid[|valid| - 1] then [xs[|xs| - 1]] else [])
  }

  function Min(a: real, b: real): real { if b < a then b else a }
  function Max(a: real, b: real): real { if a < b then b else a }

  /** The degraded-mode choice: BMIN alone picks the low value, BMAX alone the high one, otherwise the median. */
  function Select(bmin: real, bmax: real, lo: real, hi: real, med: real): real
  {
    if bmin != 0.0 && bmax == 0.0 then lo
    else if bmin == 0.0 && bmax != 0.0 then hi
    else med
  }

  /** The voted value Y. */
  function Voted(xs: seq<real>, valid: seq<bool>, bmin: real, bmax: real, perm: seq<nat>): real
    requires SortsBy(xs, perm) && |valid| == 3
  {
    var count := CountTrue(valid);
    var med := xs[perm[1]];
    if count == 3 then med
    else if count == 2 then
      var vs := ValidValues(xs, valid);
      Select(bmin, bmax, Min(vs[0], vs[1]), Max(vs[0], vs[1]), med)
    else Select(bmin, bmax, xs[perm[0]], xs[perm[2]], med)
  }

  /** The seven outputs Y, FG, S2V3, S1V3, ABWX1, ABWX2, ABWX3. */
  function Outputs(xs: seq<real>, fgs: seq<real>, tol: real, bmin: real, bmax: real, perm: seq<nat>): (out: seq<real>)
    requires SortsBy(xs, perm) && |fgs| == 3
    ensures |out| == 7
  {
    var abwx := Flags(xs, tol, perm);
    var valid := Validity(fgs, abwx);
    var count := CountTrue(valid);
    [Voted(xs, valid, bmin, bmax, perm), Bool(count >= 2), Bool(count < 2), Bool(count < 3),
     Bool(abwx[0]), Bool(abwx[1]), Bool(abwx[2])]
  }

  /** The first sorted channel holds the minimum and the last the maximum. */
  lemma SortExtremes(xs: seq<real>, perm: seq<nat>)
    requires SortsBy(xs, perm)
    ensures forall j :: 0 <= j < 3 ==> xs[perm[0]] <= xs[j] <= xs[perm[2]]
  {
    forall j | 0 <= j < 3
      ensures xs[perm[0]] <= xs[j] <= xs[perm[2]]
    {
      assert j == perm[0] || j == perm[1] || j == perm[2];
    }
  }

  /** The median channel is never flagged, so at most two flags are raised. */
  lemma MedianNeverFlagged(xs: seq<real>, tol: real, perm: seq<nat>)
    requires SortsBy(xs, perm)
    ensures !Flags(xs, tol, perm)[perm[1]]
    ensures !(Flags(xs, tol, perm)[0] && Flags(xs, tol, perm)[1] && Flags(xs, tol, perm)[2])
  {
  }

  /** Y is always one of the three measurements and lies between their minimum and maximum. */
  lemma VotedIsAnInput(xs: seq<real>, fgs: seq<real>, tol: real, bmin: real, bmax: real, perm: seq<nat>)
    requires SortsBy(xs, perm) && |fgs| == 3
    ensures var y := Outputs(xs, fgs, tol, bmin, bmax, perm)[0];
      (y == xs[0] || y == xs[1] || y == xs[2]) && xs[perm[0]] <= y <= xs[perm[2]]
  {
    var valid := Validity(fgs, Flags(xs, tol, perm));
    SortExtremes(xs, perm);
    if CountTrue(valid) == 2 {
      var vs := ValidValues(xs, valid);
      assert vs[0] in xs && vs[1] in xs;
    }
  }

  /** With all three channels valid, Y is the median and every status output is clear. */
  lemma AllValidGivesMedian(xs: seq<real>, fgs: seq<real>, tol: real, bmin: real, bmax: real, perm: seq<nat>)
    requires SortsBy(xs, perm) && |fgs| == 3
    requires On(fgs[0]) && On(fgs[1]) && On(fgs[2])
    requires xs[perm[2]] - xs[perm[1]] <= tol && xs[perm[1]] - xs[perm[0]] <= tol
    ensures Outputs(xs, fgs, tol, bmin, bmax, perm) == [xs[perm[1]], 1.0, 0.0, 0.0, 0.0, 0.0, 0.0]
  {
    var valid := Validity(fgs, Flags(xs, tol, perm));
    assert valid == [true, true, true];
    CountTrue3(valid);
  }

  /** FG and S2V3 are complementary, and S1V3 is raised whenever FG is lowered. */
  lemma StatusOutputs(xs: seq<real>, fgs: seq<real>, tol: real, bmin: real, bmax: real, perm: seq<nat>)
    requires SortsBy(xs, perm) && |fgs| == 3
    ensures var out := Outputs(xs, fgs, tol, bmin, bmax, perm);
      (out[1] == 1.0 <==> out[2] == 0.0) && (out[1] == 0.0 ==> out[3] == 1.0) &&
      forall k :: 1 <= k < 7 ==> out[k] == 0.0 || out[k] == 1.0
  {
  }

  /** Any two sorts of the same measurements agree on the sorted values. */
  lemma SortedValuesUnique(xs: seq<real>, p: seq<nat>, q: seq<nat>)
    requires SortsBy(xs, p) && SortsBy(xs, q)
    ensures xs[p[0]] == xs[q[0]] && xs[p[1]] == xs[q[1]] && xs[p[2]] == xs[q[2]]
  {
    SortExtremes(xs, p);
    SortExtremes(xs, q);
  }

  /**
   * With a non-negative tolerance the outputs do not depend on how the sort
   * orders equal values: a flagged extreme is strictly apart from the other
   * two channels, so every sort puts the same channel there.
   */
  lemma OutputsIndependentOfTies(xs: seq<real>, fgs: seq<real>, tol: real, bmin: real, bmax: real, p: seq<nat>, q: seq<nat>)
    requires SortsBy(xs, p) && SortsBy(xs, q) && |fgs| == 3 && tol >= 0.0
    ensures Outputs(xs, fgs, tol, bmin, bmax, p) == Outputs(xs, fgs, tol, bmin, bmax, q)
  {
    SortedValuesUnique(xs, p, q);
    SortExtremes(xs, p);
    assert Flags(xs, tol, p) == Flags(xs, tol, q);
  }

  /** A negative tolerance flags an extreme even when it ties the median, so ties then decide which channel is flagged. */
  lemma NegativeToleranceDependsOnTies()
    ensures SortsBy([1.0, 1.0, 1.0], [0, 1, 2]) && SortsBy([1.0, 1.0, 1.0], [2, 1, 0])
    ensures Flags([1.0, 1.0, 1.0], -1.0, [0, 1, 2]) == [true, false, true]
    ensures Flags([1.0, 1.0, 1.0], -1.0, [1, 0, 2]) == [false, true, true]
  {
  }

  /** The outlier flags: an extreme further than `tol` from the median. */
  method FlagOutliers(xs: seq<real>, tol: real, sorted: seq<nat>) returns (abwx: seq<bool>)
    requires SortsBy(xs, sorted)
    ensures abwx == Flags(xs, tol, sorted)
  {
    var minVal, medianVal, maxVal := xs[sorted[0]], xs[sorted[1]], xs[sorted[2]];
    abwx := [false, false, false];
    if maxVal - medianVal > tol {
      abwx := abwx[sorted[2] := true];
    }
    if medianVal - minVal > tol {
      abwx := abwx[sorted[0] := true];
    }
  }

  /** The voted value and the number of valid channels. */
  method Vote(xs: seq<real>, valid: seq<bool>, bmin: real, bmax: real, sorted: seq<nat>) returns (y: real, validCount: int)
    requires SortsBy(xs, sorted) && |valid| == 3
    ensures y == Voted(xs, valid, bmin, bmax, sorted) && validCount == CountTrue(valid)
  {
    var minVal, medianVal, maxVal := xs[sorted[0]], xs[sorted[1]], xs[sorted[2]];
    validCount := CountValid(valid);
    if validCount == 3 {
      y := medianVal;
    } else if validCount == 2 {
      var validValues := CollectValid(xs, valid);
      y := Select(bmin, bmax, Min(validValues[0], validValues[1]), Max(validValues[0], validValues[1]), medianVal);
    } else {
      y := Select(bmin, bmax, minVal, maxVal, medianVal);
    }
  }

  /** The counting loop of the valid channels. */
  method CountValid(valid: seq<bool>) returns (count: int)
    ensures count == CountTrue(valid)
  {
    count := 0;
    var i := 0;
    while i < |valid|
      invariant 0 <= i <= |valid|
      invariant count == CountTrue(valid[..i])
    {
      assert valid[..i + 1][..i] == valid[..i];
      if valid[i] {
        count := count + 1;
      }
      i := i + 1;
    }
    assert valid[..|valid|] == valid;
  }

  /** The loop that gathers the values of the valid channels in channel order. */
  method CollectValid(xs: seq<real>, valid: seq<bool>) returns (vs: seq<real>)
    requires |xs| == |valid|
    ensures vs == ValidValues(xs, valid)
  {
    vs := [];
    var i := 0;
    while i < |xs|
      invariant 0 <= i <= |xs|
      invariant vs == ValidValues(xs[..i], valid[..i])
    {
      assert xs[..i + 1][..i] == xs[..i] && valid[..i + 1][..i] == valid[..i];
      if valid[i] {
        vs := vs + [xs[i]];
      }
      i := i + 1;
    }
    assert xs[..|xs|] == xs && valid[..|valid|] == valid;
  }

  /** The block: its parameters and its seven output slots. */
  class Median3A {
    const tol: real
    const bmin: real
    const bmax: real
    var outputs: seq<real>

    constructor(tol: real, bmin: real, bmax: real)
      ensures this.tol == tol && this.bmin == bmin && this.bmax == bmax
      ensures outputs == [0.0, 0.0, 0.0, 0.0, 0.0, 0.0, 0.0]
    {
      this.tol := tol;
      this.bmin := bmin;
      this.bmax := bmax;
      outputs := [0.0, 0.0, 0.0, 0.0, 0.0, 0.0, 0.0];
    }

    /** One evaluation from the measurements `xs` and validity signals `fgs`. */
    method Compute(xs: seq<real>, fgs: seq<real>)
      requires |xs| == 3 && |fgs| == 3
      modifies this`outputs
      ensures outputs == Outputs(xs, fgs, tol, bmin, bmax, Sort3(xs))
    {
      var sorted := Sort3(xs);
      var abwx := FlagOutliers(xs, tol, sorted);
      var valid := [On(fgs[0]) && !abwx[0], On(fgs[1]) && !abwx[1], On(fgs[2]) && !abwx[2]];
      assert valid == Validity(fgs, Flags(xs, tol, sorted));
      var y, validCount := Vote(xs, valid, bmin, bmax, sorted);
      outputs := [y, Bool(validCount >= 2), Bool(validCount < 2), Bool(validCount < 3),
                  Bool(abwx[0]), Bool(abwx[1]), Bool(abwx[2])];
    }
  }
}
