/**
 * Threshold blocks with memory (include/blocks/nonlinear): Hysteresis and
 * LowThreshold. Both only compare their input with constants, so values
 * are reals.
 */
module Nonlinear {
  import opened Context

  // ------------------------------------------------------------- Hysteresis

  /** One Hysteresis tick: at or below x1 gives y1, else at or above x2 gives y2, else hold. */
  function HystNext(x1: real, x2: real, y1: real, y2: real, y: real, x: real): real {
    if x <= x1 then y1 else if x >= x2 then y2 else y
  }

  /** The value `init` writes before its tick. */
  function HystStart(y1: real, y2: real, y0: bool): real { if y0 then y2 else y1 }

  /** Both levels are kept: a slot in {y1, y2} stays there, whatever the input. */
  lemma HystLevels(x1: real, x2: real, y1: real, y2: real, y: real, x: real)
    requires y == y1 || y == y2
    ensures var r := HystNext(x1, x2, y1, y2, y, x); r == y1 || r == y2
  {
  }

  /** Applying the rule twice with the same input changes nothing more. */
  lemma HystIdempotent(x1: real, x2: real, y1: real, y2: real, y: real, x: real)
    ensures var r := HystNext(x1, x2, y1, y2, y, x);
      HystNext(x1, x2, y1, y2, r, x) == r
  {
  }

  /** The hysteresis band: between x1 and x2 the previous level is kept. */
  lemma HystBand(x1: real, x2: real, y1: real, y2: real, y: real, x: real)
    requires x1 < x < x2
    ensures HystNext(x1, x2, y1, y2, y, x) == y
  {
  }

  /** Hysteresis relay (include/blocks/nonlinear/hysteresis.hpp). */
  class Hysteresis {
    const x1: real
    const x2: real
    const y1: real
    const y2: real
    const y0: bool
    var y: real

    /** After `init`, the slot always holds one of the two levels. */
    ghost predicate Valid() reads this { y == y1 || y == y2 }

    constructor (x1: real, x2: real, y1: real, y2: real, y0: bool)
      ensures this.x1 == x1 && this.x2 == x2 && this.y1 == y1 && this.y2 == y2 && this.y0 == y0
      ensures y == 0.0
    {
      this.x1, this.x2, this.y1, this.y2, this.y0 := x1, x2, y1, y2, y0;
      y := 0.0;
    }

    method Init(x: real)
      modifies this
      ensures Valid()
      ensures y == HystNext(x1, x2, y1, y2, HystStart(y1, y2, y0), x)
    {
      y := if y0 then y2 else y1;
      Compute(x);
    }

    method Compute(x: real)
      modifies this
      ensures old(Valid()) ==> Valid()
      ensures y == HystNext(x1, x2, y1, y2, old(y), x)
    {
      if x <= x1 {
        y := y1;
      } else if x >= x2 {
        y := y2;
      }
    }
  }

  // ----------------------------------------------------------- LowThreshold

  /** One LowThreshold tick: above deactivation gives 0, else below activation gives 1, else hold. */
  function LowNext(activation: real, deactivation: real, y: real, x: real): real {
    if x > deactivation then 0.0 else if x < activation then 1.0 else y
  }

  /** A boolean slot stays boolean, and the two thresholds decide as documented. */
  lemma LowThresholdStep(activation: real, deactivation: real, b: bool, x: real)
    ensures var r := LowNext(activation, deactivation, Bool(b), x); r == 0.0 || r == 1.0
    ensures x > deactivation ==> LowNext(activation, deactivation, Bool(b), x) == 0.0
    ensures x <= deactivation && x < activation ==> LowNext(activation, deactivation, Bool(b), x) == 1.0
  {
  }

  /** With a non-negative delta, inputs inside [activation, deactivation] keep the slot. */
  lemma LowThresholdBand(activation: real, delta: real, y: real, x: real)
    requires delta >= 0.0 && activation <= x <= activation + delta
    ensures LowNext(activation, activation + delta, y, x) == y
  {
  }

  /** Low-level alarm (include/blocks/nonlinear/low-threshold.hpp). */
  class LowThreshold {
    const activation: real
    const deactivation: real
    var y: real

    ghost predicate Valid() reads this { y == 0.0 || y == 1.0 }

    constructor (activationThreshold: real, deactivationDelta: real)
      ensures activation == activationThreshold
      ensures deactivation == activationThreshold + deactivationDelta
      ensures Valid()
    {
      activation := activationThreshold;
      deactivation := activationThreshold + deactivationDelta;
      y := 0.0;
    }

    /** Unlike `compute`, `init` ignores the deactivation level. */
    method Init(x: real)
      modifies this
      ensures Valid() && y == Bool(x < activation)
    {
      y := Bool(x < activation);
    }

    method Compute(x: real)
      modifies this
      ensures old(Valid()) ==> Valid()
      ensures y == LowNext(activation, deactivation, old(y), x)
    {
      if x > deactivation {
        y := 0.0;
      } else if x < activation {
        y := 1.0;
      }
    }
  }
}
