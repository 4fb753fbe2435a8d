/**
 * Shared constants and the port bookkeeping record of the simulation
 * context (include/context.hpp).
 *
 * Time is counted in integer microseconds, as `types::time` (a signed
 * 64-bit integer) holds it. Signal values are modelled as reals; a
 * boolean output is written as 1.0 or 0.0 and an input counts as "on"
 * when it is nonzero.
 */
module Context {
  /** `Context::sec`: one second in microseconds. */
  const Sec: int := 1_000_000
  /** `Context::dt`: one integration step, `sec * 0.1`, in microseconds. */
  const Dt: int := 100_000

  /** `std::numeric_limits<types::time>::min()` and `max()`. */
  const TimeMin: int := -0x8000_0000_0000_0000
  const TimeMax: int := 0x7FFF_FFFF_FFFF_FFFF

  /** A value a `types::time` variable can hold. */
  predicate IsTime(t: int) { TimeMin <= t <= TimeMax }

  /** The double a comparison stores into a real output slot. */
  function Bool(b: bool): real { if b then 1.0 else 0.0 }

  /** `x != 0` on a real input. */
  predicate On(x: real) { x != 0.0 }

  /** `output == 0`, the toggle a T-trigger writes back into its slot. */
  function Toggle(y: real): real { Bool(y == 0.0) }

  lemma ToggleBoolean(b: bool)
    ensures Toggle(Bool(b)) == Bool(!b)
  {
  }

  /** Output slot and remembered input level of an edge-detecting block. */
  datatype EdgeState = EdgeState(y: real, prevX: bool)

  datatype Option<T> = None | Some(value: T)

  /** Per-port bookkeeping of the context (`struct PortInfo`). */
  datatype PortInfo = PortInfo(isConstant: bool, blockIndex: nat, relativeIndex: nat)

  /** The value `operator[]` default-constructs for a missing key. */
  const DefaultPortInfo: PortInfo := PortInfo(false, 0, 0)
}
