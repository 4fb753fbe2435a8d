/**
 * The logical blocks Or and Xor (include/blocks/logical/or.hpp, xor.hpp) and
 * the Constant source (include/blocks/sources/constant.hpp). Each holds its one
 * output slot as the field `y`; the dereferenced input values are parameters.
 * Their constant folding (`tryMakeConstant`) and the marking of the output in
 * the ports table are modelled with the engine's block (module Blocks).
 */
module Logical {
  import opened Context
  import opened Choice

  /** Whether some input is nonzero. */
  predicate AnyOn(xs: seq<real>)
  {
    exists i :: 0 <= i < |xs| && On(xs[i])
  }

  /** The xor of the inputs' levels: an odd number of them is nonzero. */
  predicate OddOn(xs: seq<real>)
  {
    NonzeroCount(xs) % 2 == 1
  }

  /** "Some input is on" is "the count of nonzero inputs is positive". */
  lemma {:induction false} AnyOnIsPositiveCount(xs: seq<real>)
    ensures AnyOn(xs) <==> NonzeroCount(xs) > 0
    decreases |xs|
  {
    if xs != [] {
      var front := xs[..|xs| - 1];
      AnyOnIsPositiveCount(front);
      if AnyOn(front) {
        var i :| 0 <= i < |front| && On(front[i]);
        assert On(xs[i]);
      }
      if AnyOn(xs) && !On(xs[|xs| - 1]) {
        var i :| 0 <= i < |xs| && On(xs[i]);
        assert On(front[i]);
      }
    }
  }

  /** Appending an input flips the xor exactly when that input is on. */
  lemma OddOnAppend(xs: seq<real>, x: real)
    ensures OddOn(xs + [x]) <==> (OddOn(xs) != On(x))
  {
    assert (xs + [x])[..|xs|] == xs;
  }

  /** Or and Xor do not care which input is which. */
  lemma LogicalPermutation(xs: seq<real>, ys: seq<real>)
    requires multiset(xs) == multiset(ys)
    ensures AnyOn(xs) == AnyOn(ys) && OddOn(xs) == OddOn(ys)
  {
    NonzeroCountPermutation(xs, ys);
    AnyOnIsPositiveCount(xs);
    AnyOnIsPositiveCount(ys);
  }

  class Or {
    var y: real

    constructor()
      ensures y == 0.0
    {
      y := 0.0;
    }

    /** `Or::compute`: clear the output, then set it at the first nonzero input and stop. */
    method Compute(xs: seq<real>)
      modifies this
      ensures y == Bool(AnyOn(xs))
    {
      y := Bool(false);
      var i := 0;
      while i < |xs|
        invariant 0 <= i <= |xs|
        invariant y == 0.0
        invariant forall j :: 0 <= j < i ==> !On(xs[j])
      {
        if xs[i] != 0.0 {
          y := Bool(true);
          return;
        }
        i := i + 1;
      }
    }

    /** The inherited `init` is one `compute`. */
    method Init(xs: seq<real>)
      modifies this
      ensures y == Bool(AnyOn(xs))
    {
      Compute(xs);
    }
  }

  class Xor {
    var y: real

    constructor()
      ensures y == 0.0
    {
      y := 0.0;
    }

    /** `Xor::compute`: start from the first input's level and xor in the rest; the first input is read whatever the count. */
    method Compute(xs: seq<real>)
      requires |xs| >= 1
      modifies this
      ensures y == Bool(OddOn(xs))
    {
      var res := xs[0] != 0.0;
      assert xs[..1] == [] + [xs[0]];
      OddOnAppend([], xs[0]);
      var i := 1;
      while i < |xs|
        invariant 1 <= i <= |xs|
        invariant res == OddOn(xs[..i])
      {
        assert xs[..i + 1] == xs[..i] + [xs[i]];
        OddOnAppend(xs[..i], xs[i]);
        res := res != (xs[i] != 0.0);
        i := i + 1;
      }
      assert xs[..|xs|] == xs;
      y := Bool(res);
    }

    method Init(xs: seq<real>)
      requires |xs| >= 1
      modifies this
      ensures y == Bool(OddOn(xs))
    {
      Compute(xs);
    }
  }

  /** A constant source; its block carries the CONSTANT flag from construction on. */
  class Constant {
    const value: real
    var y: real

    constructor(value: real)
      ensures this.value == value && y == 0.0
    {
      this.value := value;
      y := 0.0;
    }

    /** `Constant::init` writes the value. */
    method Init()
      modifies this
      ensures y == value
    {
      y := value;
    }

    /** The inherited `compute` does nothing, so the value stays. */
    method Compute()
      ensures y == old(y)
    {
    }
  }
}
