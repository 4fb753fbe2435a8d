/**
 * The one-tick delay (include/blocks/dynamic/step-delay.hpp) and the chain
 * of delays that main.cpp builds: a source feeding four
 * delays in series, computed in forward order once per tick.
 */
module Dynamic {
  /** `prev_x` and the output slot of a StepDelay. */
  datatype StepDelayState = StepDelayState(prevX: real, y: real)

  /** `init`: the slot takes y0 and the current input is remembered. */
  function StepDelayInit(y0: real, x: real): StepDelayState { StepDelayState(x, y0) }

  /** `compute`: the remembered input moves to the slot, the current one is remembered. */
  function StepDelayNext(st: StepDelayState, x: real): StepDelayState { StepDelayState(x, st.prevX) }

  /** The delay after `init` on `xs[0]` and one `compute` per later value of `xs`. */
  function StepDelayRun(y0: real, xs: seq<real>): StepDelayState
    requires |xs| >= 1
    decreases |xs|
  {
    if |xs| == 1 then StepDelayInit(y0, xs[0])
    else StepDelayNext(StepDelayRun(y0, xs[..|xs| - 1]), xs[|xs| - 1])
  }

  /**
   * The delay is a one-tick shift: after any number of ticks it remembers the
   * latest input and outputs the one before it, or `y0` right after `init`.
   */
  lemma {:induction false} StepDelayShifts(y0: real, xs: seq<real>)
    requires |xs| >= 1
    ensures StepDelayRun(y0, xs).prevX == xs[|xs| - 1]
    ensures StepDelayRun(y0, xs).y == if |xs| == 1 then y0 else xs[|xs| - 2]
    decreases |xs|
  {
    if |xs| > 1 {
      StepDelayShifts(y0, xs[..|xs| - 1]);
    }
  }

  /** One-tick delay. Its constructor leaves every flag clear, so it is never a loop breaker. */
  class StepDelay {
    const y0: real
    var prevX: real
    var y: real

    /** The block's flags word; the CAN_UNTIE_LOOP toggle is disabled in the source. */
    const flags: bv32

    constructor (y0: real)
      ensures this.y0 == y0 && prevX == 0.0 && y == 0.0 && flags == 0
    {
      this.y0 := y0;
      prevX := 0.0;
      y := 0.0;
      flags := 0;
    }

    method Init(x: real)
      modifies this
      ensures StepDelayState(prevX, y) == StepDelayInit(y0, x)
    {
      y := y0;
      prevX := x;
    }

    method Compute(x: real)
      modifies this
      ensures StepDelayState(prevX, y) == StepDelayNext(StepDelayState(old(prevX), old(y)), x)
    {
      y := prevX;
      prevX := x;
    }
  }

  // ------------------------------------------------------------ the chain

  /**
   * One tick of a chain of delays computed in forward order: delay 0 reads
   * the source value `s`, delay i reads the slot delay i-1 has just written.
   */
  function ChainTick(ds: seq<StepDelayState>, s: real): (r: seq<StepDelayState>)
    ensures |r| == |ds|
    decreases |ds|
  {
    if ds == [] then []
    else
      var front := ChainTick(ds[..|ds| - 1], s);
      var input := if |ds| == 1 then s else front[|front| - 1].y;
      front + [StepDelayNext(ds[|ds| - 1], input)]
  }

  /** `init` of the chain in forward order, with the source showing `s0`. */
  function ChainInit(n: nat, y0: real, s0: real): (r: seq<StepDelayState>)
    ensures |r| == n
  {
    seq(n, i => StepDelayInit(y0, if i == 0 then s0 else y0))
  }

  /** The chain after one tick per source value. */
  function ChainRun(ds: seq<StepDelayState>, srcs: seq<real>): (r: seq<StepDelayState>)
    ensures |r| == |ds|
    decreases |srcs|
  {
    if srcs == [] then ds else ChainTick(ChainRun(ds, srcs[..|srcs| - 1]), srcs[|srcs| - 1])
  }

  /** A chain tick shifts: delay i outputs what it remembered and remembers its neighbour's old memory. */
  lemma {:induction false} ChainTickShifts(ds: seq<StepDelayState>, s: real, i: nat)
    requires i < |ds|
    ensures ChainTick(ds, s)[i] == StepDelayState(if i == 0 then s else ds[i - 1].prevX, ds[i].prevX)
    decreases |ds|
  {
    if i < |ds| - 1 {
      ChainTickShifts(ds[..|ds| - 1], s, i);
    } else if i > 0 {
      ChainTickShifts(ds[..|ds| - 1], s, i - 1);
    }
  }

  /** Running k ticks of a source sequence is one more tick after k - 1 of them. */
  lemma ChainRunStep(ds: seq<StepDelayState>, srcs: seq<real>, k: nat)
    requires 0 < k < |srcs|
    ensures ChainRun(ds, srcs[1..k + 1]) == ChainTick(ChainRun(ds, srcs[1..k]), srcs[k])
  {
    var ticks := srcs[1..k + 1];
    assert ticks[..|ticks| - 1] == srcs[1..k];
  }

  /** Delay i after tick k, in terms of the chain after tick k - 1. */
  lemma ChainStepAt(start: seq<StepDelayState>, srcs: seq<real>, k: nat, i: nat)
    requires 0 < k < |srcs| && i < |start|
    ensures var prev := ChainRun(start, srcs[1..k]);
      ChainRun(start, srcs[1..k + 1])[i] ==
        StepDelayState(if i == 0 then srcs[k] else prev[i - 1].prevX, prev[i].prevX)
  {
    ChainRunStep(start, srcs, k);
    ChainTickShifts(ChainRun(start, srcs[1..k]), srcs[k], i);
  }

  /** What delay i of the chain remembers after k ticks: the source value of tick k - i, or y0 while k < i. */
  lemma {:induction false} ChainMemory(n: nat, y0: real, srcs: seq<real>, k: nat, i: nat)
    requires k < |srcs| && i < n
    ensures ChainRun(ChainInit(n, y0, srcs[0]), srcs[1..k + 1])[i].prevX == (if k >= i then srcs[k - i] else y0)
    decreases k
  {
    var start := ChainInit(n, y0, srcs[0]);
    if k > 0 {
      ChainStepAt(start, srcs, k, i);
      if i > 0 {
        ChainMemory(n, y0, srcs, k - 1, i - 1);
      }
    } else {
      assert srcs[1..k + 1] == [];
      assert start[i] == StepDelayInit(y0, if i == 0 then srcs[0] else y0);
    }
  }

  /**
   * The chain of main.cpp: with source values `srcs[0]` at init and `srcs[k]`
   * at tick k, delay i after k ticks outputs the source value of tick
   * k - i - 1, or y0 while k <= i.
   */
  lemma ChainDelays(n: nat, y0: real, srcs: seq<real>, k: nat, i: nat)
    requires k < |srcs| && i < n
    ensures var ds := ChainRun(ChainInit(n, y0, srcs[0]), srcs[1..k + 1]);
      ds[i].y == (if k > i then srcs[k - i - 1] else y0) &&
      ds[i].prevX == (if k >= i then srcs[k - i] else y0)
  {
    var start := ChainInit(n, y0, srcs[0]);
    ChainMemory(n, y0, srcs, k, i);
    if k > 0 {
      ChainStepAt(start, srcs, k, i);
      ChainMemory(n, y0, srcs, k - 1, i);
    } else {
      assert srcs[1..k + 1] == [];
      assert start[i] == StepDelayInit(y0, if i == 0 then srcs[0] else y0);
    }
  }
}
