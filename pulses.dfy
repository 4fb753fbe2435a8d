/**
 * Pulse and debounce blocks (include/blocks/pulses): LongPulse,
 * RisingPulse and DebounceOnOff.
 */
module Pulses {
  import opened Context

  // -------------------------------------------------------------- LongPulse

  datatype LongPulseState = LongPulseState(tOff: int, prevX: bool, y: real)

  /** The constructor's state: the pulse end lies at the minimum time. */
  const LongPulseStart: LongPulseState := LongPulseState(TimeMin, false, 0.0)

  /** One LongPulse tick: only a rising edge (re)arms the end of the pulse. */
  function LongPulseNext(T: int, st: LongPulseState, x: real, time: int): LongPulseState {
    var tOff := if !st.prevX && On(x) then time + T else st.tOff;
    LongPulseState(tOff, On(x), Bool(time < tOff))
  }

  function LongPulseRun(T: int, st: LongPulseState, ticks: seq<(real, int)>): LongPulseState
    decreases |ticks|
  {
    if ticks == [] then st
    else
      var last := ticks[|ticks| - 1];
      LongPulseNext(T, LongPulseRun(T, st, ticks[..|ticks| - 1]), last.0, last.1)
  }

  /** A tick with a rising edge. */
  predicate Rises(prev: bool, x: real) { !prev && On(x) }

  /** The slot stays 0 as long as no rising edge has been seen. */
  lemma {:induction false} LongPulseNoEdgeNoPulse(T: int, ticks: seq<(real, int)>)
    requires forall j :: 0 <= j < |ticks| ==> !On(ticks[j].0) && IsTime(ticks[j].1)
    ensures LongPulseRun(T, LongPulseStart, ticks) == LongPulseStart
    decreases |ticks|
  {
    if ticks != [] {
      LongPulseNoEdgeNoPulse(T, ticks[..|ticks| - 1]);
    }
  }

  /**
   * After a rising edge at `t0` the pulse lasts until `t0 + T` whatever the
   * input does, as long as it does not rise again: holding the input does
   * not retrigger.
   */
  lemma {:induction false} LongPulseHolds(T: int, st: LongPulseState, x0: real, t0: int, ticks: seq<(real, int)>)
    requires Rises(st.prevX, x0)
    requires forall j :: 0 <= j < |ticks| ==>
      !Rises(if j == 0 then true else On(ticks[j - 1].0), ticks[j].0)
    ensures var fin := LongPulseRun(T, LongPulseNext(T, st, x0, t0), ticks);
      var last := if ticks == [] then t0 else ticks[|ticks| - 1].1;
      fin.tOff == t0 + T && fin.y == Bool(last < t0 + T)
    decreases |ticks|
  {
    if ticks != [] {
      var front := ticks[..|ticks| - 1];
      assert forall j :: 0 <= j < |front| ==> front[j] == ticks[j];
      LongPulseHolds(T, st, x0, t0, front);
    }
  }

  /** Long pulse (include/blocks/pulses/long-pulse.hpp); `init` is the inherited single tick. */
  class LongPulse {
    const T: int
    var tOff: int
    var prevX: bool
    var y: real

    ghost function State(): LongPulseState reads this { LongPulseState(tOff, prevX, y) }

    constructor (T: int)
      ensures this.T == T && State() == LongPulseStart
    {
      this.T := T;
      tOff := TimeMin;
      prevX := false;
      y := 0.0;
    }

    method Init(x: real, time: int)
      modifies this
      ensures State() == LongPulseNext(T, old(State()), x, time)
    {
      Compute(x, time);
    }

    method Compute(x: real, time: int)
      modifies this
      ensures State() == LongPulseNext(T, old(State()), x, time)
    {
      if !prevX && On(x) {
        tOff := time + T;
      }
      prevX := On(x);
      y := Bool(time < tOff);
    }
  }

  // ------------------------------------------------------------ RisingPulse

  /** One RisingPulse tick: 1 exactly on a rising edge. */
  function RisingNext(st: EdgeState, x: real): EdgeState {
    EdgeState(Bool(Rises(st.prevX, x)), On(x))
  }

  /** The output slot after each tick of a run. */
  function RisingOutputs(st: EdgeState, xs: seq<real>): seq<real>
    decreases |xs|
  {
    if xs == [] then [] else
      var nx := RisingNext(st, xs[0]);
      [nx.y] + RisingOutputs(nx, xs[1..])
  }

  /** The slot after `init`: 0, with the current level remembered. */
  function RisingInit(x: real): EdgeState { EdgeState(0.0, On(x)) }

  /** A pulse lasts exactly one tick: two consecutive ticks are never both 1. */
  lemma {:induction false} RisingNeverTwice(st: EdgeState, xs: seq<real>)
    ensures |RisingOutputs(st, xs)| == |xs|
    ensures forall j :: 0 <= j < |xs| - 1 ==>
      !(RisingOutputs(st, xs)[j] == 1.0 && RisingOutputs(st, xs)[j + 1] == 1.0)
    decreases |xs|
  {
    if xs != [] {
      var nx := RisingNext(st, xs[0]);
      RisingNeverTwice(nx, xs[1..]);
      if |xs| > 1 {
        assert RisingOutputs(nx, xs[1..])[0] == RisingNext(nx, xs[1]).y;
      }
    }
  }

  /** Each output of a run is 1 exactly where the input rises. */
  lemma {:induction false} RisingMarksEdges(st: EdgeState, xs: seq<real>, j: nat)
    requires j < |xs|
    ensures |RisingOutputs(st, xs)| == |xs|
    ensures RisingOutputs(st, xs)[j] == Bool(Rises(if j == 0 then st.prevX else On(xs[j - 1]), xs[j]))
    decreases j
  {
    RisingNeverTwice(st, xs);
    if j > 0 {
      RisingMarksEdges(RisingNext(st, xs[0]), xs[1..], j - 1);
    }
  }

  /** Rising-edge detector (include/blocks/pulses/rising-pulse.hpp). */
  class RisingPulse {
    var y: real
    var prevX: bool

    constructor ()
      ensures y == 0.0 && !prevX
    {
      y := 0.0;
      prevX := false;
    }

    method Init(x: real)
      modifies this
      ensures EdgeState(y, prevX) == RisingInit(x)
    {
      y := 0.0;
      prevX := On(x);
    }

    method Compute(x: real)
      modifies this
      ensures EdgeState(y, prevX) == RisingNext(EdgeState(old(y), old(prevX)), x)
    {
      y := Bool(!prevX && On(x));
      prevX := On(x);
    }
  }

  // ---------------------------------------------------------- DebounceOnOff

  datatype DebounceState = DebounceState(tOn: int, tOff: int, prevX: bool, y: real)

  const DebounceStart: DebounceState := DebounceState(TimeMax, TimeMin, false, 0.0)

  /** The window test a DebounceOnOff tick writes into its slot. */
  function Window(tOn: int, tOff: int, time: int): real { Bool(time >= tOn && time < tOff) }

  /**
   * One DebounceOnOff tick. On an input change the output is computed from
   * the old timers, and then the timers are rearmed: a rise on a 0 output
   * starts the on-debounce, a rise on a 1 output keeps the output on, a
   * fall on a 1 output starts the off-debounce, a fall on a 0 output cancels.
   */
  function DebounceNext(T: int, st: DebounceState, x: real, time: int): DebounceState {
    if st.prevX != On(x) then
      var y := Window(st.tOn, st.tOff, time);
      var (tOn, tOff) :=
        if !st.prevX then (if y == 0.0 then time + T else TimeMin, TimeMax)
        else if y != 0.0 then (TimeMin, time + T)
        else (TimeMax, TimeMin);
      DebounceState(tOn, tOff, On(x), y)
    else DebounceState(st.tOn, st.tOff, st.prevX, Window(st.tOn, st.tOff, time))
  }

  function DebounceRun(T: int, st: DebounceState, ticks: seq<(real, int)>): DebounceState
    decreases |ticks|
  {
    if ticks == [] then st
    else
      var last := ticks[|ticks| - 1];
      DebounceNext(T, DebounceRun(T, st, ticks[..|ticks| - 1]), last.0, last.1)
  }

  /** The four rearming cases of an input change, and the stale output of that tick. */
  lemma DebounceEdge(T: int, st: DebounceState, x: real, time: int)
    requires st.prevX != On(x)
    ensures var nx := DebounceNext(T, st, x, time);
      && nx.y == Window(st.tOn, st.tOff, time)
      && nx.prevX == On(x)
      && (!st.prevX && nx.y == 0.0 ==> nx.tOn == time + T && nx.tOff == TimeMax)
      && (!st.prevX && nx.y != 0.0 ==> nx.tOn == TimeMin && nx.tOff == TimeMax)
      && (st.prevX && nx.y != 0.0 ==> nx.tOn == TimeMin && nx.tOff == time + T)
      && (st.prevX && nx.y == 0.0 ==> nx.tOn == TimeMax && nx.tOff == TimeMin)
  {
  }

  /**
   * Between input changes the timers stay as the last change armed them and
   * the output is the window test on them: after a rise armed at `t`, the
   * output turns on once `T` has elapsed.
   */
  lemma {:induction false} DebounceSteady(T: int, st: DebounceState, ticks: seq<(real, int)>)
    requires forall j :: 0 <= j < |ticks| ==> On(ticks[j].0) == st.prevX
    ensures var fin := DebounceRun(T, st, ticks);
      fin.tOn == st.tOn && fin.tOff == st.tOff && fin.prevX == st.prevX &&
      (ticks != [] ==> fin.y == Window(st.tOn, st.tOff, ticks[|ticks| - 1].1))
    decreases |ticks|
  {
    if ticks != [] {
      DebounceSteady(T, st, ticks[..|ticks| - 1]);
    }
  }

  /** Debounce (include/blocks/pulses/debounce-on-off.hpp); `init` is the inherited single tick. */
  class DebounceOnOff {
    const T: int
    var tOn: int
    var tOff: int
    var prevX: bool
    var y: real

    ghost function State(): DebounceState reads this { DebounceState(tOn, tOff, prevX, y) }

    constructor (T: int)
      ensures this.T == T && State() == DebounceStart
    {
      this.T := T;
      tOn := TimeMax;
      tOff := TimeMin;
      prevX := false;
      y := 0.0;
    }

    method Init(x: real, time: int)
      modifies this
      ensures State() == DebounceNext(T, old(State()), x, time)
    {
      Compute(x, time);
    }

    method Compute(x: real, time: int)
      modifies this
      ensures State() == DebounceNext(T, old(State()), x, time)
    {
      if prevX != On(x) {
        y := Bool(time >= tOn && time < tOff);
        if !prevX {
          tOn := if y == 0.0 then time + T else TimeMin;
          tOff := TimeMax;
        } else {
          if y != 0.0 {
            tOn := TimeMin;
            tOff := time + T;
          } else {
            tOn := TimeMax;
            tOff := TimeMin;
          }
        }
        prevX := On(x);
      } else {
        y := Bool(time >= tOn && time < tOff);
      }
    }
  }
}
