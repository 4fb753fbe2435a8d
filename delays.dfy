/**
 * Time-delay blocks (include/blocks/delays): DelayOn and DelayOnOff.
 * Delay parameters are the integer microsecond counts the constructors
 * compute as `static_cast<Time>(T * Context::sec)`; `time` is the
 * context's current time.
 */
module Delays {
  import opened Context

  // ---------------------------------------------------------------- DelayOn

  datatype DelayOnState = DelayOnState(tOn: int, prevX: bool, y: real)

  /** The constructor's state: timer disarmed at the maximum time, no input seen. */
  const DelayOnStart: DelayOnState := DelayOnState(TimeMax, false, 0.0)

  /** One DelayOn tick: a rising edge arms T_on = time + T, a falling edge disarms it. */
  function DelayOnNext(T: int, st: DelayOnState, x: real, time: int): DelayOnState {
    var tOn := if st.prevX != On(x) then (if !st.prevX then time + T else TimeMax) else st.tOn;
    DelayOnState(tOn, On(x), Bool(time >= tOn))
  }

  function DelayOnRun(T: int, st: DelayOnState, ticks: seq<(real, int)>): DelayOnState
    decreases |ticks|
  {
    if ticks == [] then st
    else
      var last := ticks[|ticks| - 1];
      DelayOnNext(T, DelayOnRun(T, st, ticks[..|ticks| - 1]), last.0, last.1)
  }

  /** While no input has been seen on, the timer stays disarmed. */
  ghost predicate DelayOnInv(st: DelayOnState) { !st.prevX ==> st.tOn == TimeMax }

  /** Every tick keeps the disarmed-timer invariant, and an off input gives 0 before the end of time. */
  lemma DelayOnStep(T: int, st: DelayOnState, x: real, time: int)
    requires DelayOnInv(st)
    ensures DelayOnInv(DelayOnNext(T, st, x, time))
    ensures !On(x) && time < TimeMax ==> DelayOnNext(T, st, x, time).y == 0.0
  {
  }

  /**
   * After a rising edge at `t0`, while the input stays on the output is 1
   * exactly when the current time has reached `t0 + T`.
   */
  lemma {:induction false} DelayOnHeld(T: int, st: DelayOnState, x0: real, t0: int, ticks: seq<(real, int)>)
    requires !st.prevX && On(x0)
    requires forall j :: 0 <= j < |ticks| ==> On(ticks[j].0)
    ensures var last := if ticks == [] then t0 else ticks[|ticks| - 1].1;
            var fin := DelayOnRun(T, DelayOnNext(T, st, x0, t0), ticks);
            fin.tOn == t0 + T && fin.prevX && fin.y == Bool(last >= t0 + T)
    decreases |ticks|
  {
    if ticks != [] {
      DelayOnHeld(T, st, x0, t0, ticks[..|ticks| - 1]);
    }
  }

  /** On-delay (include/blocks/delays/delay-on.hpp); its `init` is the inherited one, a single tick. */
  class DelayOn {
    const T: int
    var tOn: int
    var prevX: bool
    var y: real

    ghost function State(): DelayOnState reads this { DelayOnState(tOn, prevX, y) }
    ghost predicate Valid() reads this { DelayOnInv(State()) }

    constructor (T: int)
      ensures this.T == T && State() == DelayOnStart && Valid()
    {
      this.T := T;
      tOn := TimeMax;
      prevX := false;
      y := 0.0;
    }

    method Init(x: real, time: int)
      requires Valid()
      modifies this
      ensures Valid() && State() == DelayOnNext(T, old(State()), x, time)
    {
      Compute(x, time);
    }

    method Compute(x: real, time: int)
      requires Valid()
      modifies this
      ensures Valid() && State() == DelayOnNext(T, old(State()), x, time)
    {
      if prevX != On(x) {
        tOn := if !prevX then time + T else TimeMax;
      }
      prevX := On(x);
      y := Bool(time >= tOn);
    }
  }

  // ------------------------------------------------------------- DelayOnOff

  datatype DelayOnOffState = DelayOnOffState(tOn: int, tOff: int, prevX: bool, y: real)

  const DelayOnOffStart: DelayOnOffState := DelayOnOffState(TimeMax, TimeMin, false, 0.0)

  /** The timers a DelayOnOff tick leaves (delay-on-off.hpp, the edge branch). */
  function DelayOnOffTimers(pOn: int, pOff: int, st: DelayOnOffState, x: real, time: int): (int, int) {
    if st.prevX == On(x) then (st.tOn, st.tOff)
    else if st.y != 0.0 then
      if st.prevX then
        (TimeMax, if st.tOff < time || st.tOn <= time then time + pOff else st.tOff)
      else (time + pOn, st.tOff)
    else (if st.prevX then TimeMax else time + pOn, st.tOff)
  }

  function DelayOnOffNext(pOn: int, pOff: int, st: DelayOnOffState, x: real, time: int): DelayOnOffState {
    var (tOn, tOff) := DelayOnOffTimers(pOn, pOff, st, x, time);
    DelayOnOffState(tOn, tOff, On(x), Bool(time >= tOn || time < tOff))
  }

  function DelayOnOffRun(pOn: int, pOff: int, st: DelayOnOffState, ticks: seq<(real, int)>): DelayOnOffState
    decreases |ticks|
  {
    if ticks == [] then st
    else
      var last := ticks[|ticks| - 1];
      DelayOnOffNext(pOn, pOff, DelayOnOffRun(pOn, pOff, st, ticks[..|ticks| - 1]), last.0, last.1)
  }

  ghost predicate DelayOnOffInv(st: DelayOnOffState) { !st.prevX ==> st.tOn == TimeMax }

  /**
   * One DelayOnOff tick: without an input change the timers are untouched;
   * a rising input arms T_on = time + P_on whatever the output; a falling
   * input disarms T_on, and on a 1 output refreshes T_off = time + P_off
   * only when T_off has passed or the on-phase has begun (T_on <= time);
   * T_off changes in no other case; the output is on while T_on has passed
   * or T_off has not.
   */
  lemma DelayOnOffStep(pOn: int, pOff: int, st: DelayOnOffState, x: real, time: int)
    requires DelayOnOffInv(st)
    ensures var nx := DelayOnOffNext(pOn, pOff, st, x, time);
      && DelayOnOffInv(nx) && nx.prevX == On(x)
      && (st.prevX == On(x) ==> nx.tOn == st.tOn && nx.tOff == st.tOff)
      && (!st.prevX && On(x) ==> nx.tOn == time + pOn && nx.tOff == st.tOff)
      && (st.prevX && !On(x) ==> nx.tOn == TimeMax)
      && (st.prevX && !On(x) && st.y != 0.0 ==>
            nx.tOff == (if st.tOff < time || st.tOn <= time then time + pOff else st.tOff))
      && (nx.tOff != st.tOff ==> st.prevX && !On(x) && st.y != 0.0 && nx.tOff == time + pOff)
      && (!On(x) && time < TimeMax ==> nx.y == Bool(time < nx.tOff))
  {
  }

  /**
   * A run without input changes keeps both timers, and its output is the
   * on/off window test on them.
   */
  lemma {:induction false} DelayOnOffSteady(pOn: int, pOff: int, st: DelayOnOffState, ticks: seq<(real, int)>)
    requires forall j :: 0 <= j < |ticks| ==> On(ticks[j].0) == st.prevX
    ensures var fin := DelayOnOffRun(pOn, pOff, st, ticks);
      fin.tOn == st.tOn && fin.tOff == st.tOff && fin.prevX == st.prevX &&
      (ticks != [] ==> var t := ticks[|ticks| - 1].1; fin.y == Bool(t >= st.tOn || t < st.tOff))
    decreases |ticks|
  {
    if ticks != [] {
      DelayOnOffSteady(pOn, pOff, st, ticks[..|ticks| - 1]);
    }
  }

  /** On-off delay (include/blocks/delays/delay-on-off.hpp). */
  class DelayOnOff {
    const pOn: int
    const pOff: int
    var tOn: int
    var tOff: int
    var prevX: bool
    var y: real

    ghost function State(): DelayOnOffState reads this { DelayOnOffState(tOn, tOff, prevX, y) }
    ghost predicate Valid() reads this { DelayOnOffInv(State()) }

    constructor (pOn: int, pOff: int)
      ensures this.pOn == pOn && this.pOff == pOff && State() == DelayOnOffStart && Valid()
    {
      this.pOn := pOn;
      this.pOff := pOff;
      tOn := TimeMax;
      tOff := TimeMin;
      prevX := false;
      y := 0.0;
    }

    /** The inherited `init`: a single tick. */
    method Init(x: real, time: int)
      requires Valid()
      modifies this
      ensures Valid() && State() == DelayOnOffNext(pOn, pOff, old(State()), x, time)
    {
      Compute(x, time);
    }

    method Compute(x: real, time: int)
      requires Valid()
      modifies this
      ensures Valid() && State() == DelayOnOffNext(pOn, pOff, old(State()), x, time)
    {
      if prevX != On(x) {
        if y != 0.0 {
          if prevX {
            if tOff < time || tOn <= time {
              tOff := time + pOff;
            }
            tOn := TimeMax;
          } else {
            tOn := time + pOn;
          }
        } else {
          tOn := if prevX then TimeMax else time + pOn;
        }
      }
      prevX := On(x);
      y := Bool(time >= tOn || time < tOff);
    }
  }
}
