/**
 * Bistable trigger blocks: RS and SR triggers and the T-trigger variants
 * RTS-B, STR-L and T-B. Each block is a class whose field `y` is its
 * output slot and whose other fields are the block's own memory; the
 * dereferenced input values are parameters of `Init` and `Compute`.
 * The pure `...Next` functions give one tick, the `...Run` functions a
 * sequence of ticks, and the lemmas state the behaviour over runs.
 */
module Triggers {
  import opened Context

  // ---------------------------------------------------------------- RS / SR

  /** One RS-trigger tick: R resets, otherwise S sets, otherwise the slot holds. */
  function RsNext(y: real, s: real, r: real): real {
    if On(r) then 0.0 else if On(s) then 1.0 else y
  }

  /** One SR-trigger tick: S sets, otherwise R resets, otherwise the slot holds. */
  function SrNext(y: real, s: real, r: real): real {
    if On(s) then 1.0 else if On(r) then 0.0 else y
  }

  /** A tick in which S or R is on. */
  predicate Active(tick: (real, real)) { On(tick.0) || On(tick.1) }

  /** The RS-trigger slot after a sequence of (S, R) ticks. */
  function RsRun(y: real, ticks: seq<(real, real)>): real
    decreases |ticks|
  {
    if ticks == [] then y
    else
      var last := ticks[|ticks| - 1];
      RsNext(RsRun(y, ticks[..|ticks| - 1]), last.0, last.1)
  }

  /** The SR-trigger slot after a sequence of (S, R) ticks. */
  function SrRun(y: real, ticks: seq<(real, real)>): real
    decreases |ticks|
  {
    if ticks == [] then y
    else
      var last := ticks[|ticks| - 1];
      SrNext(SrRun(y, ticks[..|ticks| - 1]), last.0, last.1)
  }

  /** Reset wins over set; set alone gives 1; neither keeps the slot. */
  lemma RsPriority(y: real, s: real, r: real)
    ensures On(r) ==> RsNext(y, s, r) == 0.0
    ensures !On(r) && On(s) ==> RsNext(y, s, r) == 1.0
    ensures !On(r) && !On(s) ==> RsNext(y, s, r) == y
  {
  }

  /** Set wins over reset; reset alone gives 0; neither keeps the slot. */
  lemma SrPriority(y: real, s: real, r: real)
    ensures On(s) ==> SrNext(y, s, r) == 1.0
    ensures !On(s) && On(r) ==> SrNext(y, s, r) == 0.0
    ensures !On(s) && !On(r) ==> SrNext(y, s, r) == y
  {
  }

  /**
   * The RS trigger remembers: after any run, the slot is decided by the
   * last tick in which S or R was on (0 if R was on in it, 1 otherwise)
   * and later quiet ticks leave it alone.
   */
  lemma {:induction false} RsRunLastActive(y: real, ticks: seq<(real, real)>, k: nat)
    requires k < |ticks| && Active(ticks[k])
    requires forall j :: k < j < |ticks| ==> !Active(ticks[j])
    ensures RsRun(y, ticks) == if On(ticks[k].1) then 0.0 else 1.0
    decreases |ticks|
  {
    if k < |ticks| - 1 {
      RsRunLastActive(y, ticks[..|ticks| - 1], k);
    }
  }

  /** A run in which neither S nor R is ever on leaves the RS slot unchanged. */
  lemma {:induction false} RsRunQuiet(y: real, ticks: seq<(real, real)>)
    requires forall j :: 0 <= j < |ticks| ==> !Active(ticks[j])
    ensures RsRun(y, ticks) == y
    decreases |ticks|
  {
    if ticks != [] {
      RsRunQuiet(y, ticks[..|ticks| - 1]);
    }
  }

  /** The SR counterpart of RsRunLastActive: the last active tick gives 1 if S was on in it. */
  lemma {:induction false} SrRunLastActive(y: real, ticks: seq<(real, real)>, k: nat)
    requires k < |ticks| && Active(ticks[k])
    requires forall j :: k < j < |ticks| ==> !Active(ticks[j])
    ensures SrRun(y, ticks) == if On(ticks[k].0) then 1.0 else 0.0
    decreases |ticks|
  {
    if k < |ticks| - 1 {
      SrRunLastActive(y, ticks[..|ticks| - 1], k);
    }
  }

  /** The two triggers differ exactly on ticks where S and R are both on. */
  lemma RsSrDisagree(y: real, s: real, r: real)
    ensures RsNext(y, s, r) != SrNext(y, s, r) <==> On(s) && On(r)
  {
  }

  /** RS trigger (include/blocks/triggers/rs-trigger.hpp): inputs S, R. */
  class RsTrigger {
    const y0: real
    var y: real

    constructor (y0: real)
      ensures this.y0 == y0 && y == 0.0
    {
      this.y0 := y0;
      y := 0.0;
    }

    /** Writes the initial value, then runs one tick. */
    method Init(s: real, r: real)
      modifies this
      ensures y == RsNext(y0, s, r)
    {
      y := y0;
      Compute(s, r);
    }

    method Compute(s: real, r: real)
      modifies this
      ensures y == RsNext(old(y), s, r)
    {
      if On(r) {
        y := 0.0;
      } else if On(s) {
        y := 1.0;
      }
    }
  }

  /** SR trigger (include/blocks/triggers/sr-trigger.hpp): inputs S, R. */
  class SrTrigger {
    const y0: real
    var y: real

    constructor (y0: real)
      ensures this.y0 == y0 && y == 0.0
    {
      this.y0 := y0;
      y := 0.0;
    }

    method Init(s: real, r: real)
      modifies this
      ensures y == SrNext(y0, s, r)
    {
      y := y0;
      Compute(s, r);
    }

    method Compute(s: real, r: real)
      modifies this
      ensures y == SrNext(old(y), s, r)
    {
      if On(s) {
        y := 1.0;
      } else if On(r) {
        y := 0.0;
      }
    }
  }

  // ------------------------------------------------------ edge T-triggers

  /** One T-B tick: a change of the T level toggles the slot. */
  function TbNext(st: EdgeState, x: real): EdgeState {
    EdgeState(if st.prevX != On(x) then Toggle(st.y) else st.y, On(x))
  }

  function TbRun(st: EdgeState, xs: seq<real>): EdgeState
    decreases |xs|
  {
    if xs == [] then st else TbNext(TbRun(st, xs[..|xs| - 1]), xs[|xs| - 1])
  }

  /** One RTS-B tick with inputs S, T, R: reset, then set, then a T edge toggles. */
  function RtsBNext(st: EdgeState, s: real, t: real, r: real): EdgeState {
    var y :=
      if On(r) then 0.0
      else if On(s) then 1.0
      else if st.prevX != On(t) then Toggle(st.y)
      else st.y;
    EdgeState(y, On(t))
  }

  function RtsBRun(st: EdgeState, ticks: seq<(real, real, real)>): EdgeState
    decreases |ticks|
  {
    if ticks == [] then st
    else
      var last := ticks[|ticks| - 1];
      RtsBNext(RtsBRun(st, ticks[..|ticks| - 1]), last.0, last.1, last.2)
  }

  /** The remembered T level after a run: the last input's, or the start one. */
  function LastLevel(prev: bool, xs: seq<real>): bool {
    if xs == [] then prev else On(xs[|xs| - 1])
  }

  /**
   * Parity of edges: starting from a boolean slot, a T-B run ends with the
   * start value when the final level equals the starting one and with its
   * negation otherwise, and it always remembers the last level.
   */
  lemma {:induction false} TbRunParity(b: bool, prev: bool, xs: seq<real>)
    ensures TbRun(EdgeState(Bool(b), prev), xs) ==
            EdgeState(Bool(b != (prev != LastLevel(prev, xs))), LastLevel(prev, xs))
    decreases |xs|
  {
    if xs != [] {
      var front := xs[..|xs| - 1];
      TbRunParity(b, prev, front);
      ToggleBoolean(b != (prev != LastLevel(prev, front)));
    }
  }

  /** A T input that keeps the remembered level never changes a boolean slot. */
  lemma TbSteadyInput(b: bool, prev: bool, xs: seq<real>)
    requires forall j :: 0 <= j < |xs| ==> On(xs[j]) == prev
    ensures TbRun(EdgeState(Bool(b), prev), xs).y == Bool(b)
  {
    TbRunParity(b, prev, xs);
  }

  /** With S and R off throughout, RTS-B behaves exactly as T-B on the T input. */
  lemma {:induction false} RtsBQuietIsTb(st: EdgeState, ticks: seq<(real, real, real)>)
    requires forall j :: 0 <= j < |ticks| ==> !On(ticks[j].0) && !On(ticks[j].2)
    ensures RtsBRun(st, ticks) == TbRun(st, seq(|ticks|, j requires 0 <= j < |ticks| => ticks[j].1))
    decreases |ticks|
  {
    var ts := seq(|ticks|, j requires 0 <= j < |ticks| => ticks[j].1);
    if ticks != [] {
      var front := ticks[..|ticks| - 1];
      RtsBQuietIsTb(st, front);
      assert ts[..|ts| - 1] == seq(|front|, j requires 0 <= j < |front| => front[j].1);
    }
  }

  /** Every RTS-B tick remembers the T level and lets reset dominate. */
  lemma RtsBPriority(st: EdgeState, s: real, t: real, r: real)
    ensures RtsBNext(st, s, t, r).prevX == On(t)
    ensures On(r) ==> RtsBNext(st, s, t, r).y == 0.0
    ensures !On(r) && On(s) ==> RtsBNext(st, s, t, r).y == 1.0
  {
  }

  /** T-B trigger (include/blocks/triggers/t-triggers/t-trigger-b.hpp): toggles on every edge. */
  class TTriggerB {
    const y0: bool
    var y: real
    var prevX: bool

    constructor (y0: bool)
      ensures this.y0 == y0 && y == 0.0 && !prevX
    {
      this.y0 := y0;
      y := 0.0;
      prevX := false;
    }

    /** Remembers the current level first, so the initial tick never toggles. */
    method Init(x: real)
      modifies this
      ensures y == Bool(y0) && prevX == On(x)
    {
      prevX := On(x);
      y := Bool(y0);
      Compute(x);
    }

    method Compute(x: real)
      modifies this
      ensures EdgeState(y, prevX) == TbNext(EdgeState(old(y), old(prevX)), x)
    {
      if prevX != On(x) {
        y := Toggle(y);
      }
      prevX := On(x);
    }
  }

  /** RTS-B trigger (include/blocks/triggers/t-triggers/rts-b-trigger.hpp): inputs S, T, R. */
  class RtsBTrigger {
    const y0: bool
    var y: real
    var prevX: bool

    constructor (y0: bool)
      ensures this.y0 == y0 && y == 0.0 && !prevX
    {
      this.y0 := y0;
      y := 0.0;
      prevX := false;
    }

    /** Like T-B, the initial tick applies S and R but never toggles. */
    method Init(s: real, t: real, r: real)
      modifies this
      ensures y == (if On(r) then 0.0 else if On(s) then 1.0 else Bool(y0))
      ensures prevX == On(t)
    {
      prevX := On(t);
      y := Bool(y0);
      Compute(s, t, r);
    }

    method Compute(s: real, t: real, r: real)
      modifies this
      ensures EdgeState(y, prevX) == RtsBNext(EdgeState(old(y), old(prevX)), s, t, r)
    {
      if On(r) {
        y := 0.0;
      } else if On(s) {
        y := 1.0;
      } else if prevX != On(t) {
        y := Toggle(y);
      }
      prevX := On(t);
    }
  }

  // ------------------------------------------------------ level T-trigger

  /** One STR-L tick with inputs S, T, R: set, then reset, then a T level toggles. */
  function StrLNext(y: real, s: real, t: real, r: real): real {
    if On(s) then 1.0 else if On(r) then 0.0 else if On(t) then Toggle(y) else y
  }

  /** The STR-L slot after n ticks with S and R off and T on. */
  function StrLHeld(y: real, n: nat): real {
    if n == 0 then y else StrLNext(StrLHeld(y, n - 1), 0.0, 1.0, 0.0)
  }

  /** Set has priority over reset and toggling in the STR variant. */
  lemma StrLSetPriority(y: real, t: real, r: real, s: real)
    requires On(s)
    ensures StrLNext(y, s, t, r) == 1.0
  {
  }

  /** Holding T on inverts a boolean slot on every tick. */
  lemma {:induction false} StrLHeldToggles(b: bool, n: nat)
    ensures StrLHeld(Bool(b), n) == Bool(if n % 2 == 0 then b else !b)
  {
    if n > 0 {
      StrLHeldToggles(b, n - 1);
      ToggleBoolean(if (n - 1) % 2 == 0 then b else !b);
    }
  }

  /** STR-L trigger (include/blocks/triggers/t-triggers/str-l-trigger.hpp): inputs S, T, R. */
  class StrLTrigger {
    const y0: bool
    var y: real

    constructor (y0: bool)
      ensures this.y0 == y0 && y == 0.0
    {
      this.y0 := y0;
      y := 0.0;
    }

    method Init(s: real, t: real, r: real)
      modifies this
      ensures y == StrLNext(Bool(y0), s, t, r)
    {
      y := Bool(y0);
      Compute(s, t, r);
    }

    method Compute(s: real, t: real, r: real)
      modifies this
      ensures y == StrLNext(old(y), s, t, r)
    {
      if On(s) {
        y := 1.0;
      } else if On(r) {
        y := 0.0;
      } else if On(t) {
        y := Toggle(y);
      }
    }
  }
}
