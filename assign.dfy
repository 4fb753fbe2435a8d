/**
 * `Scheme::assign` (src/scheme/assign.cpp): the binary description of a
 * scheme. `count` entries follow one another, each a one-byte block id
 * (include/constants/block-list.hxx) and a payload whose layout depends
 * on the id; then a 32-bit link count and the absolute links, two 32-bit
 * port numbers per link.
 *
 * Multi-byte integers are little-endian. A `double` parameter is carried
 * as its eight bytes, never interpreted. A `bool` byte reads as "nonzero".
 * The source reads past the end of a short buffer; here a buffer that
 * ends inside a field makes the parse fail.
 *
 * The block descriptions are grouped by the families of `BlockID`.
 */
module Assign {
  newtype byte = b: int | 0 <= b < 256

  /** A `double` field: its eight bytes, as they are copied. */
  type Double = s: seq<byte> | |s| == 8 witness [0, 0, 0, 0, 0, 0, 0, 0]

  datatype Result<T> = Ok(value: T) | Err
  {
    predicate IsFailure() { Err? }
    function PropagateFailure<U>(): Result<U> requires Err? { Err }
    function Extract(): T requires Ok? { value }
  }

  datatype Option<T> = None | Some(value: T)

  /** The mode byte of a delay or pulse: 1 selects the `…Dynamic` class, which reads its time from an input. */
  datatype Timing = TimedByInput | Timed(t: Double)
  datatype OnOffTiming = OnOffByInput | TimedOnOff(tOn: Double, tOff: Double)

  /** The `'r' 'f' 'b' 'l'` variants of a T-trigger: rising, falling, both edges, level. */
  datatype Edge = Rising | Falling | Both | Level

  datatype DelayDesc = DelayOn(timing: Timing) | DelayOff(timing: Timing) | DelayOnOff(onOff: OnOffTiming)

  datatype DynamicDesc =
    | Integrator(k: Double, y0: Double) | Inertial(k: Double, t: Double, y0: Double)
    | InertialDifferential(k: Double, t: Double, y0: Double)
    | Oscillatory(k: Double, t: Double, b: Double, y0: Double, dy0: Double) | StepDelay(y0: Double)

  /** `Or`, `And` and `Xor` with `n` inputs; `inverted` selects `OrNot`, `AndNot`, `XorNot`. */
  datatype LogicalDesc =
    | Or(n: nat, inverted: bool) | And(n: nat, inverted: bool) | Xor(n: nat, inverted: bool)
    | Not | Equal | NotEqual | Less | Greater | LessOrEqual | GreaterOrEqual

  datatype NonlinearDesc =
    | Saturation(x1: Double, x2: Double, y1: Double, y2: Double) | Deadband(x1: Double, x2: Double, k: Double)
    | SaturationDeadband(x1: Double, x2: Double, y1: Double, y2: Double, dbX1: Double, dbX2: Double)
    | HysteresisDynamic(y1: Double, y2: Double, state: bool)
    | Hysteresis(x1: Double, x2: Double, y1: Double, y2: Double, state: bool)
    | HysteresisDeadband(x1: Double, x2: Double, y1: Double, y2: Double, dbX1: Double, dbX2: Double, ternary: int)
    | LowThreshold(x1: Double, x2: Double) | HighThreshold(x1: Double, x2: Double)
    | VariableHysteresis | VariableHysteresisPlus | VariableHysteresisMinus

  datatype OperatorDesc = Summator(coeffs: seq<Double>) | Multiplier(n: nat) | Divider(valueIfDivNull: Double) | AbsoluteValue | Sign

  datatype PulseDesc =
    | RisingPulse | FallingPulse | Pulse(timing: Timing) | ShortPulse(timing: Timing) | LongPulse(timing: Timing)
    | DebounceOn(t: Double) | DebounceOff(t: Double) | DebounceOnOff(t: Double)

  datatype SignalDesc = ExtInSignal(y0: Double) | ExtOutSignal | IntInSignal(y0: Double, n: nat) | IntOutSignal | Plot(ternary: int)

  datatype SourceDesc = Constant(y0: Double) | Step(t: Double, b: Double, y0: Double) | LinearSource(k: Double, b: Double)
                      | SinusSource(a: Double, w: Double, f: Double)

  datatype TriggerDesc = RsTrigger(state: bool) | SrTrigger(state: bool)
                       | TTrigger(edge: Edge, state: bool) | RtsTrigger(edge: Edge, state: bool) | StrTrigger(edge: Edge, state: bool)

  /** The block the source constructs for one entry, with the parameters it passes, by family. */
  datatype BlockDesc =
    | DelayBlock(delay: DelayDesc)
    | DynamicBlock(dynamic: DynamicDesc)
    | PiecewiseLinear(x: seq<Double>, y: seq<Double>, isExtraBound: bool)
    | LogicalBlock(logical: LogicalDesc)
    | NonlinearBlock(nonlinear: NonlinearDesc)
    | OperatorBlock(operator: OperatorDesc)
    | PulseBlock(pulse: PulseDesc)
    | SignalBlock(signal: SignalDesc)
    | SourceBlock(source: SourceDesc)
    | ToggleSwitch
    | TriggerBlock(trigger: TriggerDesc)

  /** What `assign` leaves behind: the blocks it pushed, `blocks_count`, and the link words `setAbsoluteLinks` reads. */
  datatype Parsed = Parsed(blocks: seq<BlockDesc>, blocksCount: nat, links: seq<nat>)

  // Readers: each reads one field at the cursor and returns it with the advanced cursor.

  function Byte(data: seq<byte>, at: nat): (r: Result<(byte, nat)>)
    ensures r.Ok? <==> at < |data|
    ensures r.Ok? ==> r.value == (data[at], at + 1)
  {
    if at < |data| then Ok((data[at], at + 1)) else Err
  }

  function F64(data: seq<byte>, at: nat): (r: Result<(Double, nat)>)
    ensures r.Ok? <==> at + 8 <= |data|
    ensures r.Ok? ==> r.value == (data[at..at + 8], at + 8)
  {
    if at + 8 <= |data| then
      var d: Double := data[at..at + 8];
      Ok((d, at + 8))
    else Err
  }

  /** `read_arr`: `k` doubles one after another. */
  function F64s(data: seq<byte>, at: nat, k: nat): (r: Result<(seq<Double>, nat)>)
    requires at <= |data|
    ensures r.Ok? <==> at + 8 * k <= |data|
    ensures r.Ok? ==> |r.value.0| == k && r.value.1 == at + 8 * k
    ensures r.Ok? ==> forall i :: 0 <= i < k ==> r.value.0[i] == data[at + 8 * i..at + 8 * i + 8]
    decreases k
  {
    if k == 0 then Ok(([], at))
    else
      var h :- F64(data, at);
      var t :- F64s(data, h.1, k - 1);
      Ok(([h.0] + t.0, t.1))
  }

  /** A `uint16_t`. */
  function U16(data: seq<byte>, at: nat): (r: Result<(nat, nat)>)
    ensures r.Ok? <==> at + 2 <= |data|
    ensures r.Ok? ==> r.value.0 < 0x1_0000 && r.value.1 == at + 2
  {
    if at + 2 <= |data| then Ok((data[at] as nat + 0x100 * data[at + 1] as nat, at + 2)) else Err
  }

  /** A `uint32_t`. */
  function U32(data: seq<byte>, at: nat): (r: Result<(nat, nat)>)
    ensures r.Ok? <==> at + 4 <= |data|
    ensures r.Ok? ==> r.value.0 < 0x1_0000_0000 && r.value.1 == at + 4
  {
    if at + 4 <= |data| then
      Ok((data[at] as nat + 0x100 * data[at + 1] as nat + 0x1_0000 * data[at + 2] as nat + 0x100_0000 * data[at + 3] as nat, at + 4))
    else Err
  }

  /** `k` `uint32_t` words one after another. */
  function U32s(data: seq<byte>, at: nat, k: nat): (r: Result<(seq<nat>, nat)>)
    requires at <= |data|
    ensures r.Ok? <==> at + 4 * k <= |data|
    ensures r.Ok? ==> |r.value.0| == k && r.value.1 == at + 4 * k
    ensures r.Ok? ==> forall i :: 0 <= i < k ==> r.value.0[i] < 0x1_0000_0000
    decreases k
  {
    if k == 0 then Ok(([], at))
    else
      var h :- U32(data, at);
      var t :- U32s(data, h.1, k - 1);
      Ok(([h.0] + t.0, t.1))
  }

  /** A `bool`: any nonzero byte reads as true. */
  function Flag(data: seq<byte>, at: nat): (r: Result<(bool, nat)>)
    ensures r.Ok? <==> at < |data|
    ensures r.Ok? ==> r.value == (data[at] != 0, at + 1)
  {
    var b :- Byte(data, at);
    Ok((b.0 != 0, b.1))
  }

  /** An `int8_t`, two's complement. */
  function I8(data: seq<byte>, at: nat): (r: Result<(int, nat)>)
    ensures r.Ok? <==> at < |data|
    ensures r.Ok? ==> -0x80 <= r.value.0 < 0x80 && r.value.1 == at + 1
  {
    var b :- Byte(data, at);
    Ok((if b.0 < 0x80 then b.0 as int else b.0 as int - 0x100, b.1))
  }

  /** The mode byte of a delay or pulse and, unless it is 1, the time `T`. */
  function ReadTiming(data: seq<byte>, at: nat): (r: Result<(Timing, nat)>)
    ensures r.Ok? ==> at < r.value.1 <= |data|
  {
    var m :- Byte(data, at);
    if m.0 == 1 then Ok((TimedByInput, m.1))
    else
      var t :- F64(data, m.1);
      Ok((Timed(t.0), t.1))
  }

  /** The mode byte of `DelayOnOff` and, unless it is 1, `T_on` and `T_off`. */
  function ReadOnOff(data: seq<byte>, at: nat): (r: Result<(OnOffTiming, nat)>)
    requires at <= |data|
    ensures r.Ok? ==> at < r.value.1 <= |data|
  {
    var m :- Byte(data, at);
    if m.0 == 1 then Ok((OnOffByInput, m.1))
    else
      var t :- F64s(data, m.1, 2);
      Ok((TimedOnOff(t.0[0], t.0[1]), t.1))
  }

  /** The variant byte of a T-trigger: a letter or its number; any other byte selects nothing. */
  function EdgeOf(b: byte): Option<Edge>
  {
    if b == 'r' as byte || b == 0 then Some(Rising)
    else if b == 'f' as byte || b == 1 then Some(Falling)
    else if b == 'b' as byte || b == 2 then Some(Both)
    else if b == 'l' as byte || b == 3 then Some(Level)
    else None
  }

  /** The variant byte and the initial state of a T-trigger; an unknown variant yields no edge. */
  function ReadTrigger(data: seq<byte>, at: nat): (r: Result<(Option<Edge>, bool, nat)>)
    ensures r.Ok? <==> at + 2 <= |data|
    ensures r.Ok? ==> r.value.2 == at + 2
  {
    var t :- Byte(data, at);
    var s :- Flag(data, t.1);
    Ok((EdgeOf(t.0), s.0, s.1))
  }

  function Built(d: BlockDesc, at: nat): Result<(Option<BlockDesc>, nat)> { Ok((Some(d), at)) }

  /** Ids 1 to 59 are the enumerators of `BlockID`; `Negate` (34) and `ChangePulse` (38) have no case in the switch. */
  predicate Known(tag: byte)
  {
    1 <= tag <= 59 && tag != 34 && tag != 38
  }

  /** Delays, ids 1 to 3: the mode byte, then the times unless it is 1. */
  function ReadDelay(t: byte, data: seq<byte>, p: nat): (r: Result<(Option<BlockDesc>, nat)>)
    requires 1 <= t <= 3 && p <= |data|
    ensures r.Ok? ==> p < r.value.1 <= |data| && r.value.0.Some?
  {
    if t == 3 then var m :- ReadOnOff(data, p); Built(DelayBlock(DelayOnOff(m.0)), m.1)
    else var m :- ReadTiming(data, p); Built(DelayBlock(if t == 1 then DelayOn(m.0) else DelayOff(m.0)), m.1)
  }

  /** Dynamic blocks, ids 4 to 8: a fixed number of doubles. */
  function ReadDynamic(t: byte, data: seq<byte>, p: nat): (r: Result<(Option<BlockDesc>, nat)>)
    requires 4 <= t <= 8 && p <= |data|
    ensures r.Ok? ==> p < r.value.1 <= |data| && r.value.0.Some?
  {
    if t == 4 then var v :- F64s(data, p, 2); Built(DynamicBlock(Integrator(v.0[0], v.0[1])), v.1)
    else if t == 5 then var v :- F64s(data, p, 3); Built(DynamicBlock(Inertial(v.0[0], v.0[1], v.0[2])), v.1)
    else if t == 6 then var v :- F64s(data, p, 3); Built(DynamicBlock(InertialDifferential(v.0[0], v.0[1], v.0[2])), v.1)
    else if t == 7 then var v :- F64s(data, p, 5); Built(DynamicBlock(Oscillatory(v.0[0], v.0[1], v.0[2], v.0[3], v.0[4])), v.1)
    else var v :- F64(data, p); Built(DynamicBlock(StepDelay(v.0)), v.1)
  }

  /** `PiecewiseLinear`, id 9: `n`, `n` abscissae, `n` ordinates, the extra-bound flag. */
  function ReadPiecewise(data: seq<byte>, p: nat): (r: Result<(Option<BlockDesc>, nat)>)
    requires p <= |data|
    ensures r.Ok? ==> p < r.value.1 <= |data| && r.value.0.Some?
  {
    var n :- U16(data, p);
    var x :- F64s(data, n.1, n.0);
    var y :- F64s(data, x.1, n.0);
    var e :- Flag(data, y.1);
    Built(PiecewiseLinear(x.0, y.0, e.0), e.1)
  }

  /** Logical blocks, ids 10 to 19: `Or`, `And`, `Xor` read `n` and the inversion flag, the comparisons nothing. */
  function ReadLogical(t: byte, data: seq<byte>, p: nat): (r: Result<(Option<BlockDesc>, nat)>)
    requires 10 <= t <= 19 && p <= |data|
    ensures r.Ok? ==> p <= r.value.1 <= |data| && r.value.0.Some?
  {
    if t <= 12 then
      var n :- U16(data, p);
      var s :- Flag(data, n.1);
      Built(LogicalBlock(if t == 10 then Or(n.0, s.0) else if t == 11 then And(n.0, s.0) else Xor(n.0, s.0)), s.1)
    else
      Built(LogicalBlock(if t == 13 then Not else if t == 14 then Equal else if t == 15 then NotEqual else if t == 16 then Less
                         else if t == 17 then Greater else if t == 18 then LessOrEqual else GreaterOrEqual), p)
  }

  /** Nonlinear blocks, ids 20 to 29. */
  function ReadNonlinear(t: byte, data: seq<byte>, p: nat): (r: Result<(Option<BlockDesc>, nat)>)
    requires 20 <= t <= 29 && p <= |data|
    ensures r.Ok? ==> p <= r.value.1 <= |data| && r.value.0.Some?
  {
    if t == 20 then var v :- F64s(data, p, 4); Built(NonlinearBlock(Saturation(v.0[0], v.0[1], v.0[2], v.0[3])), v.1)
    else if t == 21 then var v :- F64s(data, p, 3); Built(NonlinearBlock(Deadband(v.0[0], v.0[1], v.0[2])), v.1)
    else if t == 22 then
      var v :- F64s(data, p, 6);
      Built(NonlinearBlock(SaturationDeadband(v.0[0], v.0[1], v.0[2], v.0[3], v.0[4], v.0[5])), v.1)
    else if t == 23 then ReadHysteresis(data, p)
    else if t == 24 then
      var v :- F64s(data, p, 6);
      var s :- I8(data, v.1);
      Built(NonlinearBlock(HysteresisDeadband(v.0[0], v.0[1], v.0[2], v.0[3], v.0[4], v.0[5], s.0)), s.1)
    else if t == 25 then var v :- F64s(data, p, 2); Built(NonlinearBlock(LowThreshold(v.0[0], v.0[1])), v.1)
    else if t == 26 then var v :- F64s(data, p, 2); Built(NonlinearBlock(HighThreshold(v.0[0], v.0[1])), v.1)
    else Built(NonlinearBlock(if t == 27 then VariableHysteresis else if t == 28 then VariableHysteresisPlus else VariableHysteresisMinus), p)
  }

  /** `Hysteresis`, id 23: the mode byte; 1 reads `y1 y2` and the state, anything else `x1 x2 y1 y2` and the state. */
  function ReadHysteresis(data: seq<byte>, p: nat): (r: Result<(Option<BlockDesc>, nat)>)
    requires p <= |data|
    ensures r.Ok? ==> p < r.value.1 <= |data| && r.value.0.Some?
  {
    var m :- Byte(data, p);
    if m.0 == 1 then
      var v :- F64s(data, m.1, 2);
      var s :- Flag(data, v.1);
      Built(NonlinearBlock(HysteresisDynamic(v.0[0], v.0[1], s.0)), s.1)
    else
      var v :- F64s(data, m.1, 4);
      var s :- Flag(data, v.1);
      Built(NonlinearBlock(Hysteresis(v.0[0], v.0[1], v.0[2], v.0[3], s.0)), s.1)
  }

  /** Operators, ids 30 to 35; `Negate` (34) has no case and pushes nothing. */
  function ReadOperator(t: byte, data: seq<byte>, p: nat): (r: Result<(Option<BlockDesc>, nat)>)
    requires 30 <= t <= 35 && p <= |data|
    ensures r.Ok? ==> p <= r.value.1 <= |data| && (r.value.0.None? <==> t == 34)
  {
    if t == 30 then var n :- U16(data, p); var c :- F64s(data, n.1, n.0); Built(OperatorBlock(Summator(c.0)), c.1)
    else if t == 31 then var n :- U16(data, p); Built(OperatorBlock(Multiplier(n.0)), n.1)
    else if t == 32 then var v :- F64(data, p); Built(OperatorBlock(Divider(v.0)), v.1)
    else if t == 33 then Built(OperatorBlock(AbsoluteValue), p)
    else if t == 34 then Ok((None, p))
    else Built(OperatorBlock(Sign), p)
  }

  /** Pulses, ids 36 to 44; `ChangePulse` (38) has no case and pushes nothing. */
  function ReadPulse(t: byte, data: seq<byte>, p: nat): (r: Result<(Option<BlockDesc>, nat)>)
    requires 36 <= t <= 44 && p <= |data|
    ensures r.Ok? ==> p <= r.value.1 <= |data| && (r.value.0.None? <==> t == 38)
  {
    if t == 36 then Built(PulseBlock(RisingPulse), p)
    else if t == 37 then Built(PulseBlock(FallingPulse), p)
    else if t == 38 then Ok((None, p))
    else if t <= 41 then
      var m :- ReadTiming(data, p);
      Built(PulseBlock(if t == 39 then Pulse(m.0) else if t == 40 then ShortPulse(m.0) else LongPulse(m.0)), m.1)
    else
      var v :- F64(data, p);
      Built(PulseBlock(if t == 42 then DebounceOn(v.0) else if t == 43 then DebounceOff(v.0) else DebounceOnOff(v.0)), v.1)
  }

  /** Signals, ids 45 to 49. */
  function ReadSignal(t: byte, data: seq<byte>, p: nat): (r: Result<(Option<BlockDesc>, nat)>)
    requires 45 <= t <= 49 && p <= |data|
    ensures r.Ok? ==> p <= r.value.1 <= |data| && r.value.0.Some?
  {
    if t == 45 then var v :- F64(data, p); Built(SignalBlock(ExtInSignal(v.0)), v.1)
    else if t == 46 then Built(SignalBlock(ExtOutSignal), p)
    else if t == 47 then var v :- F64(data, p); var n :- U16(data, v.1); Built(SignalBlock(IntInSignal(v.0, n.0)), n.1)
    else if t == 48 then Built(SignalBlock(IntOutSignal), p)
    else var s :- I8(data, p); Built(SignalBlock(Plot(s.0)), s.1)
  }

  /** Sources, ids 50 to 53. */
  function ReadSource(t: byte, data: seq<byte>, p: nat): (r: Result<(Option<BlockDesc>, nat)>)
    requires 50 <= t <= 53 && p <= |data|
    ensures r.Ok? ==> p < r.value.1 <= |data| && r.value.0.Some?
  {
    if t == 50 then var v :- F64(data, p); Built(SourceBlock(Constant(v.0)), v.1)
    else if t == 51 then var v :- F64s(data, p, 3); Built(SourceBlock(Step(v.0[0], v.0[1], v.0[2])), v.1)
    else if t == 52 then var v :- F64s(data, p, 2); Built(SourceBlock(LinearSource(v.0[0], v.0[1])), v.1)
    else var v :- F64s(data, p, 3); Built(SourceBlock(SinusSource(v.0[0], v.0[1], v.0[2])), v.1)
  }

  /** Triggers, ids 55 to 59; a T-trigger of an unknown variant pushes nothing. */
  function ReadTriggerBlock(t: byte, data: seq<byte>, p: nat): (r: Result<(Option<BlockDesc>, nat)>)
    requires 55 <= t <= 59 && p <= |data|
    ensures r.Ok? ==> p < r.value.1 <= |data|
  {
    if t <= 56 then var s :- Flag(data, p); Built(TriggerBlock(if t == 55 then RsTrigger(s.0) else SrTrigger(s.0)), s.1)
    else
      var v :- ReadTrigger(data, p);
      match v.0
      case None => Ok((None, v.2))
      case Some(e) => Built(TriggerBlock(if t == 57 then TTrigger(e, v.1) else if t == 58 then RtsTrigger(e, v.1) else StrTrigger(e, v.1)), v.2)
  }

  /**
   * One entry of the `switch` in `assign`: the block it pushes, if any,
   * and the cursor after it. An id without a case pushes nothing and
   * consumes only its own byte; a T-trigger with an unknown variant pushes
   * nothing and consumes its two payload bytes.
   */
  function ReadEntry(data: seq<byte>, at: nat): (r: Result<(Option<BlockDesc>, nat)>)
    ensures r.Ok? ==> at < r.value.1 <= |data|
  {
    var tag :- Byte(data, at);
    var t, p := tag.0, tag.1;
    if t == 0 || t > 59 then Ok((None, p))
    else if t <= 3 then ReadDelay(t, data, p)
    else if t <= 8 then ReadDynamic(t, data, p)
    else if t == 9 then ReadPiecewise(data, p)
    else if t <= 19 then ReadLogical(t, data, p)
    else if t <= 29 then ReadNonlinear(t, data, p)
    else if t <= 35 then ReadOperator(t, data, p)
    else if t <= 44 then ReadPulse(t, data, p)
    else if t <= 49 then ReadSignal(t, data, p)
    else if t <= 53 then ReadSource(t, data, p)
    else if t == 54 then Built(ToggleSwitch, p)
    else ReadTriggerBlock(t, data, p)
  }

  /** The block an entry pushed, as a list of zero or one. */
  function Pushed(o: Option<BlockDesc>): seq<BlockDesc>
  {
    if o.Some? then [o.value] else []
  }

  /** `k` entries from `at`: the blocks pushed and the cursor after them. */
  function Entries(k: nat, data: seq<byte>, at: nat): (r: Result<(seq<BlockDesc>, nat)>)
    requires at <= |data|
    ensures r.Ok? ==> |r.value.0| <= k && at <= r.value.1 <= |data|
    decreases k
  {
    if k == 0 then Ok(([], at))
    else
      var e :- ReadEntry(data, at);
      var rest :- Entries(k - 1, data, e.1);
      Ok((Pushed(e.0) + rest.0, rest.1))
  }

  /** `bs` in front of the blocks of a parse, failure kept. */
  function Prefixed(bs: seq<BlockDesc>, r: Result<(seq<BlockDesc>, nat)>): Result<(seq<BlockDesc>, nat)>
  {
    if r.Ok? then Ok((bs + r.value.0, r.value.1)) else Err
  }

  /**
   * The link count is passed on as `int n`: a count of 2^31 or more turns
   * negative, and the loop of `setAbsoluteLinks` never meets its end
   * pointer. Such a description fails here.
   */
  const MaxLinks: nat := 0x8000_0000

  /** The entries, the link count and the link words of a description, failing where `assign` would read past the end. */
  function Description(count: nat, data: seq<byte>): (r: Result<(seq<BlockDesc>, seq<nat>)>)
    ensures r.Ok? ==> |r.value.0| <= count && |r.value.1| % 2 == 0
  {
    var e :- Entries(count, data, 0);
    var n :- U32(data, e.1);
    if n.0 >= MaxLinks then Err
    else
      var ws :- U32s(data, n.1, 2 * n.0);
      Ok((e.0, ws.0))
  }

  /** The whole of `assign`, as the source writes it: `blocks_count` is `count` whatever was pushed. */
  function Parse(count: nat, data: seq<byte>): (r: Result<Parsed>)
    ensures r.Ok? ==> r.value.blocksCount == count && |r.value.blocks| <= count && |r.value.links| % 2 == 0
  {
    var d :- Description(count, data);
    Ok(Parsed(d.0, count, d.1))
  }

  /** `assign` with `blocks_count` set to the number of blocks pushed, as every other way of adding a block keeps it. */
  function ParseCounted(count: nat, data: seq<byte>): (r: Result<Parsed>)
    ensures r.Ok? ==> r.value.blocksCount == |r.value.blocks| <= count && |r.value.links| % 2 == 0
  {
    var d :- Description(count, data);
    Ok(Parsed(d.0, |d.0|, d.1))
  }

  lemma EntriesStep(k: nat, data: seq<byte>, at: nat)
    requires k > 0 && at <= |data| && ReadEntry(data, at).Ok?
    ensures var e := ReadEntry(data, at).value;
      Entries(k, data, at) == Prefixed(Pushed(e.0), Entries(k - 1, data, e.1))
  {
  }

  lemma PrefixedJoin(a: seq<BlockDesc>, b: seq<BlockDesc>, r: Result<(seq<BlockDesc>, nat)>)
    ensures Prefixed(a, Prefixed(b, r)) == Prefixed(a + b, r)
  {
    if r.Ok? {
      assert a + (b + r.value.0) == (a + b) + r.value.0;
    }
  }

  lemma PrefixedNothing(r: Result<(seq<BlockDesc>, nat)>)
    ensures Prefixed([], r) == r
  {
    if r.Ok? {
      assert [] + r.value.0 == r.value.0;
    }
  }

  /** One more entry read: the blocks so far, then the rest, still make up the parse of all `count` entries. */
  lemma EntriesNext(count: nat, i: nat, data: seq<byte>, at: nat, blocks: seq<BlockDesc>)
    requires i < count && at <= |data| && ReadEntry(data, at).Ok?
    requires Entries(count, data, 0) == Prefixed(blocks, Entries(count - i, data, at))
    ensures var e := ReadEntry(data, at).value;
      Entries(count, data, 0) == Prefixed(blocks + Pushed(e.0), Entries(count - (i + 1), data, e.1))
  {
    var e := ReadEntry(data, at).value;
    EntriesStep(count - i, data, at);
    PrefixedJoin(blocks, Pushed(e.0), Entries(count - i - 1, data, e.1));
  }

  /** The `for` loop of `assign`: `count` entries read one after another, the blocks pushed in order. */
  method ReadEntries(count: nat, data: seq<byte>) returns (r: Result<(seq<BlockDesc>, nat)>)
    ensures r == Entries(count, data, 0)
  {
    var blocks: seq<BlockDesc> := [];
    var at: nat := 0;
    var i: nat := 0;
    PrefixedNothing(Entries(count, data, 0));
    while i < count
      invariant i <= count && at <= |data|
      invariant Entries(count, data, 0) == Prefixed(blocks, Entries(count - i, data, at))
    {
      var e := ReadEntry(data, at);
      if e.Err? {
        return Err;
      }
      EntriesNext(count, i, data, at, blocks);
      blocks := blocks + Pushed(e.value.0);
      at := e.value.1;
      i := i + 1;
    }
    assert blocks + [] == blocks;
    r := Ok((blocks, at));
  }

  /** `assign`: the entries, then the link count and the link words `setAbsoluteLinks` is given; `blocks_count` counts the blocks pushed. */
  method Assign(count: nat, data: seq<byte>) returns (r: Result<Parsed>)
    ensures r == ParseCounted(count, data)
    ensures r.Ok? ==> r.value.blocksCount == |r.value.blocks|
  {
    var e := ReadEntries(count, data);
    if e.Err? {
      return Err;
    }
    var n := U32(data, e.value.1);
    if n.Err? || n.value.0 >= MaxLinks {
      return Err;
    }
    var ws := U32s(data, n.value.1, 2 * n.value.0);
    if ws.Err? {
      return Err;
    }
    r := Ok(Parsed(e.value.0, |e.value.0|, ws.value.0));
  }

  // The encoder: the bytes of each entry as the reader above expects them,
  // written in front of whatever follows.

  /** `data` from position `at` to its end is exactly `s`. */
  predicate Rest(data: seq<byte>, at: nat, s: seq<byte>)
  {
    at + |s| == |data| && data[at..] == s
  }

  function Le16(n: nat, rest: seq<byte>): seq<byte>
    requires n < 0x1_0000
  {
    [(n % 0x100) as byte, (n / 0x100) as byte] + rest
  }

  function Le32(n: nat, rest: seq<byte>): seq<byte>
    requires n < 0x1_0000_0000
  {
    [(n % 0x100) as byte, (n / 0x100 % 0x100) as byte, (n / 0x1_0000 % 0x100) as byte, (n / 0x100_0000) as byte] + rest
  }

  function Doubles(vs: seq<Double>, rest: seq<byte>): seq<byte>
  {
    if vs == [] then rest else vs[0] + Doubles(vs[1..], rest)
  }

  predicate Words32(ws: seq<nat>)
  {
    forall i :: 0 <= i < |ws| ==> ws[i] < 0x1_0000_0000
  }

  function Words(ws: seq<nat>, rest: seq<byte>): seq<byte>
    requires Words32(ws)
  {
    if ws == [] then rest else Le32(ws[0], Words(ws[1..], rest))
  }

  function FlagByte(b: bool): byte { if b then 1 else 0 }

  function I8Byte(v: int): byte
    requires -0x80 <= v < 0x80
  {
    if v < 0 then (v + 0x100) as byte else v as byte
  }

  function EdgeByte(e: Edge): byte
  {
    match e
    case Rising => 'r' as byte
    case Falling => 'f' as byte
    case Both => 'b' as byte
    case Level => 'l' as byte
  }

  function WriteTiming(m: Timing, rest: seq<byte>): seq<byte>
  {
    match m
    case TimedByInput => [1] + rest
    case Timed(t) => [0] + (t + rest)
  }

  function WriteOnOff(m: OnOffTiming, rest: seq<byte>): seq<byte>
  {
    match m
    case OnOffByInput => [1] + rest
    case TimedOnOff(a, b) => [0] + Doubles([a, b], rest)
  }

  /** The descriptions an entry can carry: counts fit a `uint16_t`, states an `int8_t`, and the two tables of `PiecewiseLinear` have one length. */
  predicate Encodable(d: BlockDesc)
  {
    match d
    case PiecewiseLinear(x, y, _) => |x| == |y| < 0x1_0000
    case LogicalBlock(l) => (l.Or? || l.And? || l.Xor?) ==> l.n < 0x1_0000
    case NonlinearBlock(n) => n.HysteresisDeadband? ==> -0x80 <= n.ternary < 0x80
    case OperatorBlock(o) => (o.Summator? ==> |o.coeffs| < 0x1_0000) && (o.Multiplier? ==> o.n < 0x1_0000)
    case SignalBlock(s) => (s.IntInSignal? ==> s.n < 0x1_0000) && (s.Plot? ==> -0x80 <= s.ternary < 0x80)
    case _ => true
  }

  // The id of each description, family by family.

  function DelayTag(d: DelayDesc): (t: byte)
    ensures 1 <= t <= 3
  {
    match d
    case DelayOn(_) => 1
    case DelayOff(_) => 2
    case DelayOnOff(_) => 3
  }

  function DynamicTag(d: DynamicDesc): (t: byte)
    ensures 4 <= t <= 8
  {
    match d
    case Integrator(_, _) => 4
    case Inertial(_, _, _) => 5
    case InertialDifferential(_, _, _) => 6
    case Oscillatory(_, _, _, _, _) => 7
    case StepDelay(_) => 8
  }

  function LogicalTag(d: LogicalDesc): (t: byte)
    ensures 10 <= t <= 19
  {
    match d
    case Or(_, _) => 10
    case And(_, _) => 11
    case Xor(_, _) => 12
    case Not => 13
    case Equal => 14
    case NotEqual => 15
    case Less => 16
    case Greater => 17
    case LessOrEqual => 18
    case GreaterOrEqual => 19
  }

  function NonlinearTag(d: NonlinearDesc): (t: byte)
    ensures 20 <= t <= 29
  {
    match d
    case Saturation(_, _, _, _) => 20
    case Deadband(_, _, _) => 21
    case SaturationDeadband(_, _, _, _, _, _) => 22
    case HysteresisDynamic(_, _, _) => 23
    case Hysteresis(_, _, _, _, _) => 23
    case HysteresisDeadband(_, _, _, _, _, _, _) => 24
    case LowThreshold(_, _) => 25
    case HighThreshold(_, _) => 26
    case VariableHysteresis => 27
    case VariableHysteresisPlus => 28
    case VariableHysteresisMinus => 29
  }

  function OperatorTag(d: OperatorDesc): (t: byte)
    ensures 30 <= t <= 35 && t != 34
  {
    match d
    case Summator(_) => 30
    case Multiplier(_) => 31
    case Divider(_) => 32
    case AbsoluteValue => 33
    case Sign => 35
  }

  function PulseTag(d: PulseDesc): (t: byte)
    ensures 36 <= t <= 44 && t != 38
  {
    match d
    case RisingPulse => 36
    case FallingPulse => 37
    case Pulse(_) => 39
    case ShortPulse(_) => 40
    case LongPulse(_) => 41
    case DebounceOn(_) => 42
    case DebounceOff(_) => 43
    case DebounceOnOff(_) => 44
  }

  function SignalTag(d: SignalDesc): (t: byte)
    ensures 45 <= t <= 49
  {
    match d
    case ExtInSignal(_) => 45
    case ExtOutSignal => 46
    case IntInSignal(_, _) => 47
    case IntOutSignal => 48
    case Plot(_) => 49
  }

  function SourceTag(d: SourceDesc): (t: byte)
    ensures 50 <= t <= 53
  {
    match d
    case Constant(_) => 50
    case Step(_, _, _) => 51
    case LinearSource(_, _) => 52
    case SinusSource(_, _, _) => 53
  }

  function TriggerTag(d: TriggerDesc): (t: byte)
    ensures 55 <= t <= 59
  {
    match d
    case RsTrigger(_) => 55
    case SrTrigger(_) => 56
    case TTrigger(_, _) => 57
    case RtsTrigger(_, _) => 58
    case StrTrigger(_, _) => 59
  }

  /** The `BlockID` an entry for `d` starts with: always one the switch has a case for. */
  function Tag(d: BlockDesc): (t: byte)
    ensures Known(t)
  {
    match d
    case DelayBlock(x) => DelayTag(x)
    case DynamicBlock(x) => DynamicTag(x)
    case PiecewiseLinear(_, _, _) => 9
    case LogicalBlock(x) => LogicalTag(x)
    case NonlinearBlock(x) => NonlinearTag(x)
    case OperatorBlock(x) => OperatorTag(x)
    case PulseBlock(x) => PulseTag(x)
    case SignalBlock(x) => SignalTag(x)
    case SourceBlock(x) => SourceTag(x)
    case ToggleSwitch => 54
    case TriggerBlock(x) => TriggerTag(x)
  }

  // The payload of each family, in front of `rest`.

  function DelayPayload(d: DelayDesc, rest: seq<byte>): seq<byte>
  {
    match d
    case DelayOn(m) => WriteTiming(m, rest)
    case DelayOff(m) => WriteTiming(m, rest)
    case DelayOnOff(m) => WriteOnOff(m, rest)
  }

  function DynamicPayload(d: DynamicDesc, rest: seq<byte>): seq<byte>
  {
    match d
    case Integrator(k, y0) => Doubles([k, y0], rest)
    case Inertial(k, t, y0) => Doubles([k, t, y0], rest)
    case InertialDifferential(k, t, y0) => Doubles([k, t, y0], rest)
    case Oscillatory(k, t, b, y0, dy0) => Doubles([k, t, b, y0, dy0], rest)
    case StepDelay(y0) => y0 + rest
  }

  function PiecewisePayload(x: seq<Double>, y: seq<Double>, e: bool, rest: seq<byte>): seq<byte>
    requires |x| < 0x1_0000
  {
    Le16(|x|, Doubles(x, Doubles(y, [FlagByte(e)] + rest)))
  }

  function LogicalPayload(d: LogicalDesc, rest: seq<byte>): seq<byte>
    requires (d.Or? || d.And? || d.Xor?) ==> d.n < 0x1_0000
  {
    if d.Or? || d.And? || d.Xor? then Le16(d.n, [FlagByte(d.inverted)] + rest) else rest
  }

  function NonlinearPayload(d: NonlinearDesc, rest: seq<byte>): seq<byte>
    requires d.HysteresisDeadband? ==> -0x80 <= d.ternary < 0x80
  {
    match d
    case Saturation(x1, x2, y1, y2) => Doubles([x1, x2, y1, y2], rest)
    case Deadband(x1, x2, k) => Doubles([x1, x2, k], rest)
    case SaturationDeadband(x1, x2, y1, y2, d1, d2) => Doubles([x1, x2, y1, y2, d1, d2], rest)
    case HysteresisDynamic(y1, y2, s) => [1] + Doubles([y1, y2], [FlagByte(s)] + rest)
    case Hysteresis(x1, x2, y1, y2, s) => [0] + Doubles([x1, x2, y1, y2], [FlagByte(s)] + rest)
    case HysteresisDeadband(x1, x2, y1, y2, d1, d2, s) => Doubles([x1, x2, y1, y2, d1, d2], [I8Byte(s)] + rest)
    case LowThreshold(x1, x2) => Doubles([x1, x2], rest)
    case HighThreshold(x1, x2) => Doubles([x1, x2], rest)
    case VariableHysteresis => rest
    case VariableHysteresisPlus => rest
    case VariableHysteresisMinus => rest
  }

  function OperatorPayload(d: OperatorDesc, rest: seq<byte>): seq<byte>
    requires (d.Summator? ==> |d.coeffs| < 0x1_0000) && (d.Multiplier? ==> d.n < 0x1_0000)
  {
    match d
    case Summator(c) => Le16(|c|, Doubles(c, rest))
    case Multiplier(n) => Le16(n, rest)
    case Divider(v) => v + rest
    case AbsoluteValue => rest
    case Sign => rest
  }

  function PulsePayload(d: PulseDesc, rest: seq<byte>): seq<byte>
  {
    match d
    case RisingPulse => rest
    case FallingPulse => rest
    case Pulse(m) => WriteTiming(m, rest)
    case ShortPulse(m) => WriteTiming(m, rest)
    case LongPulse(m) => WriteTiming(m, rest)
    case DebounceOn(t) => t + rest
    case DebounceOff(t) => t + rest
    case DebounceOnOff(t) => t + rest
  }

  function SignalPayload(d: SignalDesc, rest: seq<byte>): seq<byte>
    requires (d.IntInSignal? ==> d.n < 0x1_0000) && (d.Plot? ==> -0x80 <= d.ternary < 0x80)
  {
    match d
    case ExtInSignal(y0) => y0 + rest
    case ExtOutSignal => rest
    case IntInSignal(y0, n) => y0 + Le16(n, rest)
    case IntOutSignal => rest
    case Plot(s) => [I8Byte(s)] + rest
  }

  function SourcePayload(d: SourceDesc, rest: seq<byte>): seq<byte>
  {
    match d
    case Constant(y0) => y0 + rest
    case Step(t, b, y0) => Doubles([t, b, y0], rest)
    case LinearSource(k, b) => Doubles([k, b], rest)
    case SinusSource(a, w, f) => Doubles([a, w, f], rest)
  }

  function TriggerPayload(d: TriggerDesc, rest: seq<byte>): seq<byte>
  {
    if d.RsTrigger? || d.SrTrigger? then [FlagByte(d.state)] + rest else [EdgeByte(d.edge), FlagByte(d.state)] + rest
  }

  /** The payload of the entry for `d`, in front of `rest`. */
  function Payload(d: BlockDesc, rest: seq<byte>): seq<byte>
    requires Encodable(d)
  {
    match d
    case DelayBlock(x) => DelayPayload(x, rest)
    case DynamicBlock(x) => DynamicPayload(x, rest)
    case PiecewiseLinear(x, y, e) => PiecewisePayload(x, y, e, rest)
    case LogicalBlock(x) => LogicalPayload(x, rest)
    case NonlinearBlock(x) => NonlinearPayload(x, rest)
    case OperatorBlock(x) => OperatorPayload(x, rest)
    case PulseBlock(x) => PulsePayload(x, rest)
    case SignalBlock(x) => SignalPayload(x, rest)
    case SourceBlock(x) => SourcePayload(x, rest)
    case ToggleSwitch => rest
    case TriggerBlock(x) => TriggerPayload(x, rest)
  }

  /** The entry for `d`, in front of `rest`: its id byte and its payload. */
  function Write(d: BlockDesc, rest: seq<byte>): seq<byte>
    requires Encodable(d)
  {
    [Tag(d)] + Payload(d, rest)
  }

  predicate AllEncodable(ds: seq<BlockDesc>)
  {
    forall i :: 0 <= i < |ds| ==> Encodable(ds[i])
  }

  function WriteAll(ds: seq<BlockDesc>, rest: seq<byte>): seq<byte>
    requires AllEncodable(ds)
  {
    if ds == [] then rest else Write(ds[0], WriteAll(ds[1..], rest))
  }

  /** A whole description: the entries, the link count, the link words. */
  function Describe(ds: seq<BlockDesc>, links: seq<nat>): seq<byte>
    requires AllEncodable(ds) && Words32(links) && |links| % 2 == 0 && |links| / 2 < MaxLinks
  {
    WriteAll(ds, Le32(|links| / 2, Words(links, [])))
  }

  // Reading back what was written.

  lemma ByteRead(data: seq<byte>, at: nat, b: byte, rest: seq<byte>)
    requires Rest(data, at, [b] + rest)
    ensures Byte(data, at) == Ok((b, at + 1)) && Rest(data, at + 1, rest)
  {
    assert data[at] == data[at..][0];
    assert data[at + 1..] == data[at..][1..];
  }

  lemma F64Read(data: seq<byte>, at: nat, v: Double, rest: seq<byte>)
    requires Rest(data, at, v + rest)
    ensures F64(data, at) == Ok((v, at + 8)) && Rest(data, at + 8, rest)
  {
    assert data[at..at + 8] == data[at..][..8];
    assert data[at + 8..] == data[at..][8..];
  }

  lemma {:induction false} F64sRead(data: seq<byte>, at: nat, vs: seq<Double>, rest: seq<byte>)
    requires Rest(data, at, Doubles(vs, rest))
    ensures F64s(data, at, |vs|) == Ok((vs, at + 8 * |vs|)) && Rest(data, at + 8 * |vs|, rest)
    decreases |vs|
  {
    if vs != [] {
      F64Read(data, at, vs[0], Doubles(vs[1..], rest));
      F64sRead(data, at + 8, vs[1..], rest);
      assert [vs[0]] + vs[1..] == vs;
    }
  }

  lemma U16Read(data: seq<byte>, at: nat, n: nat, rest: seq<byte>)
    requires n < 0x1_0000 && Rest(data, at, Le16(n, rest))
    ensures U16(data, at) == Ok((n, at + 2)) && Rest(data, at + 2, rest)
  {
    assert data[at] == data[at..][0] && data[at + 1] == data[at..][1];
    assert data[at + 2..] == data[at..][2..];
  }

  lemma U32Read(data: seq<byte>, at: nat, n: nat, rest: seq<byte>)
    requires n < 0x1_0000_0000 && Rest(data, at, Le32(n, rest))
    ensures U32(data, at) == Ok((n, at + 4)) && Rest(data, at + 4, rest)
  {
    assert data[at] == data[at..][0] && data[at + 1] == data[at..][1];
    assert data[at + 2] == data[at..][2] && data[at + 3] == data[at..][3];
    assert data[at + 4..] == data[at..][4..];
  }

  lemma {:induction false} U32sRead(data: seq<byte>, at: nat, ws: seq<nat>, rest: seq<byte>)
    requires Words32(ws) && Rest(data, at, Words(ws, rest))
    ensures U32s(data, at, |ws|) == Ok((ws, at + 4 * |ws|)) && Rest(data, at + 4 * |ws|, rest)
    decreases |ws|
  {
    if ws != [] {
      U32Read(data, at, ws[0], Words(ws[1..], rest));
      U32sRead(data, at + 4, ws[1..], rest);
      assert [ws[0]] + ws[1..] == ws;
    }
  }

  lemma TimingRead(data: seq<byte>, at: nat, m: Timing, rest: seq<byte>)
    requires Rest(data, at, WriteTiming(m, rest))
    ensures ReadTiming(data, at) == Ok((m, |data| - |rest|)) && Rest(data, |data| - |rest|, rest)
  {
    match m
    case TimedByInput => ByteRead(data, at, 1, rest);
    case Timed(t) => ByteRead(data, at, 0, t + rest); F64Read(data, at + 1, t, rest);
  }

  lemma OnOffRead(data: seq<byte>, at: nat, m: OnOffTiming, rest: seq<byte>)
    requires Rest(data, at, WriteOnOff(m, rest))
    ensures ReadOnOff(data, at) == Ok((m, |data| - |rest|)) && Rest(data, |data| - |rest|, rest)
  {
    match m
    case OnOffByInput => ByteRead(data, at, 1, rest);
    case TimedOnOff(a, b) => ByteRead(data, at, 0, Doubles([a, b], rest)); F64sRead(data, at + 1, [a, b], rest);
  }

  /** The number that selects a T-trigger variant, the alternative to its letter. */
  function EdgeNumber(e: Edge): byte
  {
    match e
    case Rising => 0
    case Falling => 1
    case Both => 2
    case Level => 3
  }

  /** Each variant reads back from its letter and from its number, and from no other byte. */
  lemma EdgeRead(e: Edge)
    ensures EdgeOf(EdgeByte(e)) == Some(e) && EdgeOf(EdgeNumber(e)) == Some(e)
    ensures forall b: byte :: EdgeOf(b) == Some(e) <==> b == EdgeByte(e) || b == EdgeNumber(e)
  {
  }

  /** A family reader's result for `d`: the block, and the cursor on what follows it. */
  predicate Yields(r: Result<(Option<BlockDesc>, nat)>, data: seq<byte>, d: BlockDesc, rest: seq<byte>)
  {
    r == Ok((Some(d), |data| - |rest|)) && Rest(data, |data| - |rest|, rest)
  }

  lemma DelayRead(data: seq<byte>, p: nat, d: DelayDesc, rest: seq<byte>)
    requires Rest(data, p, DelayPayload(d, rest))
    ensures Yields(ReadDelay(DelayTag(d), data, p), data, DelayBlock(d), rest)
  {
    match d
    case DelayOn(m) => TimingRead(data, p, m, rest);
    case DelayOff(m) => TimingRead(data, p, m, rest);
    case DelayOnOff(m) => OnOffRead(data, p, m, rest);
  }

  lemma DynamicRead(data: seq<byte>, p: nat, d: DynamicDesc, rest: seq<byte>)
    requires Rest(data, p, DynamicPayload(d, rest))
    ensures Yields(ReadDynamic(DynamicTag(d), data, p), data, DynamicBlock(d), rest)
  {
    match d
    case Integrator(k, y0) => F64sRead(data, p, [k, y0], rest);
    case Inertial(k, t, y0) => F64sRead(data, p, [k, t, y0], rest);
    case InertialDifferential(k, t, y0) => F64sRead(data, p, [k, t, y0], rest);
    case Oscillatory(k, t, b, y0, dy0) => F64sRead(data, p, [k, t, b, y0, dy0], rest);
    case StepDelay(y0) => F64Read(data, p, y0, rest);
  }

  /** The two tables of a `PiecewiseLinear` entry read back, one after the other. */
  lemma TablesRead(data: seq<byte>, at: nat, x: seq<Double>, y: seq<Double>, tail: seq<byte>)
    requires |x| == |y| && Rest(data, at, Doubles(x, Doubles(y, tail)))
    ensures F64s(data, at, |x|) == Ok((x, at + 8 * |x|))
    ensures F64s(data, at + 8 * |x|, |x|) == Ok((y, at + 16 * |x|)) && Rest(data, at + 16 * |x|, tail)
  {
    F64sRead(data, at, x, Doubles(y, tail));
    F64sRead(data, at + 8 * |x|, y, tail);
  }

  lemma PiecewiseRead(data: seq<byte>, p: nat, x: seq<Double>, y: seq<Double>, e: bool, rest: seq<byte>)
    requires |x| == |y| < 0x1_0000 && Rest(data, p, PiecewisePayload(x, y, e, rest))
    ensures Yields(ReadPiecewise(data, p), data, PiecewiseLinear(x, y, e), rest)
  {
    var tail := [FlagByte(e)] + rest;
    U16Read(data, p, |x|, Doubles(x, Doubles(y, tail)));
    var q: nat := p + 2 + 16 * |x|;
    TablesRead(data, p + 2, x, y, tail);
    ByteRead(data, q, FlagByte(e), rest);
    assert Flag(data, q) == Ok((e, q + 1));
  }

  lemma LogicalRead(data: seq<byte>, p: nat, d: LogicalDesc, rest: seq<byte>)
    requires (d.Or? || d.And? || d.Xor?) ==> d.n < 0x1_0000
    requires Rest(data, p, LogicalPayload(d, rest))
    ensures Yields(ReadLogical(LogicalTag(d), data, p), data, LogicalBlock(d), rest)
  {
    if d.Or? || d.And? || d.Xor? {
      U16Read(data, p, d.n, [FlagByte(d.inverted)] + rest);
      ByteRead(data, p + 2, FlagByte(d.inverted), rest);
    }
  }

  lemma NonlinearRead(data: seq<byte>, p: nat, d: NonlinearDesc, rest: seq<byte>)
    requires d.HysteresisDeadband? ==> -0x80 <= d.ternary < 0x80
    requires Rest(data, p, NonlinearPayload(d, rest))
    ensures Yields(ReadNonlinear(NonlinearTag(d), data, p), data, NonlinearBlock(d), rest)
  {
    match d
    case Saturation(x1, x2, y1, y2) => F64sRead(data, p, [x1, x2, y1, y2], rest);
    case Deadband(x1, x2, k) => F64sRead(data, p, [x1, x2, k], rest);
    case SaturationDeadband(x1, x2, y1, y2, d1, d2) => F64sRead(data, p, [x1, x2, y1, y2, d1, d2], rest);
    case HysteresisDynamic(_, _, _) => HysteresisRead(data, p, d, rest);
    case Hysteresis(_, _, _, _, _) => HysteresisRead(data, p, d, rest);
    case HysteresisDeadband(_, _, _, _, _, _, _) => DeadbandStateRead(data, p, d, rest);
    case LowThreshold(x1, x2) => F64sRead(data, p, [x1, x2], rest);
    case HighThreshold(x1, x2) => F64sRead(data, p, [x1, x2], rest);
    case VariableHysteresis =>
    case VariableHysteresisPlus =>
    case VariableHysteresisMinus =>
  }

  lemma HysteresisRead(data: seq<byte>, p: nat, d: NonlinearDesc, rest: seq<byte>)
    requires (d.HysteresisDynamic? || d.Hysteresis?) && Rest(data, p, NonlinearPayload(d, rest))
    ensures Yields(ReadHysteresis(data, p), data, NonlinearBlock(d), rest)
  {
    var tail := [FlagByte(d.state)] + rest;
    if d.HysteresisDynamic? {
      ByteRead(data, p, 1, Doubles([d.y1, d.y2], tail));
      F64sRead(data, p + 1, [d.y1, d.y2], tail);
      ByteRead(data, p + 17, FlagByte(d.state), rest);
    } else {
      ByteRead(data, p, 0, Doubles([d.x1, d.x2, d.y1, d.y2], tail));
      F64sRead(data, p + 1, [d.x1, d.x2, d.y1, d.y2], tail);
      ByteRead(data, p + 33, FlagByte(d.state), rest);
    }
  }

  /** An `int8_t` written as its two's-complement byte reads back as itself. */
  lemma I8Read(data: seq<byte>, at: nat, v: int, rest: seq<byte>)
    requires -0x80 <= v < 0x80 && Rest(data, at, [I8Byte(v)] + rest)
    ensures I8(data, at) == Ok((v, at + 1)) && Rest(data, at + 1, rest)
  {
    ByteRead(data, at, I8Byte(v), rest);
  }

  lemma DeadbandStateRead(data: seq<byte>, p: nat, d: NonlinearDesc, rest: seq<byte>)
    requires d.HysteresisDeadband? && -0x80 <= d.ternary < 0x80 && Rest(data, p, NonlinearPayload(d, rest))
    ensures Yields(ReadNonlinear(24, data, p), data, NonlinearBlock(d), rest)
  {
    var vs := [d.x1, d.x2, d.y1, d.y2, d.dbX1, d.dbX2];
    F64sRead(data, p, vs, [I8Byte(d.ternary)] + rest);
    I8Read(data, p + 48, d.ternary, rest);
  }

  lemma OperatorRead(data: seq<byte>, p: nat, d: OperatorDesc, rest: seq<byte>)
    requires (d.Summator? ==> |d.coeffs| < 0x1_0000) && (d.Multiplier? ==> d.n < 0x1_0000)
    requires Rest(data, p, OperatorPayload(d, rest))
    ensures Yields(ReadOperator(OperatorTag(d), data, p), data, OperatorBlock(d), rest)
  {
    match d
    case Summator(c) => U16Read(data, p, |c|, Doubles(c, rest)); F64sRead(data, p + 2, c, rest);
    case Multiplier(n) => U16Read(data, p, n, rest);
    case Divider(v) => F64Read(data, p, v, rest);
    case AbsoluteValue =>
    case Sign =>
  }

  lemma PulseRead(data: seq<byte>, p: nat, d: PulseDesc, rest: seq<byte>)
    requires Rest(data, p, PulsePayload(d, rest))
    ensures Yields(ReadPulse(PulseTag(d), data, p), data, PulseBlock(d), rest)
  {
    match d
    case RisingPulse =>
    case FallingPulse =>
    case Pulse(m) => TimingRead(data, p, m, rest);
    case ShortPulse(m) => TimingRead(data, p, m, rest);
    case LongPulse(m) => TimingRead(data, p, m, rest);
    case DebounceOn(t) => F64Read(data, p, t, rest);
    case DebounceOff(t) => F64Read(data, p, t, rest);
    case DebounceOnOff(t) => F64Read(data, p, t, rest);
  }

  lemma SignalRead(data: seq<byte>, p: nat, d: SignalDesc, rest: seq<byte>)
    requires (d.IntInSignal? ==> d.n < 0x1_0000) && (d.Plot? ==> -0x80 <= d.ternary < 0x80)
    requires Rest(data, p, SignalPayload(d, rest))
    ensures Yields(ReadSignal(SignalTag(d), data, p), data, SignalBlock(d), rest)
  {
    match d
    case ExtInSignal(y0) => F64Read(data, p, y0, rest);
    case ExtOutSignal =>
    case IntInSignal(y0, n) => F64Read(data, p, y0, Le16(n, rest)); U16Read(data, p + 8, n, rest);
    case IntOutSignal =>
    case Plot(s) => I8Read(data, p, s, rest);
  }

  lemma SourceRead(data: seq<byte>, p: nat, d: SourceDesc, rest: seq<byte>)
    requires Rest(data, p, SourcePayload(d, rest))
    ensures Yields(ReadSource(SourceTag(d), data, p), data, SourceBlock(d), rest)
  {
    match d
    case Constant(y0) => F64Read(data, p, y0, rest);
    case Step(t, b, y0) => F64sRead(data, p, [t, b, y0], rest);
    case LinearSource(k, b) => F64sRead(data, p, [k, b], rest);
    case SinusSource(a, w, f) => F64sRead(data, p, [a, w, f], rest);
  }

  lemma TriggerRead(data: seq<byte>, p: nat, d: TriggerDesc, rest: seq<byte>)
    requires Rest(data, p, TriggerPayload(d, rest))
    ensures Yields(ReadTriggerBlock(TriggerTag(d), data, p), data, TriggerBlock(d), rest)
  {
    if d.RsTrigger? || d.SrTrigger? {
      ByteRead(data, p, FlagByte(d.state), rest);
    } else {
      ByteRead(data, p, EdgeByte(d.edge), [FlagByte(d.state)] + rest);
      ByteRead(data, p + 1, FlagByte(d.state), rest);
      EdgeRead(d.edge);
    }
  }

  /** Every entry reads back as the block it was written from, and the cursor lands on what follows it. */
  lemma WriteRead(data: seq<byte>, at: nat, d: BlockDesc, rest: seq<byte>)
    requires Encodable(d) && Rest(data, at, Write(d, rest))
    ensures Yields(ReadEntry(data, at), data, d, rest)
  {
    var p := at + 1;
    ByteRead(data, at, Tag(d), Payload(d, rest));
    match d
    case DelayBlock(x) => DelayRead(data, p, x, rest);
    case DynamicBlock(x) => DynamicRead(data, p, x, rest);
    case PiecewiseLinear(x, y, e) => PiecewiseRead(data, p, x, y, e, rest);
    case LogicalBlock(x) => LogicalRead(data, p, x, rest);
    case NonlinearBlock(x) => NonlinearRead(data, p, x, rest);
    case OperatorBlock(x) => OperatorRead(data, p, x, rest);
    case PulseBlock(x) => PulseRead(data, p, x, rest);
    case SignalBlock(x) => SignalRead(data, p, x, rest);
    case SourceBlock(x) => SourceRead(data, p, x, rest);
    case ToggleSwitch =>
    case TriggerBlock(x) => TriggerRead(data, p, x, rest);
  }

  lemma AllEncodableTail(ds: seq<BlockDesc>)
    requires AllEncodable(ds) && ds != []
    ensures AllEncodable(ds[1..])
  {
    forall i | 0 <= i < |ds[1..]|
      ensures Encodable(ds[1..][i])
    {
      assert ds[1..][i] == ds[i + 1];
    }
  }

  /** The first entry of a list reads back as its first block, and the cursor lands on the others. */
  lemma HeadRead(data: seq<byte>, at: nat, ds: seq<BlockDesc>, rest: seq<byte>) returns (next: nat)
    requires ds != [] && AllEncodable(ds) && AllEncodable(ds[1..]) && Rest(data, at, WriteAll(ds, rest))
    ensures ReadEntry(data, at) == Ok((Some(ds[0]), next)) && Rest(data, next, WriteAll(ds[1..], rest))
  {
    var tail := WriteAll(ds[1..], rest);
    WriteRead(data, at, ds[0], tail);
    next := |data| - |tail|;
  }

  /** Reading a written list is reading its first entry, then the others from where that entry ends. */
  lemma HeadStep(data: seq<byte>, at: nat, ds: seq<BlockDesc>, rest: seq<byte>) returns (next: nat)
    requires ds != [] && AllEncodable(ds) && Rest(data, at, WriteAll(ds, rest))
    ensures AllEncodable(ds[1..]) && Rest(data, next, WriteAll(ds[1..], rest))
    ensures Entries(|ds|, data, at) == Prefixed([ds[0]], Entries(|ds[1..]|, data, next))
  {
    AllEncodableTail(ds);
    next := HeadRead(data, at, ds, rest);
    EntriesStep(|ds|, data, at);
  }

  /** A list of entries reads back as the blocks it was written from, in order. */
  lemma {:induction false} EntriesRead(data: seq<byte>, at: nat, ds: seq<BlockDesc>, rest: seq<byte>)
    requires AllEncodable(ds) && Rest(data, at, WriteAll(ds, rest))
    ensures Entries(|ds|, data, at) == Ok((ds, |data| - |rest|)) && Rest(data, |data| - |rest|, rest)
    decreases |ds|
  {
    if ds != [] {
      var next := HeadStep(data, at, ds, rest);
      EntriesRead(data, next, ds[1..], rest);
      assert [ds[0]] + ds[1..] == ds;
    }
  }

  /** A whole description reads back as its blocks and its links; on such input `blocks_count` is right either way. */
  lemma ParseRoundTrip(ds: seq<BlockDesc>, links: seq<nat>)
    requires AllEncodable(ds) && Words32(links) && |links| % 2 == 0 && |links| / 2 < MaxLinks
    ensures Parse(|ds|, Describe(ds, links)) == Ok(Parsed(ds, |ds|, links))
    ensures ParseCounted(|ds|, Describe(ds, links)) == Ok(Parsed(ds, |ds|, links))
  {
    var data := Describe(ds, links);
    var n := |links| / 2;
    var words := Words(links, []);
    var tail := Le32(n, words);
    assert Rest(data, 0, data);
    EntriesRead(data, 0, ds, tail);
    U32Read(data, |data| - |tail|, n, words);
    U32sRead(data, |data| - |words|, links, []);
    assert 2 * n == |links|;
    assert Description(|ds|, data) == Ok((ds, links));
  }

  /**
   * The entries that push no block: an id without a case (`default`,
   * `Negate`, `ChangePulse`) consumes its own byte only, and a T-trigger
   * whose variant byte names no edge consumes its two payload bytes.
   */
  lemma SkippedEntry(data: seq<byte>, at: nat)
    requires ReadEntry(data, at).Ok?
    ensures ReadEntry(data, at).value.0.None? <==> !Known(data[at]) || (57 <= data[at] <= 59 && EdgeOf(data[at + 1]).None?)
    ensures !Known(data[at]) ==> ReadEntry(data, at).value.1 == at + 1
    ensures 57 <= data[at] <= 59 && EdgeOf(data[at + 1]).None? ==> ReadEntry(data, at).value.1 == at + 3
  {
    var t := data[at];
    if 57 <= t <= 59 {
      assert ReadTrigger(data, at + 1).Ok?;
    }
  }

  /**
   * `blocks_count` as written: one entry of id 0 and no links gives a
   * scheme that counts one block and holds none, so the loop of
   * `init_indices` over `blocks_count` reads past the end of `blocks`.
   */
  lemma CountOverstated()
    ensures Parse(1, [0, 0, 0, 0, 0]) == Ok(Parsed([], 1, []))
    ensures ParseCounted(1, [0, 0, 0, 0, 0]) == Ok(Parsed([], 0, []))
  {
    var data: seq<byte> := [0, 0, 0, 0, 0];
    assert ReadEntry(data, 0) == Ok((None, 1));
    assert Entries(1, data, 0) == Ok(([], 1));
    assert U32(data, 1) == Ok((0, 5));
    assert Description(1, data) == Ok(([], []));
  }
}
