/**
 * The engine's view of a block (include/block.h, src/block/block.cpp): its
 * typed port sets, the absolute numbering of its ports across types, its
 * flag bits, and the three behaviours the engine relies on (`init`,
 * `tryMakeConstant` and the Constant block's `init`).
 *
 * What a block computes lives in the per-kind modules (Logical, Triggers,
 * Delays, ...). Here `BlockKind` only tells apart the blocks whose `init` or
 * `tryMakeConstant` touch the ports table: Constant, whose `init` marks its
 * output, and Or, Xor, Summator, Greater and Divider, whose `tryMakeConstant`
 * folds the block when every input is constant. `OtherKind` stands for every
 * block that keeps the default `init` and `tryMakeConstant`.
 */
module Blocks {
  import opened Context
  import opened Config
  import opened Ports
  import opened Ordered
  import opened SignalPorts

  /** `Block::FlagType`. */
  const CONSTANT: bv32 := 1
  const CAN_UNTIE_LOOP: bv32 := 2
  const IMPLICIT_COMPUTE: bv32 := 4

  datatype BlockKind = ConstantKind(value: real) | OrKind | XorKind | SummatorKind | GreaterKind | DividerKind | OtherKind
  {
    /**
     * The kinds whose `tryMakeConstant` folds when every input is constant.
     * Greater and Divider test their two inputs in turn, which is the same scan.
     */
    predicate Folds()
    {
      OrKind? || XorKind? || SummatorKind? || GreaterKind? || DividerKind?
    }
  }

  /** `std::unordered_map<void*, PortInfo>`. */
  type PortsInfo = map<Ptr, PortInfo>

  /** What `ports_info[p]` reads: the stored entry or a default one. */
  function InfoAt(info: PortsInfo, p: Ptr): PortInfo
  {
    if p in info then info[p] else DefaultPortInfo
  }

  /** `ports_info[p]` as an lvalue inserts a default entry for a missing key; no entry changes value. */
  function Touch(info: PortsInfo, p: Ptr): (r: PortsInfo)
    ensures p in r && r.Keys == info.Keys + {p}
    ensures forall q :: InfoAt(r, q) == InfoAt(info, q)
  {
    if p in info then info else info[p := DefaultPortInfo]
  }

  /** `ports_info[p].is_constant = true`. */
  function MarkConstant(info: PortsInfo, p: Ptr): (r: PortsInfo)
    ensures r.Keys == info.Keys + {p}
    ensures InfoAt(r, p) == InfoAt(info, p).(isConstant := true)
    ensures forall q :: q != p ==> InfoAt(r, q) == InfoAt(info, q)
  {
    info[p := InfoAt(info, p).(isConstant := true)]
  }

  /**
   * The scan of `tryMakeConstant`: read `ports_info[input].is_constant` for
   * each input in turn and stop at the first one that is not constant. Each
   * read inserts a default entry for an input not yet in the table.
   */
  function ScanConstant(info: PortsInfo, ins: seq<Ptr>): (r: (bool, PortsInfo))
    ensures r.0 <==> forall k :: 0 <= k < |ins| ==> InfoAt(info, ins[k]).isConstant
    ensures forall q :: InfoAt(r.1, q) == InfoAt(info, q)
    ensures info.Keys <= r.1.Keys && forall q :: q in r.1 && q !in info ==> q in ins
    decreases |ins|
  {
    if ins == [] then (true, info)
    else
      var touched := Touch(info, ins[0]);
      if !touched[ins[0]].isConstant then (false, touched)
      else ScanConstant(touched, ins[1..])
  }

  /**
   * `tryMakeConstant` of a block of the given kind with the given real
   * inputs and first real output: Or, Xor, Summator, Greater and Divider fold
   * when every input is marked constant, and then mark their output; every
   * other kind refuses.
   */
  function FoldSpec(kind: BlockKind, ins: seq<Ptr>, out0: Ptr, info: PortsInfo): (r: (bool, PortsInfo))
  {
    if kind.Folds() then
      var (all, scanned) := ScanConstant(info, ins);
      if all then (true, MarkConstant(scanned, out0)) else (false, scanned)
    else (false, info)
  }

  /** `init` as the ports table sees it: a Constant marks its output; the default `init` is a `compute`, which leaves the table alone. */
  function InitSpec(kind: BlockKind, out0: Ptr, info: PortsInfo): PortsInfo
  {
    if kind.ConstantKind? then MarkConstant(info, out0) else info
  }

  /** Folding succeeds exactly for a folding kind whose inputs are all constant; it then marks the output, and on failure no entry changes. */
  lemma FoldSpecMeaning(kind: BlockKind, ins: seq<Ptr>, out0: Ptr, info: PortsInfo)
    ensures var (ok, r) := FoldSpec(kind, ins, out0, info);
      (ok <==> kind.Folds() && forall k :: 0 <= k < |ins| ==> InfoAt(info, ins[k]).isConstant) &&
      (ok ==> InfoAt(r, out0).isConstant && forall q :: q != out0 ==> InfoAt(r, q) == InfoAt(info, q)) &&
      (!ok ==> forall q :: InfoAt(r, q) == InfoAt(info, q))
  {
  }

  /** A Constant never folds: with no override its `tryMakeConstant` is the default `false`. */
  lemma ConstantNeverFolds(value: real, ins: seq<Ptr>, out0: Ptr, info: PortsInfo)
    ensures FoldSpec(ConstantKind(value), ins, out0, info) == (false, info)
    ensures InfoAt(InitSpec(ConstantKind(value), out0, info), out0).isConstant
  {
  }

  /** `flags` with the CONSTANT bit flipped when `flip`: what a successful `tryMakeConstant` does. */
  function Flipped(flags: bv32, flip: bool): bv32
  {
    if flip then flags ^ CONSTANT else flags
  }

  /** Toggling a flag twice restores the flags. */
  lemma ToggleTwice(flags: bv32, flag: bv32)
    ensures (flags ^ flag) ^ flag == flags
  {
  }

  /** The three flag tests read three different bits: toggling one test's bit flips that test only. */
  lemma FlagBitsIndependent(flags: bv32)
    ensures (flags ^ CONSTANT) & CONSTANT != flags & CONSTANT
    ensures (flags ^ CONSTANT) & CAN_UNTIE_LOOP == flags & CAN_UNTIE_LOOP
    ensures (flags ^ CONSTANT) & IMPLICIT_COMPUTE == flags & IMPLICIT_COMPUTE
    ensures (flags ^ CAN_UNTIE_LOOP) & CONSTANT == flags & CONSTANT
    ensures (flags ^ CAN_UNTIE_LOOP) & CAN_UNTIE_LOOP != flags & CAN_UNTIE_LOOP
  {
  }

  /** The absolute input numbering of one block: for each type in order, `(type, 0)` … `(type, count - 1)`. */
  function InputEntries(shape: map<TypeId, nat>, types: seq<TypeId>): seq<(TypeId, nat)>
    decreases |types|
  {
    if types == [] then []
    else
      var t := types[|types| - 1];
      InputEntries(shape, types[..|types| - 1]) + seq(CountOf(shape, t), i => (t, i))
  }

  /** A count map read with `operator[]`: zero for a missing type. */
  function CountOf(shape: map<TypeId, nat>, t: TypeId): nat
  {
    if t in shape then shape[t] else 0
  }

  function SumCounts(shape: map<TypeId, nat>, types: seq<TypeId>): nat
    decreases |types|
  {
    if types == [] then 0 else SumCounts(shape, types[..|types| - 1]) + CountOf(shape, types[|types| - 1])
  }

  /** Lexicographic order on absolute input entries. */
  predicate EntryLess(a: (TypeId, nat), b: (TypeId, nat))
  {
    a.0 < b.0 || (a.0 == b.0 && a.1 < b.1)
  }

  /** Every entry names an input that exists: a listed type and an index below its count. */
  predicate EntriesWithin(shape: map<TypeId, nat>, types: seq<TypeId>, es: seq<(TypeId, nat)>)
  {
    forall k :: 0 <= k < |es| ==> es[k].0 in types && es[k].1 < CountOf(shape, es[k].0)
  }

  predicate EntriesAscending(es: seq<(TypeId, nat)>)
  {
    forall j, k :: 0 <= j < k < |es| ==> EntryLess(es[j], es[k])
  }

  /**
   * There is one entry per input, every entry names an existing input of a
   * listed type, and for ascending types the entries ascend, so no input is
   * numbered twice.
   */
  lemma {:induction false} InputEntriesShape(shape: map<TypeId, nat>, types: seq<TypeId>)
    ensures |InputEntries(shape, types)| == SumCounts(shape, types)
    ensures EntriesWithin(shape, types, InputEntries(shape, types))
    ensures Increasing(types) ==> EntriesAscending(InputEntries(shape, types))
    decreases |types|
  {
    if types != [] {
      var front := types[..|types| - 1];
      var t := types[|types| - 1];
      InputEntriesShape(shape, front);
      var prev := InputEntries(shape, front);
      var tail := seq(CountOf(shape, t), i => (t, i));
      assert InputEntries(shape, types) == prev + tail;
      forall k | 0 <= k < |prev|
        ensures prev[k].0 in types
      {
        assert prev[k].0 in front;
      }
      if Increasing(types) {
        assert Increasing(front);
        forall j, k | 0 <= j < k < |prev + tail|
          ensures EntryLess((prev + tail)[j], (prev + tail)[k])
        {
          if k >= |prev| && j < |prev| {
            var a := prev[j].0;
            var i :| 0 <= i < |front| && front[i] == a;
            assert a < t;
          }
        }
      }
    }
  }

  /** The addresses of `count` outputs of `size` bytes each starting at `base`. */
  function OutputView(base: Ptr, size: nat, count: nat): (r: seq<Ptr>)
    ensures |r| == count
  {
    seq(count, i requires 0 <= i => Advance(base, i * size))
  }

  /** The absolute output list of one block: each type's output addresses, types in order. */
  function OutputEntries(views: map<TypeId, seq<Ptr>>, types: seq<TypeId>): seq<Ptr>
    decreases |types|
  {
    if types == [] then []
    else
      var t := types[|types| - 1];
      OutputEntries(views, types[..|types| - 1]) + (if t in views then views[t] else [])
  }

  /** The loop of `initIndices` over one type's inputs. */
  method ListInputs(t: TypeId, count: nat) returns (r: seq<(TypeId, nat)>)
    ensures r == seq(count, j => (t, j))
  {
    r := [];
    var i := 0;
    while i < count
      invariant 0 <= i <= count
      invariant r == seq(i, j => (t, j))
    {
      r := r + [(t, i)];
      i := i + 1;
    }
  }

  /** The loop of `initIndices` over one type's outputs. */
  method ListOutputs(ports: PortSet) returns (r: seq<Ptr>)
    ensures r == OutputView(ports.outputs, ports.typeSize, ports.outputCount)
  {
    r := [];
    var i := 0;
    while i < ports.outputCount
      invariant 0 <= i <= ports.outputCount
      invariant r == OutputView(ports.outputs, ports.typeSize, i)
    {
      r := r + [ports.GetOutputPort(i)];
      i := i + 1;
    }
  }

  /** The count and address maps of a family of port sets. */
  function InputShapeOf(sets: map<TypeId, PortSet>): map<TypeId, nat>
  {
    map t | t in sets :: sets[t].inputCount
  }

  function ViewsOf(sets: map<TypeId, PortSet>): map<TypeId, seq<Ptr>>
    reads set t | t in sets :: sets[t]
  {
    map t | t in sets :: OutputView(sets[t].outputs, sets[t].typeSize, sets[t].outputCount)
  }

  /** Every absolute input entry names an existing input slot. */
  predicate EntriesValid(sets: map<TypeId, PortSet>, es: seq<(TypeId, nat)>)
  {
    forall k :: 0 <= k < |es| ==> es[k].0 in sets && es[k].1 < sets[es[k].0].inputCount
  }

  lemma EntriesValidAppend(sets: map<TypeId, PortSet>, a: seq<(TypeId, nat)>, b: seq<(TypeId, nat)>)
    requires EntriesValid(sets, a) && EntriesValid(sets, b)
    ensures EntriesValid(sets, a + b)
  {
    forall k | 0 <= k < |a + b|
      ensures (a + b)[k].0 in sets && (a + b)[k].1 < sets[(a + b)[k].0].inputCount
    {
      if k >= |a| {
        assert (a + b)[k] == b[k - |a|];
      }
    }
  }

  /** Every port set sits under its own type and has its declared number of input slots. */
  predicate SetsValid(sets: map<TypeId, PortSet>)
  {
    forall t :: t in sets ==> sets[t].typeHash == t && sets[t].Valid()
  }

  /** The loop of `initIndices` over the types in order, gathering what it appends. */
  method CollectEntries(sets: map<TypeId, PortSet>, types: seq<TypeId>) returns (ins: seq<(TypeId, nat)>, outs: seq<Ptr>)
    requires forall k :: 0 <= k < |types| ==> types[k] in sets
    ensures ins == InputEntries(InputShapeOf(sets), types)
    ensures outs == OutputEntries(ViewsOf(sets), types)
    ensures EntriesValid(sets, ins)
  {
    ins, outs := [], [];
    var k := 0;
    while k < |types|
      invariant 0 <= k <= |types|
      invariant ins == InputEntries(InputShapeOf(sets), types[..k])
      invariant outs == OutputEntries(ViewsOf(sets), types[..k])
    {
      var t := types[k];
      assert types[..k + 1][..k] == types[..k];
      var typeIns := ListInputs(t, sets[t].inputCount);
      var typeOuts := ListOutputs(sets[t]);
      ins := ins + typeIns;
      outs := outs + typeOuts;
      k := k + 1;
    }
    assert types[..|types|] == types;
    InputEntriesShape(InputShapeOf(sets), types);
  }

  /** What `initIndices` appends for the port sets `sets`, types in ascending order. */
  method BlockEntries(sets: map<TypeId, PortSet>) returns (ins: seq<(TypeId, nat)>, outs: seq<Ptr>)
    ensures ins == InputEntries(InputShapeOf(sets), SortedInts(sets.Keys))
    ensures outs == OutputEntries(ViewsOf(sets), SortedInts(sets.Keys))
    ensures EntriesValid(sets, ins)
  {
    var types := SortedInts(sets.Keys);
    SortedIntsFacts(sets.Keys);
    ins, outs := CollectEntries(sets, types);
  }

  /** The global block counter: `inline static size count = -1` and `id(++count)`, modulo 2^64. */
  const SizeModulus: nat := 0x1_0000_0000_0000_0000

  function NextId(count: nat): nat
  {
    (count + 1) % SizeModulus
  }

  /** The counter after `n` blocks were constructed. */
  function IdAfter(n: nat): nat
  {
    if n == 0 then SizeSentinel else NextId(IdAfter(n - 1))
  }

  /** The `n`-th block constructed (counting from 1) gets id `n - 1`: ids start at 0 and go up by one. */
  lemma {:induction false} IdsCountFromZero(n: nat)
    requires 1 <= n <= SizeModulus
    ensures IdAfter(n) == n - 1
  {
    if n > 1 {
      IdsCountFromZero(n - 1);
    }
  }

  class IdCounter {
    var count: nat

    constructor()
      ensures count == SizeSentinel
    {
      count := SizeSentinel;
    }

    method Next() returns (id: nat)
      modifies this
      ensures id == NextId(old(count)) && count == id
    {
      count := NextId(count);
      id := count;
    }
  }

  class Block {
    const id: nat
    const kind: BlockKind
    const signals: Option<Signals>
    var flags: bv32
    var portsBases: map<TypeId, PortSet>
    var absoluteInputPorts: seq<(TypeId, nat)>
    var absoluteOutputPorts: seq<Ptr>

    /** The objects this block owns: itself, its port sets, their input vectors and its signal slots. */
    ghost var Repr: set<object>

    /**
     * The block owns its port sets and their input vectors, each set sits
     * under its own type with its declared number of inputs, different types
     * have different input vectors, every absolute entry names an existing
     * input, and a Constant or a folding kind has a real port set with an output.
     */
    ghost predicate Valid()
      reads this
    {
      this in Repr &&
      (forall t :: t in portsBases ==> portsBases[t] in Repr && portsBases[t].inputs in Repr) &&
      (signals.Some? ==> signals.value in Repr) &&
      SetsValid(portsBases) &&
      (forall t, u :: t in portsBases && u in portsBases && t != u ==> portsBases[t].inputs != portsBases[u].inputs) &&
      EntriesValid(portsBases, absoluteInputPorts) &&
      (!kind.OtherKind? ==> RealType in portsBases && portsBases[RealType].outputCount >= 1)
    }

    /** The registered port sets, which `outputs(memory)` allocates. */
    ghost function Sets(): set<object>
      reads this
    {
      set t | t in portsBases :: portsBases[t]
    }

    /** Each type's input slots. */
    ghost function Wiring(): (w: map<TypeId, seq<Ptr>>)
      reads this, Repr
      requires Valid()
      ensures w.Keys == portsBases.Keys
    {
      map t | t in portsBases :: portsBases[t].inputs[..]
    }

    /** Each type's output base address. */
    ghost function Bases(): (b: map<TypeId, Ptr>)
      reads this, Repr
      requires Valid()
      ensures b.Keys == portsBases.Keys
    {
      map t | t in portsBases :: portsBases[t].outputs
    }

    /** Each type's output addresses as `getOutputPort` gives them. */
    function Views(): (v: map<TypeId, seq<Ptr>>)
      reads this, Repr
      requires Valid()
      ensures v.Keys == portsBases.Keys
    {
      ViewsOf(portsBases)
    }

    function InputShape(): (m: map<TypeId, nat>)
      reads this
      ensures m.Keys == portsBases.Keys
    {
      InputShapeOf(portsBases)
    }

    function OutputShape(): (m: map<TypeId, nat>)
      reads this
      ensures m.Keys == portsBases.Keys
    {
      map t | t in portsBases :: portsBases[t].outputCount
    }

    /** The real inputs and first real output, which Constant and the folding kinds use. */
    function FoldInputs(): seq<Ptr>
      reads this, Repr
      requires Valid()
    {
      if RealType in portsBases then portsBases[RealType].inputs[..] else []
    }

    function FoldOutput(): Ptr
      reads this, Repr
      requires Valid()
    {
      if RealType in portsBases then portsBases[RealType].GetOutputPort(0) else Null
    }

    /**
     * A block as the constructor of a concrete block leaves it: a fresh id
     * from the counter, its first port set registered, the CONSTANT flag for
     * a Constant and CAN_UNTIE_LOOP for a block that can break a loop.
     */
    constructor(counter: IdCounter, kind: BlockKind, untie: bool, first: PortSet, signals: Option<Signals>)
      requires first.Valid()
      requires !kind.OtherKind? ==> first.typeHash == RealType && first.outputCount >= 1
      modifies counter
      ensures Valid()
      ensures id == counter.count && counter.count == NextId(old(counter.count))
      ensures this.kind == kind && this.signals == signals
      ensures portsBases == map[first.typeHash := first]
      ensures Repr == {this, first, first.inputs} + (if signals.Some? then {signals.value as object} else {})
      ensures absoluteInputPorts == [] && absoluteOutputPorts == []
      ensures flags == (if kind.ConstantKind? then CONSTANT else 0) ^ (if untie then CAN_UNTIE_LOOP else 0)
    {
      var newId := counter.Next();
      id := newId;
      this.kind := kind;
      this.signals := signals;
      flags := (if kind.ConstantKind? then CONSTANT else 0) ^ (if untie then CAN_UNTIE_LOOP else 0);
      portsBases := map[first.typeHash := first];
      Repr := {this, first, first.inputs} + (if signals.Some? then {signals.value as object} else {});
      absoluteInputPorts := [];
      absoluteOutputPorts := [];
    }

    /**
     * `register_ports`: a port set registered under a type already present
     * replaces the earlier one. It is protected and only called from the
     * constructors, before any absolute index exists.
     */
    method RegisterPorts(base: PortSet)
      requires Valid() && base.Valid() && base !in Repr && base.inputs !in Repr
      requires absoluteInputPorts == [] && absoluteOutputPorts == []
      requires !kind.OtherKind? && base.typeHash == RealType ==> base.outputCount >= 1
      modifies this`portsBases, this`Repr
      ensures Valid()
      ensures portsBases == old(portsBases)[base.typeHash := base] && Repr == old(Repr) + {base, base.inputs}
    {
      portsBases := portsBases[base.typeHash := base];
      Repr := Repr + {base, base.inputs};
    }

    /** `inputs()`: the input count of every registered type. */
    method InputCounts() returns (res: map<TypeId, nat>)
      ensures res == InputShape()
    {
      res := map[];
      var rest := portsBases.Keys;
      while rest != {}
        invariant rest <= portsBases.Keys
        invariant res == map t | t in portsBases.Keys - rest :: portsBases[t].inputCount
        decreases |rest|
      {
        if forall u :: u !in rest {
          assert false;
        }
        var t :| t in rest;
        res := res[t := portsBases[t].inputCount];
        rest := rest - {t};
      }
    }

    /** `outputs()`: the output count of every registered type. */
    method OutputCounts() returns (res: map<TypeId, nat>)
      ensures res == OutputShape()
    {
      res := map[];
      var rest := portsBases.Keys;
      while rest != {}
        invariant rest <= portsBases.Keys
        invariant res == map t | t in portsBases.Keys - rest :: portsBases[t].outputCount
        decreases |rest|
      {
        if forall u :: u !in rest {
          assert false;
        }
        var t :| t in rest;
        res := res[t := portsBases[t].outputCount];
        rest := rest - {t};
      }
    }

    /** `outputs(memory)`: every port set is allocated at `memory[type]`, null for a type the map lacks. */
    method AssignOutputs(memory: map<TypeId, Ptr>)
      requires Valid()
      modifies Sets()
      ensures unchanged(this) && Valid() && Wiring() == old(Wiring())
      ensures forall t :: t in portsBases ==> portsBases[t].outputs == (if t in memory then memory[t] else Null)
    {
      var rest := portsBases.Keys;
      while rest != {}
        invariant rest <= portsBases.Keys
        invariant unchanged(this) && Valid() && Wiring() == old(Wiring())
        invariant forall t :: t in portsBases && t !in rest ==> portsBases[t].outputs == (if t in memory then memory[t] else Null)
        decreases |rest|
      {
        if forall u :: u !in rest {
          assert false;
        }
        var t :| t in rest;
        AllocateOne(t, if t in memory then memory[t] else Null);
        rest := rest - {t};
      }
    }

    /** One step of `outputs(memory)`: the port set of type `t` is allocated at `p`, the others keep theirs. */
    method AllocateOne(t: TypeId, p: Ptr)
      requires Valid() && t in portsBases
      modifies portsBases[t]
      ensures unchanged(this) && Valid() && Wiring() == old(Wiring())
      ensures portsBases[t].outputs == p
      ensures forall u :: u in portsBases && u != t ==> portsBases[u].outputs == old(portsBases[u].outputs)
    {
      portsBases[t].Allocate(p);
    }

    /**
     * `initIndices`: append, type by type in ascending hash order, the
     * entries `(type, i)` of its inputs and the addresses of its outputs. The
     * lists are never cleared, so a second call appends a second copy.
     */
    method InitIndices()
      requires Valid()
      modifies this`absoluteInputPorts, this`absoluteOutputPorts
      ensures Valid()
      ensures absoluteInputPorts == old(absoluteInputPorts + InputEntries(InputShape(), SortedInts(portsBases.Keys)))
      ensures absoluteOutputPorts == old(absoluteOutputPorts + OutputEntries(Views(), SortedInts(portsBases.Keys)))
    {
      var ins, outs := BlockEntries(portsBases);
      EntriesValidAppend(portsBases, absoluteInputPorts, ins);
      absoluteInputPorts := absoluteInputPorts + ins;
      absoluteOutputPorts := absoluteOutputPorts + outs;
    }

    /** `setInputPortAbsolute(index, port)`: rewire the input that absolute entry `index` names. */
    method SetInputPortAbsolute(index: nat, port: Ptr)
      requires Valid() && index < |absoluteInputPorts|
      modifies portsBases[absoluteInputPorts[index].0].inputs
      ensures Valid() && Bases() == old(Bases())
      ensures GetInputPortAbsolute(index) == port
      ensures var (t, i) := absoluteInputPorts[index]; Wiring() == old(Wiring())[t := old(Wiring())[t][i := port]]
    {
      var (t, i) := absoluteInputPorts[index];
      ghost var w := Wiring();
      portsBases[t].SetInputPort(i, port);
      assert forall u :: u in portsBases && u != t ==> portsBases[u].inputs[..] == w[u];
      assert Wiring() == w[t := w[t][i := port]];
    }

    /**
     * `setInputPortRelative(type, index, port)`: `ports_bases.at(type)` throws
     * for a type the block does not have, which `ok == false` reports.
     */
    method SetInputPortRelative(t: TypeId, index: nat, port: Ptr) returns (ok: bool)
      requires Valid() && (t in portsBases ==> index < portsBases[t].inputCount)
      modifies if t in portsBases then {portsBases[t].inputs} else {}
      ensures Valid() && Bases() == old(Bases())
      ensures ok <==> t in portsBases
      ensures ok ==> Wiring() == old(Wiring())[t := old(Wiring())[t][index := port]]
      ensures !ok ==> Wiring() == old(Wiring())
    {
      if t !in portsBases {
        return false;
      }
      ghost var w := Wiring();
      portsBases[t].SetInputPort(index, port);
      assert forall u :: u in portsBases && u != t ==> portsBases[u].inputs[..] == w[u];
      assert Wiring() == w[t := w[t][index := port]];
      ok := true;
    }

    /** `getInputPortAbsolute(index)`. */
    function GetInputPortAbsolute(index: nat): (p: Ptr)
      reads this, Repr
      requires Valid() && index < |absoluteInputPorts|
      ensures var (t, i) := absoluteInputPorts[index]; t in Wiring() && i < |Wiring()[t]| && p == Wiring()[t][i]
    {
      var (t, i) := absoluteInputPorts[index];
      portsBases[t].inputs[i]
    }

    /** `getOutputPortAbsolute(index)`. */
    function GetOutputPortAbsolute(index: nat): Ptr
      reads this
      requires index < |absoluteOutputPorts|
    {
      absoluteOutputPorts[index]
    }

    /**
     * `getOutputPortRelative(type, index)`: the `index`-th output of that
     * type's port set, or nothing where `ports_bases.at(type)` throws.
     */
    function GetOutputPortRelative(t: TypeId, index: nat): (p: Option<Ptr>)
      reads this, Repr
      requires Valid()
      ensures p.Some? <==> t in portsBases
      ensures t in portsBases && index < portsBases[t].outputCount ==> p == Some(Views()[t][index])
    {
      if t in portsBases then Some(portsBases[t].GetOutputPort(index)) else None
    }

    /** `toggleFlag(flag)`. */
    method ToggleFlag(flag: bv32)
      modifies this`flags
      ensures flags == old(flags) ^ flag
    {
      flags := flags ^ flag;
    }

    predicate IsConstant()
      reads this
    {
      flags & CONSTANT != 0
    }

    predicate CanUntieLoop()
      reads this
    {
      flags & CAN_UNTIE_LOOP != 0
    }

    predicate IsImplicitCompute()
      reads this
    {
      flags & IMPLICIT_COMPUTE != 0
    }

    /** `init`, as far as the ports table is concerned. */
    method Init(info: PortsInfo) returns (r: PortsInfo)
      requires Valid()
      ensures r == InitSpec(kind, FoldOutput(), info)
    {
      if kind.ConstantKind? {
        r := MarkConstant(info, portsBases[RealType].GetOutputPort(0));
      } else {
        r := info;
      }
    }

    /** `tryMakeConstant`; the version of the folding kinds scans the inputs and, on success, marks the output and toggles CONSTANT. */
    method TryMakeConstant(info: PortsInfo) returns (ok: bool, r: PortsInfo)
      requires Valid()
      modifies this`flags
      ensures (ok, r) == FoldSpec(kind, FoldInputs(), FoldOutput(), info)
      ensures flags == Flipped(old(flags), ok)
    {
      if !kind.Folds() {
        return false, info;
      }
      var ports := portsBases[RealType];
      r := info;
      var i := 0;
      while i < ports.inputCount
        invariant 0 <= i <= ports.inputCount
        invariant ScanConstant(info, ports.inputs[..]) == ScanConstant(r, ports.inputs[i..])
        invariant flags == old(flags)
      {
        r := Touch(r, ports.inputs[i]);
        if !r[ports.inputs[i]].isConstant {
          return false, r;
        }
        assert ports.inputs[i..][1..] == ports.inputs[i + 1..];
        i := i + 1;
      }
      r := MarkConstant(r, ports.GetOutputPort(0));
      ToggleFlag(CONSTANT);
      ok := true;
    }
  }
}
