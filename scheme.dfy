/**
 * The calculation scheme (include/nrcki/scheme.h, the files of src/scheme): the
 * blocks in creation order, the output arenas and the four port indexes
 * built over them, the links, the calculation order, the clock, the
 * external signal buffers and the table of frozen inputs.
 *
 * Blocks are held by index: `sorted_blocks` and the other block lists are
 * lists of positions in `blocks`. The engine does not evaluate a block's
 * `compute`; it records, in the ghost trace `calls`, which block it asks
 * to initialise or compute and at what time.
 */
module Engine {
  import opened Context
  import opened Config
  import opened Ports
  import opened Ordered
  import opened SignalPorts
  import opened Blocks
  import opened Layout
  import opened Indexing
  import opened Schedule
  import opened Wires
  import opened Freezing
  import opened Links

  // ----- What the scheme reads of its blocks -----

  function BlockSet(bs: seq<Block>): set<Block>
  {
    set b | b in bs
  }

  /** Every entry of `s` is below `n`: names one of `n` blocks. */
  predicate Bounded(s: seq<nat>, n: nat)
  {
    forall k :: 0 <= k < |s| ==> s[k] < n
  }

  lemma BoundedAppend(s: seq<nat>, b: nat, n: nat)
    requires Bounded(s, n) && b < n
    ensures Bounded(s + [b], n)
  {
  }

  /**
   * One turn of the pass files block `b`: a folded block joins none of the
   * lists, another joins `active` and then `untie` or `cant` by its flag.
   */
  function Sift(active: seq<nat>, untie: seq<nat>, cant: seq<nat>, b: nat, ok: bool, canUntie: bool, ghost n: nat): (r: (seq<nat>, seq<nat>, seq<nat>))
    requires Bounded(active, n) && Bounded(untie, n) && Bounded(cant, n) && b < n
    ensures Bounded(r.0, n) && Bounded(r.1, n) && Bounded(r.2, n)
    ensures r.0 == if ok then active else active + [b]
    ensures r.1 == if !ok && canUntie then untie + [b] else untie
    ensures r.2 == if !ok && !canUntie then cant + [b] else cant
  {
    if ok then (active, untie, cant)
    else if canUntie then (active + [b], untie + [b], cant)
    else (active + [b], untie, cant + [b])
  }

  lemma BoundedConcat(s: seq<nat>, t: seq<nat>, n: nat)
    requires Bounded(s, n) && Bounded(t, n)
    ensures Bounded(s + t, n)
  {
  }

  /** The compute order of a pass names blocks when its parts do. */
  lemma BoundedOrder(previous: seq<nat>, untie: seq<nat>, cant: seq<nat>, n: nat)
    requires Bounded(previous, n) && Bounded(untie, n) && Bounded(cant, n)
    ensures Bounded(Reverse(previous + untie) + cant, n)
  {
    BoundedConcat(previous, untie, n);
    ReverseFacts(previous + untie);
  }

  /** Every block is valid and lies in `repr` together with what it owns. */
  ghost predicate Held(bs: seq<Block>, repr: set<object>)
    reads BlockSet(bs)
  {
    forall i :: 0 <= i < |bs| ==> bs[i] in repr && bs[i].Repr <= repr && bs[i].Valid()
  }

  /** The input vectors of all blocks. */
  ghost function InputVectors(bs: seq<Block>): set<array<Ptr>>
    reads BlockSet(bs)
  {
    set b, t | b in bs && t in b.portsBases :: b.portsBases[t].inputs
  }

  /** The signal slots of all blocks that have them. */
  function SignalObjects(bs: seq<Block>): set<Signals>
  {
    set b | b in bs && b.signals.Some? :: b.signals.value
  }

  function OutputShapes(bs: seq<Block>): (r: seq<Shape>)
    reads BlockSet(bs)
    ensures |r| == |bs|
  {
    seq(|bs|, i reads BlockSet(bs) requires 0 <= i < |bs| => bs[i].OutputShape())
  }

  function InputShapes(bs: seq<Block>): (r: seq<Shape>)
    reads BlockSet(bs)
    ensures |r| == |bs|
  {
    seq(|bs|, i reads BlockSet(bs) requires 0 <= i < |bs| => bs[i].InputShape())
  }

  /** Every block's `absolute_input_ports`. */
  function InputLists(bs: seq<Block>): (r: seq<seq<(TypeId, nat)>>)
    reads BlockSet(bs)
    ensures |r| == |bs|
  {
    seq(|bs|, i reads BlockSet(bs) requires 0 <= i < |bs| => bs[i].absoluteInputPorts)
  }

  /** Every block's `absolute_output_ports`. */
  function OutputLists(bs: seq<Block>): (r: seq<seq<Ptr>>)
    reads BlockSet(bs)
    ensures |r| == |bs|
  {
    seq(|bs|, i reads BlockSet(bs) requires 0 <= i < |bs| => bs[i].absoluteOutputPorts)
  }

  function FlagsOf(bs: seq<Block>): (r: seq<bv32>)
    reads BlockSet(bs)
    ensures |r| == |bs| && forall i :: 0 <= i < |bs| ==> r[i] == bs[i].flags
  {
    seq(|bs|, i reads BlockSet(bs) requires 0 <= i < |bs| => bs[i].flags)
  }

  /** Each block's element size per type. */
  function SizesOf(bs: seq<Block>): (r: seq<map<TypeId, nat>>)
    reads BlockSet(bs)
    ensures |r| == |bs|
  {
    seq(|bs|, i reads BlockSet(bs) requires 0 <= i < |bs| => map t | t in bs[i].portsBases :: bs[i].portsBases[t].typeSize)
  }

  /** The input wiring of every block. */
  ghost function WiringsOf(bs: seq<Block>, repr: set<object>): (r: seq<Wiring>)
    requires Held(bs, repr)
    reads BlockSet(bs), repr
    ensures |r| == |bs|
  {
    seq(|bs|, i reads repr requires 0 <= i < |bs| && bs[i] in repr && bs[i].Repr <= repr && bs[i].Valid() => bs[i].Wiring())
  }

  /** The output base address of every block and type. */
  ghost function BasesOf(bs: seq<Block>, repr: set<object>): (r: seq<map<TypeId, Ptr>>)
    requires Held(bs, repr)
    reads BlockSet(bs), repr
    ensures |r| == |bs|
  {
    seq(|bs|, i reads repr requires 0 <= i < |bs| && bs[i] in repr && bs[i].Repr <= repr && bs[i].Valid() => bs[i].Bases())
  }

  /** What the ordering pass reads of every block. */
  ghost function SnapsOf(bs: seq<Block>, repr: set<object>): (r: seq<Snap>)
    requires Held(bs, repr)
    reads BlockSet(bs), repr
    ensures |r| == |bs|
  {
    seq(|bs|, i reads repr requires 0 <= i < |bs| && bs[i] in repr && bs[i].Repr <= repr && bs[i].Valid() => Snap(bs[i].kind, bs[i].FoldInputs(), bs[i].FoldOutput(), bs[i].CanUntieLoop()))
  }

  /** `sync * Context::sec` converted to `types::time`: the fraction is cut off, toward zero. */
  function Truncate(x: real): int
  {
    if x >= 0.0 then x.Floor else -((-x).Floor)
  }

  /** The cut never moves a value by a whole unit or across zero. */
  lemma TruncateFacts(x: real)
    ensures x >= 0.0 ==> 0.0 <= Truncate(x) as real <= x < Truncate(x) as real + 1.0
    ensures x < 0.0 ==> Truncate(x) as real - 1.0 < x <= Truncate(x) as real <= 0.0
    ensures Truncate(-x) == -Truncate(x)
  {
  }

  // ----- External signals -----

  /** A block's signal slots: input pointer and offset, output pointer and offset. */
  type SlotState = (Option<nat>, nat, Option<nat>, nat)

  ghost function SlotsOf(s: Signals): SlotState
    reads s
  {
    (s.inputs, s.inputOffset, s.outputs, s.outputOffset)
  }

  /** Every block's signal slots; a block without signals has the slots of a fresh `Signals`. */
  ghost function SignalStates(bs: seq<Block>): (r: seq<SlotState>)
    reads SignalObjects(bs)
    ensures |r| == |bs|
  {
    seq(|bs|, j reads SignalObjects(bs) requires 0 <= j < |bs| =>
      if bs[j].signals.Some? then (assert bs[j] in bs; SlotsOf(bs[j].signals.value)) else (None, 0, None, 0))
  }

  /** How many buffer values each block reads. */
  function SignalInputCounts(bs: seq<Block>): (r: seq<nat>)
    ensures |r| == |bs|
  {
    seq(|bs|, i requires 0 <= i < |bs| => if bs[i].signals.Some? then bs[i].signals.value.numInputs else 0)
  }

  /** How many buffer values each block writes. */
  function SignalOutputCounts(bs: seq<Block>): (r: seq<nat>)
    ensures |r| == |bs|
  {
    seq(|bs|, i requires 0 <= i < |bs| => if bs[i].signals.Some? then bs[i].signals.value.numOutputs else 0)
  }

  function Total(ns: seq<nat>): nat
    decreases |ns|
  {
    if ns == [] then 0 else Total(ns[..|ns| - 1]) + ns[|ns| - 1]
  }

  /** The running offsets advance by the counts of the next block. */
  lemma TotalStep(bs: seq<Block>, i: nat)
    requires i < |bs|
    ensures Total(SignalInputCounts(bs)[..i + 1]) == Total(SignalInputCounts(bs)[..i]) + SignalInputCounts(bs)[i]
    ensures Total(SignalOutputCounts(bs)[..i + 1]) == Total(SignalOutputCounts(bs)[..i]) + SignalOutputCounts(bs)[i]
  {
    assert SignalInputCounts(bs)[..i + 1][..i] == SignalInputCounts(bs)[..i];
    assert SignalOutputCounts(bs)[..i + 1][..i] == SignalOutputCounts(bs)[..i];
  }

  /**
   * The share of block `i` starts at the total of the blocks before it:
   * shares of different blocks do not overlap, and every share lies inside
   * the buffer of the grand total.
   */
  lemma {:induction false} SharesSeparate(ns: seq<nat>, i: nat, j: nat)
    requires i < j <= |ns|
    ensures Total(ns[..i]) + ns[i] <= Total(ns[..j]) <= Total(ns)
    decreases |ns| - i
  {
    assert ns[..i + 1][..i] == ns[..i];
    if j > i + 1 {
      SharesSeparate(ns, i + 1, j);
    } else if j < |ns| {
      SharesSeparate(ns, j, |ns|);
    } else {
      assert ns[..j] == ns;
    }
  }

  /** Two different blocks own nothing in common. */
  lemma Apart(bs: seq<Block>, b: nat, x: object)
    requires b < |bs| && x in bs[b].Repr
    requires forall i, j :: 0 <= i < j < |bs| ==> bs[i].Repr !! bs[j].Repr
    ensures forall j :: 0 <= j < |bs| && j != b ==> x !in bs[j].Repr
  {
    forall j | 0 <= j < |bs| && j != b
      ensures x !in bs[j].Repr
    {
      if j < b {
        assert bs[j].Repr !! bs[b].Repr;
      } else {
        assert bs[b].Repr !! bs[j].Repr;
      }
    }
  }

  /** Absolute input `port` of block `b` reads what the scheme's wiring says of that slot. */
  lemma ReadInput(bs: seq<Block>, repr: set<object>, b: nat, port: nat)
    requires Held(bs, repr) && b < |bs| && port < |bs[b].absoluteInputPorts|
    ensures bs[b].GetInputPortAbsolute(port) == ReadSlot(WiringsOf(bs, repr), SlotOf(InputLists(bs), b, port))
  {
    assert WiringsOf(bs, repr)[b] == bs[b].Wiring();
  }

  /** Rewiring an input of block `b` leaves every other block as it was. */
  method RewireBlock(bs: seq<Block>, b: nat, port: nat, t: TypeId, i: nat, p: Ptr)
    requires b < |bs| && port < |bs[b].absoluteInputPorts| && bs[b].absoluteInputPorts[port] == (t, i)
    requires forall j :: 0 <= j < |bs| ==> bs[j].Valid()
    requires forall i, j :: 0 <= i < j < |bs| ==> bs[i].Repr !! bs[j].Repr
    requires t in bs[b].portsBases
    modifies bs[b].portsBases[t].inputs
    ensures forall j :: 0 <= j < |bs| ==> bs[j].Valid() && bs[j].Bases() == old(bs[j].Bases())
    ensures forall j :: 0 <= j < |bs| && j != b ==> bs[j].Wiring() == old(bs[j].Wiring())
    ensures bs[b].Wiring() == old(bs[b].Wiring())[t := old(bs[b].Wiring())[t][i := p]]
    ensures OutputLists(bs) == old(OutputLists(bs))
  {
    Apart(bs, b, bs[b].portsBases[t].inputs);
    bs[b].SetInputPortAbsolute(port, p);
  }

  /** The input vector that absolute input `port` of block `b` lives in. */
  ghost function InputVector(bs: seq<Block>, b: nat, port: nat): set<array<Ptr>>
    reads BlockSet(bs)
  {
    if b < |bs| && port < |bs[b].absoluteInputPorts| && bs[b].absoluteInputPorts[port].0 in bs[b].portsBases
    then {bs[b].portsBases[bs[b].absoluteInputPorts[port].0].inputs} else {}
  }

  /** The input vectors of the port sets in `frames`; `inputs` never changes, so this reads nothing. */
  function VectorsOf(frames: seq<(map<TypeId, PortSet>, set<object>)>): set<array<Ptr>>
  {
    set i, t | 0 <= i < |frames| && t in frames[i].0 :: frames[i].0[t].inputs
  }

  lemma VectorsOfFrames(bs: seq<Block>)
    ensures VectorsOf(Frames(bs)) <= InputVectors(bs)
  {
    forall v | v in VectorsOf(Frames(bs))
      ensures v in InputVectors(bs)
    {
      var i, t :| 0 <= i < |bs| && t in bs[i].portsBases && v == bs[i].portsBases[t].inputs;
      assert bs[i] in bs;
    }
  }

  lemma FramesCoverVectors(bs: seq<Block>)
    ensures InputVectors(bs) <= VectorsOf(Frames(bs))
  {
    forall v | v in InputVectors(bs)
      ensures v in VectorsOf(Frames(bs))
    {
      var b, t :| b in bs && t in b.portsBases && v == b.portsBases[t].inputs;
      var i :| 0 <= i < |bs| && bs[i] == b;
      assert Frames(bs)[i].0[t].inputs == v;
    }
  }

  lemma VectorIn(bs: seq<Block>, b: nat, port: nat)
    ensures InputVector(bs, b, port) <= VectorsOf(Frames(bs))
  {
    if b < |bs| && port < |bs[b].absoluteInputPorts| && bs[b].absoluteInputPorts[port].0 in bs[b].portsBases {
      var t := bs[b].absoluteInputPorts[port].0;
      assert Frames(bs)[b].0[t].inputs in VectorsOf(Frames(bs));
    }
  }

  /** The input counts per type of the port sets in `frames`; counts never change, so this reads nothing. */
  function FrameShapes(frames: seq<(map<TypeId, PortSet>, set<object>)>): (r: seq<Shape>)
    ensures |r| == |frames|
  {
    seq(|frames|, i requires 0 <= i < |frames| => InputShapeOf(frames[i].0))
  }

  lemma ShapesOfFrames(bs: seq<Block>)
    ensures InputShapes(bs) == FrameShapes(Frames(bs))
  {
  }

  /** The element size per type of the port sets in `frames`; sizes never change, so this reads nothing. */
  function FrameSizes(frames: seq<(map<TypeId, PortSet>, set<object>)>): (r: seq<map<TypeId, nat>>)
    ensures |r| == |frames|
  {
    seq(|frames|, i requires 0 <= i < |frames| => map t | t in frames[i].0 :: frames[i].0[t].typeSize)
  }

  lemma SizesOfFrames(bs: seq<Block>)
    ensures SizesOf(bs) == FrameSizes(Frames(bs))
  {
  }

  /** The input vector of type `t` of block `b`, where the block has the type. */
  ghost function TypeVector(bs: seq<Block>, b: nat, t: TypeId): set<array<Ptr>>
    reads BlockSet(bs)
  {
    if b < |bs| && t in bs[b].portsBases then {bs[b].portsBases[t].inputs} else {}
  }

  lemma TypeVectorIn(bs: seq<Block>, b: nat, t: TypeId)
    ensures TypeVector(bs, b, t) <= VectorsOf(Frames(bs))
  {
    if b < |bs| && t in bs[b].portsBases {
      assert Frames(bs)[b].0[t].inputs in VectorsOf(Frames(bs));
    }
  }

  /** `setInputPortRelative(t, i, p)` on block `b`: one slot of that block changes, every other block is as it was. */
  method RewireRelativeBlock(bs: seq<Block>, b: nat, t: TypeId, i: nat, p: Ptr)
    requires b < |bs| && t in bs[b].portsBases && i < bs[b].portsBases[t].inputCount
    requires forall j :: 0 <= j < |bs| ==> bs[j].Valid()
    requires forall i, j :: 0 <= i < j < |bs| ==> bs[i].Repr !! bs[j].Repr
    modifies bs[b].portsBases[t].inputs
    ensures forall j :: 0 <= j < |bs| ==> bs[j].Valid() && bs[j].Bases() == old(bs[j].Bases())
    ensures forall j :: 0 <= j < |bs| && j != b ==> bs[j].Wiring() == old(bs[j].Wiring())
    ensures bs[b].Wiring() == old(bs[b].Wiring())[t := old(bs[b].Wiring())[t][i := p]]
  {
    Apart(bs, b, bs[b].portsBases[t].inputs);
    var ok := bs[b].SetInputPortRelative(t, i, p);
  }

  /** The port sets of all blocks, which `allocate_memory` points at their slices. */
  ghost function PortSetsOf(bs: seq<Block>): set<PortSet>
    reads BlockSet(bs)
  {
    set b, t | b in bs && t in b.portsBases :: b.portsBases[t]
  }

  /** What the index and ordering passes leave alone in every block: its port sets and its footprint. */
  ghost function Frames(bs: seq<Block>): (r: seq<(map<TypeId, PortSet>, set<object>)>)
    reads BlockSet(bs)
    ensures |r| == |bs| && forall i :: 0 <= i < |bs| ==> r[i] == (bs[i].portsBases, bs[i].Repr)
  {
    seq(|bs|, i reads BlockSet(bs) requires 0 <= i < |bs| => (bs[i].portsBases, bs[i].Repr))
  }

  /** What each block's `initIndices` appends to its absolute input list. */
  function AddedInputs(bs: seq<Block>): (r: seq<seq<(TypeId, nat)>>)
    reads BlockSet(bs)
    ensures |r| == |bs|
  {
    seq(|bs|, i reads BlockSet(bs) requires 0 <= i < |bs| => InputEntries(InputShapeOf(bs[i].portsBases), SortedInts(bs[i].portsBases.Keys)))
  }

  /** What each block's `initIndices` appends to its absolute output list. */
  ghost function AddedOutputs(bs: seq<Block>, repr: set<object>): (r: seq<seq<Ptr>>)
    requires Held(bs, repr)
    reads BlockSet(bs), repr
    ensures |r| == |bs|
  {
    seq(|bs|, i reads repr requires 0 <= i < |bs| && bs[i] in repr && bs[i].Repr <= repr && bs[i].Valid() =>
      OutputEntries(bs[i].Views(), SortedInts(bs[i].portsBases.Keys)))
  }

  /** Every block's absolute input list once its `initIndices` has appended to it. */
  function PlannedInputs(bs: seq<Block>): (r: seq<seq<(TypeId, nat)>>)
    reads BlockSet(bs)
    ensures |r| == |bs|
  {
    var added := AddedInputs(bs);
    seq(|bs|, i reads BlockSet(bs) requires 0 <= i < |bs| => bs[i].absoluteInputPorts + added[i])
  }

  /** The slices `allocate_memory` gives the blocks: each block's output base per type. */
  function PlannedBases(bs: seq<Block>, reg: Registry): (r: seq<map<TypeId, Ptr>>)
    reads BlockSet(bs)
    ensures |r| == |bs|
  {
    var shapes := OutputShapes(bs);
    seq(|bs|, i requires 0 <= i < |bs| => BlockMemory(shapes, i, reg))
  }

  /** The output addresses of the port sets `sets` once each is allocated at `bases`. */
  function ViewsAt(bases: map<TypeId, Ptr>, sets: map<TypeId, PortSet>): map<TypeId, seq<Ptr>>
  {
    map t | t in sets :: OutputView(if t in bases then bases[t] else Null, sets[t].typeSize, sets[t].outputCount)
  }

  /** Every block's absolute output list once it is allocated and its `initIndices` has appended to it. */
  function PlannedOutputs(bs: seq<Block>, reg: Registry): (r: seq<seq<Ptr>>)
    reads BlockSet(bs)
    ensures |r| == |bs|
  {
    var bases := PlannedBases(bs, reg);
    seq(|bs|, i reads BlockSet(bs) requires 0 <= i < |bs| =>
      bs[i].absoluteOutputPorts + OutputEntries(ViewsAt(bases[i], bs[i].portsBases), SortedInts(bs[i].portsBases.Keys)))
  }

  /** A valid block allocated at `bases` has the output addresses `ViewsAt` gives. */
  lemma ViewsPlaced(b: Block, bases: map<TypeId, Ptr>)
    requires b.Valid() && b.Bases() == bases
    ensures b.Views() == ViewsAt(bases, b.portsBases)
  {
  }

  /** What `initIndices` appends for a block with port sets `sets`. */
  ghost predicate Appends(sets: map<TypeId, PortSet>, addIn: seq<(TypeId, nat)>, addOut: seq<Ptr>)
    reads set t | t in sets :: sets[t]
  {
    addIn == InputEntries(InputShapeOf(sets), SortedInts(sets.Keys)) &&
    addOut == OutputEntries(ViewsOf(sets), SortedInts(sets.Keys))
  }

  /** A block's fields: flags, port sets, absolute lists and footprint. */
  type BlockFields = (bv32, map<TypeId, PortSet>, seq<(TypeId, nat)>, seq<Ptr>, set<object>)

  ghost function Fields(b: Block): BlockFields
    reads b
  {
    (b.flags, b.portsBases, b.absoluteInputPorts, b.absoluteOutputPorts, b.Repr)
  }

  ghost function FieldsOf(bs: seq<Block>): (r: seq<BlockFields>)
    reads BlockSet(bs)
    ensures |r| == |bs|
  {
    seq(|bs|, i reads BlockSet(bs) requires 0 <= i < |bs| => Fields(bs[i]))
  }

  /** Different blocks are different objects. */
  lemma BlocksDistinct(bs: seq<Block>, repr: set<object>, i: nat)
    requires Held(bs, repr) && i < |bs|
    requires forall a, b :: 0 <= a < b < |bs| ==> bs[a].Repr !! bs[b].Repr
    ensures forall j :: 0 <= j < |bs| && j != i ==> bs[j] != bs[i]
  {
    Apart(bs, i, bs[i]);
    forall j | 0 <= j < |bs| && j != i
      ensures bs[j] != bs[i]
    {
      assert bs[j] in bs[j].Repr;
    }
  }

  /**
   * The fields `fs` keep the port sets, footprints and flags `frames` and
   * `flags`, and the blocks before `i` have appended their entries to the
   * lists `ins0` and `outs0`, the others not yet.
   */
  ghost predicate IndexedFields(i: nat, fs: seq<BlockFields>, frames: seq<(map<TypeId, PortSet>, set<object>)>, flags: seq<bv32>,
                                ins0: seq<seq<(TypeId, nat)>>, outs0: seq<seq<Ptr>>, addIn: seq<seq<(TypeId, nat)>>, addOut: seq<seq<Ptr>>)
  {
    |frames| == |flags| == |ins0| == |outs0| == |addIn| == |addOut| == |fs| &&
    forall j :: 0 <= j < |fs| ==>
      (fs[j].1, fs[j].4) == frames[j] && fs[j].0 == flags[j] &&
      fs[j].2 == (if j < i then ins0[j] + addIn[j] else ins0[j]) &&
      fs[j].3 == (if j < i then outs0[j] + addOut[j] else outs0[j])
  }

  /** The fields `b` are those of `a` with a longer absolute input list. */
  ghost predicate Grown(a: BlockFields, b: BlockFields)
  {
    a.1 == b.1 && a.4 == b.4 && |a.2| <= |b.2|
  }

  /** Appending block `i`'s entries advances the prefix by one. */
  lemma IndexedStep(i: nat, fs: seq<BlockFields>, f: BlockFields, frames: seq<(map<TypeId, PortSet>, set<object>)>, flags: seq<bv32>,
                    ins0: seq<seq<(TypeId, nat)>>, outs0: seq<seq<Ptr>>, addIn: seq<seq<(TypeId, nat)>>, addOut: seq<seq<Ptr>>)
    requires IndexedFields(i, fs, frames, flags, ins0, outs0, addIn, addOut) && i < |fs|
    requires f == (fs[i].0, fs[i].1, fs[i].2 + addIn[i], fs[i].3 + addOut[i], fs[i].4)
    ensures IndexedFields(i + 1, fs[i := f], frames, flags, ins0, outs0, addIn, addOut)
    ensures forall j :: 0 <= j < |fs| ==> Grown(fs[j], fs[i := f][j])
  {
  }

  class Scheme {
    const registry: Registry
    var syncStep: int
    var dtCount: nat
    var time: int
    /** `Time`: the clock `computeSync` is to reach. */
    var target: int
    var blocksCount: nat
    /** The length in bytes of each type's output arena. */
    var portMemory: map<TypeId, nat>
    var totalOutputs: Shape
    var inputBuffer: seq<real>
    var outputBuffer: seq<real>
    var absoluteOutputIndex: seq<(TypeId, Ptr)>
    var relativeOutputIndex: map<TypeId, seq<Ptr>>
    var absoluteInputIndex: seq<Entry>
    var relativeInputIndex: map<TypeId, seq<Entry>>
    var portsInfo: PortsInfo
    var blocks: seq<Block>
    var directGraph: map<nat, seq<nat>>
    var sortedBlocks: seq<nat>
    var activeBlocks: seq<nat>
    var computeBlocks: seq<nat>
    var frozenPorts: Table
    /** The `init` and `compute` calls made on blocks so far. */
    ghost var calls: seq<Call>
    ghost var Repr: set<object>

    /** `Repr` holds the blocks and what they own. */
    ghost predicate Valid()
      reads this`blocks, this`blocksCount, this`Repr, this`sortedBlocks, this`activeBlocks, this`computeBlocks, this`frozenPorts
      reads BlockSet(blocks)
    {
      BlocksValid() && ListsValid() && FrozenValid()
    }

    /** Every block is valid, owns its objects alone, and the count of blocks never exceeds the list. */
    ghost predicate BlocksValid()
      reads this`blocks, this`blocksCount, this`Repr, BlockSet(blocks)
    {
      Held(blocks, Repr) &&
      (forall i, j :: 0 <= i < j < |blocks| ==> blocks[i].Repr !! blocks[j].Repr) &&
      blocksCount <= |blocks| && this !in Repr
    }

    /** The block lists name blocks of the scheme. */
    predicate ListsValid()
      reads this`blocks, this`sortedBlocks, this`activeBlocks, this`computeBlocks
    {
      Bounded(sortedBlocks, |blocks|) && Bounded(activeBlocks, |blocks|) && Bounded(computeBlocks, |blocks|)
    }

    /** Every frozen key names an existing absolute input. */
    ghost predicate FrozenValid()
      reads this`blocks, this`frozenPorts, BlockSet(blocks)
    {
      forall k :: k in frozenPorts ==> k.0 < |blocks| && k.1 < |blocks[k.0].absoluteInputPorts|
    }

    /** A scheme with no blocks; `sync_step` is left uninitialised by the source and is a parameter here. */
    constructor(registry: Registry, syncStep: int)
      ensures Valid() && Repr == {}
      ensures this.registry == registry && this.syncStep == syncStep
      ensures blocks == [] && blocksCount == 0 && time == 0 && target == 0 && dtCount == 0
      ensures portMemory == map[] && totalOutputs == map[] && portsInfo == map[] && frozenPorts == map[]
      ensures absoluteOutputIndex == [] && relativeOutputIndex == map[] && absoluteInputIndex == [] && relativeInputIndex == map[]
      ensures directGraph == map[] && sortedBlocks == [] && activeBlocks == [] && computeBlocks == []
      ensures inputBuffer == [] && outputBuffer == [] && calls == []
    {
      this.registry := registry;
      this.syncStep := syncStep;
      dtCount, time, target, blocksCount := 0, 0, 0, 0;
      portMemory, totalOutputs, portsInfo, frozenPorts := map[], map[], map[], map[];
      absoluteOutputIndex, relativeOutputIndex, absoluteInputIndex, relativeInputIndex := [], map[], [], map[];
      blocks, directGraph, sortedBlocks, activeBlocks, computeBlocks := [], map[], [], [], [];
      inputBuffer, outputBuffer := [], [];
      calls := [];
      Repr := {};
    }

    /** The common part of every `add…` method: count the block and append it. */
    method AddBlock(b: Block)
      requires Valid() && b.Valid() && b.Repr !! Repr && this !in b.Repr
      modifies this`blocks, this`blocksCount, this`Repr
      ensures Valid()
      ensures blocks == old(blocks) + [b] && blocksCount == old(blocksCount) + 1
      ensures Repr == old(Repr) + b.Repr
    {
      blocksCount := blocksCount + 1;
      blocks := blocks + [b];
      Repr := Repr + b.Repr;
      assert forall i :: 0 <= i < |old(blocks)| ==> blocks[i] == old(blocks)[i];
    }

    /** `setSteps(sync, delta_time)`: only the synchronisation step is kept; `delta_time` is ignored. */
    method SetSteps(sync: real, deltaTime: real)
      modifies this`syncStep
      ensures syncStep == Truncate(sync * Sec as real)
    {
      syncStep := Truncate(sync * Sec as real);
    }

    /** One step: advance the clock by `dt` and compute every block of the compute order. */
    method Step()
      modifies this`time, this`calls
      ensures time == old(time) + Dt
      ensures calls == old(calls) + Round(computeBlocks, time)
    {
      time := time + Dt;
      var k := 0;
      ghost var start := calls;
      while k < |computeBlocks|
        invariant 0 <= k <= |computeBlocks|
        invariant time == old(time) + Dt
        invariant calls == start + Round(computeBlocks[..k], time)
      {
        calls := calls + [ComputeCall(computeBlocks[k], time)];
        k := k + 1;
      }
      assert computeBlocks[..k] == computeBlocks;
    }

    /** `compute(steps)`: `steps` steps of `dt`, then the step counter advances by `steps`. */
    method Compute(steps: nat)
      modifies this`time, this`calls, this`dtCount
      ensures time == old(time) + steps * Dt
      ensures calls == old(calls) + Ticks(computeBlocks, old(time), steps)
      ensures dtCount == old(dtCount) + steps
    {
      var i := 0;
      while i < steps
        invariant 0 <= i <= steps
        invariant time == old(time) + i * Dt
        invariant calls == old(calls) + Ticks(computeBlocks, old(time), i)
        invariant dtCount == old(dtCount)
      {
        Step();
        i := i + 1;
      }
      dtCount := dtCount + steps;
    }

    /**
     * `computeSync(steps)`: move the target clock `steps` synchronisation
     * steps ahead and take `dt` steps until the clock reaches it, counting
     * each step.
     */
    method ComputeSync(steps: nat)
      modifies this`target, this`time, this`calls, this`dtCount
      ensures target == old(target) + steps * syncStep
      ensures var n := StepsToReach(old(time), target);
        time == old(time) + n * Dt && dtCount == old(dtCount) + n &&
        calls == old(calls) + Ticks(computeBlocks, old(time), n)
    {
      target := target + steps * syncStep;
      ghost var n := StepsToReach(time, target);
      StepsToReachFacts(time, target);
      ghost var i := 0;
      while time < target
        invariant 0 <= i <= n
        invariant time == old(time) + i * Dt && dtCount == old(dtCount) + i
        invariant calls == old(calls) + Ticks(computeBlocks, old(time), i)
        invariant target == old(target) + steps * syncStep
        decreases target - time
      {
        Step();
        dtCount := dtCount + 1;
        i := i + 1;
      }
    }
    // ----- Memory and indices -----

    /** The arena types in ascending order: the order of `sorted_type_hashes`. */
    function ArenaTypes(): (ts: seq<TypeId>)
      reads this`portMemory
      ensures Increasing(ts) && forall t :: t in ts <==> t in portMemory
    {
      SortedIntsFacts(portMemory.Keys);
      SortedInts(portMemory.Keys)
    }

    /**
     * `allocate_memory`: count each type's outputs over all blocks, size
     * each arena to `count * type_size` bytes, give every block the slice
     * at the running offset of the blocks before it, then rebuild the
     * indices. A block port type missing from the registry makes
     * `type_size` throw `unknown type hash` in the source; the model does
     * not follow that error and requires every used type to be registered.
     */
    method AllocateMemory()
      requires Valid() && ShapesRegistered(registry, OutputShapes(blocks))
      modifies this`totalOutputs, this`portMemory, PortSetsOf(blocks), BlockSet(blocks)
      modifies this`absoluteOutputIndex, this`relativeOutputIndex, this`absoluteInputIndex, this`relativeInputIndex, this`portsInfo
      ensures Valid() && Frames(blocks) == old(Frames(blocks)) && FlagsOf(blocks) == old(FlagsOf(blocks))
      ensures WiringsOf(blocks, Repr) == old(WiringsOf(blocks, Repr)) && directGraph == old(directGraph)
      ensures sortedBlocks == old(sortedBlocks) && calls == old(calls)
      ensures totalOutputs == TotalOutputs(old(OutputShapes(blocks)))
      ensures portMemory == Arena(old(portMemory), totalOutputs, registry)
      ensures forall i :: 0 <= i < |blocks| ==> blocks[i].Bases() == BlockMemory(old(OutputShapes(blocks)), i, registry)
      ensures ListsAppended(old(InputLists(blocks)), old(OutputLists(blocks))) && TablesBuilt(old(portsInfo))
    {
      SizeArenas();
      AssignSlices();
      InitIndices();
    }

    /** `allocate_memory` as the link binders rely on it: the lists, bases and tables it leaves are the planned ones. */
    method AllocatePlanned()
      requires Valid() && ShapesRegistered(registry, OutputShapes(blocks))
      modifies this`totalOutputs, this`portMemory, PortSetsOf(blocks), BlockSet(blocks)
      modifies this`absoluteOutputIndex, this`relativeOutputIndex, this`absoluteInputIndex, this`relativeInputIndex, this`portsInfo
      ensures Valid() && Frames(blocks) == old(Frames(blocks)) && FlagsOf(blocks) == old(FlagsOf(blocks))
      ensures Allocated(old(OutputShapes(blocks)), old(portMemory), old(PlannedTables()))
      ensures WiringsOf(blocks, Repr) == old(WiringsOf(blocks, Repr)) && directGraph == old(directGraph)
      ensures sortedBlocks == old(sortedBlocks) && calls == old(calls)
      ensures InputLists(blocks) == old(PlannedInputs(blocks)) && OutputLists(blocks) == old(PlannedOutputs(blocks, registry))
      ensures BasesOf(blocks, Repr) == old(PlannedBases(blocks, registry)) && CurrentTables() == old(PlannedTables())
    {
      AllocateMemory();
      PlannedLists();
      TablesPlanned();
    }

    /** The tables `allocate_memory` builds, computed from the scheme before it runs. */
    function PlannedTables(): Tables
      reads this, BlockSet(blocks)
      requires blocksCount <= |blocks|
    {
      var total := TotalOutputs(OutputShapes(blocks));
      TablesOf(SortedInts(Arena(portMemory, total, registry).Keys), total, registry,
        InputShapes(blocks)[..blocksCount], PlannedOutputs(blocks, registry)[..blocksCount], portsInfo)
    }

    /** The tables `allocate_memory` leaves are the planned ones. */
    twostate lemma TablesPlanned()
      requires blocks == old(blocks) && blocksCount == old(blocksCount) && blocksCount <= |blocks|
      requires InputShapes(blocks) == old(InputShapes(blocks)) && OutputLists(blocks) == old(PlannedOutputs(blocks, registry))
      requires totalOutputs == TotalOutputs(old(OutputShapes(blocks))) && portMemory == Arena(old(portMemory), totalOutputs, registry)
      requires TablesBuilt(old(portsInfo))
      ensures CurrentTables() == old(PlannedTables())
    {
      var types := ArenaTypes();
      assert types == SortedInts(Arena(old(portMemory), totalOutputs, registry).Keys);
      var ins, outs := InputShapes(blocks)[..blocksCount], OutputLists(blocks)[..blocksCount];
      assert old(PlannedTables()) == TablesOf(types, totalOutputs, registry, ins, outs, old(portsInfo));
    }

    /** The lists and slices `allocate_memory` leaves are the planned ones. */
    twostate lemma PlannedLists()
      requires old(Valid()) && Valid() && blocks == old(blocks)
      requires Frames(blocks) == old(Frames(blocks))
      requires forall i :: 0 <= i < |blocks| ==> blocks[i].Bases() == BlockMemory(old(OutputShapes(blocks)), i, registry)
      requires ListsAppended(old(InputLists(blocks)), old(OutputLists(blocks)))
      ensures InputLists(blocks) == old(PlannedInputs(blocks)) && OutputLists(blocks) == old(PlannedOutputs(blocks, registry))
      ensures BasesOf(blocks, Repr) == old(PlannedBases(blocks, registry)) && InputShapes(blocks) == old(InputShapes(blocks))
    {
      assert forall j :: 0 <= j < |blocks| ==> blocks[j].portsBases == old(blocks[j].portsBases);
      assert InputShapes(blocks) == old(InputShapes(blocks));
      assert AddedInputs(blocks) == old(AddedInputs(blocks));
      var shapes, planned := old(OutputShapes(blocks)), old(PlannedOutputs(blocks, registry));
      forall j | 0 <= j < |blocks|
        ensures OutputLists(blocks)[j] == planned[j]
      {
        var b := blocks[j];
        ViewsPlaced(b, BlockMemory(shapes, j, registry));
        assert planned[j] == old(b.absoluteOutputPorts) + OutputEntries(ViewsAt(BlockMemory(shapes, j, registry), b.portsBases), SortedInts(b.portsBases.Keys));
        assert AddedOutputs(blocks, Repr)[j] == OutputEntries(b.Views(), SortedInts(b.portsBases.Keys));
      }
    }

    /** The counting and sizing half of `allocate_memory`: the totals and the arenas, no block touched. */
    method SizeArenas()
      requires Valid() && ShapesRegistered(registry, OutputShapes(blocks))
      modifies this`totalOutputs, this`portMemory
      ensures Valid() && unchanged(BlockSet(blocks)) && unchanged(Repr)
      ensures totalOutputs == TotalOutputs(OutputShapes(blocks))
      ensures portMemory == Arena(old(portMemory), totalOutputs, registry)
      ensures Frames(blocks) == old(Frames(blocks)) && FlagsOf(blocks) == old(FlagsOf(blocks))
      ensures WiringsOf(blocks, Repr) == old(WiringsOf(blocks, Repr))
      ensures InputLists(blocks) == old(InputLists(blocks)) && OutputLists(blocks) == old(OutputLists(blocks))
      ensures OutputShapes(blocks) == old(OutputShapes(blocks))
    {
      totalOutputs := AccumulateTotals(OutputShapes(blocks));
      portMemory := ResizeArenas(portMemory, totalOutputs, registry);
      StillValid();
      BlocksKept();
    }

    /** The offsets loop of `allocate_memory`: every block's port sets move to its slices of the arenas. */
    method AssignSlices()
      requires Valid()
      modifies PortSetsOf(blocks)
      ensures unchanged(this) && Valid()
      ensures Frames(blocks) == old(Frames(blocks)) && FlagsOf(blocks) == old(FlagsOf(blocks))
      ensures WiringsOf(blocks, Repr) == old(WiringsOf(blocks, Repr))
      ensures InputLists(blocks) == old(InputLists(blocks)) && OutputLists(blocks) == old(OutputLists(blocks))
      ensures OutputShapes(blocks) == old(OutputShapes(blocks))
      ensures forall j :: 0 <= j < |blocks| ==> blocks[j].Bases() == BlockMemory(old(OutputShapes(blocks)), j, registry)
    {
      ghost var fields := FieldsOf(blocks);
      ghost var ws := WiringsOf(blocks, Repr);
      ghost var shapes := OutputShapes(blocks);
      var slices := Slices(OutputShapes(blocks), registry);
      SlicedAtStart(fields, ws, shapes, slices);
      var i := 0;
      while i < |blocks|
        invariant unchanged(this) && SlicedUpTo(i, fields, ws, slices)
      {
        AssignBlock(i, blocks[i], slices[i], fields, ws, slices);
        i := i + 1;
      }
      FieldsKept();
    }

    /** Before the offsets loop every block still has its fields, its inputs and the keys of its slices. */
    lemma SlicedAtStart(fields: seq<BlockFields>, ws: seq<Wiring>, shapes: seq<Shape>, slices: seq<map<TypeId, Ptr>>)
      requires Valid() && fields == FieldsOf(blocks) && ws == WiringsOf(blocks, Repr) && shapes == OutputShapes(blocks)
      requires |slices| == |shapes| && forall j :: 0 <= j < |shapes| ==> slices[j] == BlockMemory(shapes, j, registry)
      ensures SlicedUpTo(0, fields, ws, slices)
    {
    }

    /**
     * The scheme is valid, no block has changed a field or an input since
     * the snapshot `fields` and `ws`, and the blocks before `i` have their
     * slices.
     */
    ghost predicate SlicedUpTo(i: nat, fields: seq<BlockFields>, ws: seq<Wiring>, slices: seq<map<TypeId, Ptr>>)
      reads this, BlockSet(blocks), Repr
    {
      Valid() && i <= |blocks| && |fields| == |ws| == |slices| == |blocks| &&
      (forall j :: 0 <= j < |blocks| ==> Fields(blocks[j]) == fields[j] && blocks[j].Wiring() == ws[j] && slices[j].Keys == fields[j].1.Keys) &&
      (forall j :: 0 <= j < i ==> blocks[j].Bases() == slices[j])
    }

    /**
     * `block->outputs(block_memory)` for block `i`: its port sets move to
     * `memory`, nothing else of any block changes.
     */
    method AssignBlock(i: nat, block: Block, memory: map<TypeId, Ptr>,
                       ghost fields: seq<BlockFields>, ghost ws: seq<Wiring>, ghost slices: seq<map<TypeId, Ptr>>)
      requires SlicedUpTo(i, fields, ws, slices) && i < |blocks| && block == blocks[i] && memory == slices[i]
      modifies block.Sets()
      ensures unchanged(this) && SlicedUpTo(i + 1, fields, ws, slices)
    {
      SetsApart(i);
      block.AssignOutputs(memory);
      assert block.Bases().Keys == memory.Keys;
      assert forall t | t in memory :: block.Bases()[t] == memory[t];
      BlocksUnchanged();
    }

    /** Every block's absolute lists are `ins0` and `outs0` with what its `initIndices` appends. */
    ghost predicate ListsAppended(ins0: seq<seq<(TypeId, nat)>>, outs0: seq<seq<Ptr>>)
      requires Held(blocks, Repr)
      reads this`blocks, this`Repr, BlockSet(blocks), Repr
    {
      |ins0| == |outs0| == |blocks| &&
      forall j :: 0 <= j < |blocks| ==>
        InputLists(blocks)[j] == ins0[j] + AddedInputs(blocks)[j] &&
        OutputLists(blocks)[j] == outs0[j] + AddedOutputs(blocks, Repr)[j]
    }

    /** The tables as they stand. */
    function CurrentTables(): Tables
      reads this`relativeOutputIndex, this`absoluteInputIndex, this`relativeInputIndex, this`absoluteOutputIndex, this`portsInfo
    {
      Tables(relativeOutputIndex, absoluteInputIndex, relativeInputIndex, absoluteOutputIndex, portsInfo)
    }

    /**
     * The four tables rebuilt over the arena types in ascending order and
     * the first `blocks_count` blocks, and the ports table marked, starting
     * from `info0`.
     */
    ghost predicate TablesBuilt(info0: PortsInfo)
      reads this, BlockSet(blocks)
    {
      blocksCount <= |blocks| &&
      CurrentTables() == TablesOf(ArenaTypes(), totalOutputs, registry, InputShapes(blocks)[..blocksCount], OutputLists(blocks)[..blocksCount], info0)
    }

    /**
     * `init_indices`: every block appends its absolute lists, then the four
     * tables are cleared and rebuilt over the arena types in ascending order
     * and the first `blocks_count` blocks, and the ports table is marked.
     */
    method InitIndices()
      requires Valid()
      modifies BlockSet(blocks), this`absoluteOutputIndex, this`relativeOutputIndex, this`absoluteInputIndex, this`relativeInputIndex, this`portsInfo
      ensures Valid() && Frames(blocks) == old(Frames(blocks)) && FlagsOf(blocks) == old(FlagsOf(blocks))
      ensures WiringsOf(blocks, Repr) == old(WiringsOf(blocks, Repr)) && directGraph == old(directGraph)
      ensures sortedBlocks == old(sortedBlocks) && calls == old(calls)
      ensures forall j :: 0 <= j < |blocks| ==> blocks[j].Bases() == old(blocks[j].Bases())
      ensures ListsAppended(old(InputLists(blocks)), old(OutputLists(blocks)))
      ensures TablesBuilt(old(portsInfo))
    {
      ghost var ins0, outs0 := InputLists(blocks), OutputLists(blocks);
      IndexEveryBlock();
      assert ListsAppended(ins0, outs0);
      RebuildTables();
    }

    /** The second half of `init_indices`: the tables, rebuilt from the blocks as they now are. */
    method RebuildTables()
      requires Valid()
      modifies this`absoluteOutputIndex, this`relativeOutputIndex, this`absoluteInputIndex, this`relativeInputIndex, this`portsInfo
      ensures Valid() && TablesBuilt(old(portsInfo)) && directGraph == old(directGraph)
      ensures sortedBlocks == old(sortedBlocks) && calls == old(calls)
      ensures Frames(blocks) == old(Frames(blocks)) && FlagsOf(blocks) == old(FlagsOf(blocks))
      ensures WiringsOf(blocks, Repr) == old(WiringsOf(blocks, Repr))
      ensures forall j :: 0 <= j < |blocks| ==> blocks[j].Bases() == old(blocks[j].Bases())
      ensures InputLists(blocks) == old(InputLists(blocks)) && OutputLists(blocks) == old(OutputLists(blocks))
      ensures AddedInputs(blocks) == old(AddedInputs(blocks)) && AddedOutputs(blocks, Repr) == old(AddedOutputs(blocks, Repr))
    {
      label before:
      BuildTablesFromBlocks();
      BlocksKept@before();
    }

    /** The tables of `init_indices`, built from the blocks' lists and the arena types. */
    method BuildTablesFromBlocks()
      requires Valid()
      modifies this`absoluteOutputIndex, this`relativeOutputIndex, this`absoluteInputIndex, this`relativeInputIndex, this`portsInfo
      ensures Valid() && TablesBuilt(old(portsInfo)) && directGraph == old(directGraph)
      ensures sortedBlocks == old(sortedBlocks) && calls == old(calls)
    {
      var types, ins, outs := ArenaTypes(), InputShapes(blocks)[..blocksCount], OutputLists(blocks)[..blocksCount];
      label before:
      var r := BuildTables(types, totalOutputs, registry, ins, outs, portsInfo);
      SourcesKept@before();
      SetTables(r);
      assert ArenaTypes() == types && InputShapes(blocks)[..blocksCount] == ins && OutputLists(blocks)[..blocksCount] == outs;
    }

    /** Replace the tables. */
    method SetTables(r: Tables)
      requires Valid()
      modifies this`relativeOutputIndex, this`absoluteInputIndex, this`relativeInputIndex, this`absoluteOutputIndex, this`portsInfo
      ensures Valid() && CurrentTables() == r
      ensures ArenaTypes() == old(ArenaTypes())
      ensures InputShapes(blocks) == old(InputShapes(blocks)) && OutputLists(blocks) == old(OutputLists(blocks))
    {
      relativeOutputIndex, absoluteInputIndex, relativeInputIndex, absoluteOutputIndex, portsInfo :=
        r.relativeOutputs, r.absoluteInputs, r.relativeInputs, r.absoluteOutputs, r.info;
      StillValid();
      SourcesKept();
    }

    /** The tables' sources are the arena types, the blocks' input shapes and their output lists. */
    twostate lemma SourcesKept()
      requires unchanged(this`blocks, this`portMemory) && unchanged(old(BlockSet(blocks)))
      ensures ArenaTypes() == old(ArenaTypes())
      ensures InputShapes(blocks) == old(InputShapes(blocks)) && OutputLists(blocks) == old(OutputLists(blocks))
    {
    }

    /** A step that changes none of the objects the blocks own changes nothing the scheme reads of them. */
    twostate lemma BlocksKept()
      requires old(Valid()) && Valid() && unchanged(old(Repr)) && unchanged(this`blocks, this`Repr)
      ensures Frames(blocks) == old(Frames(blocks)) && FlagsOf(blocks) == old(FlagsOf(blocks))
      ensures WiringsOf(blocks, Repr) == old(WiringsOf(blocks, Repr))
      ensures forall j :: 0 <= j < |blocks| ==> blocks[j].Bases() == old(blocks[j].Bases())
      ensures InputLists(blocks) == old(InputLists(blocks)) && OutputLists(blocks) == old(OutputLists(blocks))
      ensures AddedInputs(blocks) == old(AddedInputs(blocks)) && AddedOutputs(blocks, Repr) == old(AddedOutputs(blocks, Repr))
      ensures OutputShapes(blocks) == old(OutputShapes(blocks))
    {
      assert forall j :: 0 <= j < |blocks| ==> blocks[j] in Repr;
    }

    /** The port sets of block `i` belong to no other block. */
    lemma SetsApart(i: nat)
      requires Valid() && i < |blocks|
      ensures forall j :: 0 <= j < |blocks| && j != i ==> blocks[i].Sets() !! blocks[j].Repr
    {
      forall j | 0 <= j < |blocks| && j != i
        ensures blocks[i].Sets() !! blocks[j].Repr
      {
        forall x | x in blocks[i].Sets()
          ensures x !in blocks[j].Repr
        {
          Apart(blocks, i, x);
        }
      }
    }

    /** When neither the scheme nor any of its blocks changed, the scheme is still valid. */
    twostate lemma BlocksUnchanged()
      requires old(Valid()) && unchanged(this)
      requires forall j :: 0 <= j < |blocks| ==> unchanged(blocks[j])
      ensures Valid()
    {
    }

    /** Blocks whose fields and inputs are as they were have the same frames, flags, inputs and lists. */
    twostate lemma FieldsKept()
      requires old(Valid()) && Valid() && unchanged(this)
      requires forall j :: 0 <= j < |blocks| ==> Fields(blocks[j]) == old(Fields(blocks[j])) && blocks[j].Wiring() == old(blocks[j].Wiring())
      ensures Frames(blocks) == old(Frames(blocks)) && FlagsOf(blocks) == old(FlagsOf(blocks))
      ensures WiringsOf(blocks, Repr) == old(WiringsOf(blocks, Repr))
      ensures InputLists(blocks) == old(InputLists(blocks)) && OutputLists(blocks) == old(OutputLists(blocks))
      ensures OutputShapes(blocks) == old(OutputShapes(blocks))
    {
    }

    /** Validity depends only on the blocks, their lists and the frozen table. */
    twostate lemma StillValid()
      requires old(Valid()) && unchanged(old(BlockSet(blocks)))
      requires unchanged(this`blocks, this`blocksCount, this`Repr, this`sortedBlocks, this`activeBlocks, this`computeBlocks, this`frozenPorts)
      ensures Valid()
    {
    }

    /** `block->initIndices()` for every block, in creation order. */
    method IndexEveryBlock()
      requires Valid()
      modifies BlockSet(blocks)`absoluteInputPorts, BlockSet(blocks)`absoluteOutputPorts
      ensures unchanged(this) && Valid() && Frames(blocks) == old(Frames(blocks)) && FlagsOf(blocks) == old(FlagsOf(blocks))
      ensures WiringsOf(blocks, Repr) == old(WiringsOf(blocks, Repr))
      ensures forall j :: 0 <= j < |blocks| ==> blocks[j].Bases() == old(blocks[j].Bases())
      ensures AddedInputs(blocks) == old(AddedInputs(blocks)) && AddedOutputs(blocks, Repr) == old(AddedOutputs(blocks, Repr))
      ensures forall j :: 0 <= j < |blocks| ==>
        blocks[j].absoluteInputPorts == old(InputLists(blocks))[j] + old(AddedInputs(blocks))[j] &&
        blocks[j].absoluteOutputPorts == old(OutputLists(blocks))[j] + old(AddedOutputs(blocks, Repr))[j]
    {
      ghost var addIn, addOut := AddedInputs(blocks), AddedOutputs(blocks, Repr);
      ghost var frames, flags := Frames(blocks), FlagsOf(blocks);
      ghost var ins0, outs0 := InputLists(blocks), OutputLists(blocks);
      IndexedStart();
      IndexLoop(frames, flags, ins0, outs0, addIn, addOut);
      FramesKept();
      AddedKept();
    }

    /** The loop of `init_indices` over the blocks: block `j` appends `addIn[j]` and `addOut[j]`. */
    method IndexLoop(ghost frames: seq<(map<TypeId, PortSet>, set<object>)>, ghost flags: seq<bv32>,
                     ghost ins0: seq<seq<(TypeId, nat)>>, ghost outs0: seq<seq<Ptr>>, ghost addIn: seq<seq<(TypeId, nat)>>, ghost addOut: seq<seq<Ptr>>)
      requires IndexedUpTo(0, frames, flags, ins0, outs0, addIn, addOut)
      modifies BlockSet(blocks)`absoluteInputPorts, BlockSet(blocks)`absoluteOutputPorts
      ensures Valid()
      ensures forall j :: 0 <= j < |blocks| ==> Same(blocks[j], frames[j].0, frames[j].1, flags[j])
      ensures forall j :: 0 <= j < |blocks| ==>
        blocks[j].absoluteInputPorts == ins0[j] + addIn[j] && blocks[j].absoluteOutputPorts == outs0[j] + addOut[j]
    {
      var i := 0;
      while i < |blocks|
        invariant IndexedUpTo(i, frames, flags, ins0, outs0, addIn, addOut)
      {
        IndexOne(i, blocks[i], frames, flags, ins0, outs0, addIn, addOut);
        i := i + 1;
      }
      IndexedAll(frames, flags, ins0, outs0, addIn, addOut);
    }

    /**
     * The scheme is valid, every block keeps its port sets, footprint and
     * flags, and the blocks before `i` have appended their entries, the
     * others not yet.
     */
    ghost predicate IndexedUpTo(i: nat, frames: seq<(map<TypeId, PortSet>, set<object>)>, flags: seq<bv32>,
                                ins0: seq<seq<(TypeId, nat)>>, outs0: seq<seq<Ptr>>, addIn: seq<seq<(TypeId, nat)>>, addOut: seq<seq<Ptr>>)
      reads this`blocks, this`blocksCount, this`Repr, this`sortedBlocks, this`activeBlocks, this`computeBlocks, this`frozenPorts
      reads BlockSet(blocks), Repr
    {
      Valid() && i <= |blocks| && IndexedFields(i, FieldsOf(blocks), frames, flags, ins0, outs0, addIn, addOut) &&
      forall j :: 0 <= j < |blocks| ==> Appends(frames[j].0, addIn[j], addOut[j])
    }

    /** Before the pass no block has appended anything. */
    lemma IndexedStart()
      requires Valid()
      ensures IndexedUpTo(0, Frames(blocks), FlagsOf(blocks), InputLists(blocks), OutputLists(blocks), AddedInputs(blocks), AddedOutputs(blocks, Repr))
    {
      assert forall j :: 0 <= j < |blocks| ==> FieldsOf(blocks)[j] == Fields(blocks[j]);
    }

    /** Once every block has appended its entries, each keeps its frame and flags and holds its lists. */
    lemma IndexedAll(frames: seq<(map<TypeId, PortSet>, set<object>)>, flags: seq<bv32>,
                     ins0: seq<seq<(TypeId, nat)>>, outs0: seq<seq<Ptr>>, addIn: seq<seq<(TypeId, nat)>>, addOut: seq<seq<Ptr>>)
      requires IndexedUpTo(|blocks|, frames, flags, ins0, outs0, addIn, addOut)
      ensures forall j :: 0 <= j < |blocks| ==> Same(blocks[j], frames[j].0, frames[j].1, flags[j])
      ensures forall j :: 0 <= j < |blocks| ==>
        blocks[j].absoluteInputPorts == ins0[j] + addIn[j] && blocks[j].absoluteOutputPorts == outs0[j] + addOut[j]
    {
      forall j | 0 <= j < |blocks|
        ensures Same(blocks[j], frames[j].0, frames[j].1, flags[j])
        ensures blocks[j].absoluteInputPorts == ins0[j] + addIn[j] && blocks[j].absoluteOutputPorts == outs0[j] + addOut[j]
      {
        assert FieldsOf(blocks)[j] == Fields(blocks[j]);
      }
    }

    /** `blocks[i]->initIndices()`: block `i` appends its entries; no other block changes. */
    method IndexOne(i: nat, block: Block, ghost frames: seq<(map<TypeId, PortSet>, set<object>)>, ghost flags: seq<bv32>,
                    ghost ins0: seq<seq<(TypeId, nat)>>, ghost outs0: seq<seq<Ptr>>, ghost addIn: seq<seq<(TypeId, nat)>>, ghost addOut: seq<seq<Ptr>>)
      requires IndexedUpTo(i, frames, flags, ins0, outs0, addIn, addOut) && i < |blocks| && block == blocks[i]
      modifies block`absoluteInputPorts, block`absoluteOutputPorts
      ensures IndexedUpTo(i + 1, frames, flags, ins0, outs0, addIn, addOut)
    {
      ghost var before := FieldsOf(blocks);
      assert before[i] == Fields(block) && Appends(frames[i].0, addIn[i], addOut[i]);
      BlocksDistinct(blocks, Repr, i);
      block.InitIndices();
      assert block.absoluteInputPorts == before[i].2 + addIn[i] && block.absoluteOutputPorts == before[i].3 + addOut[i];
      assert FieldsOf(blocks) == before[i := Fields(block)];
      IndexedStep(i, before, Fields(block), frames, flags, ins0, outs0, addIn, addOut);
      EntriesGrown();
    }

    /** Blocks that only lengthened their absolute lists, and stayed valid doing so, leave the scheme valid. */
    twostate lemma EntriesGrown()
      requires old(Valid()) && unchanged(this) && unchanged(old(Repr) - old(BlockSet(blocks)))
      requires forall j :: 0 <= j < |blocks| ==> blocks[j].Valid()
      requires forall j :: 0 <= j < |blocks| ==> Grown(old(FieldsOf(blocks))[j], FieldsOf(blocks)[j])
      ensures Valid()
    {
      forall j | 0 <= j < |blocks|
        ensures blocks[j].Repr == old(blocks[j].Repr) && |old(blocks[j].absoluteInputPorts)| <= |blocks[j].absoluteInputPorts|
      {
        assert Grown(old(FieldsOf(blocks))[j], FieldsOf(blocks)[j]);
      }
    }

    /** Block `b` still has the given port sets, footprint and flags. */
    ghost predicate Same(b: Block, sets: map<TypeId, PortSet>, repr: set<object>, flags: bv32)
      reads b
    {
      b.portsBases == sets && b.Repr == repr && b.flags == flags
    }

    /** A pass that keeps every block's port sets and touches no port set keeps what `initIndices` would append. */
    twostate lemma AddedKept()
      requires old(Valid()) && Valid() && old(blocks) == blocks && old(Repr) == Repr
      requires forall j :: 0 <= j < |blocks| ==> Same(blocks[j], old(blocks[j].portsBases), old(blocks[j].Repr), old(blocks[j].flags))
      requires unchanged(PortSetsOf(blocks))
      ensures AddedInputs(blocks) == old(AddedInputs(blocks)) && AddedOutputs(blocks, Repr) == old(AddedOutputs(blocks, Repr))
    {
      forall j | 0 <= j < |blocks|
        ensures AddedOutputs(blocks, Repr)[j] == old(AddedOutputs(blocks, Repr))[j]
      {
        var b := blocks[j];
        forall t | t in b.portsBases
          ensures b.portsBases[t].outputs == old(b.portsBases[t].outputs)
        {
          assert b in blocks;
          assert b.portsBases[t] in PortSetsOf(blocks);
        }
        assert ViewsOf(b.portsBases) == old(ViewsOf(b.portsBases));
      }
    }

    /** A pass that keeps every block's port sets, footprint and flags, and touches no port set or input vector, keeps their summaries. */
    twostate lemma FramesKept()
      requires old(Valid()) && Valid() && old(blocks) == blocks && old(Repr) == Repr
      requires forall j :: 0 <= j < |blocks| ==> Same(blocks[j], old(blocks[j].portsBases), old(blocks[j].Repr), old(blocks[j].flags))
      requires unchanged(PortSetsOf(blocks)) && unchanged(InputVectors(blocks))
      ensures Frames(blocks) == old(Frames(blocks)) && FlagsOf(blocks) == old(FlagsOf(blocks))
      ensures WiringsOf(blocks, Repr) == old(WiringsOf(blocks, Repr))
      ensures forall j :: 0 <= j < |blocks| ==> blocks[j].Bases() == old(blocks[j].Bases())
    {
      forall j | 0 <= j < |blocks|
        ensures blocks[j].Wiring() == old(blocks[j].Wiring()) && blocks[j].Bases() == old(blocks[j].Bases())
      {
        var b := blocks[j];
        forall t | t in b.portsBases
          ensures b.portsBases[t].inputs[..] == old(b.portsBases[t].inputs[..]) && b.portsBases[t].outputs == old(b.portsBases[t].outputs)
        {
          assert b in blocks;
          assert b.portsBases[t] in PortSetsOf(blocks);
          assert b.portsBases[t].inputs in InputVectors(blocks);
        }
      }
    }

    // ----- Calculation order -----

    /**
     * `compute_calculation_order` with `order` standing for the result of
     * the graph sort: the order is appended to `sorted_blocks` (the lists are
     * never cleared), the clock is reset, and the pass visits the whole
     * sorted list: `init`, then `tryMakeConstant`, then the lists. The
     * compute list, with the new loop-untying blocks appended, is reversed
     * and followed by the blocks that cannot untie a loop.
     */
    method ComputeCalculationOrder(order: seq<nat>)
      requires Valid() && Bounded(order, |blocks|)
      modifies this`sortedBlocks, this`time, this`activeBlocks, this`computeBlocks, this`portsInfo, this`calls, BlockSet(blocks)
      ensures Valid() && Frames(blocks) == old(Frames(blocks))
      ensures WiringsOf(blocks, Repr) == old(WiringsOf(blocks, Repr)) && InputLists(blocks) == old(InputLists(blocks))
      ensures sortedBlocks == old(sortedBlocks) + order && time == 0
      ensures directGraph == old(directGraph)
      ensures calls == old(calls) + InitCalls(sortedBlocks)
      ensures SnapsOf(blocks, Repr) == old(SnapsOf(blocks, Repr))
      ensures OrderedFrom(order, old(sortedBlocks), old(calls), old(portsInfo), old(activeBlocks), old(computeBlocks), old(FlagsOf(blocks)))
    {
      ghost var snaps, info0, flags0, compute0 := SnapsOf(blocks, Repr), portsInfo, FlagsOf(blocks), computeBlocks;
      AppendOrder(order);
      var active, untie, cant := VisitAll(sortedBlocks);
      ghost var p := RunPass(snaps, sortedBlocks, EmptyPass(info0));
      assert active == p.active && untie == p.untie && cant == p.cant;
      SetLists(active, untie, cant);
      assert computeBlocks == ComputeOrder(compute0, p);
    }

    /**
     * What `compute_calculation_order(order)` leaves when it started from the
     * sorted list `sorted0`, the call trace `calls0`, the ports table `info0`,
     * the lists `active0` and `compute0` and the flags `flags0`: the order
     * appended, the clock reset, one `init()` per sorted block, and the
     * lists, ports table and CONSTANT bits of the pass over the sorted list.
     */
    ghost predicate OrderedFrom(order: seq<nat>, sorted0: seq<nat>, calls0: seq<Call>, info0: PortsInfo,
                                active0: seq<nat>, compute0: seq<nat>, flags0: seq<bv32>)
      requires Valid()
      reads this, BlockSet(blocks), Repr
    {
      var snaps := SnapsOf(blocks, Repr);
      sortedBlocks == sorted0 + order && time == 0 && calls == calls0 + InitCalls(sortedBlocks) &&
      InRange(snaps, sortedBlocks) &&
      var p := RunPass(snaps, sortedBlocks, EmptyPass(info0));
      activeBlocks == active0 + p.active && computeBlocks == ComputeOrder(compute0, p) &&
      portsInfo == p.info && FlagsOf(blocks) == Toggled(flags0, p.folded)
    }

    /**
     * The start of `compute_calculation_order`: the order joins the sorted
     * list, the clock is reset, and the pass will call `init()` on every
     * sorted block in turn.
     */
    method AppendOrder(order: seq<nat>)
      requires Valid() && Bounded(order, |blocks|)
      modifies this`sortedBlocks, this`time, this`calls
      ensures Valid() && sortedBlocks == old(sortedBlocks) + order && time == 0
      ensures calls == old(calls) + InitCalls(sortedBlocks)
      ensures SnapsOf(blocks, Repr) == old(SnapsOf(blocks, Repr)) && WiringsOf(blocks, Repr) == old(WiringsOf(blocks, Repr))
      ensures Frames(blocks) == old(Frames(blocks)) && InputLists(blocks) == old(InputLists(blocks)) && FlagsOf(blocks) == old(FlagsOf(blocks))
    {
      BoundedConcat(sortedBlocks, order, |blocks|);
      sortedBlocks := sortedBlocks + order;
      time := 0;
      calls := calls + InitCalls(sortedBlocks);
      ListsStillValid();
    }

    /** The end of `compute_calculation_order`: the new active blocks and the new compute order. */
    method SetLists(active: seq<nat>, untie: seq<nat>, cant: seq<nat>)
      requires Valid() && Bounded(active, |blocks|) && Bounded(untie, |blocks|) && Bounded(cant, |blocks|)
      modifies this`activeBlocks, this`computeBlocks
      ensures Valid() && activeBlocks == old(activeBlocks) + active && computeBlocks == Reverse(old(computeBlocks) + untie) + cant
      ensures SnapsOf(blocks, Repr) == old(SnapsOf(blocks, Repr)) && WiringsOf(blocks, Repr) == old(WiringsOf(blocks, Repr))
      ensures Frames(blocks) == old(Frames(blocks)) && InputLists(blocks) == old(InputLists(blocks)) && FlagsOf(blocks) == old(FlagsOf(blocks))
    {
      BoundedConcat(activeBlocks, active, |blocks|);
      BoundedOrder(computeBlocks, untie, cant, |blocks|);
      activeBlocks := activeBlocks + active;
      computeBlocks := Reverse(computeBlocks + untie) + cant;
      ListsStillValid();
    }

    /**
     * The loop of the pass over `sorted`: each block visited in turn, and
     * the lists of the blocks that did not fold.
     */
    method VisitAll(sorted: seq<nat>) returns (active: seq<nat>, untie: seq<nat>, cant: seq<nat>)
      requires Valid() && Bounded(sorted, |blocks|)
      modifies this`portsInfo, BlockSet(blocks)
      ensures directGraph == old(directGraph)
      ensures Kept(old(SnapsOf(blocks, Repr)), old(WiringsOf(blocks, Repr)), old(Frames(blocks)), old(InputLists(blocks)))
      ensures Bounded(active, |blocks|) && Bounded(untie, |blocks|) && Bounded(cant, |blocks|)
      ensures InRange(old(SnapsOf(blocks, Repr)), sorted)
      ensures var p := RunPass(old(SnapsOf(blocks, Repr)), sorted, EmptyPass(old(portsInfo)));
        active == p.active && untie == p.untie && cant == p.cant &&
        portsInfo == p.info && FlagsOf(blocks) == Toggled(old(FlagsOf(blocks)), p.folded)
    {
      ghost var snaps, ws, frames, ins := SnapsOf(blocks, Repr), WiringsOf(blocks, Repr), Frames(blocks), InputLists(blocks);
      ghost var flags0 := FlagsOf(blocks);
      ghost var start := EmptyPass(portsInfo);
      ghost var owners: set<object> := BlockSet(blocks);
      assert this !in owners;
      assert InRange(snaps, sorted);
      active, untie, cant := [], [], [];
      ghost var pass := start;
      ghost var n := |blocks|;
      var k := 0;
      while k < |sorted|
        invariant k <= |sorted| && Kept(snaps, ws, frames, ins)
        invariant Bounded(active, n) && Bounded(untie, n) && Bounded(cant, n) && n == |blocks|
        invariant pass == RunPass(snaps, sorted[..k], start)
        invariant active == pass.active && untie == pass.untie && cant == pass.cant
        invariant portsInfo == pass.info && FlagsOf(blocks) == Toggled(flags0, pass.folded)
      {
        var b := sorted[k];
        assert b < n;
        RunPassStep(snaps, sorted, k, start);
        ghost var flags := FlagsOf(blocks);
        var ok, canUntie := VisitBlock(b, blocks[b], snaps, ws, frames, ins);
        VisitOutcome(snaps, b, pass, ok, portsInfo);
        ToggledVisit(flags0, pass.folded, b, ok);
        assert FlagsOf(blocks) == Toggled(flags0, Visit(snaps, b, pass).folded);
        var lists := Sift(active, untie, cant, b, ok, canUntie, n);
        active, untie, cant := lists.0, lists.1, lists.2;
        assert Visit(snaps, b, pass) == RunPass(snaps, sorted[..k + 1], start);
        pass := Visit(snaps, b, pass);
        k := k + 1;
        assert pass == RunPass(snaps, sorted[..k], start);
      }
      assert sorted[..k] == sorted;
    }

    /**
     * The scheme is valid and its blocks' snapshots, inputs, frames and
     * absolute input lists are `snaps`, `ws`, `frames` and `ins`: what the
     * ordering pass leaves alone.
     */
    ghost predicate Kept(snaps: seq<Snap>, ws: seq<Wiring>, frames: seq<(map<TypeId, PortSet>, set<object>)>, ins: seq<seq<(TypeId, nat)>>)
      reads this`blocks, this`blocksCount, this`Repr, this`sortedBlocks, this`activeBlocks, this`computeBlocks, this`frozenPorts
      reads BlockSet(blocks), Repr
    {
      Valid() && SnapsOf(blocks, Repr) == snaps && WiringsOf(blocks, Repr) == ws && Frames(blocks) == frames && InputLists(blocks) == ins
    }

    /** New block lists that name blocks of the scheme keep it valid, and nothing the pass reads changes. */
    twostate lemma ListsStillValid()
      requires old(Valid()) && ListsValid()
      requires unchanged(old(BlockSet(blocks))) && unchanged(old(Repr))
      requires unchanged(this`blocks, this`blocksCount, this`Repr, this`frozenPorts)
      ensures Valid() && SnapsOf(blocks, Repr) == old(SnapsOf(blocks, Repr)) && WiringsOf(blocks, Repr) == old(WiringsOf(blocks, Repr))
      ensures Frames(blocks) == old(Frames(blocks)) && InputLists(blocks) == old(InputLists(blocks)) && FlagsOf(blocks) == old(FlagsOf(blocks))
    {
    }

    /**
     * One turn of the pass over block `b`: `init()`, then
     * `tryMakeConstant()`; `ok` is whether it folded and `untie` is its
     * CAN_UNTIE_LOOP flag.
     */
    method VisitBlock(b: nat, block: Block, ghost snaps: seq<Snap>, ghost ws: seq<Wiring>,
                      ghost frames: seq<(map<TypeId, PortSet>, set<object>)>, ghost ins: seq<seq<(TypeId, nat)>>)
      returns (ok: bool, untie: bool)
      requires Kept(snaps, ws, frames, ins) && b < |blocks| && block == blocks[b]
      modifies this`portsInfo, block`flags
      ensures Kept(snaps, ws, frames, ins)
      ensures var (folds, info) := FoldSpec(snaps[b].kind, snaps[b].ins, snaps[b].out, InitSpec(snaps[b].kind, snaps[b].out, old(portsInfo)));
        ok == folds && portsInfo == info && untie == snaps[b].untie
      ensures FlagsOf(blocks) == old(FlagsOf(blocks))[b := Flipped(old(FlagsOf(blocks))[b], ok)]
    {
      assert snaps[b] == Snap(block.kind, block.FoldInputs(), block.FoldOutput(), block.CanUntieLoop());
      var info;
      ok, untie, info := FoldBlock(b, block);
      ghost var flags := old(FlagsOf(blocks));
      assert FlagsOf(blocks) == flags[b := Flipped(flags[b], ok)];
      portsInfo := info;
      FlagBitKept();
    }

    /** `init()` and `tryMakeConstant()` of block `b` against the ports table: only its CONSTANT bit may change. */
    method FoldBlock(b: nat, block: Block) returns (ok: bool, untie: bool, info: PortsInfo)
      requires Valid() && b < |blocks| && block == blocks[b]
      modifies block`flags
      ensures unchanged(this) && unchanged(old(Repr) - old(BlockSet(blocks)))
      ensures (ok, info) == FoldSpec(block.kind, old(block.FoldInputs()), old(block.FoldOutput()), InitSpec(block.kind, old(block.FoldOutput()), portsInfo))
      ensures untie == old(block.CanUntieLoop())
      ensures block.flags == Flipped(old(block.flags), ok)
      ensures forall j :: 0 <= j < |blocks| && j != b ==> blocks[j].flags == old(blocks[j].flags)
      ensures forall j :: 0 <= j < |blocks| ==> Unflagged(blocks[j]) == old(Unflagged(blocks[j]))
    {
      BlocksDistinct(blocks, Repr, b);
      info := block.Init(portsInfo);
      ok, info := block.TryMakeConstant(info);
      FlagBitsIndependent(old(block.flags));
      untie := block.CanUntieLoop();
    }

    /** What a block is but for its CONSTANT bit. */
    ghost function Unflagged(b: Block): (bv32, map<TypeId, PortSet>, seq<(TypeId, nat)>, seq<Ptr>, set<object>)
      reads b
    {
      (b.flags & CAN_UNTIE_LOOP, b.portsBases, b.absoluteInputPorts, b.absoluteOutputPorts, b.Repr)
    }

    /** A change of CONSTANT bits alone keeps validity and everything the ordering pass reads. */
    twostate lemma FlagBitKept()
      requires old(Valid()) && unchanged(old(Repr) - old(BlockSet(blocks)))
      requires unchanged(this`blocks, this`blocksCount, this`Repr, this`sortedBlocks, this`activeBlocks, this`computeBlocks, this`frozenPorts)
      requires forall j :: 0 <= j < |blocks| ==> Unflagged(blocks[j]) == old(Unflagged(blocks[j]))
      ensures Valid() && SnapsOf(blocks, Repr) == old(SnapsOf(blocks, Repr)) && WiringsOf(blocks, Repr) == old(WiringsOf(blocks, Repr))
      ensures Frames(blocks) == old(Frames(blocks)) && InputLists(blocks) == old(InputLists(blocks))
    {
      forall j | 0 <= j < |blocks|
        ensures blocks[j].Valid() && blocks[j].Wiring() == old(blocks[j].Wiring())
        ensures blocks[j].FoldInputs() == old(blocks[j].FoldInputs()) && blocks[j].FoldOutput() == old(blocks[j].FoldOutput())
        ensures blocks[j].CanUntieLoop() == old(blocks[j].CanUntieLoop())
      {
        var b := blocks[j];
        assert Unflagged(b) == old(Unflagged(b));
        forall o | o in b.Repr && o != b
          ensures o in old(Repr) - old(BlockSet(blocks))
        {
          if o in BlockSet(blocks) {
            assert false;
          }
        }
        forall t | t in b.portsBases
          ensures b.portsBases[t].inputs[..] == old(b.portsBases[t].inputs[..])
        {
          assert b.portsBases[t].inputs in b.Repr;
        }
      }
    }

    /**
     * `build_signals`: both buffers are sized to the totals of the blocks'
     * signal counts and zeroed, and each block with a nonzero count is
     * attached at the running offset of the blocks before it; a block with
     * a zero count is left as it was.
     */
    method BuildSignals()
      requires Valid()
      modifies this`inputBuffer, this`outputBuffer, SignalObjects(blocks)
      ensures Valid()
      ensures inputBuffer == seq(Total(SignalInputCounts(blocks)), _ => 0.0)
      ensures outputBuffer == seq(Total(SignalOutputCounts(blocks)), _ => 0.0)
      ensures forall i :: 0 <= i < |blocks| && blocks[i].signals.Some? ==> Attached(i, old(SignalStates(blocks))[i])
    {
      var totalIn, totalOut := CountSignals();
      ClearBuffers(totalIn, totalOut);
      AttachSignals();
    }

    /** The buffers of `build_signals`: `totalIn` and `totalOut` zeros. */
    method ClearBuffers(totalIn: nat, totalOut: nat)
      requires Valid()
      modifies this`inputBuffer, this`outputBuffer
      ensures Valid()
      ensures inputBuffer == seq(totalIn, _ => 0.0) && outputBuffer == seq(totalOut, _ => 0.0)
    {
      inputBuffer, outputBuffer := seq(totalIn, _ => 0.0), seq(totalOut, _ => 0.0);
    }

    /** The first loop of `build_signals`: the totals of the blocks' signal counts. */
    method CountSignals() returns (totalIn: nat, totalOut: nat)
      ensures totalIn == Total(SignalInputCounts(blocks)) && totalOut == Total(SignalOutputCounts(blocks))
    {
      totalIn, totalOut := 0, 0;
      var i := 0;
      while i < |blocks|
        invariant 0 <= i <= |blocks|
        invariant totalIn == Total(SignalInputCounts(blocks)[..i]) && totalOut == Total(SignalOutputCounts(blocks)[..i])
      {
        assert SignalInputCounts(blocks)[..i + 1][..i] == SignalInputCounts(blocks)[..i];
        assert SignalOutputCounts(blocks)[..i + 1][..i] == SignalOutputCounts(blocks)[..i];
        if blocks[i].signals.Some? {
          totalIn := totalIn + blocks[i].signals.value.numInputs;
          totalOut := totalOut + blocks[i].signals.value.numOutputs;
        }
        i := i + 1;
      }
      assert SignalInputCounts(blocks)[..i] == SignalInputCounts(blocks);
      assert SignalOutputCounts(blocks)[..i] == SignalOutputCounts(blocks);
    }

    /** The second loop of `build_signals`: every block is attached at the running offsets. */
    method AttachSignals()
      requires Valid()
      modifies SignalObjects(blocks)
      ensures Valid()
      ensures forall i :: 0 <= i < |blocks| && blocks[i].signals.Some? ==> Attached(i, old(SignalStates(blocks))[i])
    {
      ghost var before := SignalStates(blocks);
      var inOffset, outOffset := 0, 0;
      var i := 0;
      while i < |blocks|
        invariant 0 <= i <= |blocks|
        invariant Valid() && AttachedUpTo(before, i)
        invariant inOffset == Total(SignalInputCounts(blocks)[..i]) && outOffset == Total(SignalOutputCounts(blocks)[..i])
      {
        inOffset, outOffset := AttachStep(before, i, inOffset, outOffset);
        i := i + 1;
      }
    }

    /**
     * The blocks before `i` are attached, and the slots of the others are
     * as in `before`.
     */
    ghost predicate AttachedUpTo(before: seq<SlotState>, i: nat)
      reads this, SignalObjects(blocks)
    {
      |before| == |blocks| && i <= |blocks| &&
      (forall j :: 0 <= j < i && blocks[j].signals.Some? ==> blocks[j].signals.value in SignalObjects(blocks) && Attached(j, before[j])) &&
      (forall j :: i <= j < |blocks| && blocks[j].signals.Some? ==> blocks[j].signals.value in SignalObjects(blocks) && SlotsOf(blocks[j].signals.value) == before[j])
    }

    /** One pass of the second loop of `build_signals`. */
    method AttachStep(ghost before: seq<SlotState>, i: nat, inOffset: nat, outOffset: nat) returns (nextIn: nat, nextOut: nat)
      requires Valid() && i < |blocks| && AttachedUpTo(before, i)
      requires inOffset == Total(SignalInputCounts(blocks)[..i]) && outOffset == Total(SignalOutputCounts(blocks)[..i])
      modifies SignalObjects(blocks)
      ensures Valid() && AttachedUpTo(before, i + 1)
      ensures nextIn == Total(SignalInputCounts(blocks)[..i + 1]) && nextOut == Total(SignalOutputCounts(blocks)[..i + 1])
    {
      TotalStep(blocks, i);
      nextIn, nextOut := inOffset + SignalInputCounts(blocks)[i], outOffset + SignalOutputCounts(blocks)[i];
      if blocks[i].signals.Some? {
        SignalsApart(i);
        AttachBlock(i, inOffset, outOffset);
      }
    }

    /** Different blocks have different signal slots. */
    lemma SignalsApart(i: nat)
      requires BlocksValid() && i < |blocks| && blocks[i].signals.Some?
      ensures forall j :: 0 <= j < |blocks| && j != i && blocks[j].signals.Some? ==> blocks[j].signals.value != blocks[i].signals.value
    {
      Apart(blocks, i, blocks[i].signals.value);
      forall j | 0 <= j < |blocks| && j != i && blocks[j].signals.Some?
        ensures blocks[j].signals.value != blocks[i].signals.value
      {
        assert blocks[j].signals.value in blocks[j].Repr;
      }
    }

    /** Block `i` is attached at the offsets of the blocks before it. */
    method AttachBlock(i: nat, inOffset: nat, outOffset: nat)
      requires i < |blocks| && blocks[i].signals.Some?
      requires inOffset == Total(SignalInputCounts(blocks)[..i]) && outOffset == Total(SignalOutputCounts(blocks)[..i])
      modifies blocks[i].signals.value
      ensures Attached(i, old(SlotsOf(blocks[i].signals.value)))
    {
      var sig := blocks[i].signals.value;
      if sig.numInputs > 0 {
        sig.AttachInputs(inOffset);
      }
      if sig.numOutputs > 0 {
        sig.AttachOutputs(outOffset);
      }
    }

    /**
     * Block `i`'s signal slots as `build_signals` leaves them: attached at
     * its offsets where it has values to exchange, and otherwise as `before`.
     */
    ghost predicate Attached(i: nat, before: SlotState)
      requires i < |blocks| && blocks[i].signals.Some?
      reads this, blocks[i].signals.value
    {
      var sig := blocks[i].signals.value;
      var inAt := Total(SignalInputCounts(blocks)[..i]);
      var outAt := Total(SignalOutputCounts(blocks)[..i]);
      (if sig.numInputs > 0 then sig.inputs == Some(inAt) && sig.inputOffset == inAt
       else sig.inputs == before.0 && sig.inputOffset == before.1) &&
      (if sig.numOutputs > 0 then sig.outputs == Some(outAt) && sig.outputOffset == outAt
       else sig.outputs == before.2 && sig.outputOffset == before.3)
    }

    /** `setInputs(values, count)`: the first `count` values of the input buffer are replaced. */
    method SetInputs(values: seq<real>, count: nat)
      requires count <= |values| && count <= |inputBuffer|
      modifies this`inputBuffer
      ensures |inputBuffer| == old(|inputBuffer|)
      ensures forall k :: 0 <= k < count ==> inputBuffer[k] == values[k]
      ensures forall k :: count <= k < |inputBuffer| ==> inputBuffer[k] == old(inputBuffer[k])
    {
      inputBuffer := values[..count] + inputBuffer[count..];
    }

    /** `getOutputs(values)`: the output buffer is copied to the front of `values`. */
    method GetOutputs(values: array<real>)
      requires |outputBuffer| <= values.Length
      modifies values
      ensures values[..|outputBuffer|] == outputBuffer
      ensures values[|outputBuffer|..] == old(values[|outputBuffer|..])
    {
      var k := 0;
      while k < |outputBuffer|
        invariant 0 <= k <= |outputBuffer|
        invariant values[..k] == outputBuffer[..k]
        invariant values[|outputBuffer|..] == old(values[|outputBuffer|..])
      {
        values[k] := outputBuffer[k];
        k := k + 1;
      }
    }

    /** `getOutputCount`. */
    function GetOutputCount(): nat
      reads this
    {
      |outputBuffer|
    }

    // ----- Frozen inputs -----

    /**
     * `freezePort(block, port, value)`: the wiring and the frozen table
     * become what `Freeze` says; an unfrozen input must exist.
     */
    method FreezePort(b: nat, port: nat, value: real)
      requires Valid()
      requires (b, port) !in frozenPorts ==> b < |blocks| && port < |blocks[b].absoluteInputPorts|
      modifies this`frozenPorts, InputVector(blocks, b, port)
      ensures Valid()
      ensures State(WiringsOf(blocks, Repr), frozenPorts) == Freeze(old(State(WiringsOf(blocks, Repr), frozenPorts)), InputLists(blocks), (b, port), value)
    {
      var key := (b, port);
      if key in frozenPorts {
        SetFrozen(frozenPorts[key := frozenPorts[key].(value := value)]);
      } else {
        FreezeNew(b, port, value);
      }
    }

    /** The case of `freezePort` where the input is not frozen yet. */
    method FreezeNew(b: nat, port: nat, value: real)
      requires Valid() && (b, port) !in frozenPorts && b < |blocks| && port < |blocks[b].absoluteInputPorts|
      modifies this`frozenPorts, InputVector(blocks, b, port)
      ensures Valid()
      ensures State(WiringsOf(blocks, Repr), frozenPorts) == Freeze(old(State(WiringsOf(blocks, Repr), frozenPorts)), InputLists(blocks), (b, port), value)
    {
      var key := (b, port);
      var original := blocks[b].GetInputPortAbsolute(port);
      ReadInput(blocks, Repr, b, port);
      SetFrozen(frozenPorts[key := FrozenPort(original, value)]);
      Rewire(b, port, Cell(key));
    }

    /** `unfreezePort(block, port)`: a frozen input gets its original pointer back and leaves the table. */
    method UnfreezePort(b: nat, port: nat)
      requires Valid()
      modifies this`frozenPorts, InputVector(blocks, b, port)
      ensures Valid()
      ensures State(WiringsOf(blocks, Repr), frozenPorts) == Unfreeze(old(State(WiringsOf(blocks, Repr), frozenPorts)), InputLists(blocks), (b, port))
    {
      var key := (b, port);
      if key in frozenPorts {
        UnfreezeKnown(b, port);
      }
    }

    /** The case of `unfreezePort` where the input is frozen. */
    method UnfreezeKnown(b: nat, port: nat)
      requires Valid() && (b, port) in frozenPorts
      modifies this`frozenPorts, InputVector(blocks, b, port)
      ensures Valid()
      ensures State(WiringsOf(blocks, Repr), frozenPorts) == Unfreeze(old(State(WiringsOf(blocks, Repr), frozenPorts)), InputLists(blocks), (b, port))
    {
      var key := (b, port);
      var original := frozenPorts[key].original;
      SetFrozen(frozenPorts - {key});
      Rewire(b, port, original);
    }

    /** `unfreezeAllPorts`: every frozen input, in key order, gets its original back; the table is emptied. */
    method UnfreezeAllPorts()
      requires Valid()
      modifies this`frozenPorts, InputVectors(blocks)
      ensures Valid()
      ensures State(WiringsOf(blocks, Repr), frozenPorts) == UnfreezeAll(old(State(WiringsOf(blocks, Repr), frozenPorts)), InputLists(blocks))
    {
      var keys := SortedPairs(frozenPorts.Keys);
      SortedPairsFacts(frozenPorts.Keys);
      RestoreKeys(keys);
      SetFrozen(map[]);
    }

    /** The loop of `unfreezeAllPorts`: the inputs that the frozen keys `keys` name are restored in order. */
    method RestoreKeys(keys: seq<Key>)
      requires Valid() && forall k :: 0 <= k < |keys| ==> keys[k] in frozenPorts
      modifies InputVectors(blocks)
      ensures Valid() && InputLists(blocks) == old(InputLists(blocks)) && frozenPorts == old(frozenPorts)
      ensures WiringsOf(blocks, Repr) == Restore(old(WiringsOf(blocks, Repr)), frozenPorts, InputLists(blocks), keys)
    {
      ghost var ws := WiringsOf(blocks, Repr);
      ghost var entries := InputLists(blocks);
      var k := 0;
      while k < |keys|
        invariant 0 <= k <= |keys|
        invariant Valid() && InputLists(blocks) == entries && frozenPorts == old(frozenPorts)
        invariant WiringsOf(blocks, Repr) == Restore(ws, frozenPorts, entries, keys[..k])
      {
        RestoreStep(ws, entries, keys, k);
        k := k + 1;
      }
      assert keys[..k] == keys;
    }

    /** One pass of the loop of `unfreezeAllPorts`: key `keys[k]` is restored. */
    method RestoreStep(ghost ws: seq<Wiring>, ghost entries: seq<seq<(TypeId, nat)>>, keys: seq<Key>, k: nat)
      requires Valid() && k < |keys| && forall j :: 0 <= j < |keys| ==> keys[j] in frozenPorts
      requires InputLists(blocks) == entries && WiringsOf(blocks, Repr) == Restore(ws, frozenPorts, entries, keys[..k])
      modifies InputVectors(blocks)
      ensures Valid() && InputLists(blocks) == entries && frozenPorts == old(frozenPorts)
      ensures WiringsOf(blocks, Repr) == Restore(ws, frozenPorts, entries, keys[..k + 1])
    {
      var key := keys[k];
      assert keys[..k + 1][..k] == keys[..k];
      assert InputVector(blocks, key.0, key.1) <= InputVectors(blocks) by {
        assert blocks[key.0] in blocks;
      }
      Rewire(key.0, key.1, frozenPorts[key].original);
    }

    /**
     * `blocks[b]->setInputPortAbsolute(port, p)`: the scheme's wiring gets
     * that one slot written, and nothing else of the scheme changes.
     */
    method Rewire(b: nat, port: nat, p: Ptr)
      requires Valid() && b < |blocks| && port < |blocks[b].absoluteInputPorts|
      modifies InputVector(blocks, b, port)
      ensures Valid() && InputLists(blocks) == old(InputLists(blocks)) && Frames(blocks) == old(Frames(blocks)) && frozenPorts == old(frozenPorts)
      ensures IndexesAre(old(CurrentTables()))
      ensures OutputLists(blocks) == old(OutputLists(blocks))
      ensures WiringsOf(blocks, Repr) == WriteSlot(old(WiringsOf(blocks, Repr)), SlotOf(InputLists(blocks), b, port), p)
    {
      ghost var ws := WiringsOf(blocks, Repr);
      var (t, i) := blocks[b].absoluteInputPorts[port];
      RewireBlock(blocks, b, port, t, i, p);
      assert Held(blocks, Repr);
      ghost var after := WiringsOf(blocks, Repr);
      assert forall j :: 0 <= j < |blocks| && j != b ==> after[j] == ws[j];
      WriteSlotExact(ws, after, (b, t, i), p);
    }

    /** Replace the table of frozen inputs; the wiring is left alone. */
    method SetFrozen(table: Table)
      requires Valid() && forall k :: k in table ==> k.0 < |blocks| && k.1 < |blocks[k.0].absoluteInputPorts|
      modifies this`frozenPorts
      ensures Valid() && frozenPorts == table
      ensures InputLists(blocks) == old(InputLists(blocks)) && WiringsOf(blocks, Repr) == old(WiringsOf(blocks, Repr))
    {
      frozenPorts := table;
    }

    // ----- Links (src/scheme/set-links.cpp) -----

    /**
     * The totals, arenas and index tables that `allocate_memory` leaves when
     * the blocks' output shapes were `shapes`, the arenas `mem` and the
     * planned tables `t`.
     */
    ghost predicate Allocated(shapes: seq<Shape>, mem: map<TypeId, nat>, t: Tables)
      reads this`totalOutputs, this`portMemory
      reads this`absoluteInputIndex, this`absoluteOutputIndex, this`relativeInputIndex, this`relativeOutputIndex
    {
      totalOutputs == TotalOutputs(shapes) && portMemory == Arena(mem, totalOutputs, registry) && IndexesAre(t)
    }

    /** The index tables besides the ports table are those of `t`. */
    predicate IndexesAre(t: Tables)
      reads this`absoluteInputIndex, this`absoluteOutputIndex, this`relativeInputIndex, this`relativeOutputIndex
    {
      absoluteInputIndex == t.absoluteInputs && absoluteOutputIndex == t.absoluteOutputs &&
      relativeInputIndex == t.relativeInputs && relativeOutputIndex == t.relativeOutputs
    }

    /**
     * `setAbsoluteLinks(n, links)`: allocate, bind the `n` links of stride 2,
     * `[output, input]`, through the absolute tables, and order the blocks.
     * No index is checked by the source, so every link must name entries of
     * the tables that the allocation builds.
     */
    method SetAbsoluteLinks(n: nat, links: seq<nat>, order: seq<nat>)
      requires Valid() && ShapesRegistered(registry, OutputShapes(blocks)) && Bounded(order, |blocks|)
      requires AbsoluteFit(links, n, PlannedTables(), PlannedInputs(blocks))
      modifies this`totalOutputs, this`portMemory, PortSetsOf(blocks), BlockSet(blocks), InputVectors(blocks)
      modifies this`absoluteOutputIndex, this`relativeOutputIndex, this`absoluteInputIndex, this`relativeInputIndex, this`portsInfo
      modifies this`directGraph, this`sortedBlocks, this`time, this`activeBlocks, this`computeBlocks, this`calls
      ensures Valid() && Frames(blocks) == old(Frames(blocks)) && InputLists(blocks) == old(PlannedInputs(blocks))
      ensures var ls := AbsoluteLinks(links, n, old(PlannedTables()), old(PlannedInputs(blocks)));
        WiringsOf(blocks, Repr) == Wired(old(WiringsOf(blocks, Repr)), ls) && directGraph == AddEdges(old(directGraph), ls)
      ensures Allocated(old(OutputShapes(blocks)), old(portMemory), old(PlannedTables()))
      ensures OrderedFrom(order, old(sortedBlocks), old(calls), Touched(old(PlannedTables()).info, AbsoluteLinks(links, n, old(PlannedTables()), old(PlannedInputs(blocks)))), old(activeBlocks), old(computeBlocks), old(FlagsOf(blocks)))
    {
      ghost var t, ins := PlannedTables(), PlannedInputs(blocks);
      ghost var ls := AbsoluteLinks(links, n, t, ins);
      VectorsOfFrames(blocks);
      AllocatePlanned();
      assert CurrentTables() == t && InputLists(blocks) == ins && portsInfo == t.info;
      OrderAbsolute(n, links, order, ls);
    }

    /** `setAbsoluteLinks` after the allocation: bind every link, then the ordering pass. */
    method OrderAbsolute(n: nat, links: seq<nat>, order: seq<nat>, ghost ls: seq<Link>)
      requires Valid() && Bounded(order, |blocks|) && AbsoluteFit(links, n, CurrentTables(), InputLists(blocks))
      requires ls == AbsoluteLinks(links, n, CurrentTables(), InputLists(blocks))
      modifies VectorsOf(Frames(blocks)), this`directGraph, this`sortedBlocks, this`time, this`activeBlocks, this`computeBlocks, this`portsInfo
      modifies this`calls, BlockSet(blocks)
      ensures Valid() && Frames(blocks) == old(Frames(blocks)) && InputLists(blocks) == old(InputLists(blocks))
      ensures WiringsOf(blocks, Repr) == Wired(old(WiringsOf(blocks, Repr)), ls) && directGraph == AddEdges(old(directGraph), ls)
      ensures unchanged(this`totalOutputs, this`portMemory, this`absoluteInputIndex, this`absoluteOutputIndex, this`relativeInputIndex, this`relativeOutputIndex)
      ensures OrderedFrom(order, old(sortedBlocks), old(calls), Touched(old(portsInfo), ls), old(activeBlocks), old(computeBlocks), old(FlagsOf(blocks)))
    {
      BindAbsolute(n, links);
      assert sortedBlocks == old(sortedBlocks) && calls == old(calls) && FlagsOf(blocks) == old(FlagsOf(blocks));
      ComputeCalculationOrder(order);
    }

    /**
     * The loop of `setAbsoluteLinks`: `absolute_input_index[input]` names a
     * block and one of its absolute inputs, which is pointed at the address
     * `absolute_output_index[output]` holds, and the edge from the block
     * `ports_info` records as that address's owner is appended.
     */
    method BindAbsolute(n: nat, links: seq<nat>)
      requires Valid() && AbsoluteFit(links, n, CurrentTables(), InputLists(blocks))
      modifies VectorsOf(Frames(blocks)), this`directGraph, this`portsInfo
      ensures Valid() && Frames(blocks) == old(Frames(blocks)) && InputLists(blocks) == old(InputLists(blocks))
      ensures FlagsOf(blocks) == old(FlagsOf(blocks))
      ensures unchanged(this`totalOutputs, this`portMemory, this`absoluteInputIndex, this`absoluteOutputIndex, this`relativeInputIndex, this`relativeOutputIndex)
      ensures var ls := AbsoluteLinks(links, n, old(CurrentTables()), old(InputLists(blocks)));
        WiringsOf(blocks, Repr) == Wired(old(WiringsOf(blocks, Repr)), ls) &&
        directGraph == AddEdges(old(directGraph), ls) && portsInfo == Touched(old(portsInfo), ls)
    {
      ghost var t, ins, ws, g := CurrentTables(), InputLists(blocks), WiringsOf(blocks, Repr), directGraph;
      ghost var frames := Frames(blocks);
      ghost var ls := AbsoluteLinks(links, n, t, ins);
      var at := 0;
      ghost var k := 0;
      while at != n * 2
        invariant k <= n && at == k * 2
        invariant Valid() && InputLists(blocks) == ins && Frames(blocks) == frames && IndexesAre(t)
        invariant Applied(ws, g, ls, k, WiringsOf(blocks, Repr), directGraph) && portsInfo == Touched(t.info, ls[..k])
        decreases n - k
      {
        BindAbsoluteStep(links, n, at, k, t, ins, frames, ws, g, ls);
        at, k := at + 2, k + 1;
      }
      AppliedAll(ws, g, ls, WiringsOf(blocks, Repr), directGraph);
      assert ls[..k] == ls;
    }

    /** Link `k` of the loop of `setAbsoluteLinks`, the two numbers from `links[at]` on, applied after the ones before it. */
    method BindAbsoluteStep(links: seq<nat>, n: nat, at: nat, ghost k: nat, ghost t: Tables, ghost ins: seq<seq<(TypeId, nat)>>,
                            ghost frames: seq<(map<TypeId, PortSet>, set<object>)>, ghost ws: seq<Wiring>,
                            ghost g: map<nat, seq<nat>>, ghost ls: seq<Link>)
      requires k < n && at == k * 2 && AbsoluteFit(links, n, t, ins) && ls == AbsoluteLinks(links, n, t, ins)
      requires Valid() && InputLists(blocks) == ins && Frames(blocks) == frames && IndexesAre(t)
      requires Applied(ws, g, ls, k, WiringsOf(blocks, Repr), directGraph) && portsInfo == Touched(t.info, ls[..k])
      modifies VectorsOf(frames), this`directGraph, this`portsInfo
      ensures Valid() && InputLists(blocks) == ins && Frames(blocks) == frames && IndexesAre(t)
      ensures Applied(ws, g, ls, k + 1, WiringsOf(blocks, Repr), directGraph) && portsInfo == Touched(t.info, ls[..k + 1])
    {
      AbsoluteAt(links, n, t, ins, k);
      var link := links[at..at + 2];
      var (b, port) := absoluteInputIndex[link[1]];
      var p := absoluteOutputIndex[link[0]].1;
      LinkStep(ws, g, t.info, ls, k);
      TouchedMeaning(t.info, ls[..k]);
      AppliedNext(ws, g, ls, k, WiringsOf(blocks, Repr), directGraph);
      VectorIn(blocks, b, port);
      LinkThroughTables(b, port, p);
    }

    /**
     * One link of `setAbsoluteLinks`: `setInputPortAbsolute(port, p)` on
     * block `b`, then `direct_graph[ports_info[p].block_index].push_back(b)`,
     * where reading `ports_info[p]` inserts a default entry for a new address.
     */
    method LinkThroughTables(b: nat, port: nat, p: Ptr)
      requires Valid() && b < |blocks| && port < |blocks[b].absoluteInputPorts|
      modifies InputVector(blocks, b, port), this`directGraph, this`portsInfo
      ensures Valid() && InputLists(blocks) == old(InputLists(blocks)) && Frames(blocks) == old(Frames(blocks))
      ensures IndexesAre(old(CurrentTables()))
      ensures WiringsOf(blocks, Repr) == WriteSlot(old(WiringsOf(blocks, Repr)), SlotOf(InputLists(blocks), b, port), p)
      ensures portsInfo == Touch(old(portsInfo), p) && directGraph == AddEdge(old(directGraph), InfoAt(old(portsInfo), p).blockIndex, b)
    {
      Rewire(b, port, p);
      RecordEdge(p, b);
    }

    /** `direct_graph[ports_info[p].block_index].push_back(to)`; reading `ports_info[p]` inserts a default entry for a new address. */
    method RecordEdge(p: Ptr, to: nat)
      requires Valid()
      modifies this`directGraph, this`portsInfo
      ensures Valid() && InputLists(blocks) == old(InputLists(blocks)) && Frames(blocks) == old(Frames(blocks))
      ensures WiringsOf(blocks, Repr) == old(WiringsOf(blocks, Repr))
      ensures portsInfo == Touch(old(portsInfo), p) && directGraph == AddEdge(old(directGraph), InfoAt(old(portsInfo), p).blockIndex, to)
    {
      var info := Touch(portsInfo, p);
      assert info[p] == InfoAt(info, p) == InfoAt(portsInfo, p);
      portsInfo := info;
      directGraph := AddEdge(directGraph, info[p].blockIndex, to);
    }

    /**
     * `setRelativeLinks`: the arena is allocated, every link
     * `[type, output, input]` is bound through the relative tables, and the
     * ordering pass runs. `relative_input_index[type][input]` names a block
     * and one of its inputs of that type, which is pointed at
     * `relative_output_index[type][output]`; the edge is from the block
     * `ports_info` records as that address's owner. No position is checked
     * by the source, so every link must name entries of the tables that the
     * allocation builds.
     */
    method SetRelativeLinks(n: nat, links: seq<nat>, order: seq<nat>)
      requires Valid() && ShapesRegistered(registry, OutputShapes(blocks)) && Bounded(order, |blocks|)
      requires RelativeFit(links, n, PlannedTables(), InputShapes(blocks))
      modifies this`totalOutputs, this`portMemory, PortSetsOf(blocks), BlockSet(blocks), InputVectors(blocks)
      modifies this`absoluteOutputIndex, this`relativeOutputIndex, this`absoluteInputIndex, this`relativeInputIndex, this`portsInfo
      modifies this`directGraph, this`sortedBlocks, this`time, this`activeBlocks, this`computeBlocks, this`calls
      ensures Valid() && Frames(blocks) == old(Frames(blocks)) && InputLists(blocks) == old(PlannedInputs(blocks))
      ensures var ls := RelativeLinks(links, n, old(PlannedTables()), old(InputShapes(blocks)));
        WiringsOf(blocks, Repr) == Wired(old(WiringsOf(blocks, Repr)), ls) && directGraph == AddEdges(old(directGraph), ls)
      ensures Allocated(old(OutputShapes(blocks)), old(portMemory), old(PlannedTables()))
      ensures OrderedFrom(order, old(sortedBlocks), old(calls), Touched(old(PlannedTables()).info, RelativeLinks(links, n, old(PlannedTables()), old(InputShapes(blocks)))), old(activeBlocks), old(computeBlocks), old(FlagsOf(blocks)))
    {
      ghost var t, shapes := PlannedTables(), InputShapes(blocks);
      ghost var ls := RelativeLinks(links, n, t, shapes);
      VectorsOfFrames(blocks);
      ShapesOfFrames(blocks);
      AllocatePlanned();
      ShapesOfFrames(blocks);
      assert CurrentTables() == t && InputShapes(blocks) == shapes && portsInfo == t.info;
      OrderRelative(n, links, order, ls);
    }

    /** `setRelativeLinks` after the allocation: bind every link, then the ordering pass. */
    method OrderRelative(n: nat, links: seq<nat>, order: seq<nat>, ghost ls: seq<Link>)
      requires Valid() && Bounded(order, |blocks|) && RelativeFit(links, n, CurrentTables(), InputShapes(blocks))
      requires ls == RelativeLinks(links, n, CurrentTables(), InputShapes(blocks))
      modifies VectorsOf(Frames(blocks)), this`directGraph, this`sortedBlocks, this`time, this`activeBlocks, this`computeBlocks, this`portsInfo
      modifies this`calls, BlockSet(blocks)
      ensures Valid() && Frames(blocks) == old(Frames(blocks)) && InputLists(blocks) == old(InputLists(blocks))
      ensures WiringsOf(blocks, Repr) == Wired(old(WiringsOf(blocks, Repr)), ls) && directGraph == AddEdges(old(directGraph), ls)
      ensures unchanged(this`totalOutputs, this`portMemory, this`absoluteInputIndex, this`absoluteOutputIndex, this`relativeInputIndex, this`relativeOutputIndex)
      ensures OrderedFrom(order, old(sortedBlocks), old(calls), Touched(old(portsInfo), ls), old(activeBlocks), old(computeBlocks), old(FlagsOf(blocks)))
    {
      BindRelative(n, links);
      assert sortedBlocks == old(sortedBlocks) && calls == old(calls) && FlagsOf(blocks) == old(FlagsOf(blocks));
      ComputeCalculationOrder(order);
    }

    /** The loop of `setRelativeLinks`, three numbers per link. */
    method BindRelative(n: nat, links: seq<nat>)
      requires Valid() && RelativeFit(links, n, CurrentTables(), InputShapes(blocks))
      modifies VectorsOf(Frames(blocks)), this`directGraph, this`portsInfo
      ensures Valid() && Frames(blocks) == old(Frames(blocks)) && InputLists(blocks) == old(InputLists(blocks))
      ensures FlagsOf(blocks) == old(FlagsOf(blocks))
      ensures unchanged(this`totalOutputs, this`portMemory, this`absoluteInputIndex, this`absoluteOutputIndex, this`relativeInputIndex, this`relativeOutputIndex)
      ensures var ls := RelativeLinks(links, n, old(CurrentTables()), old(InputShapes(blocks)));
        WiringsOf(blocks, Repr) == Wired(old(WiringsOf(blocks, Repr)), ls) &&
        directGraph == AddEdges(old(directGraph), ls) && portsInfo == Touched(old(portsInfo), ls)
    {
      ghost var t, ins, ws, g := CurrentTables(), InputLists(blocks), WiringsOf(blocks, Repr), directGraph;
      ghost var frames, shapes := Frames(blocks), InputShapes(blocks);
      ghost var ls := RelativeLinks(links, n, t, shapes);
      ShapesOfFrames(blocks);
      var at := 0;
      ghost var k := 0;
      while at != n * 3
        invariant k <= n && at == k * 3
        invariant Valid() && InputLists(blocks) == ins && Frames(blocks) == frames && IndexesAre(t)
        invariant Applied(ws, g, ls, k, WiringsOf(blocks, Repr), directGraph) && portsInfo == Touched(t.info, ls[..k])
        decreases n - k
      {
        BindRelativeStep(links, n, at, k, t, shapes, frames, ins, ws, g, ls);
        at, k := at + 3, k + 1;
      }
      AppliedAll(ws, g, ls, WiringsOf(blocks, Repr), directGraph);
      assert ls[..k] == ls;
    }

    /** Link `k` of the loop of `setRelativeLinks`, the three numbers from `links[at]` on, applied after the ones before it. */
    method BindRelativeStep(links: seq<nat>, n: nat, at: nat, ghost k: nat, ghost t: Tables, ghost shapes: seq<Shape>,
                            ghost frames: seq<(map<TypeId, PortSet>, set<object>)>, ghost ins: seq<seq<(TypeId, nat)>>,
                            ghost ws: seq<Wiring>, ghost g: map<nat, seq<nat>>, ghost ls: seq<Link>)
      requires k < n && at == k * 3 && RelativeFit(links, n, t, shapes) && ls == RelativeLinks(links, n, t, shapes)
      requires Valid() && InputLists(blocks) == ins && Frames(blocks) == frames && shapes == FrameShapes(frames) && IndexesAre(t)
      requires Applied(ws, g, ls, k, WiringsOf(blocks, Repr), directGraph) && portsInfo == Touched(t.info, ls[..k])
      modifies VectorsOf(frames), this`directGraph, this`portsInfo
      ensures Valid() && InputLists(blocks) == ins && Frames(blocks) == frames && IndexesAre(t)
      ensures Applied(ws, g, ls, k + 1, WiringsOf(blocks, Repr), directGraph) && portsInfo == Touched(t.info, ls[..k + 1])
    {
      RelativeAt(links, n, t, shapes, k);
      var link := links[at..at + 3];
      var typeHash := link[0];
      var (b, i) := relativeInputIndex[typeHash][link[2]];
      var p := relativeOutputIndex[typeHash][link[1]];
      ShapesOfFrames(blocks);
      LinkStep(ws, g, t.info, ls, k);
      TouchedMeaning(t.info, ls[..k]);
      AppliedNext(ws, g, ls, k, WiringsOf(blocks, Repr), directGraph);
      TypeVectorIn(blocks, b, typeHash);
      LinkThroughRelativeTables(b, typeHash, i, p);
    }

    /**
     * One link of `setRelativeLinks`: `setInputPortRelative(t, i, p)` on
     * block `b`, then the edge from the block `ports_info` records as the
     * owner of `p`, whose entry reading inserts for a new address.
     */
    method LinkThroughRelativeTables(b: nat, t: TypeId, i: nat, p: Ptr)
      requires Valid() && b < |blocks| && t in blocks[b].portsBases && i < blocks[b].portsBases[t].inputCount
      modifies TypeVector(blocks, b, t), this`directGraph, this`portsInfo
      ensures Valid() && InputLists(blocks) == old(InputLists(blocks)) && Frames(blocks) == old(Frames(blocks))
      ensures IndexesAre(old(CurrentTables()))
      ensures WiringsOf(blocks, Repr) == WriteSlot(old(WiringsOf(blocks, Repr)), (b, t, i), p)
      ensures portsInfo == Touch(old(portsInfo), p) && directGraph == AddEdge(old(directGraph), InfoAt(old(portsInfo), p).blockIndex, b)
    {
      RewireRelative(b, t, i, p);
      RecordEdge(p, b);
    }

    /** `blocks[b]->setInputPortRelative(t, i, p)`: that one slot is written and nothing else of the scheme changes. */
    method RewireRelative(b: nat, t: TypeId, i: nat, p: Ptr)
      requires Valid() && b < |blocks| && t in blocks[b].portsBases && i < blocks[b].portsBases[t].inputCount
      modifies TypeVector(blocks, b, t)
      ensures Valid() && InputLists(blocks) == old(InputLists(blocks)) && Frames(blocks) == old(Frames(blocks))
      ensures IndexesAre(old(CurrentTables())) && BasesOf(blocks, Repr) == old(BasesOf(blocks, Repr))
      ensures WiringsOf(blocks, Repr) == WriteSlot(old(WiringsOf(blocks, Repr)), (b, t, i), p)
    {
      ghost var ws := WiringsOf(blocks, Repr);
      RewireRelativeBlock(blocks, b, t, i, p);
      assert Held(blocks, Repr);
      ghost var after := WiringsOf(blocks, Repr);
      assert forall j :: 0 <= j < |blocks| && j != b ==> after[j] == ws[j];
      WriteSlotExact(ws, after, (b, t, i), p);
    }

    /**
     * `setAbsoluteBlockLinks`: the arena is allocated, every link
     * `[output block, output, input block, input]` points absolute input
     * `input` of the input block at absolute output `output` of the output
     * block and appends the edge between the two blocks, and the ordering
     * pass runs. Nothing is checked by the source, so every link must name
     * blocks and positions of the lists that the allocation builds.
     */
    method SetAbsoluteBlockLinks(n: nat, links: seq<nat>, order: seq<nat>)
      requires Valid() && ShapesRegistered(registry, OutputShapes(blocks)) && Bounded(order, |blocks|)
      requires AbsoluteBlockFit(links, n, PlannedOutputs(blocks, registry), PlannedInputs(blocks))
      modifies this`totalOutputs, this`portMemory, PortSetsOf(blocks), BlockSet(blocks), InputVectors(blocks)
      modifies this`absoluteOutputIndex, this`relativeOutputIndex, this`absoluteInputIndex, this`relativeInputIndex, this`portsInfo
      modifies this`directGraph, this`sortedBlocks, this`time, this`activeBlocks, this`computeBlocks, this`calls
      ensures Valid() && Frames(blocks) == old(Frames(blocks)) && InputLists(blocks) == old(PlannedInputs(blocks))
      ensures var ls := AbsoluteBlockLinks(links, n, old(PlannedOutputs(blocks, registry)), old(PlannedInputs(blocks)));
        WiringsOf(blocks, Repr) == Wired(old(WiringsOf(blocks, Repr)), ls) && directGraph == AddEdges(old(directGraph), ls)
      ensures Allocated(old(OutputShapes(blocks)), old(portMemory), old(PlannedTables()))
      ensures OrderedFrom(order, old(sortedBlocks), old(calls), old(PlannedTables()).info, old(activeBlocks), old(computeBlocks), old(FlagsOf(blocks)))
    {
      ghost var outs, ins := PlannedOutputs(blocks, registry), PlannedInputs(blocks);
      ghost var ls := AbsoluteBlockLinks(links, n, outs, ins);
      VectorsOfFrames(blocks);
      AllocatePlanned();
      assert OutputLists(blocks) == outs && InputLists(blocks) == ins && portsInfo == old(PlannedTables()).info;
      OrderAbsoluteBlocks(n, links, order, ls);
    }

    /** `setAbsoluteBlockLinks` after the allocation: bind every link, then the ordering pass. */
    method OrderAbsoluteBlocks(n: nat, links: seq<nat>, order: seq<nat>, ghost ls: seq<Link>)
      requires Valid() && Bounded(order, |blocks|) && AbsoluteBlockFit(links, n, OutputLists(blocks), InputLists(blocks))
      requires ls == AbsoluteBlockLinks(links, n, OutputLists(blocks), InputLists(blocks))
      modifies VectorsOf(Frames(blocks)), this`directGraph, this`sortedBlocks, this`time, this`activeBlocks, this`computeBlocks, this`portsInfo
      modifies this`calls, BlockSet(blocks)
      ensures Valid() && Frames(blocks) == old(Frames(blocks)) && InputLists(blocks) == old(InputLists(blocks))
      ensures WiringsOf(blocks, Repr) == Wired(old(WiringsOf(blocks, Repr)), ls) && directGraph == AddEdges(old(directGraph), ls)
      ensures unchanged(this`totalOutputs, this`portMemory, this`absoluteInputIndex, this`absoluteOutputIndex, this`relativeInputIndex, this`relativeOutputIndex)
      ensures OrderedFrom(order, old(sortedBlocks), old(calls), old(portsInfo), old(activeBlocks), old(computeBlocks), old(FlagsOf(blocks)))
    {
      BindAbsoluteBlocks(n, links);
      assert sortedBlocks == old(sortedBlocks) && calls == old(calls) && FlagsOf(blocks) == old(FlagsOf(blocks));
      ComputeCalculationOrder(order);
    }

    /** The loop of `setAbsoluteBlockLinks`, four numbers per link. */
    method BindAbsoluteBlocks(n: nat, links: seq<nat>)
      requires Valid() && AbsoluteBlockFit(links, n, OutputLists(blocks), InputLists(blocks))
      modifies VectorsOf(Frames(blocks)), this`directGraph
      ensures Valid() && Frames(blocks) == old(Frames(blocks)) && InputLists(blocks) == old(InputLists(blocks))
      ensures FlagsOf(blocks) == old(FlagsOf(blocks))
      ensures var ls := AbsoluteBlockLinks(links, n, old(OutputLists(blocks)), old(InputLists(blocks)));
        WiringsOf(blocks, Repr) == Wired(old(WiringsOf(blocks, Repr)), ls) && directGraph == AddEdges(old(directGraph), ls)
    {
      ghost var outs, ins, ws, g := OutputLists(blocks), InputLists(blocks), WiringsOf(blocks, Repr), directGraph;
      ghost var frames := Frames(blocks);
      ghost var ls := AbsoluteBlockLinks(links, n, outs, ins);
      var at := 0;
      ghost var k := 0;
      while at != n * 4
        invariant k <= n && at == k * 4
        invariant Valid() && OutputLists(blocks) == outs && InputLists(blocks) == ins && Frames(blocks) == frames
        invariant Applied(ws, g, ls, k, WiringsOf(blocks, Repr), directGraph)
        decreases n - k
      {
        BindAbsoluteBlockStep(links, n, at, k, outs, ins, frames, ws, g, ls);
        at, k := at + 4, k + 1;
      }
      AppliedAll(ws, g, ls, WiringsOf(blocks, Repr), directGraph);
    }

    /**
     * Link `k` of the loop of `setAbsoluteBlockLinks`, the four numbers from
     * `links[at]` on: absolute input `link[3]` of block `link[2]` is pointed
     * at absolute output `link[1]` of block `link[0]`, then the edge
     * `link[0] -> link[2]` is recorded.
     */
    method BindAbsoluteBlockStep(links: seq<nat>, n: nat, at: nat, ghost k: nat, ghost outs: seq<seq<Ptr>>, ghost ins: seq<seq<(TypeId, nat)>>,
                                 ghost frames: seq<(map<TypeId, PortSet>, set<object>)>, ghost ws: seq<Wiring>,
                                 ghost g: map<nat, seq<nat>>, ghost ls: seq<Link>)
      requires k < n && at == k * 4 && AbsoluteBlockFit(links, n, outs, ins) && ls == AbsoluteBlockLinks(links, n, outs, ins)
      requires Valid() && OutputLists(blocks) == outs && InputLists(blocks) == ins && Frames(blocks) == frames
      requires Applied(ws, g, ls, k, WiringsOf(blocks, Repr), directGraph)
      modifies VectorsOf(frames), this`directGraph
      ensures Valid() && OutputLists(blocks) == outs && InputLists(blocks) == ins && Frames(blocks) == frames
      ensures Applied(ws, g, ls, k + 1, WiringsOf(blocks, Repr), directGraph)
    {
      AbsoluteBlockAt(links, n, outs, ins, k);
      var link := links[at..at + 4];
      var p := blocks[link[0]].GetOutputPortAbsolute(link[1]);
      AppliedNext(ws, g, ls, k, WiringsOf(blocks, Repr), directGraph);
      VectorIn(blocks, link[2], link[3]);
      Rewire(link[2], link[3], p);
      AppendEdge(link[0], link[2]);
    }

    /** `direct_graph[from].push_back(to)`; nothing else of the scheme changes. */
    method AppendEdge(from: nat, to: nat)
      requires Valid()
      modifies this`directGraph
      ensures Valid() && InputLists(blocks) == old(InputLists(blocks)) && Frames(blocks) == old(Frames(blocks))
      ensures OutputLists(blocks) == old(OutputLists(blocks)) && WiringsOf(blocks, Repr) == old(WiringsOf(blocks, Repr))
      ensures BasesOf(blocks, Repr) == old(BasesOf(blocks, Repr))
      ensures directGraph == AddEdge(old(directGraph), from, to)
    {
      directGraph := AddEdge(directGraph, from, to);
    }

    /**
     * `setRelativeBlockLinks`: the arena is allocated, every link
     * `[type, output block, output, input block, input]` points input
     * `input` of that type of the input block at output `output` of that
     * type of the output block, and appends the edge between the two
     * blocks, and the ordering pass runs. Both blocks must have the type
     * (`ports_bases.at` throws otherwise); the output position is not
     * checked, so its address is computed past the block's outputs as the
     * source computes it.
     */
    method SetRelativeBlockLinks(n: nat, links: seq<nat>, order: seq<nat>)
      requires Valid() && ShapesRegistered(registry, OutputShapes(blocks)) && Bounded(order, |blocks|)
      requires RelativeBlockFit(links, n, PlannedBases(blocks, registry), SizesOf(blocks), InputShapes(blocks))
      modifies this`totalOutputs, this`portMemory, PortSetsOf(blocks), BlockSet(blocks), InputVectors(blocks)
      modifies this`absoluteOutputIndex, this`relativeOutputIndex, this`absoluteInputIndex, this`relativeInputIndex, this`portsInfo
      modifies this`directGraph, this`sortedBlocks, this`time, this`activeBlocks, this`computeBlocks, this`calls
      ensures Valid() && Frames(blocks) == old(Frames(blocks)) && InputLists(blocks) == old(PlannedInputs(blocks))
      ensures var ls := RelativeBlockLinks(links, n, old(PlannedBases(blocks, registry)), old(SizesOf(blocks)), old(InputShapes(blocks)));
        WiringsOf(blocks, Repr) == Wired(old(WiringsOf(blocks, Repr)), ls) && directGraph == AddEdges(old(directGraph), ls)
      ensures Allocated(old(OutputShapes(blocks)), old(portMemory), old(PlannedTables()))
      ensures OrderedFrom(order, old(sortedBlocks), old(calls), old(PlannedTables()).info, old(activeBlocks), old(computeBlocks), old(FlagsOf(blocks)))
    {
      ghost var bases := PlannedBases(blocks, registry);
      ghost var ls := RelativeBlockLinks(links, n, bases, SizesOf(blocks), InputShapes(blocks));
      VectorsOfFrames(blocks);
      ShapesOfFrames(blocks);
      SizesOfFrames(blocks);
      AllocatePlanned();
      assert BasesOf(blocks, Repr) == bases && portsInfo == old(PlannedTables()).info;
      OrderRelativeBlocks(n, links, order, ls);
    }

    /** `setRelativeBlockLinks` after the allocation: bind every link, then the ordering pass. */
    method OrderRelativeBlocks(n: nat, links: seq<nat>, order: seq<nat>, ghost ls: seq<Link>)
      requires Valid() && Bounded(order, |blocks|) && RelativeBlockFit(links, n, BasesOf(blocks, Repr), FrameSizes(Frames(blocks)), FrameShapes(Frames(blocks)))
      requires ls == RelativeBlockLinks(links, n, BasesOf(blocks, Repr), FrameSizes(Frames(blocks)), FrameShapes(Frames(blocks)))
      modifies VectorsOf(Frames(blocks)), this`directGraph, this`sortedBlocks, this`time, this`activeBlocks, this`computeBlocks, this`portsInfo
      modifies this`calls, BlockSet(blocks)
      ensures Valid() && Frames(blocks) == old(Frames(blocks)) && InputLists(blocks) == old(InputLists(blocks))
      ensures WiringsOf(blocks, Repr) == Wired(old(WiringsOf(blocks, Repr)), ls) && directGraph == AddEdges(old(directGraph), ls)
      ensures unchanged(this`totalOutputs, this`portMemory, this`absoluteInputIndex, this`absoluteOutputIndex, this`relativeInputIndex, this`relativeOutputIndex)
      ensures OrderedFrom(order, old(sortedBlocks), old(calls), old(portsInfo), old(activeBlocks), old(computeBlocks), old(FlagsOf(blocks)))
    {
      BindRelativeBlocks(n, links);
      assert sortedBlocks == old(sortedBlocks) && calls == old(calls) && FlagsOf(blocks) == old(FlagsOf(blocks));
      ComputeCalculationOrder(order);
    }

    /** The loop of `setRelativeBlockLinks`, five numbers per link. */
    method BindRelativeBlocks(n: nat, links: seq<nat>)
      requires Valid() && RelativeBlockFit(links, n, BasesOf(blocks, Repr), FrameSizes(Frames(blocks)), FrameShapes(Frames(blocks)))
      modifies VectorsOf(Frames(blocks)), this`directGraph
      ensures Valid() && Frames(blocks) == old(Frames(blocks)) && InputLists(blocks) == old(InputLists(blocks))
      ensures FlagsOf(blocks) == old(FlagsOf(blocks))
      ensures var ls := RelativeBlockLinks(links, n, old(BasesOf(blocks, Repr)), FrameSizes(old(Frames(blocks))), FrameShapes(old(Frames(blocks))));
        WiringsOf(blocks, Repr) == Wired(old(WiringsOf(blocks, Repr)), ls) && directGraph == AddEdges(old(directGraph), ls)
    {
      ghost var frames := Frames(blocks);
      ghost var bases := BasesOf(blocks, Repr);
      ghost var ins, ws, g := InputLists(blocks), WiringsOf(blocks, Repr), directGraph;
      ghost var ls := RelativeBlockLinks(links, n, bases, FrameSizes(frames), FrameShapes(frames));
      var at := 0;
      ghost var k := 0;
      while at != n * 5
        invariant k <= n && at == k * 5
        invariant Valid() && BasesOf(blocks, Repr) == bases && InputLists(blocks) == ins && Frames(blocks) == frames
        invariant Applied(ws, g, ls, k, WiringsOf(blocks, Repr), directGraph)
        decreases n - k
      {
        BindRelativeBlockStep(links, n, at, k, bases, frames, ins, ws, g, ls);
        at, k := at + 5, k + 1;
      }
      AppliedAll(ws, g, ls, WiringsOf(blocks, Repr), directGraph);
    }

    /**
     * Link `k` of the loop of `setRelativeBlockLinks`, the five numbers from
     * `links[at]` on: input `link[4]` of type `link[0]` of block `link[3]` is
     * pointed at output `link[2]` of that type of block `link[1]`, then the
     * edge `link[1] -> link[3]` is recorded.
     */
    method BindRelativeBlockStep(links: seq<nat>, n: nat, at: nat, ghost k: nat, ghost bases: seq<map<TypeId, Ptr>>,
                                 ghost frames: seq<(map<TypeId, PortSet>, set<object>)>,
                                 ghost ins: seq<seq<(TypeId, nat)>>, ghost ws: seq<Wiring>, ghost g: map<nat, seq<nat>>, ghost ls: seq<Link>)
      requires k < n && at == k * 5 && RelativeBlockFit(links, n, bases, FrameSizes(frames), FrameShapes(frames))
      requires ls == RelativeBlockLinks(links, n, bases, FrameSizes(frames), FrameShapes(frames))
      requires Valid() && BasesOf(blocks, Repr) == bases && InputLists(blocks) == ins && Frames(blocks) == frames
      requires Applied(ws, g, ls, k, WiringsOf(blocks, Repr), directGraph)
      modifies VectorsOf(frames), this`directGraph
      ensures Valid() && BasesOf(blocks, Repr) == bases && InputLists(blocks) == ins && Frames(blocks) == frames
      ensures Applied(ws, g, ls, k + 1, WiringsOf(blocks, Repr), directGraph)
    {
      RelativeBlockAt(links, n, bases, FrameSizes(frames), FrameShapes(frames), k);
      var link := links[at..at + 5];
      var typeHash := link[0];
      var output := blocks[link[1]].GetOutputPortRelative(typeHash, link[2]);
      if output.None? {
        assert false;
      }
      var p := output.value;
      assert p == ls[k].port;
      AppliedNext(ws, g, ls, k, WiringsOf(blocks, Repr), directGraph);
      TypeVectorIn(blocks, link[3], typeHash);
      RewireRelative(link[3], typeHash, link[4], p);
      AppendEdge(link[1], link[3]);
    }
  }
}
