/**
 * What `Scheme::allocate_memory` lays out (src/scheme/scheme.cpp): every
 * element type gets one byte arena holding the outputs of that type of all
 * blocks, and each block receives the slice that starts at the running
 * offset of the blocks created before it.
 *
 * A block's output shape is the map from each registered type to its
 * output count, as `Block::outputs()` returns it.
 */
module Layout {
  import opened Config
  import opened Ports
  import opened Blocks
  import opened Ordered

  type Shape = map<TypeId, nat>

  /** `total[t] += count` for every type of one block's shape. */
  function AddShape(total: Shape, shape: Shape): (r: Shape)
    ensures r.Keys == total.Keys + shape.Keys
    ensures forall t :: CountOf(r, t) == CountOf(total, t) + CountOf(shape, t)
  {
    map t | t in total.Keys + shape.Keys :: CountOf(total, t) + CountOf(shape, t)
  }

  /** `total_outputs` after the accumulation loop over the blocks in creation order. */
  function TotalOutputs(shapes: seq<Shape>): Shape
    decreases |shapes|
  {
    if shapes == [] then map[]
    else AddShape(TotalOutputs(shapes[..|shapes| - 1]), shapes[|shapes| - 1])
  }

  /** The number of outputs of type `t` over the given blocks. */
  function SumOf(shapes: seq<Shape>, t: TypeId): nat
    decreases |shapes|
  {
    if shapes == [] then 0 else SumOf(shapes[..|shapes| - 1], t) + CountOf(shapes[|shapes| - 1], t)
  }

  /** Some block registers type `t`. */
  predicate Declares(shapes: seq<Shape>, t: TypeId)
  {
    exists i :: 0 <= i < |shapes| && t in shapes[i]
  }

  /**
   * The total of a type is the sum of the blocks' counts of it, and a type has
   * an entry exactly when some block registers it.
   */
  lemma {:induction false} TotalIsSum(shapes: seq<Shape>, t: TypeId)
    ensures CountOf(TotalOutputs(shapes), t) == SumOf(shapes, t)
    ensures t in TotalOutputs(shapes) <==> Declares(shapes, t)
    decreases |shapes|
  {
    if shapes != [] {
      var front := shapes[..|shapes| - 1];
      TotalIsSum(front, t);
      if Declares(shapes, t) && t !in shapes[|shapes| - 1] {
        var i :| 0 <= i < |shapes| && t in shapes[i];
        assert front[i] == shapes[i];
      }
      if Declares(front, t) {
        var i :| 0 <= i < |front| && t in front[i];
        assert shapes[i] == front[i];
      }
    }
  }

  /** Prefix sums only grow: the blocks up to `i` hold no more outputs than those up to `j >= i`. */
  lemma {:induction false} SumOfPrefixMonotone(shapes: seq<Shape>, i: nat, j: nat, t: TypeId)
    requires i <= j <= |shapes|
    ensures SumOf(shapes[..i], t) <= SumOf(shapes[..j], t)
    decreases j - i
  {
    if i < j {
      SumOfPrefixMonotone(shapes, i, j - 1, t);
      assert shapes[..j][..j - 1] == shapes[..j - 1];
    }
  }

  /** A registered type's element size, `type_size(hash)`; zero for an unregistered one. */
  function SizeOf(reg: Registry, t: TypeId): nat
  {
    if t in reg then reg[t].size else 0
  }

  /** Every type some block uses is registered. */
  predicate ShapesRegistered(reg: Registry, shapes: seq<Shape>)
  {
    forall i, t :: 0 <= i < |shapes| && t in shapes[i] ==> t in reg
  }

  /**
   * `port_memory` after the resize loop: each counted type's arena holds
   * `count * type_size` bytes; an arena of a type no longer counted keeps its
   * length, since the map is never cleared.
   */
  function Arena(memory: map<TypeId, nat>, total: Shape, reg: Registry): map<TypeId, nat>
  {
    SortedIntsFacts(total.Keys);
    Resize(memory, total, reg, SortedInts(total.Keys))
  }

  /** The arena map has the old and the counted types, with the lengths described above. */
  lemma ArenaFacts(memory: map<TypeId, nat>, total: Shape, reg: Registry)
    ensures Arena(memory, total, reg).Keys == memory.Keys + total.Keys
    ensures forall t :: t in total ==> Arena(memory, total, reg)[t] == total[t] * SizeOf(reg, t)
    ensures forall t :: t in memory && t !in total ==> Arena(memory, total, reg)[t] == memory[t]
  {
    var ks := SortedInts(total.Keys);
    SortedIntsMembers(total.Keys);
    ResizeFacts(memory, total, reg, ks);
    var r := Resize(memory, total, reg, ks);
    forall t
      ensures t in r <==> t in memory.Keys + total.Keys
    {
    }
  }

  /** The arenas once the types of `ks` have been resized, in that order. */
  function Resize(memory: map<TypeId, nat>, total: Shape, reg: Registry, ks: seq<TypeId>): map<TypeId, nat>
    requires forall k :: 0 <= k < |ks| ==> ks[k] in total
    decreases |ks|
  {
    if ks == [] then memory
    else
      var t := ks[|ks| - 1];
      Resize(memory, total, reg, ks[..|ks| - 1])[t := Bytes(total[t], SizeOf(reg, t))]
  }

  /** Resizing one more type of `ks` updates that type's arena. */
  lemma ResizeNext(memory: map<TypeId, nat>, total: Shape, reg: Registry, ks: seq<TypeId>, k: nat)
    requires forall j :: 0 <= j < |ks| ==> ks[j] in total
    requires k < |ks|
    ensures Resize(memory, total, reg, ks[..k + 1]) == Resize(memory, total, reg, ks[..k])[ks[k] := Bytes(total[ks[k]], SizeOf(reg, ks[k]))]
  {
    assert ks[..k + 1][..k] == ks[..k];
  }

  /** The length of an arena of `count` values of `size` bytes each. */
  function Bytes(count: nat, size: nat): nat
  {
    count * size
  }

  lemma {:induction false} ResizeFacts(memory: map<TypeId, nat>, total: Shape, reg: Registry, ks: seq<TypeId>)
    requires forall k :: 0 <= k < |ks| ==> ks[k] in total
    ensures forall t :: t in Resize(memory, total, reg, ks) <==> t in memory || t in ks
    ensures forall t :: t in ks ==> Resize(memory, total, reg, ks)[t] == total[t] * SizeOf(reg, t)
    ensures forall t :: t in memory && t !in ks ==> Resize(memory, total, reg, ks)[t] == memory[t]
    decreases |ks|
  {
    if ks != [] {
      var front := ks[..|ks| - 1];
      ResizeFacts(memory, total, reg, front);
      assert ks == front + [ks[|ks| - 1]];
    }
  }

  /** The byte offset in the arena of type `t` where block `i`'s outputs start. */
  function SliceStart(shapes: seq<Shape>, i: nat, t: TypeId, size: nat): nat
    requires i <= |shapes|
  {
    SumOf(shapes[..i], t) * size
  }

  /**
   * The slices of two different blocks do not overlap: block `i`'s slice
   * ends at or before the start of any later block's slice.
   */
  lemma SlicesDisjoint(shapes: seq<Shape>, i: nat, j: nat, t: TypeId, size: nat)
    requires i < j <= |shapes|
    ensures SliceStart(shapes, i, t, size) + CountOf(shapes[i], t) * size <= SliceStart(shapes, j, t, size)
  {
    assert shapes[..i + 1][..i] == shapes[..i];
    assert SumOf(shapes[..i + 1], t) == SumOf(shapes[..i], t) + CountOf(shapes[i], t);
    SumOfPrefixMonotone(shapes, i + 1, j, t);
    MulMonotone(SumOf(shapes[..i + 1], t), SumOf(shapes[..j], t), size);
  }

  /** After the last block the running offset is the arena's length. */
  lemma SlicesFillArena(shapes: seq<Shape>, t: TypeId, reg: Registry)
    requires t in TotalOutputs(shapes)
    ensures t in Arena(map[], TotalOutputs(shapes), reg)
    ensures SliceStart(shapes, |shapes|, t, SizeOf(reg, t)) == Arena(map[], TotalOutputs(shapes), reg)[t]
  {
    ArenaFacts(map[], TotalOutputs(shapes), reg);
    TotalIsSum(shapes, t);
    assert shapes[..|shapes|] == shapes;
  }

  /** The memory map block `i` receives: the start of its slice in each of its types' arenas. */
  function BlockMemory(shapes: seq<Shape>, i: nat, reg: Registry): (m: map<TypeId, Ptr>)
    requires i < |shapes|
    ensures m.Keys == shapes[i].Keys
  {
    map t | t in shapes[i] :: At(Addr(t, SliceStart(shapes, i, t, SizeOf(reg, t))))
  }

  /** The running offsets once the blocks of `shapes` are laid out: `offsets[t]` in bytes. */
  function Offsets(shapes: seq<Shape>, reg: Registry): (m: map<TypeId, nat>)
    ensures forall t :: CountOf(m, t) == SumOf(shapes, t) * SizeOf(reg, t)
  {
    var total := TotalOutputs(shapes);
    assert forall t :: CountOf(total, t) == SumOf(shapes, t) by {
      forall t
        ensures CountOf(total, t) == SumOf(shapes, t)
      {
        TotalIsSum(shapes, t);
      }
    }
    map t | t in total :: total[t] * SizeOf(reg, t)
  }

  /**
   * Block `i`'s turn of the offsets loop, with the offsets at the sizes of
   * the blocks before it: the memory map it builds is its slice starts, and
   * the offsets it leaves are past its slices.
   */
  lemma PlaceFacts(shapes: seq<Shape>, i: nat, offsets: map<TypeId, nat>, memory: map<TypeId, Ptr>, next: map<TypeId, nat>, reg: Registry)
    requires i < |shapes|
    requires forall t :: CountOf(offsets, t) == SumOf(shapes[..i], t) * SizeOf(reg, t)
    requires memory == map t | t in shapes[i] :: At(Addr(t, CountOf(offsets, t)))
    requires forall t :: CountOf(next, t) == CountOf(offsets, t) + CountOf(shapes[i], t) * SizeOf(reg, t)
    ensures memory == BlockMemory(shapes, i, reg)
    ensures forall t :: CountOf(next, t) == SumOf(shapes[..i + 1], t) * SizeOf(reg, t)
  {
    assert shapes[..i + 1][..i] == shapes[..i];
    forall t
      ensures CountOf(next, t) == SumOf(shapes[..i + 1], t) * SizeOf(reg, t)
    {
      assert SumOf(shapes[..i + 1], t) == SumOf(shapes[..i], t) + CountOf(shapes[i], t);
      assert CountOf(next, t) == SumOf(shapes[..i], t) * SizeOf(reg, t) + CountOf(shapes[i], t) * SizeOf(reg, t);
    }
  }

  /**
   * The offsets loop of `allocate_memory` on the blocks' output shapes:
   * block by block, type by type, a slice at the running offset of its
   * type, which then advances by `count * type_size`.
   */
  method Slices(shapes: seq<Shape>, reg: Registry) returns (slices: seq<map<TypeId, Ptr>>)
    ensures |slices| == |shapes|
    ensures forall j :: 0 <= j < |shapes| ==> slices[j] == BlockMemory(shapes, j, reg)
  {
    slices := [];
    var offsets: map<TypeId, nat> := map[];
    var i := 0;
    while i < |shapes|
      invariant i <= |shapes| && |slices| == i
      invariant forall j :: 0 <= j < i ==> slices[j] == BlockMemory(shapes, j, reg)
      invariant forall t :: CountOf(offsets, t) == SumOf(shapes[..i], t) * SizeOf(reg, t)
    {
      var memory, next := PlaceBlock(offsets, shapes[i], reg);
      PlaceFacts(shapes, i, offsets, memory, next, reg);
      slices := slices + [memory];
      offsets := next;
      i := i + 1;
    }
  }

  /**
   * One block's turn of the offsets loop: each of its types gets a slice at
   * that type's running offset, which advances by `count * type_size`.
   */
  method PlaceBlock(offsets: map<TypeId, nat>, shape: Shape, reg: Registry) returns (memory: map<TypeId, Ptr>, next: map<TypeId, nat>)
    ensures memory == map t | t in shape :: At(Addr(t, CountOf(offsets, t)))
    ensures forall t :: CountOf(next, t) == CountOf(offsets, t) + CountOf(shape, t) * SizeOf(reg, t)
  {
    memory := map[];
    next := offsets;
    var rest := shape.Keys;
    while rest != {}
      invariant rest <= shape.Keys
      invariant memory == map t | t in shape.Keys - rest :: At(Addr(t, CountOf(offsets, t)))
      invariant forall t :: CountOf(next, t) == CountOf(offsets, t) + (if t in shape.Keys - rest then shape[t] * SizeOf(reg, t) else 0)
      decreases |rest|
    {
      if forall u :: u !in rest {
        assert false;
      }
      var t :| t in rest;
      memory := memory[t := At(Addr(t, CountOf(next, t)))];
      next := next[t := CountOf(next, t) + shape[t] * SizeOf(reg, t)];
      rest := rest - {t};
    }
  }

  /** The accumulation loop of `allocate_memory` over the blocks' output shapes. */
  method AccumulateTotals(shapes: seq<Shape>) returns (total: Shape)
    ensures total == TotalOutputs(shapes)
  {
    total := map[];
    var i := 0;
    while i < |shapes|
      invariant 0 <= i <= |shapes|
      invariant total == TotalOutputs(shapes[..i])
    {
      assert shapes[..i + 1][..i] == shapes[..i];
      total := AddCounts(total, shapes[i]);
      i := i + 1;
    }
    assert shapes[..|shapes|] == shapes;
  }

  /** The inner loop: `total_outputs[type_hash] += count` over one block's shape. */
  method AddCounts(start: Shape, shape: Shape) returns (total: Shape)
    ensures total == AddShape(start, shape)
  {
    total := start;
    var rest := shape.Keys;
    PartialSumEnds(start, shape);
    while rest != {}
      invariant rest <= shape.Keys
      invariant total == PartialSum(start, shape, shape.Keys - rest)
      decreases |rest|
    {
      if forall u :: u !in rest {
        assert false;
      }
      var t :| t in rest;
      PartialSumStep(start, shape, rest, t);
      total := total[t := CountOf(total, t) + shape[t]];
      rest := rest - {t};
    }
  }

  /** One more type added: its count goes up by the shape's count, and nothing else changes. */
  lemma PartialSumStep(start: Shape, shape: Shape, rest: set<TypeId>, t: TypeId)
    requires rest <= shape.Keys && t in rest
    ensures var p := PartialSum(start, shape, shape.Keys - rest);
      PartialSum(start, shape, shape.Keys - (rest - {t})) == p[t := CountOf(p, t) + shape[t]]
  {
    assert shape.Keys - (rest - {t}) == (shape.Keys - rest) + {t};
  }

  /** No type added is `start`; every type of the shape added is `AddShape`. */
  lemma PartialSumEnds(start: Shape, shape: Shape)
    ensures PartialSum(start, shape, shape.Keys - shape.Keys) == start
    ensures PartialSum(start, shape, shape.Keys - {}) == AddShape(start, shape)
  {
    assert shape.Keys - shape.Keys == {};
    assert shape.Keys - {} == shape.Keys;
  }

  /** `start` with the counts of the types of `done` added. */
  function PartialSum(start: Shape, shape: Shape, done: set<TypeId>): (r: Shape)
    requires done <= shape.Keys
  {
    map t | t in start.Keys + done :: CountOf(start, t) + (if t in done then shape[t] else 0)
  }

  /** The resize loop of `allocate_memory`, visiting the counted types in ascending order. */
  method ResizeArenas(memory: map<TypeId, nat>, total: Shape, reg: Registry) returns (r: map<TypeId, nat>)
    ensures r == Arena(memory, total, reg)
  {
    var ks := SortedInts(total.Keys);
    SortedIntsMembers(total.Keys);
    r := memory;
    var k := 0;
    while k < |ks|
      invariant 0 <= k <= |ks|
      invariant r == Resize(memory, total, reg, ks[..k])
    {
      ResizeNext(memory, total, reg, ks, k);
      r := r[ks[k] := Bytes(total[ks[k]], SizeOf(reg, ks[k]))];
      k := k + 1;
    }
    assert ks[..|ks|] == ks;
  }
}
