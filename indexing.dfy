/**
 * The index tables `Scheme::init_indices` builds (src/scheme/scheme.cpp):
 *
 * - `relative_output_index[t]`: the address of every output of type `t`,
 *   counted from the start of that type's arena;
 * - `absolute_input_index`: for every block, one `(block, k)` entry per
 *   input, `k` counting the block's inputs across the scheme's types;
 * - `relative_input_index[t]`: for every block, one `(block, j)` entry per
 *   input of type `t`;
 * - `absolute_output_index`: for every block and every type of the scheme,
 *   all of the block's absolute output addresses, tagged with that type;
 * - the `relative_index` and `block_index` fields of the ports table.
 *
 * The tables are stated as functions of plain values (the blocks' input
 * shapes and output lists, the arenas' types), next to the loops that
 * build them.
 */
module Indexing {
  import opened Context
  import opened Config
  import opened Ports
  import opened Blocks
  import opened Ordered
  import opened Layout

  /** A `(block, port)` pair. */
  type Entry = (nat, nat)

  /** The list stored under `k`, or the empty list `operator[]` would create. */
  function ListAt<K, V>(m: map<K, seq<V>>, k: K): seq<V>
  {
    if k in m then m[k] else []
  }

  // ----- Relative output index -----

  /** The `count` outputs of type `t` from the start of its arena: `data + i * size`. */
  function OutputColumn(t: TypeId, size: nat, count: nat): (r: seq<Ptr>)
    ensures |r| == count
  {
    OutputView(At(Addr(t, 0)), size, count)
  }

  /** `relative_output_index`: one column per arena type, as long as that type's output total. */
  function RelativeOutputs(types: seq<TypeId>, total: Shape, reg: Registry): map<TypeId, seq<Ptr>>
  {
    map t | t in types :: OutputColumn(t, SizeOf(reg, t), CountOf(total, t))
  }

  /** `ports_info[column[k]].relative_index = k` along one column. */
  function MarkRelative(info: PortsInfo, column: seq<Ptr>): PortsInfo
    decreases |column|
  {
    if column == [] then info
    else
      var k := |column| - 1;
      var prev := MarkRelative(info, column[..k]);
      prev[column[k] := InfoAt(prev, column[k]).(relativeIndex := k)]
  }

  /** The ports table once the columns of all the arena types are marked, in order. */
  function RelativeInfo(info: PortsInfo, types: seq<TypeId>, total: Shape, reg: Registry): PortsInfo
    decreases |types|
  {
    if types == [] then info
    else
      var t := types[|types| - 1];
      MarkRelative(RelativeInfo(info, types[..|types| - 1], total, reg), OutputColumn(t, SizeOf(reg, t), CountOf(total, t)))
  }

  /** Two entries with the same mark kept: only `relative_index` changes. */
  predicate SameButRelative(a: PortInfo, b: PortInfo)
  {
    a.isConstant == b.isConstant && a.blockIndex == b.blockIndex
  }

  predicate SameButBlock(a: PortInfo, b: PortInfo)
  {
    a.isConstant == b.isConstant && a.relativeIndex == b.relativeIndex
  }

  /** Marking a column leaves addresses outside it alone and changes no other field. */
  lemma {:induction false} MarkRelativeKeeps(info: PortsInfo, column: seq<Ptr>)
    ensures forall q :: SameButRelative(InfoAt(MarkRelative(info, column), q), InfoAt(info, q))
    ensures forall q :: q !in column ==> InfoAt(MarkRelative(info, column), q) == InfoAt(info, q)
    decreases |column|
  {
    if column != [] {
      var front := column[..|column| - 1];
      MarkRelativeKeeps(info, front);
      assert column == front + [column[|column| - 1]];
    }
  }

  /** Marking a column gives the last occurrence of each address its position. */
  lemma {:induction false} MarkRelativePositions(info: PortsInfo, column: seq<Ptr>)
    ensures forall k :: 0 <= k < |column| && column[k] !in column[k + 1..] ==> InfoAt(MarkRelative(info, column), column[k]).relativeIndex == k
    decreases |column|
  {
    if column != [] {
      var last := |column| - 1;
      var front := column[..last];
      MarkRelativePositions(info, front);
      forall k | 0 <= k < last && column[k] !in column[k + 1..]
        ensures InfoAt(MarkRelative(info, column), column[k]).relativeIndex == k
      {
        assert column[last] in column[k + 1..];
        assert front[k] == column[k];
        assert front[k + 1..] == column[k + 1..last];
      }
    }
  }

  /** Different positions of a column of a type with a nonzero size are different addresses. */
  lemma ColumnDistinct(t: TypeId, size: nat, count: nat, k: nat)
    requires size > 0 && k < count
    ensures OutputColumn(t, size, count)[k] == At(Addr(t, k * size))
    ensures OutputColumn(t, size, count)[k] !in OutputColumn(t, size, count)[k + 1..]
  {
    var c := OutputColumn(t, size, count);
    forall m | k + 1 <= m < count
      ensures c[m] != c[k]
    {
      MulMonotone(k + 1, m, size);
    }
  }

  /**
   * After the relative pass, the ports table gives every output of a type
   * with a nonzero size its position in that type's `relative_output_index`
   * list, and no entry changes its other fields.
   */
  lemma {:induction false} RelativeInfoFacts(info: PortsInfo, types: seq<TypeId>, total: Shape, reg: Registry)
    requires Increasing(types)
    ensures forall q :: SameButRelative(InfoAt(RelativeInfo(info, types, total, reg), q), InfoAt(info, q))
    ensures forall t, i :: t in types && SizeOf(reg, t) > 0 && 0 <= i < CountOf(total, t) ==>
      InfoAt(RelativeInfo(info, types, total, reg), RelativeOutputs(types, total, reg)[t][i]).relativeIndex == i
    decreases |types|
  {
    if types != [] {
      var n := |types| - 1;
      var t := types[n];
      var front := types[..n];
      assert Increasing(front);
      RelativeInfoFacts(info, front, total, reg);
      var prev := RelativeInfo(info, front, total, reg);
      var column := OutputColumn(t, SizeOf(reg, t), CountOf(total, t));
      MarkRelativeKeeps(prev, column);
      MarkRelativePositions(prev, column);
      forall u, i | u in types && SizeOf(reg, u) > 0 && 0 <= i < CountOf(total, u)
        ensures InfoAt(RelativeInfo(info, types, total, reg), RelativeOutputs(types, total, reg)[u][i]).relativeIndex == i
      {
        ColumnDistinct(u, SizeOf(reg, u), CountOf(total, u), i);
        var p := OutputColumn(u, SizeOf(reg, u), CountOf(total, u))[i];
        if u != t {
          var m :| 0 <= m < |types| && types[m] == u;
          assert m < n;
          assert u in front;
          assert RelativeOutputs(front, total, reg)[u][i] == p;
        }
      }
    }
  }

  /** The loop over one arena: `count` addresses appended, each marked with its position. */
  method BuildColumn(t: TypeId, size: nat, count: nat, info: PortsInfo) returns (column: seq<Ptr>, r: PortsInfo)
    ensures column == OutputColumn(t, size, count)
    ensures r == MarkRelative(info, column)
  {
    column, r := [], info;
    var i := 0;
    while i < count
      invariant 0 <= i <= count
      invariant column == OutputColumn(t, size, i)
      invariant r == MarkRelative(info, column)
    {
      var p := At(Addr(t, i * size));
      column := column + [p];
      assert column[..i] == OutputColumn(t, size, i);
      r := r[p := InfoAt(r, p).(relativeIndex := |column| - 1)];
      i := i + 1;
    }
  }

  /** The first loop of `init_indices`, over the arena types in ascending order. */
  method BuildRelativeOutputs(types: seq<TypeId>, total: Shape, reg: Registry, info: PortsInfo) returns (table: map<TypeId, seq<Ptr>>, r: PortsInfo)
    ensures table == RelativeOutputs(types, total, reg)
    ensures r == RelativeInfo(info, types, total, reg)
  {
    table, r := map[], info;
    var k := 0;
    while k < |types|
      invariant 0 <= k <= |types|
      invariant table == RelativeOutputs(types[..k], total, reg)
      invariant r == RelativeInfo(info, types[..k], total, reg)
    {
      var t := types[k];
      assert types[..k + 1][..k] == types[..k];
      var column;
      column, r := BuildColumn(t, SizeOf(reg, t), CountOf(total, t), r);
      table := table[t := column];
      k := k + 1;
    }
    assert types[..|types|] == types;
  }

  // ----- Input and output indices, block by block -----

  /** Block `i`'s absolute input entries `(i, 0)`, `(i, 1)`, …, one per input of the listed types. */
  function InputRow(i: nat, shape: Shape, types: seq<TypeId>): seq<Entry>
  {
    seq(SumCounts(shape, types), k => (i, k))
  }

  /** `absolute_input_index` over the first `|ins|` blocks. */
  function AbsInputs(ins: seq<Shape>, types: seq<TypeId>): seq<Entry>
    decreases |ins|
  {
    if ins == [] then []
    else AbsInputs(ins[..|ins| - 1], types) + InputRow(|ins| - 1, ins[|ins| - 1], types)
  }

  /** Block `i`'s relative input entries `(i, j)` appended to each type's list. */
  function RelativeRow(rel: map<TypeId, seq<Entry>>, i: nat, shape: Shape, types: seq<TypeId>): map<TypeId, seq<Entry>>
    decreases |types|
  {
    if types == [] then rel
    else
      var t := types[|types| - 1];
      var prev := RelativeRow(rel, i, shape, types[..|types| - 1]);
      prev[t := ListAt(prev, t) + seq(CountOf(shape, t), j => (i, j))]
  }

  /** `relative_input_index` over the first `|ins|` blocks. */
  function RelInputs(ins: seq<Shape>, types: seq<TypeId>): map<TypeId, seq<Entry>>
    decreases |ins|
  {
    if ins == [] then map[]
    else RelativeRow(RelInputs(ins[..|ins| - 1], types), |ins| - 1, ins[|ins| - 1], types)
  }

  /** All of block's outputs `ps`, listed once per scheme type and tagged with that type. */
  function OutputRow(ps: seq<Ptr>, types: seq<TypeId>): seq<(TypeId, Ptr)>
    decreases |types|
  {
    if types == [] then []
    else
      var t := types[|types| - 1];
      OutputRow(ps, types[..|types| - 1]) + seq(|ps|, k requires 0 <= k < |ps| => (t, ps[k]))
  }

  /** `absolute_output_index` over the given blocks' output lists. */
  function AbsOutputs(outs: seq<seq<Ptr>>, types: seq<TypeId>): seq<(TypeId, Ptr)>
    decreases |outs|
  {
    if outs == [] then []
    else AbsOutputs(outs[..|outs| - 1], types) + OutputRow(outs[|outs| - 1], types)
  }

  /** `ports_info[p].block_index = i` for each of the addresses `ps`. */
  function MarkBlock(info: PortsInfo, ps: seq<Ptr>, i: nat): PortsInfo
    decreases |ps|
  {
    if ps == [] then info
    else
      var prev := MarkBlock(info, ps[..|ps| - 1], i);
      var p := ps[|ps| - 1];
      prev[p := InfoAt(prev, p).(blockIndex := i)]
  }

  /** Block `i`'s marks: its outputs marked once per scheme type. */
  function BlockRowInfo(info: PortsInfo, ps: seq<Ptr>, i: nat, types: seq<TypeId>): PortsInfo
    decreases |types|
  {
    if types == [] then info else MarkBlock(BlockRowInfo(info, ps, i, types[..|types| - 1]), ps, i)
  }

  /** The ports table after the block loop of `init_indices`. */
  function BlockInfo(info: PortsInfo, outs: seq<seq<Ptr>>, types: seq<TypeId>): PortsInfo
    decreases |outs|
  {
    if outs == [] then info
    else BlockRowInfo(BlockInfo(info, outs[..|outs| - 1], types), outs[|outs| - 1], |outs| - 1, types)
  }

  // ----- What the tables mean -----

  /**
   * `absolute_input_index` holds exactly the pairs `(b, k)` of a listed
   * block `b` and a position `k` below the number of `b`'s inputs over the
   * scheme's types, each once, in ascending order.
   */
  lemma {:induction false} AbsInputsMeaning(ins: seq<Shape>, types: seq<TypeId>)
    ensures forall e: Entry :: e in AbsInputs(ins, types) <==> e.0 < |ins| && e.1 < SumCounts(ins[e.0], types)
    ensures PairsIncreasing(AbsInputs(ins, types))
    decreases |ins|
  {
    if ins != [] {
      var n := |ins| - 1;
      var front := ins[..n];
      AbsInputsMeaning(front, types);
      var prev := AbsInputs(front, types);
      var row := InputRow(n, ins[n], types);
      assert AbsInputs(ins, types) == prev + row;
      forall e: Entry
        ensures e in prev + row <==> e.0 < |ins| && e.1 < SumCounts(ins[e.0], types)
      {
        if e.0 < n {
          assert front[e.0] == ins[e.0];
        }
        if e.0 == n && e.1 < SumCounts(ins[n], types) {
          assert row[e.1] == e;
        }
      }
      forall a, b | 0 <= a < b < |prev + row|
        ensures PairLess((prev + row)[a], (prev + row)[b])
      {
        if a < |prev| && b >= |prev| {
          assert prev[a] in prev;
        }
      }
    }
  }

  /** What one row adds: block `i`'s entries at the end of every listed type's list. */
  lemma {:induction false} RelativeRowFacts(rel: map<TypeId, seq<Entry>>, i: nat, shape: Shape, types: seq<TypeId>)
    requires Increasing(types)
    ensures forall t :: t in RelativeRow(rel, i, shape, types) <==> t in rel || t in types
    ensures forall t :: t in types ==> RelativeRow(rel, i, shape, types)[t] == ListAt(rel, t) + seq(CountOf(shape, t), j => (i, j))
    ensures forall t :: t in rel && t !in types ==> RelativeRow(rel, i, shape, types)[t] == rel[t]
    decreases |types|
  {
    if types != [] {
      var n := |types| - 1;
      var front := types[..n];
      assert Increasing(front);
      RelativeRowFacts(rel, i, shape, front);
      assert types == front + [types[n]];
      assert types[n] !in front;
    }
  }

  /**
   * `relative_input_index` has a list for every scheme type once a block
   * exists, and the list of type `t` holds exactly the pairs `(b, j)` of a
   * listed block and one of its inputs of type `t`, in ascending order.
   */
  lemma {:induction false} RelInputsMeaning(ins: seq<Shape>, types: seq<TypeId>)
    requires Increasing(types)
    ensures ins == [] ==> RelInputs(ins, types) == map[]
    ensures ins != [] ==> forall t :: t in RelInputs(ins, types) <==> t in types
    ensures forall t, e: Entry :: t in RelInputs(ins, types) ==>
      (e in RelInputs(ins, types)[t] <==> e.0 < |ins| && e.1 < CountOf(ins[e.0], t))
    ensures forall t :: t in RelInputs(ins, types) ==> PairsIncreasing(RelInputs(ins, types)[t])
    decreases |ins|
  {
    if ins != [] {
      var n := |ins| - 1;
      var front := ins[..n];
      RelInputsMeaning(front, types);
      var prev := RelInputs(front, types);
      RelativeRowFacts(prev, n, ins[n], types);
      var r := RelInputs(ins, types);
      forall t | t in r
        ensures forall e: Entry :: e in r[t] <==> e.0 < |ins| && e.1 < CountOf(ins[e.0], t)
        ensures PairsIncreasing(r[t])
      {
        assert t in types by {
          if n == 0 {
            assert prev == map[];
          }
        }
        var old_ := ListAt(prev, t);
        var tail := seq(CountOf(ins[n], t), j => (n, j));
        assert r[t] == old_ + tail;
        assert forall e: Entry :: e in old_ <==> e.0 < n && e.1 < CountOf(front[e.0], t) by {
          if t !in prev {
            assert n == 0;
          }
        }
        forall e: Entry
          ensures e in old_ + tail <==> e.0 < |ins| && e.1 < CountOf(ins[e.0], t)
        {
          if e.0 < n {
            assert front[e.0] == ins[e.0];
          }
          if e.0 == n && e.1 < CountOf(ins[n], t) {
            assert tail[e.1] == e;
          }
        }
        assert PairsIncreasing(old_) by {
          if t !in prev {
            assert old_ == [];
          }
        }
        forall a, b | 0 <= a < b < |old_ + tail|
          ensures PairLess((old_ + tail)[a], (old_ + tail)[b])
        {
          if a < |old_| && b >= |old_| {
            assert old_[a] in old_;
          }
        }
      }
    }
  }

  /** The band one type adds to a row pairs that type with every output, in order. */
  lemma BandMembers(ps: seq<Ptr>, t: TypeId)
    ensures forall e: (TypeId, Ptr) :: e in seq(|ps|, k requires 0 <= k < |ps| => (t, ps[k])) <==> e.0 == t && e.1 in ps
  {
    var band := seq(|ps|, k requires 0 <= k < |ps| => (t, ps[k]));
    forall e: (TypeId, Ptr) | e.0 == t && e.1 in ps
      ensures e in band
    {
      var k :| 0 <= k < |ps| && ps[k] == e.1;
      assert band[k] == e;
    }
  }

  /** A type list's members are its front's and its last element. */
  lemma LastMembers<T>(xs: seq<T>)
    requires xs != []
    ensures forall x :: x in xs <==> x in xs[..|xs| - 1] || x == xs[|xs| - 1]
  {
    assert xs == xs[..|xs| - 1] + [xs[|xs| - 1]];
  }

  /** A row holds one band of outputs per type. */
  lemma {:induction false} OutputRowLength(ps: seq<Ptr>, types: seq<TypeId>)
    ensures |OutputRow(ps, types)| == |types| * |ps|
    decreases |types|
  {
    if types != [] {
      var n := |types| - 1;
      OutputRowLength(ps, types[..n]);
      assert |types| * |ps| == n * |ps| + |ps|;
    }
  }

  /** A row pairs every type with every output, and nothing else. */
  lemma {:induction false} OutputRowMembers(ps: seq<Ptr>, types: seq<TypeId>)
    ensures forall e :: e in OutputRow(ps, types) <==> e.0 in types && e.1 in ps
    decreases |types|
  {
    if types != [] {
      var n := |types| - 1;
      var band := seq(|ps|, k requires 0 <= k < |ps| => (types[n], ps[k]));
      assert OutputRow(ps, types) == OutputRow(ps, types[..n]) + band;
      OutputRowMembers(ps, types[..n]);
      BandMembers(ps, types[n]);
      LastMembers(types);
    }
  }

  /** One block's row lists its outputs once for every scheme type. */
  lemma OutputRowFacts(ps: seq<Ptr>, types: seq<TypeId>)
    ensures |OutputRow(ps, types)| == |types| * |ps|
    ensures forall e :: e in OutputRow(ps, types) <==> e.0 in types && e.1 in ps
  {
    OutputRowLength(ps, types);
    OutputRowMembers(ps, types);
  }

  /** Some listed block has output address `p`. */
  predicate Produced(outs: seq<seq<Ptr>>, p: Ptr)
  {
    exists b :: 0 <= b < |outs| && p in outs[b]
  }

  lemma ProducedSplit(outs: seq<seq<Ptr>>, p: Ptr)
    requires outs != []
    ensures Produced(outs, p) <==> Produced(outs[..|outs| - 1], p) || p in outs[|outs| - 1]
  {
    var front := outs[..|outs| - 1];
    if Produced(outs, p) && p !in outs[|outs| - 1] {
      var b :| 0 <= b < |outs| && p in outs[b];
      assert front[b] == outs[b];
    }
    if Produced(front, p) {
      var b :| 0 <= b < |front| && p in front[b];
      assert outs[b] == front[b];
    }
  }

  /** `absolute_output_index` holds exactly the pairs of a scheme type and an output address of some listed block. */
  lemma {:induction false} AbsOutputsMeaning(outs: seq<seq<Ptr>>, types: seq<TypeId>)
    ensures forall e :: e in AbsOutputs(outs, types) <==> e.0 in types && Produced(outs, e.1)
    decreases |outs|
  {
    if outs != [] {
      var n := |outs| - 1;
      var front := outs[..n];
      AbsOutputsMeaning(front, types);
      OutputRowFacts(outs[n], types);
      assert AbsOutputs(outs, types) == AbsOutputs(front, types) + OutputRow(outs[n], types);
      forall e: (TypeId, Ptr)
        ensures e in AbsOutputs(outs, types) <==> e.0 in types && Produced(outs, e.1)
      {
        ProducedSplit(outs, e.1);
      }
    }
  }

  /** Marking a list of addresses with block `i` marks exactly those addresses and changes no other field. */
  lemma {:induction false} MarkBlockFacts(info: PortsInfo, ps: seq<Ptr>, i: nat)
    ensures forall q :: SameButBlock(InfoAt(MarkBlock(info, ps, i), q), InfoAt(info, q))
    ensures forall q :: q in ps ==> InfoAt(MarkBlock(info, ps, i), q).blockIndex == i
    ensures forall q :: q !in ps ==> InfoAt(MarkBlock(info, ps, i), q) == InfoAt(info, q)
    decreases |ps|
  {
    if ps != [] {
      var front := ps[..|ps| - 1];
      MarkBlockFacts(info, front, i);
      assert ps == front + [ps[|ps| - 1]];
    }
  }

  lemma {:induction false} BlockRowInfoFacts(info: PortsInfo, ps: seq<Ptr>, i: nat, types: seq<TypeId>)
    ensures forall q :: SameButBlock(InfoAt(BlockRowInfo(info, ps, i, types), q), InfoAt(info, q))
    ensures types != [] ==> forall q :: q in ps ==> InfoAt(BlockRowInfo(info, ps, i, types), q).blockIndex == i
    ensures forall q :: q !in ps ==> InfoAt(BlockRowInfo(info, ps, i, types), q) == InfoAt(info, q)
    decreases |types|
  {
    if types != [] {
      BlockRowInfoFacts(info, ps, i, types[..|types| - 1]);
      MarkBlockFacts(BlockRowInfo(info, ps, i, types[..|types| - 1]), ps, i);
    }
  }

  /**
   * When the scheme has at least one type, the ports table records for each
   * output address the last listed block that has it; addresses of no
   * block, and every other field, are left as they were.
   */
  lemma {:induction false} BlockInfoMeaning(info: PortsInfo, outs: seq<seq<Ptr>>, types: seq<TypeId>)
    ensures forall q :: SameButBlock(InfoAt(BlockInfo(info, outs, types), q), InfoAt(info, q))
    ensures types != [] ==> forall b, q :: 0 <= b < |outs| && q in outs[b] && (forall c :: b < c < |outs| ==> q !in outs[c]) ==>
      InfoAt(BlockInfo(info, outs, types), q).blockIndex == b
    ensures forall q :: (forall b :: 0 <= b < |outs| ==> q !in outs[b]) ==> InfoAt(BlockInfo(info, outs, types), q) == InfoAt(info, q)
    decreases |outs|
  {
    if outs != [] {
      var n := |outs| - 1;
      var front := outs[..n];
      BlockInfoMeaning(info, front, types);
      BlockRowInfoFacts(BlockInfo(info, front, types), outs[n], n, types);
      if types != [] {
        forall b, q | 0 <= b < |outs| && q in outs[b] && (forall c :: b < c < |outs| ==> q !in outs[c])
          ensures InfoAt(BlockInfo(info, outs, types), q).blockIndex == b
        {
          if b < n {
            assert front[b] == outs[b];
            assert q !in outs[n];
            forall c | b < c < |front|
              ensures q !in front[c]
            {
              assert front[c] == outs[c];
            }
          }
        }
      }
      forall q | forall b :: 0 <= b < |outs| ==> q !in outs[b]
        ensures InfoAt(BlockInfo(info, outs, types), q) == InfoAt(info, q)
      {
        assert q !in outs[n];
        forall b | 0 <= b < |front|
          ensures q !in front[b]
        {
          assert front[b] == outs[b];
        }
      }
    }
  }

  // ----- The block loop -----

  /** The input loop over one type: `(i, ++abs)` and `(i, j)` for `j < count`. */
  method ListTypeInputs(i: nat, start: nat, count: nat) returns (abs: seq<Entry>, rel: seq<Entry>)
    ensures abs == seq(count, j => (i, start + j))
    ensures rel == seq(count, j => (i, j))
  {
    abs, rel := [], [];
    var j := 0;
    while j < count
      invariant 0 <= j <= count
      invariant abs == seq(j, k => (i, start + k))
      invariant rel == seq(j, k => (i, k))
    {
      abs := abs + [(i, start + j)];
      rel := rel + [(i, j)];
      j := j + 1;
    }
  }

  /** The output loop over one type: every output of the block, tagged `t`, and its block mark. */
  method ListTypeOutputs(t: TypeId, ps: seq<Ptr>, i: nat, info: PortsInfo) returns (row: seq<(TypeId, Ptr)>, r: PortsInfo)
    ensures row == seq(|ps|, k requires 0 <= k < |ps| => (t, ps[k]))
    ensures r == MarkBlock(info, ps, i)
  {
    row, r := [], info;
    var k := 0;
    while k < |ps|
      invariant 0 <= k <= |ps|
      invariant row == seq(k, m requires 0 <= m < k => (t, ps[m]))
      invariant r == MarkBlock(info, ps[..k], i)
    {
      assert ps[..k + 1][..k] == ps[..k];
      row := row + [(t, ps[k])];
      r := r[ps[k] := InfoAt(r, ps[k]).(blockIndex := i)];
      k := k + 1;
    }
    assert ps[..|ps|] == ps;
  }

  /** Block `i`'s rows over one more type of `types`. */
  lemma RowStep(i: nat, shape: Shape, ps: seq<Ptr>, types: seq<TypeId>, m: nat, relIn: map<TypeId, seq<Entry>>, info: PortsInfo)
    requires m < |types|
    ensures InputRow(i, shape, types[..m + 1]) == InputRow(i, shape, types[..m]) + seq(CountOf(shape, types[m]), j => (i, SumCounts(shape, types[..m]) + j))
    ensures RelativeRow(relIn, i, shape, types[..m + 1]) ==
      RelativeRow(relIn, i, shape, types[..m])[types[m] := ListAt(RelativeRow(relIn, i, shape, types[..m]), types[m]) + seq(CountOf(shape, types[m]), j => (i, j))]
    ensures OutputRow(ps, types[..m + 1]) == OutputRow(ps, types[..m]) + seq(|ps|, k requires 0 <= k < |ps| => (types[m], ps[k]))
    ensures BlockRowInfo(info, ps, i, types[..m + 1]) == MarkBlock(BlockRowInfo(info, ps, i, types[..m]), ps, i)
  {
    assert types[..m + 1][..m] == types[..m];
  }

  /** The body of the block loop for block `i`: its rows of all four tables. */
  method IndexBlock(i: nat, shape: Shape, ps: seq<Ptr>, types: seq<TypeId>,
                    absIn: seq<Entry>, relIn: map<TypeId, seq<Entry>>, absOut: seq<(TypeId, Ptr)>, info: PortsInfo)
    returns (absIn': seq<Entry>, relIn': map<TypeId, seq<Entry>>, absOut': seq<(TypeId, Ptr)>, info': PortsInfo)
    ensures absIn' == absIn + InputRow(i, shape, types)
    ensures relIn' == RelativeRow(relIn, i, shape, types)
    ensures absOut' == absOut + OutputRow(ps, types)
    ensures info' == BlockRowInfo(info, ps, i, types)
  {
    absIn', relIn', absOut', info' := absIn, relIn, absOut, info;
    var m := 0;
    while m < |types|
      invariant 0 <= m <= |types|
      invariant absIn' == absIn + InputRow(i, shape, types[..m])
      invariant relIn' == RelativeRow(relIn, i, shape, types[..m])
      invariant absOut' == absOut + OutputRow(ps, types[..m])
      invariant info' == BlockRowInfo(info, ps, i, types[..m])
    {
      var t := types[m];
      var before := SumCounts(shape, types[..m]);
      var abs, rel := ListTypeInputs(i, before, CountOf(shape, t));
      RowStep(i, shape, ps, types, m, relIn, info);
      absIn' := absIn' + abs;
      relIn' := relIn'[t := ListAt(relIn', t) + rel];
      var row;
      row, info' := ListTypeOutputs(t, ps, i, info');
      absOut' := absOut' + row;
      m := m + 1;
    }
    assert types[..|types|] == types;
  }

  /** The block loop of `init_indices` over the first `|ins|` blocks. */
  method IndexBlocks(ins: seq<Shape>, outs: seq<seq<Ptr>>, types: seq<TypeId>, info: PortsInfo)
    returns (absIn: seq<Entry>, relIn: map<TypeId, seq<Entry>>, absOut: seq<(TypeId, Ptr)>, r: PortsInfo)
    requires |ins| == |outs|
    ensures absIn == AbsInputs(ins, types)
    ensures relIn == RelInputs(ins, types)
    ensures absOut == AbsOutputs(outs, types)
    ensures r == BlockInfo(info, outs, types)
  {
    absIn, relIn, absOut, r := [], map[], [], info;
    var i := 0;
    while i < |ins|
      invariant 0 <= i <= |ins|
      invariant absIn == AbsInputs(ins[..i], types)
      invariant relIn == RelInputs(ins[..i], types)
      invariant absOut == AbsOutputs(outs[..i], types)
      invariant r == BlockInfo(info, outs[..i], types)
    {
      assert ins[..i + 1][..i] == ins[..i];
      assert outs[..i + 1][..i] == outs[..i];
      absIn, relIn, absOut, r := IndexBlock(i, ins[i], outs[i], types, absIn, relIn, absOut, r);
      i := i + 1;
    }
    assert ins[..|ins|] == ins;
    assert outs[..|outs|] == outs;
  }

  /** The four index tables and the ports table, as `init_indices` leaves them. */
  datatype Tables = Tables(
    relativeOutputs: map<TypeId, seq<Ptr>>,
    absoluteInputs: seq<Entry>,
    relativeInputs: map<TypeId, seq<Entry>>,
    absoluteOutputs: seq<(TypeId, Ptr)>,
    info: PortsInfo)

  /** The tables over `types`, the output totals and the blocks' input shapes and output lists, marking `info`. */
  function TablesOf(types: seq<TypeId>, total: Shape, reg: Registry, ins: seq<Shape>, outs: seq<seq<Ptr>>, info: PortsInfo): Tables
  {
    Tables(RelativeOutputs(types, total, reg), AbsInputs(ins, types), RelInputs(ins, types), AbsOutputs(outs, types),
      BlockInfo(RelativeInfo(info, types, total, reg), outs, types))
  }

  /** The table-building part of `init_indices`: the relative output table first, then the block loop. */
  method BuildTables(types: seq<TypeId>, total: Shape, reg: Registry, ins: seq<Shape>, outs: seq<seq<Ptr>>, info: PortsInfo)
    returns (r: Tables)
    requires |ins| == |outs|
    ensures r == TablesOf(types, total, reg, ins, outs, info)
  {
    var relOut, marked := BuildRelativeOutputs(types, total, reg, info);
    var absIn, relIn, absOut, blockInfo := IndexBlocks(ins, outs, types, marked);
    r := Tables(relOut, absIn, relIn, absOut, blockInfo);
  }

  // ----- Counting a block's inputs over the scheme's types -----

  /** The elements of `s` that lie in `keep`, in order. */
  function KeepIn(s: seq<int>, keep: set<int>): seq<int>
    decreases |s|
  {
    if s == [] then []
    else KeepIn(s[..|s| - 1], keep) + (if s[|s| - 1] in keep then [s[|s| - 1]] else [])
  }

  lemma {:induction false} KeepInFacts(s: seq<int>, keep: set<int>)
    ensures forall x :: x in KeepIn(s, keep) <==> x in s && x in keep
    ensures Increasing(s) ==> Increasing(KeepIn(s, keep))
    decreases |s|
  {
    if s != [] {
      var n := |s| - 1;
      var front := s[..n];
      KeepInFacts(front, keep);
      assert s == front + [s[n]];
      if Increasing(s) {
        assert Increasing(front);
        var k := KeepIn(front, keep);
        forall i, j | 0 <= i < j < |KeepIn(s, keep)|
          ensures KeepIn(s, keep)[i] < KeepIn(s, keep)[j]
        {
          if j >= |k| {
            assert k[i] in k;
            var m :| 0 <= m < n && front[m] == k[i];
            assert s[m] < s[n];
          }
        }
      }
    }
  }

  /** Types a shape lacks add nothing to its count. */
  lemma {:induction false} SumCountsKeep(shape: Shape, s: seq<TypeId>)
    ensures SumCounts(shape, s) == SumCounts(shape, KeepIn(s, shape.Keys))
    decreases |s|
  {
    if s != [] {
      var n := |s| - 1;
      SumCountsKeep(shape, s[..n]);
      var k := KeepIn(s[..n], shape.Keys);
      if s[n] in shape {
        assert KeepIn(s, shape.Keys) == k + [s[n]];
        assert (k + [s[n]])[..|k|] == k;
      } else {
        assert KeepIn(s, shape.Keys) == k;
      }
    }
  }

  /** Two ascending sequences with the same elements are equal. */
  lemma {:induction false} IncreasingUnique(a: seq<int>, b: seq<int>)
    requires Increasing(a) && Increasing(b)
    requires forall x :: x in a <==> x in b
    ensures a == b
    decreases |a|
  {
    assert |b| == 0 || b[0] in b;
    if a != [] {
      assert a[0] in a;
      assert a[0] in b;
      assert b != [];
      assert b[0] in a;
      var i :| 0 <= i < |a| && a[i] == b[0];
      var j :| 0 <= j < |b| && b[j] == a[0];
      assert a[0] == b[0];
      forall x
        ensures x in a[1..] <==> x in b[1..]
      {
        if x in a[1..] {
          var k :| 1 <= k < |a| && a[k] == x;
          assert x in b;
          var m :| 0 <= m < |b| && b[m] == x;
          assert m != 0;
        }
        if x in b[1..] {
          var k :| 1 <= k < |b| && b[k] == x;
          assert x in a;
          var m :| 0 <= m < |a| && a[m] == x;
          assert m != 0;
        }
      }
      IncreasingUnique(a[1..], b[1..]);
      assert a == [a[0]] + a[1..];
      assert b == [b[0]] + b[1..];
    }
  }

  /**
   * Counted over the scheme's ascending types, a block's inputs number the
   * same as counted over its own types, when it has no type the scheme
   * lacks: both numberings of its inputs have the same length.
   */
  lemma CountOverSchemeTypes(shape: Shape, types: seq<TypeId>)
    requires Increasing(types)
    requires forall t :: t in shape ==> t in types
    ensures SumCounts(shape, types) == SumCounts(shape, SortedInts(shape.Keys))
  {
    SumCountsKeep(shape, types);
    KeepInFacts(types, shape.Keys);
    SortedIntsFacts(shape.Keys);
    IncreasingUnique(KeepIn(types, shape.Keys), SortedInts(shape.Keys));
  }
}
