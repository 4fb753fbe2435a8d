/**
 * Freezing inputs (src/scheme/freeze-port.cpp). Freezing the absolute input
 * `port` of block `b` points that input at a fresh value cell holding the
 * frozen value and remembers what the input pointed at; unfreezing points
 * it back and forgets the entry. The table is a `std::map` keyed by
 * `(block, port)`, so unfreezing all ports visits the keys in ascending
 * order.
 */
module Freezing {
  import opened Config
  import opened Ports
  import opened Ordered
  import opened Wires

  /** `Scheme::FrozenPort`: the pointer the input had, and the value of the cell it now points at. */
  datatype FrozenPort = FrozenPort(original: Ptr, value: real)

  type Key = (nat, nat)

  type Table = map<Key, FrozenPort>

  /** The `new double` cell allocated for a frozen key. */
  function Cell(key: Key): Ptr
  {
    Owned(key.0, key.1)
  }

  /** The scheme's wiring together with its table of frozen ports. */
  datatype State = State(wires: seq<Wiring>, table: Table)

  /** `freezePort`: a frozen key only gets its value replaced; a new one is rewired to its cell. */
  function Freeze(st: State, entries: seq<seq<(TypeId, nat)>>, key: Key, v: real): State
  {
    if key in st.table then st.(table := st.table[key := st.table[key].(value := v)])
    else
      var s := SlotOf(entries, key.0, key.1);
      State(WriteSlot(st.wires, s, Cell(key)), st.table[key := FrozenPort(ReadSlot(st.wires, s), v)])
  }

  /** `unfreezePort`: nothing for a key that is not frozen; otherwise restore and forget it. */
  function Unfreeze(st: State, entries: seq<seq<(TypeId, nat)>>, key: Key): State
  {
    if key !in st.table then st
    else State(WriteSlot(st.wires, SlotOf(entries, key.0, key.1), st.table[key].original), st.table - {key})
  }

  /** The wiring after the keys `keys` are restored to their originals, in order. */
  function Restore(ws: seq<Wiring>, table: Table, entries: seq<seq<(TypeId, nat)>>, keys: seq<Key>): (r: seq<Wiring>)
    requires forall k :: 0 <= k < |keys| ==> keys[k] in table
    ensures |r| == |ws|
    decreases |keys|
  {
    if keys == [] then ws
    else
      var k := keys[|keys| - 1];
      WriteSlot(Restore(ws, table, entries, keys[..|keys| - 1]), SlotOf(entries, k.0, k.1), table[k].original)
  }

  /** `unfreezeAllPorts`: restore every key in ascending order, then clear the table. */
  function UnfreezeAll(st: State, entries: seq<seq<(TypeId, nat)>>): State
  {
    SortedPairsFacts(st.table.Keys);
    State(Restore(st.wires, st.table, entries, SortedPairs(st.table.Keys)), map[])
  }

  /** Every frozen key names a valid slot, and different keys name different slots. */
  predicate KeysSeparate(st: State, entries: seq<seq<(TypeId, nat)>>)
  {
    (forall k :: k in st.table ==> SlotValid(st.wires, SlotOf(entries, k.0, k.1))) &&
    (forall k, m :: k in st.table && m in st.table && k != m ==> SlotOf(entries, k.0, k.1) != SlotOf(entries, m.0, m.1))
  }

  /**
   * After freezing, the key holds the new value; a newly frozen input points
   * at its cell and remembers what it pointed at before, while freezing an
   * already frozen key leaves the wiring and the remembered pointer alone.
   * No other key changes.
   */
  lemma FreezeReads(st: State, entries: seq<seq<(TypeId, nat)>>, key: Key, v: real)
    requires SlotValid(st.wires, SlotOf(entries, key.0, key.1))
    ensures var r := Freeze(st, entries, key, v); var s := SlotOf(entries, key.0, key.1);
      key in r.table && r.table[key].value == v &&
      (key !in st.table ==> ReadSlot(r.wires, s) == Cell(key) && r.table[key].original == ReadSlot(st.wires, s)) &&
      (key in st.table ==> r.wires == st.wires && r.table[key].original == st.table[key].original) &&
      (forall k :: k != key ==> (k in r.table <==> k in st.table) && (k in st.table ==> r.table[k] == st.table[k]))
  {
    WriteSlotFacts(st.wires, SlotOf(entries, key.0, key.1), Cell(key));
  }

  /** Unfreezing a port just frozen gives back the wiring and the table from before. */
  lemma FreezeThenUnfreeze(st: State, entries: seq<seq<(TypeId, nat)>>, key: Key, v: real)
    requires key !in st.table
    ensures Unfreeze(Freeze(st, entries, key, v), entries, key) == st
  {
    var s := SlotOf(entries, key.0, key.1);
    WriteTwice(st.wires, s, Cell(key), ReadSlot(st.wires, s));
    WriteBack(st.wires, s);
    assert st.table[key := FrozenPort(ReadSlot(st.wires, s), v)] - {key} == st.table;
  }

  /** Freezing a port twice is freezing it once with the second value: the first original is kept. */
  lemma FreezeTwice(st: State, entries: seq<seq<(TypeId, nat)>>, key: Key, v1: real, v2: real)
    ensures Freeze(Freeze(st, entries, key, v1), entries, key, v2) == Freeze(st, entries, key, v2)
  {
  }

  /** Restoring keeps the same slots valid. */
  lemma {:induction false} RestoreValid(ws: seq<Wiring>, table: Table, entries: seq<seq<(TypeId, nat)>>, keys: seq<Key>)
    requires forall k :: 0 <= k < |keys| ==> keys[k] in table
    ensures forall u :: SlotValid(Restore(ws, table, entries, keys), u) <==> SlotValid(ws, u)
    decreases |keys|
  {
    if keys != [] {
      var n := |keys| - 1;
      RestoreValid(ws, table, entries, keys[..n]);
      WriteSlotFacts(Restore(ws, table, entries, keys[..n]), SlotOf(entries, keys[n].0, keys[n].1), table[keys[n]].original);
    }
  }

  /** A slot that no restored key names reads as before. */
  lemma {:induction false} RestoreOthers(ws: seq<Wiring>, table: Table, entries: seq<seq<(TypeId, nat)>>, keys: seq<Key>, u: Slot)
    requires forall k :: 0 <= k < |keys| ==> keys[k] in table
    requires forall k :: k in keys ==> SlotOf(entries, k.0, k.1) != u
    ensures ReadSlot(Restore(ws, table, entries, keys), u) == ReadSlot(ws, u)
    decreases |keys|
  {
    if keys != [] {
      var n := |keys| - 1;
      assert keys[n] in keys;
      forall k | k in keys[..n]
        ensures SlotOf(entries, k.0, k.1) != u
      {
        assert k in keys;
      }
      RestoreOthers(ws, table, entries, keys[..n], u);
      WriteSlotFacts(Restore(ws, table, entries, keys[..n]), SlotOf(entries, keys[n].0, keys[n].1), table[keys[n]].original);
    }
  }

  /** Restoring distinct keys with separate slots leaves each key's slot with its original pointer. */
  lemma {:induction false} RestoreKeys(ws: seq<Wiring>, table: Table, entries: seq<seq<(TypeId, nat)>>, keys: seq<Key>, k: Key)
    requires forall i :: 0 <= i < |keys| ==> keys[i] in table
    requires KeysSeparate(State(ws, table), entries)
    requires k in keys
    ensures ReadSlot(Restore(ws, table, entries, keys), SlotOf(entries, k.0, k.1)) == table[k].original
    decreases |keys|
  {
    var n := |keys| - 1;
    var last := keys[n];
    var prev := Restore(ws, table, entries, keys[..n]);
    RestoreValid(ws, table, entries, keys[..n]);
    WriteSlotFacts(prev, SlotOf(entries, last.0, last.1), table[last].original);
    if k != last {
      var i :| 0 <= i < |keys| && keys[i] == k;
      assert keys[..n][i] == k;
      RestoreKeys(ws, table, entries, keys[..n], k);
    }
  }

  /**
   * With every frozen key on a slot of its own, unfreezing all ports puts
   * every frozen input back to its original pointer, leaves every other
   * input alone and empties the table.
   */
  lemma UnfreezeAllRestores(st: State, entries: seq<seq<(TypeId, nat)>>)
    requires KeysSeparate(st, entries)
    ensures var r := UnfreezeAll(st, entries);
      r.table == map[] &&
      (forall k :: k in st.table ==> ReadSlot(r.wires, SlotOf(entries, k.0, k.1)) == st.table[k].original) &&
      (forall u :: (forall k :: k in st.table ==> SlotOf(entries, k.0, k.1) != u) ==> ReadSlot(r.wires, u) == ReadSlot(st.wires, u))
  {
    UnfreezeAllFrozen(st, entries);
    UnfreezeAllOthers(st, entries);
  }

  /** Unfreezing all ports puts every frozen input back to its original pointer. */
  lemma UnfreezeAllFrozen(st: State, entries: seq<seq<(TypeId, nat)>>)
    requires KeysSeparate(st, entries)
    ensures forall k :: k in st.table ==> ReadSlot(UnfreezeAll(st, entries).wires, SlotOf(entries, k.0, k.1)) == st.table[k].original
  {
    var keys := SortedPairs(st.table.Keys);
    SortedPairsFacts(st.table.Keys);
    forall k | k in st.table
      ensures ReadSlot(UnfreezeAll(st, entries).wires, SlotOf(entries, k.0, k.1)) == st.table[k].original
    {
      RestoreKeys(st.wires, st.table, entries, keys, k);
    }
  }

  /** Unfreezing all ports leaves every input no frozen key names alone. */
  lemma UnfreezeAllOthers(st: State, entries: seq<seq<(TypeId, nat)>>)
    ensures forall u :: (forall k :: k in st.table ==> SlotOf(entries, k.0, k.1) != u) ==>
      ReadSlot(UnfreezeAll(st, entries).wires, u) == ReadSlot(st.wires, u)
  {
    var keys := SortedPairs(st.table.Keys);
    SortedPairsFacts(st.table.Keys);
    forall u | forall k :: k in st.table ==> SlotOf(entries, k.0, k.1) != u
      ensures ReadSlot(UnfreezeAll(st, entries).wires, u) == ReadSlot(st.wires, u)
    {
      RestoreOthers(st.wires, st.table, entries, keys, u);
    }
  }
}
