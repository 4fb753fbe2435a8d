/**
 * The input wiring of a whole scheme as a value: for every block, the map
 * from each of its types to that type's input slots (the `inputs` vector
 * of each `Ports<T>`, ports.hpp). A slot is named by its block, its type
 * and its position; an absolute input index names a slot through the
 * block's `absolute_input_ports` list (src/block/block.cpp).
 */
module Wires {
  import opened Config
  import opened Ports

  type Wiring = map<TypeId, seq<Ptr>>

  /** An input slot: block, type, position among that type's inputs. */
  type Slot = (nat, TypeId, nat)

  predicate SlotValid(ws: seq<Wiring>, s: Slot)
  {
    s.0 < |ws| && s.1 in ws[s.0] && s.2 < |ws[s.0][s.1]|
  }

  /** What a slot points at. */
  function ReadSlot(ws: seq<Wiring>, s: Slot): Ptr
  {
    if SlotValid(ws, s) then ws[s.0][s.1][s.2] else Null
  }

  /** `setInputPort`: rewire one slot. */
  function WriteSlot(ws: seq<Wiring>, s: Slot, p: Ptr): (r: seq<Wiring>)
    ensures |r| == |ws|
  {
    if SlotValid(ws, s) then ws[s.0 := ws[s.0][s.1 := ws[s.0][s.1][s.2 := p]]] else ws
  }

  /** The slot that absolute input `index` of block `b` names, given every block's `absolute_input_ports`. */
  function SlotOf(entries: seq<seq<(TypeId, nat)>>, b: nat, index: nat): Slot
  {
    if b < |entries| && index < |entries[b]| then (b, entries[b][index].0, entries[b][index].1) else (b, 0, 0)
  }

  /**
   * Rewiring a slot changes what that slot reads and nothing else: the
   * same slots stay valid, and every other slot reads as before.
   */
  lemma WriteSlotFacts(ws: seq<Wiring>, s: Slot, p: Ptr)
    ensures forall u :: SlotValid(WriteSlot(ws, s, p), u) <==> SlotValid(ws, u)
    ensures SlotValid(ws, s) ==> ReadSlot(WriteSlot(ws, s, p), s) == p
    ensures forall u :: u != s ==> ReadSlot(WriteSlot(ws, s, p), u) == ReadSlot(ws, u)
  {
  }

  /** Writing a slot back to what it read leaves the wiring as it was. */
  lemma WriteBack(ws: seq<Wiring>, s: Slot)
    ensures WriteSlot(ws, s, ReadSlot(ws, s)) == ws
  {
    if SlotValid(ws, s) {
      assert ws[s.0][s.1][s.2 := ws[s.0][s.1][s.2]] == ws[s.0][s.1];
      assert ws[s.0][s.1 := ws[s.0][s.1]] == ws[s.0];
    }
  }

  /** A second write to the same slot overrides the first. */
  lemma WriteTwice(ws: seq<Wiring>, s: Slot, p: Ptr, q: Ptr)
    ensures WriteSlot(WriteSlot(ws, s, p), s, q) == WriteSlot(ws, s, q)
  {
    if SlotValid(ws, s) {
      var w1 := WriteSlot(ws, s, p);
      assert SlotValid(w1, s);
      assert w1[s.0][s.1] == ws[s.0][s.1][s.2 := p];
      assert ws[s.0][s.1][s.2 := p][s.2 := q] == ws[s.0][s.1][s.2 := q];
      assert w1[s.0][s.1 := ws[s.0][s.1][s.2 := q]] == ws[s.0][s.1 := ws[s.0][s.1][s.2 := q]];
    }
  }

  /** A wiring that differs from `ws` only at slot `s`, which now reads `p`, is `ws` with that slot written. */
  lemma WriteSlotExact(ws: seq<Wiring>, r: seq<Wiring>, s: Slot, p: Ptr)
    requires SlotValid(ws, s) && |r| == |ws|
    requires r[s.0] == ws[s.0][s.1 := ws[s.0][s.1][s.2 := p]]
    requires forall j :: 0 <= j < |ws| && j != s.0 ==> r[j] == ws[j]
    ensures r == WriteSlot(ws, s, p)
  {
  }
}
