/**
 * What the four link binders of src/scheme/set-links.cpp do, as values.
 *
 * A binder reads `n` links from a flat array, `SIZE` numbers per link,
 * and for each one rewires one input slot to one output address and
 * appends one producer-to-consumer edge to `direct_graph`. Each link is
 * resolved here into a `Link`: the slot, the address, and the edge.
 * Resolution reads only what the binding leaves alone (the index tables,
 * the blocks' absolute lists and output slices), so the binder's effect is
 * the resolved links applied one after the other.
 */
module Links {
  import opened Context
  import opened Config
  import opened Ports
  import opened Blocks
  import opened Indexing
  import opened Wires
  import opened Layout

  /** One resolved link: the slot it rewires, the output it points the slot at, and the edge `from -> to`. */
  datatype Link = Link(slot: Slot, port: Ptr, from: nat, to: nat)

  /** The `n` groups of `size` consecutive numbers at the front of `links`: `link`, `link + SIZE`, … */
  function Groups(links: seq<nat>, n: nat, size: nat): (r: seq<seq<nat>>)
    requires n * size <= |links|
    ensures |r| == n
  {
    seq(n, k requires 0 <= k < n => GroupBounds(k, n, size); links[k * size..k * size + size])
  }

  lemma GroupBounds(k: nat, n: nat, size: nat)
    requires k < n
    ensures 0 <= k * size && k * size + size <= n * size
  {
    MulMonotone(k + 1, n, size);
    assert (k + 1) * size == k * size + size;
  }

  // ----- Applying resolved links -----

  /** The wiring after the links' slots are written in order. */
  function Wired(ws: seq<Wiring>, ls: seq<Link>): (r: seq<Wiring>)
    ensures |r| == |ws|
    decreases |ls|
  {
    if ls == [] then ws
    else
      var l := ls[|ls| - 1];
      WriteSlot(Wired(ws, ls[..|ls| - 1]), l.slot, l.port)
  }

  /** `direct_graph[from].push_back(to)`: `operator[]` starts a missing list empty. */
  function AddEdge(g: map<nat, seq<nat>>, from: nat, to: nat): map<nat, seq<nat>>
  {
    g[from := ListAt(g, from) + [to]]
  }

  /** The graph after every link's edge is appended in order. */
  function AddEdges(g: map<nat, seq<nat>>, ls: seq<Link>): map<nat, seq<nat>>
    decreases |ls|
  {
    if ls == [] then g
    else
      var l := ls[|ls| - 1];
      AddEdge(AddEdges(g, ls[..|ls| - 1]), l.from, l.to)
  }

  /** The ports table after `ports_info[l.port]` has been read for every link. */
  function Touched(info: PortsInfo, ls: seq<Link>): PortsInfo
    decreases |ls|
  {
    if ls == [] then info else Touch(Touched(info, ls[..|ls| - 1]), ls[|ls| - 1].port)
  }

  /** The consumers the links record for producer `u`, in link order. */
  function Consumers(ls: seq<Link>, u: nat): seq<nat>
    decreases |ls|
  {
    if ls == [] then []
    else
      var l := ls[|ls| - 1];
      Consumers(ls[..|ls| - 1], u) + (if l.from == u then [l.to] else [])
  }

  /** The output the last link into slot `s` points it at, if any link writes `s`. */
  function LastWrite(ls: seq<Link>, s: Slot): Option<Ptr>
    decreases |ls|
  {
    if ls == [] then None
    else if ls[|ls| - 1].slot == s then Some(ls[|ls| - 1].port)
    else LastWrite(ls[..|ls| - 1], s)
  }

  /** One more link is one more write, one more edge and one more read of the ports table. */
  lemma LinkStep(ws: seq<Wiring>, g: map<nat, seq<nat>>, info: PortsInfo, ls: seq<Link>, k: nat)
    requires k < |ls|
    ensures Wired(ws, ls[..k + 1]) == WriteSlot(Wired(ws, ls[..k]), ls[k].slot, ls[k].port)
    ensures AddEdges(g, ls[..k + 1]) == AddEdge(AddEdges(g, ls[..k]), ls[k].from, ls[k].to)
    ensures Touched(info, ls[..k + 1]) == Touch(Touched(info, ls[..k]), ls[k].port)
  {
    assert ls[..k + 1][..k] == ls[..k];
  }

  /** The first `k` links of `ls` have been applied to the wiring `ws` and the graph `g`, giving `w` and `gr`. */
  predicate Applied(ws: seq<Wiring>, g: map<nat, seq<nat>>, ls: seq<Link>, k: nat, w: seq<Wiring>, gr: map<nat, seq<nat>>)
  {
    k <= |ls| && w == Wired(ws, ls[..k]) && gr == AddEdges(g, ls[..k])
  }

  /** Applying link `k` next applies the first `k + 1`. */
  lemma AppliedNext(ws: seq<Wiring>, g: map<nat, seq<nat>>, ls: seq<Link>, k: nat, w: seq<Wiring>, gr: map<nat, seq<nat>>)
    requires Applied(ws, g, ls, k, w, gr) && k < |ls|
    ensures Applied(ws, g, ls, k + 1, WriteSlot(w, ls[k].slot, ls[k].port), AddEdge(gr, ls[k].from, ls[k].to))
  {
    LinkStep(ws, g, map[], ls, k);
  }

  /** Once every link is applied, the state is the one `Wired` and `AddEdges` give. */
  lemma AppliedAll(ws: seq<Wiring>, g: map<nat, seq<nat>>, ls: seq<Link>, w: seq<Wiring>, gr: map<nat, seq<nat>>)
    requires Applied(ws, g, ls, |ls|, w, gr)
    ensures w == Wired(ws, ls) && gr == AddEdges(g, ls)
  {
    assert ls[..|ls|] == ls;
  }

  /**
   * After the links, a slot that existed reads what the last link into it
   * wrote, or what it read before when no link writes it; the same slots
   * exist as before.
   */
  lemma {:induction false} WiredMeaning(ws: seq<Wiring>, ls: seq<Link>)
    ensures forall s :: SlotValid(Wired(ws, ls), s) <==> SlotValid(ws, s)
    ensures forall s :: ReadSlot(Wired(ws, ls), s) ==
                        if SlotValid(ws, s) && LastWrite(ls, s).Some? then LastWrite(ls, s).value else ReadSlot(ws, s)
    decreases |ls|
  {
    if ls != [] {
      var front := ls[..|ls| - 1];
      var l := ls[|ls| - 1];
      WiredMeaning(ws, front);
      WriteSlotFacts(Wired(ws, front), l.slot, l.port);
    }
  }

  /**
   * Every producer's list gets exactly its links' consumers appended, in
   * link order, and the graph gains a list for every producer named.
   */
  lemma {:induction false} AddEdgesMeaning(g: map<nat, seq<nat>>, ls: seq<Link>)
    ensures forall u :: ListAt(AddEdges(g, ls), u) == ListAt(g, u) + Consumers(ls, u)
    ensures AddEdges(g, ls).Keys == g.Keys + (set l | l in ls :: l.from)
    decreases |ls|
  {
    if ls != [] {
      var front := ls[..|ls| - 1];
      var l := ls[|ls| - 1];
      AddEdgesMeaning(g, front);
      assert forall m :: m in ls <==> m in front || m == l;
      forall u
        ensures ListAt(AddEdges(g, ls), u) == ListAt(g, u) + Consumers(ls, u)
      {
        if u == l.from {
          assert ListAt(g, u) + Consumers(front, u) + [l.to] == ListAt(g, u) + (Consumers(front, u) + [l.to]);
        } else {
          assert Consumers(ls, u) == Consumers(front, u) + [];
        }
      }
    }
  }

  /** Every link adds exactly one edge: the consumer lists of all producers hold `|ls|` entries together. */
  lemma {:induction false} ConsumersCount(ls: seq<Link>, producers: seq<nat>)
    requires forall i, j :: 0 <= i < j < |producers| ==> producers[i] != producers[j]
    requires forall l :: l in ls ==> l.from in producers
    ensures SumLengths(ls, producers) == |ls|
    decreases |ls|
  {
    if ls != [] {
      var front := ls[..|ls| - 1];
      var l := ls[|ls| - 1];
      assert ls == front + [l];
      assert l in ls;
      assert forall m :: m in front ==> m in ls;
      ConsumersCount(front, producers);
      SumLengthsStep(front, l, producers);
      assert l.from in producers;
    } else {
      NoConsumers(producers);
    }
  }

  /** No links, no edges. */
  lemma {:induction false} NoConsumers(producers: seq<nat>)
    ensures SumLengths([], producers) == 0
    decreases |producers|
  {
    if producers != [] {
      NoConsumers(producers[..|producers| - 1]);
    }
  }

  /** The number of consumers recorded for the listed producers. */
  function SumLengths(ls: seq<Link>, producers: seq<nat>): nat
    decreases |producers|
  {
    if producers == [] then 0
    else SumLengths(ls, producers[..|producers| - 1]) + |Consumers(ls, producers[|producers| - 1])|
  }

  /** Adding a link from a listed producer adds one to the count. */
  lemma {:induction false} SumLengthsStep(front: seq<Link>, l: Link, producers: seq<nat>)
    requires forall i, j :: 0 <= i < j < |producers| ==> producers[i] != producers[j]
    ensures SumLengths(front + [l], producers) == SumLengths(front, producers) + (if l.from in producers then 1 else 0)
    decreases |producers|
  {
    var ls := front + [l];
    assert ls[..|ls| - 1] == front;
    if producers != [] {
      var rest := producers[..|producers| - 1];
      var u := producers[|producers| - 1];
      assert l.from in producers <==> l.from in rest || l.from == u;
      assert u !in rest;
      SumLengthsStep(front, l, rest);
    }
  }

  /** Reading the ports table adds default entries and changes no entry's value. */
  lemma {:induction false} TouchedMeaning(info: PortsInfo, ls: seq<Link>)
    ensures forall q :: InfoAt(Touched(info, ls), q) == InfoAt(info, q)
    ensures Touched(info, ls).Keys == info.Keys + (set l | l in ls :: l.port)
    decreases |ls|
  {
    if ls != [] {
      var front := ls[..|ls| - 1];
      TouchedMeaning(info, front);
      assert forall m :: m in ls <==> m in front || m == ls[|ls| - 1];
    }
  }

  // ----- Resolving each kind of link -----

  /**
   * Stride 2, `[output, input]`: `absolute_input_index[input]` names a
   * `(block, port)` whose absolute input exists, and
   * `absolute_output_index[output]` exists.
   */
  predicate AbsoluteLinkFits(l: seq<nat>, t: Tables, ins: seq<seq<(TypeId, nat)>>)
  {
    |l| == 2 && l[0] < |t.absoluteOutputs| && l[1] < |t.absoluteInputs| &&
    t.absoluteInputs[l[1]].0 < |ins| && t.absoluteInputs[l[1]].1 < |ins[t.absoluteInputs[l[1]].0]|
  }

  /** The slot the absolute input names, the output's address, and the edge from the block `ports_info` records as the output's owner. */
  function AbsoluteLink(l: seq<nat>, t: Tables, ins: seq<seq<(TypeId, nat)>>): (r: Link)
    requires AbsoluteLinkFits(l, t, ins)
    ensures r.to == t.absoluteInputs[l[1]].0 && r.port == t.absoluteOutputs[l[0]].1
    ensures r.slot == SlotOf(ins, r.to, t.absoluteInputs[l[1]].1) && r.from == InfoAt(t.info, r.port).blockIndex
  {
    var (b, port) := t.absoluteInputs[l[1]];
    var p := t.absoluteOutputs[l[0]].1;
    Link(SlotOf(ins, b, port), p, InfoAt(t.info, p).blockIndex, b)
  }

  predicate AbsoluteFit(links: seq<nat>, n: nat, t: Tables, ins: seq<seq<(TypeId, nat)>>)
  {
    n * 2 <= |links| && forall k :: 0 <= k < n ==> AbsoluteLinkFits(Groups(links, n, 2)[k], t, ins)
  }

  function AbsoluteLinks(links: seq<nat>, n: nat, t: Tables, ins: seq<seq<(TypeId, nat)>>): (r: seq<Link>)
    requires AbsoluteFit(links, n, t, ins)
    ensures |r| == n
  {
    seq(n, k requires 0 <= k < n => AbsoluteLink(Groups(links, n, 2)[k], t, ins))
  }

  /** Link `k` is the two numbers from `links[2 * k]` on, and they fit. */
  lemma AbsoluteAt(links: seq<nat>, n: nat, t: Tables, ins: seq<seq<(TypeId, nat)>>, k: nat)
    requires AbsoluteFit(links, n, t, ins) && k < n
    ensures 2 * k + 2 <= |links| && AbsoluteLinkFits(links[2 * k..2 * k + 2], t, ins)
    ensures AbsoluteLinks(links, n, t, ins)[k] == AbsoluteLink(links[2 * k..2 * k + 2], t, ins)
  {
    GroupBounds(k, n, 2);
    assert links[2 * k..2 * k + 2] == Groups(links, n, 2)[k];
  }

  /**
   * Stride 3, `[type, output, input]`: both relative tables have the type
   * and the positions, and the input entry names a block with that many
   * inputs of the type.
   */
  predicate RelativeLinkFits(l: seq<nat>, t: Tables, shapes: seq<Shape>)
  {
    |l| == 3 && l[0] in t.relativeInputs && l[2] < |t.relativeInputs[l[0]]| &&
    l[0] in t.relativeOutputs && l[1] < |t.relativeOutputs[l[0]]| &&
    var (b, port) := t.relativeInputs[l[0]][l[2]];
    b < |shapes| && l[0] in shapes[b] && port < shapes[b][l[0]]
  }

  /** Input `port` of that type of the block the entry names, pointed at the column's output; the edge is from its recorded owner. */
  function RelativeLink(l: seq<nat>, t: Tables, shapes: seq<Shape>): (r: Link)
    requires RelativeLinkFits(l, t, shapes)
    ensures r.to == t.relativeInputs[l[0]][l[2]].0 && r.port == t.relativeOutputs[l[0]][l[1]]
    ensures r.slot == (r.to, l[0], t.relativeInputs[l[0]][l[2]].1) && r.from == InfoAt(t.info, r.port).blockIndex
  {
    var (b, port) := t.relativeInputs[l[0]][l[2]];
    var p := t.relativeOutputs[l[0]][l[1]];
    Link((b, l[0], port), p, InfoAt(t.info, p).blockIndex, b)
  }

  predicate RelativeFit(links: seq<nat>, n: nat, t: Tables, shapes: seq<Shape>)
  {
    n * 3 <= |links| && forall k :: 0 <= k < n ==> RelativeLinkFits(Groups(links, n, 3)[k], t, shapes)
  }

  function RelativeLinks(links: seq<nat>, n: nat, t: Tables, shapes: seq<Shape>): (r: seq<Link>)
    requires RelativeFit(links, n, t, shapes)
    ensures |r| == n
  {
    seq(n, k requires 0 <= k < n => RelativeLink(Groups(links, n, 3)[k], t, shapes))
  }

  /** Link `k` is the three numbers from `links[3 * k]` on, and they fit. */
  lemma RelativeAt(links: seq<nat>, n: nat, t: Tables, shapes: seq<Shape>, k: nat)
    requires RelativeFit(links, n, t, shapes) && k < n
    ensures 3 * k + 3 <= |links| && RelativeLinkFits(links[3 * k..3 * k + 3], t, shapes)
    ensures RelativeLinks(links, n, t, shapes)[k] == RelativeLink(links[3 * k..3 * k + 3], t, shapes)
  {
    GroupBounds(k, n, 3);
    assert links[3 * k..3 * k + 3] == Groups(links, n, 3)[k];
  }

  /** Stride 4, `[output block, output, input block, input]`: both blocks and both absolute positions exist. */
  predicate AbsoluteBlockLinkFits(l: seq<nat>, outs: seq<seq<Ptr>>, ins: seq<seq<(TypeId, nat)>>)
  {
    |l| == 4 && l[0] < |outs| && l[1] < |outs[l[0]]| && l[2] < |ins| && l[3] < |ins[l[2]]|
  }

  /** The input block's absolute input, pointed at the output block's absolute output; the edge is between the two blocks named. */
  function AbsoluteBlockLink(l: seq<nat>, outs: seq<seq<Ptr>>, ins: seq<seq<(TypeId, nat)>>): (r: Link)
    requires AbsoluteBlockLinkFits(l, outs, ins)
    ensures r == Link(SlotOf(ins, l[2], l[3]), outs[l[0]][l[1]], l[0], l[2])
  {
    Link(SlotOf(ins, l[2], l[3]), outs[l[0]][l[1]], l[0], l[2])
  }

  predicate AbsoluteBlockFit(links: seq<nat>, n: nat, outs: seq<seq<Ptr>>, ins: seq<seq<(TypeId, nat)>>)
  {
    n * 4 <= |links| && forall k :: 0 <= k < n ==> AbsoluteBlockLinkFits(Groups(links, n, 4)[k], outs, ins)
  }

  function AbsoluteBlockLinks(links: seq<nat>, n: nat, outs: seq<seq<Ptr>>, ins: seq<seq<(TypeId, nat)>>): (r: seq<Link>)
    requires AbsoluteBlockFit(links, n, outs, ins)
    ensures |r| == n
  {
    seq(n, k requires 0 <= k < n => AbsoluteBlockLink(Groups(links, n, 4)[k], outs, ins))
  }

  /** Link `k` is the four numbers from `links[4 * k]` on, and they fit. */
  lemma AbsoluteBlockAt(links: seq<nat>, n: nat, outs: seq<seq<Ptr>>, ins: seq<seq<(TypeId, nat)>>, k: nat)
    requires AbsoluteBlockFit(links, n, outs, ins) && k < n
    ensures 4 * k + 4 <= |links| && AbsoluteBlockLinkFits(links[4 * k..4 * k + 4], outs, ins)
    ensures AbsoluteBlockLinks(links, n, outs, ins)[k] == AbsoluteBlockLink(links[4 * k..4 * k + 4], outs, ins)
  {
    GroupBounds(k, n, 4);
    assert links[4 * k..4 * k + 4] == Groups(links, n, 4)[k];
  }

  /**
   * Stride 5, `[type, output block, output, input block, input]`: both
   * blocks exist and have the type (`ports_bases.at` throws otherwise) and
   * the input block has that many inputs of it.
   */
  predicate RelativeBlockLinkFits(l: seq<nat>, bases: seq<map<TypeId, Ptr>>, sizes: seq<map<TypeId, nat>>, shapes: seq<Shape>)
  {
    |l| == 5 && l[1] < |bases| && l[1] < |sizes| && l[0] in bases[l[1]] && l[0] in sizes[l[1]] &&
    l[3] < |shapes| && l[0] in shapes[l[3]] && l[4] < shapes[l[3]][l[0]]
  }

  /**
   * Input `l[4]` of that type of the input block, pointed at `getOutputPort(l[2])`
   * of the output block: `l[2]` elements past its base. The position is not
   * checked by the source, so the address may lie past the block's outputs.
   */
  function RelativeBlockLink(l: seq<nat>, bases: seq<map<TypeId, Ptr>>, sizes: seq<map<TypeId, nat>>, shapes: seq<Shape>): (r: Link)
    requires RelativeBlockLinkFits(l, bases, sizes, shapes)
    ensures r.slot == (l[3], l[0], l[4]) && r.from == l[1] && r.to == l[3]
    ensures bases[l[1]][l[0]].At? ==>
              r.port.At? && r.port.addr.typeHash == bases[l[1]][l[0]].addr.typeHash &&
              r.port.addr.offset == bases[l[1]][l[0]].addr.offset + l[2] * sizes[l[1]][l[0]]
  {
    Link((l[3], l[0], l[4]), Advance(bases[l[1]][l[0]], l[2] * sizes[l[1]][l[0]]), l[1], l[3])
  }

  predicate RelativeBlockFit(links: seq<nat>, n: nat, bases: seq<map<TypeId, Ptr>>, sizes: seq<map<TypeId, nat>>, shapes: seq<Shape>)
  {
    n * 5 <= |links| && forall k :: 0 <= k < n ==> RelativeBlockLinkFits(Groups(links, n, 5)[k], bases, sizes, shapes)
  }

  function RelativeBlockLinks(links: seq<nat>, n: nat, bases: seq<map<TypeId, Ptr>>, sizes: seq<map<TypeId, nat>>, shapes: seq<Shape>): (r: seq<Link>)
    requires RelativeBlockFit(links, n, bases, sizes, shapes)
    ensures |r| == n
  {
    seq(n, k requires 0 <= k < n => RelativeBlockLink(Groups(links, n, 5)[k], bases, sizes, shapes))
  }

  /** Link `k` is the five numbers from `links[5 * k]` on, and they fit. */
  lemma RelativeBlockAt(links: seq<nat>, n: nat, bases: seq<map<TypeId, Ptr>>, sizes: seq<map<TypeId, nat>>, shapes: seq<Shape>, k: nat)
    requires RelativeBlockFit(links, n, bases, sizes, shapes) && k < n
    ensures 5 * k + 5 <= |links| && RelativeBlockLinkFits(links[5 * k..5 * k + 5], bases, sizes, shapes)
    ensures RelativeBlockLinks(links, n, bases, sizes, shapes)[k] == RelativeBlockLink(links[5 * k..5 * k + 5], bases, sizes, shapes)
  {
    GroupBounds(k, n, 5);
    assert links[5 * k..5 * k + 5] == Groups(links, n, 5)[k];
  }
}
