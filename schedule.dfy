/**
 * The ordering pass of `Scheme::compute_calculation_order` and the time
 * stepping of `compute` and `computeSync` (src/scheme/scheme.cpp), as
 * functions of plain values.
 *
 * The pass visits the sorted blocks in order: each block is initialised,
 * then asked to fold itself into a constant; a block that does not fold is
 * active and goes to the list of blocks that can untie a loop or to the
 * list of those that cannot. The compute order is the first list reversed,
 * followed by the second.
 */
module Schedule {
  import opened Context
  import opened Ports
  import opened Blocks

  /** What the pass reads of a block: its kind, real inputs, first real output and CAN_UNTIE_LOOP flag. */
  datatype Snap = Snap(kind: BlockKind, ins: seq<Ptr>, out: Ptr, untie: bool)

  /** The lists a pass builds, the blocks whose visit folded them, and the ports table. */
  datatype Pass = Pass(active: seq<nat>, untie: seq<nat>, cant: seq<nat>, folded: seq<nat>, info: PortsInfo)

  function EmptyPass(info: PortsInfo): Pass
  {
    Pass([], [], [], [], info)
  }

  /** Every sorted index names a block. */
  predicate InRange(snaps: seq<Snap>, sorted: seq<nat>)
  {
    forall k :: 0 <= k < |sorted| ==> sorted[k] < |snaps|
  }

  /** One visit: `init()`, then `tryMakeConstant()`, then the lists. */
  function Visit(snaps: seq<Snap>, b: nat, p: Pass): Pass
    requires b < |snaps|
  {
    var s := snaps[b];
    var (ok, info) := FoldSpec(s.kind, s.ins, s.out, InitSpec(s.kind, s.out, p.info));
    if ok then p.(folded := p.folded + [b], info := info)
    else if s.untie then p.(active := p.active + [b], untie := p.untie + [b], info := info)
    else p.(active := p.active + [b], cant := p.cant + [b], info := info)
  }

  /** A visit whose fold came out as `(ok, info)`. */
  lemma VisitOutcome(snaps: seq<Snap>, b: nat, p: Pass, ok: bool, info: PortsInfo)
    requires b < |snaps|
    requires (ok, info) == FoldSpec(snaps[b].kind, snaps[b].ins, snaps[b].out, InitSpec(snaps[b].kind, snaps[b].out, p.info))
    ensures Visit(snaps, b, p).info == info
    ensures Visit(snaps, b, p).folded == if ok then p.folded + [b] else p.folded
    ensures Visit(snaps, b, p).active == if ok then p.active else p.active + [b]
    ensures Visit(snaps, b, p).untie == if !ok && snaps[b].untie then p.untie + [b] else p.untie
    ensures Visit(snaps, b, p).cant == if !ok && !snaps[b].untie then p.cant + [b] else p.cant
  {
  }

  /** The pass over `sorted`, in order. */
  function RunPass(snaps: seq<Snap>, sorted: seq<nat>, start: Pass): Pass
    requires InRange(snaps, sorted)
    decreases |sorted|
  {
    if sorted == [] then start
    else Visit(snaps, sorted[|sorted| - 1], RunPass(snaps, sorted[..|sorted| - 1], start))
  }

  /** The pass over one more block of `sorted` is one more visit. */
  lemma RunPassStep(snaps: seq<Snap>, sorted: seq<nat>, k: nat, start: Pass)
    requires InRange(snaps, sorted) && k < |sorted|
    ensures InRange(snaps, sorted[..k]) && InRange(snaps, sorted[..k + 1])
    ensures RunPass(snaps, sorted[..k + 1], start) == Visit(snaps, sorted[k], RunPass(snaps, sorted[..k], start))
  {
    assert sorted[..k + 1][..k] == sorted[..k];
  }

  function Reverse(s: seq<nat>): (r: seq<nat>)
    ensures |r| == |s|
    decreases |s|
  {
    if s == [] then [] else [s[|s| - 1]] + Reverse(s[..|s| - 1])
  }

  /**
   * `compute_sorted_blocks` after the pass: the previous list with the new
   * loop-untying blocks appended, all reversed, then the blocks that cannot
   * untie a loop.
   */
  function ComputeOrder(previous: seq<nat>, p: Pass): seq<nat>
  {
    Reverse(previous + p.untie) + p.cant
  }

  /** The flags after a pass: every fold of a block toggles its CONSTANT bit once more. */
  function Toggled(flags: seq<bv32>, folded: seq<nat>): (r: seq<bv32>)
    ensures |r| == |flags|
    decreases |folded|
  {
    if folded == [] then flags
    else
      var prev := Toggled(flags, folded[..|folded| - 1]);
      var b := folded[|folded| - 1];
      if b < |prev| then prev[b := Flipped(prev[b], true)] else prev
  }

  /** One more fold flips one more CONSTANT bit. */
  lemma ToggledAppend(flags: seq<bv32>, folded: seq<nat>, b: nat)
    requires b < |flags|
    ensures Toggled(flags, folded + [b]) == Toggled(flags, folded)[b := Flipped(Toggled(flags, folded)[b], true)]
  {
    assert (folded + [b])[..|folded|] == folded;
  }

  /** A visit flips the CONSTANT bit of `b` exactly when `b` folds. */
  lemma ToggledVisit(flags: seq<bv32>, folded: seq<nat>, b: nat, ok: bool)
    requires b < |flags|
    ensures var t := Toggled(flags, folded); t[b := Flipped(t[b], ok)] == Toggled(flags, if ok then folded + [b] else folded)
  {
    var t := Toggled(flags, folded);
    if ok {
      ToggledAppend(flags, folded, b);
    } else {
      assert t[b := t[b]] == t;
    }
  }

  /** The number of times `b` occurs in `s`. */
  function Occurrences(s: seq<nat>, b: nat): nat
    decreases |s|
  {
    if s == [] then 0 else Occurrences(s[..|s| - 1], b) + (if s[|s| - 1] == b then 1 else 0)
  }

  /**
   * A block's CONSTANT bit ends up flipped exactly when it folded an odd
   * number of times; no other bit of any block changes.
   */
  lemma {:induction false} ToggledMeaning(flags: seq<bv32>, folded: seq<nat>, b: nat)
    requires b < |flags|
    ensures Toggled(flags, folded)[b] == Flipped(flags[b], Occurrences(folded, b) % 2 == 1)
    decreases |folded|
  {
    if folded == [] {
      assert Occurrences(folded, b) == 0;
    } else {
      ToggledMeaning(flags, folded[..|folded| - 1], b);
      ToggledStep(flags, folded, b);
    }
  }

  /** The last fold of `folded` carries the meaning over from the folds before it. */
  lemma ToggledStep(flags: seq<bv32>, folded: seq<nat>, b: nat)
    requires b < |flags| && folded != []
    requires Toggled(flags, folded[..|folded| - 1])[b] == Flipped(flags[b], Occurrences(folded[..|folded| - 1], b) % 2 == 1)
    ensures Toggled(flags, folded)[b] == Flipped(flags[b], Occurrences(folded, b) % 2 == 1)
  {
    var front := folded[..|folded| - 1];
    var odd := Occurrences(front, b) % 2 == 1;
    if folded[|folded| - 1] == b {
      assert (Occurrences(folded, b) % 2 == 1) == !odd;
      ToggleParity(flags[b], odd);
    } else {
      assert Occurrences(folded, b) == Occurrences(front, b);
    }
  }

  /** One more fold flips the parity and the bit together. */
  lemma ToggleParity(x: bv32, odd: bool)
    ensures Flipped(x, !odd) == Flipped(Flipped(x, odd), true)
  {
    if odd {
      ToggleTwice(x, CONSTANT);
    }
  }

  lemma {:induction false} ReverseFacts(s: seq<nat>)
    ensures multiset(Reverse(s)) == multiset(s)
    ensures forall k :: 0 <= k < |s| ==> Reverse(s)[k] == s[|s| - 1 - k]
    decreases |s|
  {
    if s != [] {
      var front := s[..|s| - 1];
      ReverseFacts(front);
      assert s == front + [s[|s| - 1]];
    }
  }

  /** Every listed block exists and has its untie flag equal to `flag`. */
  ghost predicate Flagged(snaps: seq<Snap>, xs: seq<nat>, flag: bool)
  {
    forall k :: 0 <= k < |xs| ==> xs[k] < |snaps| && snaps[xs[k]].untie == flag
  }

  lemma FlaggedAppend(snaps: seq<Snap>, xs: seq<nat>, b: nat, flag: bool)
    requires Flagged(snaps, xs, flag) && b < |snaps| && snaps[b].untie == flag
    ensures Flagged(snaps, xs + [b], flag)
  {
  }

  /**
   * The pass sorts every visit of `sorted` into exactly one list: the active
   * blocks are the loop-untying ones together with the others, the active
   * and folded visits are all the visits, a block is on the untying list
   * exactly when its flag says so, and the ports table only gains constant
   * marks over `info`.
   */
  ghost predicate Partitioned(snaps: seq<Snap>, sorted: seq<nat>, info: PortsInfo, r: Pass)
  {
    multiset(r.untie) + multiset(r.cant) == multiset(r.active) &&
    multiset(r.active) + multiset(r.folded) == multiset(sorted) &&
    Flagged(snaps, r.untie, true) &&
    Flagged(snaps, r.cant, false) &&
    (forall q :: InfoAt(info, q).isConstant ==> InfoAt(r.info, q).isConstant)
  }

  /** Initialising and folding never take a constant mark away. */
  lemma VisitKeepsMarks(s: Snap, info: PortsInfo, q: Ptr)
    requires InfoAt(info, q).isConstant
    ensures InfoAt(FoldSpec(s.kind, s.ins, s.out, InitSpec(s.kind, s.out, info)).1, q).isConstant
  {
    var init := InitSpec(s.kind, s.out, info);
    assert InfoAt(init, q).isConstant;
    FoldSpecMeaning(s.kind, s.ins, s.out, init);
  }

  /** Adding block `b` to the folded list, or to the active list and its untie or cant list, keeps the partition. */
  lemma PartitionAppend(snaps: seq<Snap>, sorted: seq<nat>, info: PortsInfo, b: nat, ok: bool, p: Pass, r: Pass)
    requires b < |snaps| && Partitioned(snaps, sorted, info, p)
    requires r.folded == (if ok then p.folded + [b] else p.folded)
    requires r.active == (if ok then p.active else p.active + [b])
    requires r.untie == (if !ok && snaps[b].untie then p.untie + [b] else p.untie)
    requires r.cant == (if !ok && !snaps[b].untie then p.cant + [b] else p.cant)
    requires forall q :: InfoAt(info, q).isConstant ==> InfoAt(r.info, q).isConstant
    ensures Partitioned(snaps, sorted + [b], info, r)
  {
    assert multiset(sorted + [b]) == multiset(sorted) + multiset{b};
    if !ok {
      assert multiset(p.active + [b]) == multiset(p.active) + multiset{b};
      if snaps[b].untie {
        assert multiset(p.untie + [b]) == multiset(p.untie) + multiset{b};
        FlaggedAppend(snaps, p.untie, b, true);
      } else {
        assert multiset(p.cant + [b]) == multiset(p.cant) + multiset{b};
        FlaggedAppend(snaps, p.cant, b, false);
      }
    } else {
      assert multiset(p.folded + [b]) == multiset(p.folded) + multiset{b};
    }
  }

  /** One visit keeps the partition, with the visited block added. */
  lemma VisitPartition(snaps: seq<Snap>, sorted: seq<nat>, info: PortsInfo, b: nat, p: Pass)
    requires b < |snaps| && Partitioned(snaps, sorted, info, p)
    ensures Partitioned(snaps, sorted + [b], info, Visit(snaps, b, p))
  {
    var s := snaps[b];
    var (ok, info1) := FoldSpec(s.kind, s.ins, s.out, InitSpec(s.kind, s.out, p.info));
    VisitOutcome(snaps, b, p, ok, info1);
    forall q | InfoAt(info, q).isConstant
      ensures InfoAt(info1, q).isConstant
    {
      VisitKeepsMarks(s, p.info, q);
    }
    PartitionAppend(snaps, sorted, info, b, ok, p, Visit(snaps, b, p));
  }

  lemma {:induction false} PassPartition(snaps: seq<Snap>, sorted: seq<nat>, info: PortsInfo)
    requires InRange(snaps, sorted)
    ensures Partitioned(snaps, sorted, info, RunPass(snaps, sorted, EmptyPass(info)))
    decreases |sorted|
  {
    if sorted != [] {
      var n := |sorted| - 1;
      var front := sorted[..n];
      PassPartition(snaps, front, info);
      VisitPartition(snaps, front, info, sorted[n], RunPass(snaps, front, EmptyPass(info)));
      assert sorted == front + [sorted[n]];
    }
  }

  /** The first pass's compute order is a reordering of its active blocks. */
  lemma ComputeOrderPermutes(snaps: seq<Snap>, sorted: seq<nat>, info: PortsInfo)
    requires InRange(snaps, sorted)
    ensures var r := RunPass(snaps, sorted, EmptyPass(info));
      multiset(ComputeOrder([], r)) == multiset(r.active)
  {
    var r := RunPass(snaps, sorted, EmptyPass(info));
    PassPartition(snaps, sorted, info);
    ReverseFacts(r.untie);
    assert [] + r.untie == r.untie;
  }

  /**
   * A visit folds the block exactly when it is of a folding kind whose real
   * inputs are all marked constant; a Constant or any other block stays
   * active, and a Constant marks its output.
   */
  lemma VisitMeaning(snaps: seq<Snap>, b: nat, p: Pass)
    requires b < |snaps|
    ensures var r := Visit(snaps, b, p); var s := snaps[b];
      (r.folded == p.folded + [b] <==> s.kind.Folds() && forall k :: 0 <= k < |s.ins| ==> InfoAt(p.info, s.ins[k]).isConstant) &&
      (r.folded == p.folded <==> r.active == p.active + [b]) &&
      (s.kind.ConstantKind? ==> r.active == p.active + [b] && InfoAt(r.info, s.out).isConstant)
  {
    var s := snaps[b];
    FoldSpecMeaning(s.kind, s.ins, s.out, InitSpec(s.kind, s.out, p.info));
  }

  // ----- Time stepping -----

  /** A call the engine makes on a block: `init()` during the pass, `compute()` at a time during stepping. */
  datatype Call = InitCall(block: nat) | ComputeCall(block: nat, time: int)

  /** The `init()` calls of a pass over `sorted`. */
  function InitCalls(sorted: seq<nat>): (r: seq<Call>)
    ensures |r| == |sorted|
  {
    seq(|sorted|, k requires 0 <= k < |sorted| => InitCall(sorted[k]))
  }

  /** One step at time `time`: every block of the compute order, in order. */
  function Round(order: seq<nat>, time: int): (r: seq<Call>)
    ensures |r| == |order|
  {
    seq(|order|, k requires 0 <= k < |order| => ComputeCall(order[k], time))
  }

  /** `steps` steps from time `t0`: step `s` advances the clock to `t0 + s * dt` and then runs a round. */
  function Ticks(order: seq<nat>, t0: int, steps: nat): seq<Call>
    decreases steps
  {
    if steps == 0 then [] else Ticks(order, t0, steps - 1) + Round(order, t0 + steps * Dt)
  }

  /** Stepping `a` steps and then `b` more is stepping `a + b` steps. */
  lemma {:induction false} TicksCompose(order: seq<nat>, t0: int, a: nat, b: nat)
    ensures Ticks(order, t0, a + b) == Ticks(order, t0, a) + Ticks(order, t0 + a * Dt, b)
    decreases b
  {
    if b > 0 {
      TicksCompose(order, t0, a, b - 1);
      assert t0 + (a + b) * Dt == (t0 + a * Dt) + b * Dt;
    }
  }

  /**
   * `steps` steps make `steps * |order|` calls; every call is a compute of a
   * block of the order, at one of the times `t0 + dt`, …, `t0 + steps * dt`.
   */
  lemma {:induction false} TicksFacts(order: seq<nat>, t0: int, steps: nat)
    ensures |Ticks(order, t0, steps)| == steps * |order|
    ensures forall c :: c in Ticks(order, t0, steps) ==>
      c.ComputeCall? && c.block in order && t0 < c.time <= t0 + steps * Dt && (c.time - t0) % Dt == 0
    decreases steps
  {
    if steps > 0 {
      TicksFacts(order, t0, steps - 1);
      var round := Round(order, t0 + steps * Dt);
      forall c | c in round
        ensures c.ComputeCall? && c.block in order && t0 < c.time <= t0 + steps * Dt && (c.time - t0) % Dt == 0
      {
        var k :| 0 <= k < |round| && round[k] == c;
        assert c.time - t0 == steps * Dt;
      }
    }
  }

  /** The number of steps the loop of `computeSync` takes from `time` to reach `target`. */
  function StepsToReach(time: int, target: int): nat
  {
    if time >= target then 0 else (target - time + Dt - 1) / Dt
  }

  /**
   * The loop stops at the first step that brings the clock to or past the
   * target: no step at all when it is already there, and otherwise the step
   * before leaves it short of the target.
   */
  lemma StepsToReachFacts(time: int, target: int)
    ensures time + StepsToReach(time, target) * Dt >= target
    ensures StepsToReach(time, target) == 0 <==> time >= target
    ensures StepsToReach(time, target) > 0 ==> time + (StepsToReach(time, target) - 1) * Dt < target
  {
    if time < target {
      var d := target - time;
      var n := (d + Dt - 1) / Dt;
      assert n * Dt <= d + Dt - 1 < n * Dt + Dt;
    }
  }
}
