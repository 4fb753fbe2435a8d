# math-compute: a verified model of the scheme engine

math-compute simulates networks of control-system blocks that run on a fixed
time step. Blocks include delays, logic gates, triggers, hysteresis elements,
voters and sources. A *scheme* owns the blocks and runs them in five stages:

1. `allocate_memory` gives each port type one contiguous output arena and gives
   each block a disjoint slice of that arena.
2. `init_indices` builds the absolute and relative addressing tables and tags
   each output with the block that owns it.
3. The link binders (`setAbsoluteLinks`, `setRelativeLinks`,
   `setAbsoluteBlockLinks`, `setRelativeBlockLinks`) point consumer
   inputs at producer outputs and record producer→consumer edges.
4. `compute_calculation_order` sorts the blocks, with loop-breaking blocks
   first. It then runs `init`, folds constants and fixes the per-tick order.
5. `compute` and `computeSync` advance the clock and run the blocks in that
   order. The engine model records each `init` and `compute` call in a call
   trace rather than running the blocks' bodies; what each kind of block
   computes is modelled on its own (see the last row below).

Two features work alongside these stages:

- Freezing swaps an input pointer for a private override value, and
  unfreezing restores the original pointer.
- The `assign` parser turns a byte stream into block descriptions and links.

Each file of this model is one Dafny module:

| file | module | models |
|---|---|---|
| config.dfy | Config | the type registry (sizes and names per type hash), time constants |
| context.dfy | Context | signal values, boolean encoding, block flags |
| ports.dfy | Ports | `PortSet` (ports.hpp): typed input pointers and the output view |
| block.dfy | Blocks | `Block` (block/block.cpp, block.h): ids, port registration, relative/absolute indices |
| layout.dfy | Layout | the arena layout computed by `allocate_memory` |
| indexing.dfy | Indexing | the tables built by `init_indices` |
| links.dfy | Links | what each link binder writes |
| wires.dfy, ordered.dfy | Wires, Ordered | pointer values and sorted-set helpers |
| schedule.dfy | Schedule | the ordering, folding and tick semantics of `compute_calculation_order` / `compute` |
| freeze.dfy, signals.dfy | Freezing, SignalPorts | the freeze table, and the signal input/output vectors |
| scheme.dfy | Engine | the `Scheme` class: the imperative engine proved against the modules above |
| assign.dfy | Assign | the byte parser of `assign` |
| logical.dfy, choice.dfy, median.dfy, delays.dfy, dynamic.dfy, nonlinear.dfy, pulses.dfy, triggers.dfy | … | the block state machines: or, xor, constant, choice 3/4, median-3a, delays, step delay, hysteresis, low threshold, pulses, triggers |

A block that keeps state between ticks updates its output slot in place, so
it is a class. Its `Compute` method is proved against a step function, and
lemmas about that step function state what the block promises over a run of
ticks. The Choice 3D and 4D voters keep no state; Choice3D and Choice4D are
functions from the inputs to the outputs.

Where a doc comment and the code disagree, the model follows the code. The
comment on the StrL trigger (src/scheme/create-blocks/triggers.cpp:134) says
that reset has priority, but `compute` in
include/blocks/triggers/t-triggers/str-l-trigger.hpp:31-38 tests set first,
so set has priority; Triggers.StrLSetPriority states the code's behaviour.

## Model

| member | source | states |
|---|---|---|
| Config.Register | src/config.cpp:30-36 | registering a hash stores its entry under it, adds exactly that key, and every other entry is unchanged |
| Config.TypeSize | constants/config.hxx:45-50 | the size lookup succeeds exactly for a registered hash |
| Config.TypeName | constants/config.hxx:53-58 | the name lookup succeeds exactly for a registered hash |
| Config.TypeCodename | constants/config.hxx:61-66 | the codename lookup succeeds exactly for a registered hash |
| Config.LookupAfterRegister | src/config.cpp:30-36 | a hash just registered looks up to the size, name and codename registered; any other hash answers as before |
| Config.LookupsAgree | constants/config.hxx:45-66 | the three lookups fail together, on the unregistered hashes only, and the size lookup fails with its `unknown type hash` error |
| Config.DefaultEntrySize | constants/config.hxx:21-24 | a default-constructed entry reports the size `-1` converted to `size_t`, that is 2^64 - 1 |
| Config.ScalarRegistry | src/config.cpp:13-18 | the scalar registration registers exactly the six scalar types, each with a size from 1 to 8 bytes |
| Context.ToggleBoolean | include/blocks/triggers/t-triggers/t-trigger-b.hpp:35 | the toggle a T-trigger stores maps the boolean output 1.0 or 0.0 to the other one |
| Ports.Advance | ports.hpp:59-61 | pointer arithmetic moves an arena address by exactly the given number of bytes within its type's arena, and a null base stays null |
| Ports.PortSet.constructor | ports.hpp:42-45 | a new port set has the given counts, `in` null input slots and no output storage |
| Ports.PortSet.IsOrigin | ports.hpp:26-28 | a port set is an origin exactly when it has no input slots |
| Ports.PortSet.Allocate | ports.hpp:47-49 | `allocate` points the outputs at the given storage and changes nothing else |
| Ports.PortSet.SetInputPort | ports.hpp:63-65 | `setInputPort` rewires exactly the one input slot |
| Ports.PortSet.OutputPorts | ports.hpp:59-61 | once allocated, output `i` lies `i * sizeof(T)` bytes past the start, inside the outputs' slice, and distinct outputs have distinct addresses |
| SignalPorts.Signals.constructor | include/signals.h:32-34 | a new signal set has the given input and output counts, no buffer attached and both offsets 0 |
| SignalPorts.Signals.AttachInputs | src/scheme/signals.cpp:24-29 | attaching the input buffer sets the pointer and the offset to the same position |
| SignalPorts.Signals.AttachOutputs | src/scheme/signals.cpp:30-35 | attaching the output buffer sets the pointer and the offset to the same position |
| Wires.WriteSlot | ports.hpp:63-65 | rewiring a slot keeps the number of blocks |
| Wires.WriteSlotFacts | ports.hpp:63-65 | rewiring a slot makes that slot read the new pointer, keeps the same slots valid and every other slot reads as before |
| Wires.WriteBack | ports.hpp:63-65 | writing back what a slot reads leaves the wiring unchanged |
| Wires.WriteTwice | ports.hpp:63-65 | a second write to the same slot overrides the first |
| Wires.WriteSlotExact | ports.hpp:63-65 | a wiring that differs from the old one only in the given slot, which now reads `p`, is the old wiring with that slot written |
| Freezing.Restore | src/scheme/freeze-port.cpp:33-37 | restoring frozen keys keeps the number of blocks |
| Freezing.FreezeReads | src/scheme/freeze-port.cpp:4-17 | after `freezePort` the key holds the new value; a newly frozen input points at its own cell and the table remembers the old pointer; re-freezing a frozen key changes only its value |
| Freezing.FreezeThenUnfreeze | src/scheme/freeze-port.cpp:4-30 | unfreezing a port just frozen restores the wiring and the table from before |
| Freezing.FreezeTwice | src/scheme/freeze-port.cpp:6-9 | freezing a port twice equals freezing it once with the second value: the first original pointer is kept |
| Freezing.RestoreValid | src/scheme/freeze-port.cpp:33-37 | restoring frozen keys keeps the same slots valid |
| Freezing.RestoreOthers | src/scheme/freeze-port.cpp:33-37 | a slot that no restored key names reads as before |
| Freezing.RestoreKeys | src/scheme/freeze-port.cpp:33-37 | with distinct slots per key, every restored key's slot reads its original pointer |
| Freezing.UnfreezeAllRestores | src/scheme/freeze-port.cpp:32-39 | `unfreezeAllPorts` puts every frozen input back to its original pointer, leaves every other input alone and empties the table |
| Freezing.UnfreezeAllFrozen | src/scheme/freeze-port.cpp:33-37 | after `unfreezeAllPorts`, every frozen input reads its original pointer |
| Freezing.UnfreezeAllOthers | src/scheme/freeze-port.cpp:33-37 | after `unfreezeAllPorts`, every input that no frozen key names reads as before |
| Ordered.SortedInts | src/scheme/scheme.cpp:46-56 | the ascending enumeration of a `std::set` has one entry per element |
| Ordered.SortedIntsMembers | src/scheme/scheme.cpp:56-63 | the enumeration lists exactly the elements of the set |
| Ordered.SortedIntsFacts | src/scheme/scheme.cpp:56-63 | the enumeration is strictly ascending and lists exactly the elements of the set |
| Ordered.SortedPairs | src/scheme/freeze-port.cpp:33 | the enumeration of the frozen-port map's keys has one entry per key |
| Ordered.SortedPairsFacts | src/scheme/freeze-port.cpp:33 | the keys of the frozen-port map come in strictly ascending lexicographic order, each exactly once |
| Blocks.Touch | include/blocks/logical/or.hpp:49 | reading `ports_info[p]` inserts `p` with a default entry if it is missing, and no entry changes value |
| Blocks.MarkConstant | include/blocks/logical/or.hpp:51 | marking an output constant sets that entry's `is_constant` flag and leaves every other entry as it was |
| Blocks.ScanConstant | include/blocks/logical/or.hpp:48-50 | the scan succeeds exactly when every input's entry is constant; it changes no entry's value and inserts only input pointers |
| Blocks.FoldSpecMeaning | include/blocks/logical/or.hpp:47-54 | folding succeeds exactly for an Or, Xor, Summator, Greater or Divider whose inputs are all constant; then only the output becomes constant, and on failure no entry changes value |
| Blocks.ConstantNeverFolds | include/blocks/sources/constant.hpp:27-30 | a Constant's `tryMakeConstant` is the default `false` and leaves the table alone, while its `init` marks its output constant |
| Blocks.ToggleTwice | include/block.h:62 | toggling the same flag twice restores the flags |
| Blocks.FlagBitsIndependent | include/block.h:31-35 | the CONSTANT, CAN_UNTIE_LOOP and IMPLICIT_COMPUTE tests read different bits: toggling one flag flips its own test only |
| Blocks.InputEntriesShape | src/block/block.cpp:50-52 | there is one absolute input entry per input, each names an existing input of a listed type, and for ascending types the entries ascend, so none repeats |
| Blocks.OutputView | ports.hpp:59-61 | a port set's output view has one address per output |
| Blocks.ListInputs | src/block/block.cpp:51-52 | the loop over one type's inputs lists `(type, 0)` to `(type, count - 1)` in order |
| Blocks.ListOutputs | src/block/block.cpp:53-54 | the loop over one type's outputs lists `getOutputPort(0)` to `getOutputPort(count - 1)` in order |
| Blocks.CollectEntries | src/block/block.cpp:50-55 | the loop over the types in order appends the input entries and output addresses of each type in turn, and every entry names an existing input |
| Blocks.BlockEntries | src/block/block.cpp:39-56 | `initIndices` appends the entries of the types in ascending hash order, as the `std::map` copy orders them |
| Blocks.IdsCountFromZero | include/block.h:23-44 | the counter starts at `size_t(-1)`, so the n-th block constructed gets id n - 1 |
| Blocks.IdCounter.constructor | include/block.h:23 | the id counter starts at `size_t(-1)` |
| Blocks.IdCounter.Next | include/block.h:43 | `++count` wraps around modulo 2^64 and hands out the new value |
| Blocks.Block.Wiring | include/block.h:18 | the wiring has an entry for each registered type |
| Blocks.Block.Bases | include/block.h:18 | the output bases have an entry for each registered type |
| Blocks.Block.Views | ports.hpp:59-61 | the output views have an entry for each registered type |
| Blocks.Block.InputShape | src/block/block.cpp:15-20 | the input shape has an entry for each registered type |
| Blocks.Block.OutputShape | src/block/block.cpp:22-27 | the output shape has an entry for each registered type |
| Blocks.Block.constructor | include/block.h:43-44 | a new block takes the next id, has its first port set registered and empty absolute lists, and has CONSTANT set for a Constant and CAN_UNTIE_LOOP for a loop breaker |
| Blocks.Block.RegisterPorts | src/block/block.cpp:11-13 | registering a port set stores it under its type hash and replaces any earlier one |
| Blocks.Block.InputCounts | src/block/block.cpp:15-20 | `inputs()` maps each registered type to its input count |
| Blocks.Block.OutputCounts | src/block/block.cpp:22-27 | `outputs()` maps each registered type to its output count |
| Blocks.Block.AssignOutputs | src/block/block.cpp:29-32 | every port set is allocated at `memory[type]`, or at null for a type the map lacks; the inputs are untouched |
| Blocks.Block.InitIndices | src/block/block.cpp:39-56 | `initIndices` appends the type-ordered input entries and output addresses to the absolute lists, keeping what was there |
| Blocks.Block.SetInputPortAbsolute | src/block/block.cpp:58-61 | rewires exactly the input that absolute entry `index` names, which then reads `port` |
| Blocks.Block.SetInputPortRelative | src/block/block.cpp:63-65 | rewires input `index` of the type when the block has it; for a missing type the `.at` throws and nothing changes |
| Blocks.Block.GetInputPortAbsolute | src/block/block.cpp:75-78 | returns the pointer held by the input that absolute entry `index` names |
| Blocks.Block.GetOutputPortRelative | src/block/block.cpp:71-73 | returns the type's `index`-th output address, or nothing for a type the block does not have |
| Blocks.Block.ToggleFlag | include/block.h:62 | XORs the flag into the flags |
| Blocks.Block.Init | include/blocks/sources/constant.hpp:27-30 | `init` marks a Constant's output constant and leaves the table alone for the other kinds |
| Blocks.Block.TryMakeConstant | include/blocks/logical/or.hpp:47-54 | `tryMakeConstant` folds as specified and toggles CONSTANT exactly when it succeeds |
| Layout.AddShape | src/scheme/scheme.cpp:81-82 | adding one block's shape to the totals adds each type's count and keeps every other type's total |
| Layout.TotalIsSum | src/scheme/scheme.cpp:79-82 | a type's total is the sum of the blocks' counts of it, and a type has an entry exactly when some block registers it |
| Layout.SumOfPrefixMonotone | src/scheme/scheme.cpp:80-82 | the blocks up to `i` hold no more outputs of a type than the blocks up to any `j >= i` |
| Layout.ArenaFacts | src/scheme/scheme.cpp:84-85 | after the resize loop every counted type's arena holds `count * type_size` bytes, and an arena of an uncounted type keeps its length |
| Layout.ResizeNext | src/scheme/scheme.cpp:84-85 | resizing one more type sets exactly that type's arena length |
| Layout.ResizeFacts | src/scheme/scheme.cpp:84-85 | the resized types get `count * type_size` bytes, the others keep their lengths, and no type is dropped |
| Layout.SlicesDisjoint | src/scheme/scheme.cpp:87-93 | the slice of block `i` in a type's arena ends at or before the start of the slice of any later block |
| Layout.SlicesFillArena | src/scheme/scheme.cpp:84-93 | after the last block the running offset of a type equals the length of its arena |
| Layout.BlockMemory | src/scheme/scheme.cpp:89-93 | the memory map a block receives has an entry for each of its output types |
| Layout.Offsets | src/scheme/scheme.cpp:87-93 | the running offset of a type after all blocks is the type's total output count times its size |
| Layout.PlaceFacts | src/scheme/scheme.cpp:89-93 | one block's turn builds its slice starts and leaves the offsets past its slices |
| Layout.Slices | src/scheme/scheme.cpp:87-96 | the offsets loop gives every block the memory map of its slice starts |
| Layout.PlaceBlock | src/scheme/scheme.cpp:89-93 | each of a block's types gets a slice at its running offset, which then advances by `count * type_size` |
| Layout.AccumulateTotals | src/scheme/scheme.cpp:79-82 | the accumulation loop computes the totals over all blocks |
| Layout.AddCounts | src/scheme/scheme.cpp:81-82 | the inner loop adds one block's counts to the totals |
| Layout.ResizeArenas | src/scheme/scheme.cpp:84-85 | the resize loop leaves every counted type's arena at `count * type_size` bytes and keeps the rest |
| Indexing.OutputColumn | src/scheme/scheme.cpp:52-53 | one type's output column holds exactly `count` addresses |
| Indexing.ColumnDistinct | src/scheme/scheme.cpp:52-53 | for a type of nonzero size, position `k` of the column is `data + k * size` and appears nowhere later in the column |
| Indexing.MarkRelativeKeeps | src/scheme/scheme.cpp:54 | marking a column changes only `relative_index`, and only for addresses in the column |
| Indexing.MarkRelativePositions | src/scheme/scheme.cpp:54 | every address whose last occurrence in the column is at position `k` gets `relative_index == k` |
| Indexing.RelativeInfoFacts | src/scheme/scheme.cpp:46-57 | after the arena loop, output `i` of each type of nonzero size has `relative_index == i`, and no other field of any entry changes |
| Indexing.BuildColumn | src/scheme/scheme.cpp:50-55 | the loop over one arena returns that arena's output column and the ports table with the column marked |
| Indexing.BuildRelativeOutputs | src/scheme/scheme.cpp:46-57 | the loop over all arenas builds `relative_output_index` and the relative marks that the specification functions define |
| Indexing.AbsInputsMeaning | src/scheme/scheme.cpp:59-69 | `absolute_input_index` holds exactly the pairs `(b, k)` with `k` below block `b`'s input count over the scheme's types, each once, in ascending order |
| Indexing.RelativeRowFacts | src/scheme/scheme.cpp:63-69 | one block's row appends `(i, 0) … (i, count-1)` to the list of every scheme type, adds keys only for those types, and leaves other lists alone |
| Indexing.RelInputsMeaning | src/scheme/scheme.cpp:59-69 | `relative_input_index[t]` holds exactly the pairs `(b, j)` with `j` below block `b`'s number of inputs of type `t`, in ascending order; there is a list for every scheme type once a block exists |
| Indexing.OutputRowFacts | src/scheme/scheme.cpp:63-73 | one block adds `|types| * |outputs|` entries to `absolute_output_index`: every pair of a scheme type and one of its output addresses |
| Indexing.AbsOutputsMeaning | src/scheme/scheme.cpp:59-75 | `absolute_output_index` holds exactly the pairs of a scheme type and an output address of some block |
| Indexing.MarkBlockFacts | src/scheme/scheme.cpp:70-73 | marking a block's outputs sets `block_index` to `i` on exactly those addresses and changes no other field |
| Indexing.BlockRowInfoFacts | src/scheme/scheme.cpp:63-74 | a block's row marks its outputs with its index when the scheme has a type, and touches nothing else |
| Indexing.BlockInfoMeaning | src/scheme/scheme.cpp:59-75 | when the scheme has a type, each output address's `block_index` is the last block that has it; addresses of no block and every other field keep their values |
| Indexing.ListTypeInputs | src/scheme/scheme.cpp:64-69 | the input loop over one type appends `(i, start + j)` to the absolute list and `(i, j)` to the relative list for `j < count` |
| Indexing.ListTypeOutputs | src/scheme/scheme.cpp:70-73 | the output loop over one type lists every output of the block tagged with the type, and marks them with the block |
| Indexing.RowStep | src/scheme/scheme.cpp:63-74 | one more type in the inner loop extends each of the four tables by that type's entries |
| Indexing.IndexBlock | src/scheme/scheme.cpp:60-74 | the body of the block loop extends the four tables by block `i`'s rows |
| Indexing.IndexBlocks | src/scheme/scheme.cpp:59-75 | the block loop builds the four tables that the specification functions define, whose meaning the lemmas above state |
| Indexing.BuildTables | src/scheme/scheme.cpp:37-76 | `init_indices` builds the relative output table and then the four block tables, as `TablesOf` defines |
| Indexing.KeepInFacts | src/scheme/scheme.cpp:46-56 | keeping only the members of a set keeps exactly those elements and keeps ascending order |
| Indexing.SumCountsKeep | src/scheme/scheme.cpp:63-64 | types that a block lacks add no inputs (`inputs[type_hash]` is zero for them) |
| Indexing.IncreasingUnique | src/scheme/scheme.cpp:46 | two ascending sequences with the same elements are equal, so the ordered set of types has one listing |
| Indexing.CountOverSchemeTypes | src/scheme/scheme.cpp:59-69 | counted over the scheme's ascending types, a block has as many absolute inputs as over its own types, when it has no type the scheme lacks |
| Links.Groups | src/scheme/set-links.cpp:8-9 | `n` links of `SIZE` numbers each give exactly `n` groups |
| Links.GroupBounds | src/scheme/set-links.cpp:8-9 | group `k` of `n` lies inside the first `n * SIZE` numbers |
| Links.Wired | src/scheme/set-links.cpp:9-15 | writing the links' slots leaves the number of blocks unchanged |
| Links.LinkStep | src/scheme/set-links.cpp:9-15 | one more link is one more slot write, one more graph edge and one more read of `ports_info` |
| Links.AppliedNext | src/scheme/set-links.cpp:9-15 | the loop invariant holds after link `k` is applied |
| Links.AppliedAll | src/scheme/set-links.cpp:9-15 | once every link is applied, the wiring and graph are the ones `Wired` and `AddEdges` give |
| Links.WiredMeaning | src/scheme/set-links.cpp:12 | after the links, a slot reads the port that the last link into it wrote, or its old value when no link writes it; the set of slots does not change |
| Links.AddEdgesMeaning | src/scheme/set-links.cpp:14 | each producer's `direct_graph` list gets exactly its links' consumers appended in link order, and the graph gains a key for each producer named |
| Links.ConsumersCount | src/scheme/set-links.cpp:14 | every link adds exactly one edge: the consumer lists hold `|ls|` entries together |
| Links.NoConsumers | src/scheme/set-links.cpp:14 | no links, no edges |
| Links.SumLengthsStep | src/scheme/set-links.cpp:14 | a link from a listed producer adds one edge to the count |
| Links.TouchedMeaning | src/scheme/set-links.cpp:14 | indexing `ports_info` inserts default entries only and changes no existing entry |
| Links.AbsoluteLink | src/scheme/set-links.cpp:10-14 | the link writes the input that `absolute_input_index[link[1]]` names, with the address from `absolute_output_index[link[0]]`, and adds an edge from that address's recorded owner to the input block |
| Links.AbsoluteLinks | src/scheme/set-links.cpp:6-15 | `n` absolute links decode to `n` links |
| Links.AbsoluteAt | src/scheme/set-links.cpp:8-10 | link `k` is the two numbers starting at `links[2k]`, and they are in range |
| Links.RelativeLink | src/scheme/set-links.cpp:28-33 | the link writes the input that `relative_input_index[hash][link[2]]` names, with the address `relative_output_index[hash][link[1]]`, and adds an edge from that address's recorded owner |
| Links.RelativeLinks | src/scheme/set-links.cpp:23-34 | `n` relative links decode to `n` links |
| Links.RelativeAt | src/scheme/set-links.cpp:26-29 | link `k` is the three numbers starting at `links[3k]`, and they are in range |
| Links.AbsoluteBlockLink | src/scheme/set-links.cpp:47-49 | input `link[3]` of block `link[2]` gets absolute output `link[1]` of block `link[0]`, and the edge goes from `link[0]` to `link[2]` |
| Links.AbsoluteBlockLinks | src/scheme/set-links.cpp:42-50 | `n` block links decode to `n` links |
| Links.AbsoluteBlockAt | src/scheme/set-links.cpp:45-47 | link `k` is the four numbers starting at `links[4k]`, and they are in range |
| Links.RelativeBlockLink | src/scheme/set-links.cpp:63-67 | input `link[4]` of that type of block `link[3]` gets the address `link[2]` elements past block `link[1]`'s base for the type, and the edge goes from `link[1]` to `link[3]` |
| Links.RelativeBlockLinks | src/scheme/set-links.cpp:58-68 | `n` relative block links decode to `n` links |
| Links.RelativeBlockAt | src/scheme/set-links.cpp:61-63 | link `k` is the five numbers starting at `links[5k]`, and they are in range |
| Schedule.VisitOutcome | src/scheme/scheme.cpp:25-30 | a visit whose fold succeeds adds the block to the folded list only; otherwise the block joins the active list and exactly one of the untie and can't-untie lists, as `canUntieLoop` says |
| Schedule.RunPassStep | src/scheme/scheme.cpp:25-31 | the pass over one more sorted block is one more visit |
| Schedule.Reverse | src/scheme/scheme.cpp:33 | reversing keeps the length |
| Schedule.ReverseFacts | src/scheme/scheme.cpp:33 | reversing keeps the multiset and puts element `k` at position `n-1-k` |
| Schedule.Toggled | include/block.h:62 | toggling CONSTANT bits keeps the number of flags |
| Schedule.ToggledAppend | include/block.h:62 | one more fold flips the folded block's CONSTANT bit once more |
| Schedule.ToggledMeaning | include/block.h:62 | a block's CONSTANT bit ends up flipped exactly when it folded an odd number of times |
| Schedule.ToggledStep | include/block.h:62 | the last fold carries the parity meaning over from the folds before it |
| Schedule.ToggleParity | include/block.h:62 | flipping once more flips the parity of the fold count |
| Schedule.VisitKeepsMarks | src/scheme/scheme.cpp:26-27 | `init()` and `tryMakeConstant()` never remove a constant mark from the ports table |
| Schedule.VisitPartition | src/scheme/scheme.cpp:25-31 | one visit keeps the partition invariant: untie plus can't-untie is the active list, active plus folded is everything visited, the untie list holds exactly the blocks with the flag, and constant marks persist |
| Schedule.PassPartition | src/scheme/scheme.cpp:25-31 | the whole pass keeps that partition over the sorted blocks |
| Schedule.ComputeOrderPermutes | src/scheme/scheme.cpp:25-34 | the first pass's compute order is a permutation of its active blocks |
| Schedule.VisitMeaning | src/scheme/scheme.cpp:26-29 | a visit folds the block exactly when it is an Or, Xor, Summator, Greater or Divider whose real inputs are all constant; a block is folded or active, never both; a Constant stays active and marks its output constant |
| Schedule.InitCalls | src/scheme/scheme.cpp:25-26 | the pass calls `init()` once per sorted block |
| Schedule.Round | src/scheme/scheme.cpp:104-105 | one step calls `compute()` once per block of the compute order |
| Schedule.TicksCompose | src/scheme/scheme.cpp:101-108 | `compute(a)` followed by `compute(b)` makes the same calls as `compute(a + b)` |
| Schedule.TicksFacts | src/scheme/scheme.cpp:101-106 | `steps` steps make `steps * |order|` calls, each a compute of a block of the order at a time `t0 + s*dt` with `1 <= s <= steps` |
| Schedule.StepsToReachFacts | src/scheme/scheme.cpp:112-117 | the `computeSync` loop takes the least number of steps that brings the clock to or past the target; none when it is already there |
| Engine.BoundedOrder | src/scheme/scheme.cpp:33-34 | the reversed untie list followed by the can't-untie list names only blocks of the scheme |
| Engine.TruncateFacts | include/nrcki/scheme.h:90-92 | storing `sync * sec` in the integer time type truncates toward zero: the result moves the value by less than one unit and never crosses zero |
| Engine.SignalInputCounts | src/scheme/signals.cpp:8-12 | one input count per block; a block without signals counts zero |
| Engine.SignalOutputCounts | src/scheme/signals.cpp:8-12 | one output count per block; a block without signals counts zero |
| Engine.TotalStep | src/scheme/signals.cpp:22-35 | the running offsets advance by the next block's counts |
| Engine.SharesSeparate | src/scheme/signals.cpp:20-35 | each block's share starts at the total of the blocks before it, so shares do not overlap and all of them lie inside the buffer |
| Engine.ReadInput | src/block/block.cpp:75-78 | absolute input `port` of block `b` reads what the scheme's wiring holds for that slot |
| Engine.Scheme.constructor | include/nrcki/scheme.h:23-25 | a new scheme has no blocks, zero counters and clocks, and empty tables, graph, lists and buffers |
| Engine.Scheme.AddBlock | src/scheme/create-blocks/logical.cpp:45-48 | adding a block increments `blocks_count` and appends the block |
| Engine.Scheme.SetSteps | include/nrcki/scheme.h:90-92 | `setSteps` sets `sync_step` to `sync * sec`, truncated to the integer time type, and ignores `delta_time` |
| Engine.Scheme.Step | src/scheme/scheme.cpp:103-105 | one step advances the clock by `dt` and then computes every block of the compute order at the new time |
| Engine.Scheme.Compute | src/scheme/scheme.cpp:101-108 | `compute(steps)` advances the clock by `steps * dt`, makes exactly the calls of `steps` rounds, and adds `steps` to `dt_count` |
| Engine.Scheme.ComputeSync | src/scheme/scheme.cpp:110-118 | `computeSync(steps)` moves `Time` ahead by `steps * sync_step` and takes the least number of `dt` steps that reaches it, counting each one |
| Engine.Scheme.ArenaTypes | src/scheme/scheme.cpp:46-56 | the arena types are listed in ascending order, each once, exactly those with an arena |
| Engine.Scheme.AllocateMemory | src/scheme/scheme.cpp:78-99 | `total_outputs` is the per-type sum of outputs, each arena is sized to `count * type_size`, block `i` gets its slice at the running offset, and the indices are rebuilt from the new lists; wiring, flags and graph are unchanged |
| Engine.Scheme.AllocatePlanned | src/scheme/scheme.cpp:78-99 | after `allocate_memory`, the totals, arenas, lists, output bases and tables are the ones planned from the state before it, and the CONSTANT bits are unchanged |
| Engine.Scheme.SizeArenas | src/scheme/scheme.cpp:79-85 | the totals and arena sizes are as above, and no block changes |
| Engine.Scheme.AssignSlices | src/scheme/scheme.cpp:87-96 | every block's output bases become its slices of the arenas, and nothing else of any block changes |
| Engine.Scheme.InitIndices | src/scheme/scheme.cpp:37-76 | every block appends its absolute lists, then the four tables are cleared and rebuilt over the ascending arena types and the first `blocks_count` blocks |
| Engine.Scheme.RebuildTables | src/scheme/scheme.cpp:41-75 | the tables become `TablesOf` the blocks as they now are; the blocks' frames, flags, wiring, bases and lists, the graph and the order lists are unchanged |
| Engine.Scheme.BuildTablesFromBlocks | src/scheme/scheme.cpp:41-75 | the tables become `TablesOf` the arena types and the first `blocks_count` blocks' lists; graph and order lists are unchanged |
| Engine.Scheme.IndexEveryBlock | src/scheme/scheme.cpp:38-39 | `initIndices()` runs on every block: each appends what its own `initIndices` adds, and nothing else changes |
| Engine.Scheme.IndexOne | src/scheme/scheme.cpp:39 | block `i` appends its entries, and no other block changes |
| Engine.Scheme.ComputeCalculationOrder | src/scheme/scheme.cpp:16-35 | the order is appended to `sorted_blocks`, the clock is reset, `init()` is called on each sorted block, and the active list, compute order, ports table and CONSTANT bits are those the pass over the whole sorted list gives |
| Engine.Scheme.AppendOrder | src/scheme/scheme.cpp:17-26 | the order joins `sorted_blocks`, `time` is zero, and one `init()` call is recorded per sorted block |
| Engine.Scheme.SetLists | src/scheme/scheme.cpp:28-34 | the active list gains the new active blocks, and the compute order becomes the old list plus the new untie blocks, reversed, followed by the blocks that cannot untie a loop |
| Engine.Scheme.VisitAll | src/scheme/scheme.cpp:25-31 | the loop over the sorted blocks returns the lists of the pass and leaves the ports table and flags as the pass gives them |
| Engine.Scheme.VisitBlock | src/scheme/scheme.cpp:26-29 | one visit folds or not as `FoldSpec` says, and flips only that block's CONSTANT bit, exactly when it folds |
| Engine.Scheme.FoldBlock | src/scheme/scheme.cpp:26-27 | `init()` then `tryMakeConstant()` on block `b` return the fold outcome and its CAN_UNTIE_LOOP flag; only its CONSTANT bit may change |
| Engine.Scheme.BuildSignals | src/scheme/signals.cpp:4-37 | both buffers are sized to the totals and zeroed, and each block with signals is attached at the running offsets of the blocks before it |
| Engine.Scheme.ClearBuffers | src/scheme/signals.cpp:14-15 | the input and output buffers become `total_in` and `total_out` zeros |
| Engine.Scheme.CountSignals | src/scheme/signals.cpp:5-12 | the totals are the sums of the blocks' signal counts |
| Engine.Scheme.AttachSignals | src/scheme/signals.cpp:17-36 | every block with signals is attached at its offsets |
| Engine.Scheme.AttachStep | src/scheme/signals.cpp:22-36 | one pass of the loop attaches block `i` and advances the offsets by its counts |
| Engine.Scheme.SignalsApart | src/scheme/signals.cpp:22-23 | different blocks have different signal objects |
| Engine.Scheme.AttachBlock | src/scheme/signals.cpp:23-35 | a nonzero count sets the pointer and offset, and a zero count leaves that side as it was |
| Engine.Scheme.SetInputs | src/scheme/signals.cpp:39-41 | the first `count` input values are replaced, and the rest of the buffer and its length are unchanged |
| Engine.Scheme.GetOutputs | src/scheme/signals.cpp:43-45 | the output buffer is copied to the front of `values`, and the rest of `values` is unchanged |
| Engine.Scheme.FreezePort | src/scheme/freeze-port.cpp:4-17 | the wiring and frozen table become what `Freeze` gives: a frozen input only gets its value updated, and an unfrozen one is pointed at a new cell and remembers its original |
| Engine.Scheme.FreezeNew | src/scheme/freeze-port.cpp:11-16 | the not-yet-frozen case of `freezePort` |
| Engine.Scheme.UnfreezePort | src/scheme/freeze-port.cpp:19-30 | a frozen input gets its original pointer back and leaves the table; otherwise nothing changes |
| Engine.Scheme.UnfreezeKnown | src/scheme/freeze-port.cpp:22-29 | the frozen case of `unfreezePort` |
| Engine.Scheme.UnfreezeAllPorts | src/scheme/freeze-port.cpp:32-39 | every frozen input, in key order, gets its original back, and the table is emptied |
| Engine.Scheme.RestoreKeys | src/scheme/freeze-port.cpp:33-37 | the loop restores the inputs the keys name, in order |
| Engine.Scheme.RestoreStep | src/scheme/freeze-port.cpp:34-35 | one pass of that loop restores one key |
| Engine.Scheme.Rewire | src/block/block.cpp:58-61 | `setInputPortAbsolute(port, p)` on block `b` writes that one slot of the scheme's wiring and nothing else |
| Engine.Scheme.SetFrozen | src/scheme/freeze-port.cpp:16 | the frozen table is replaced and the wiring is left alone |
| Engine.Scheme.SetAbsoluteLinks | src/scheme/set-links.cpp:6-18 | after `allocate_memory`, the wiring and `direct_graph` are those the `n` stride-2 links give through the absolute tables; the totals, arenas and index tables are those `allocate_memory` plans; and the ports table, the sorted, active and compute lists, the call trace and the CONSTANT bits are those the ordering pass gives, starting from the planned ports table with every link's output entry touched |
| Engine.Scheme.OrderAbsolute | src/scheme/set-links.cpp:8-17 | from the allocated state, the link loop and then the ordering pass: the wiring and graph of the links, the lists, call trace, ports table and CONSTANT bits the ordering pass gives after the links' output entries are touched, the totals, arenas and index tables unchanged |
| Engine.Scheme.BindAbsolute | src/scheme/set-links.cpp:8-15 | the link loop applies every link in order through the current tables |
| Engine.Scheme.BindAbsoluteStep | src/scheme/set-links.cpp:10-14 | link `k` keeps the loop invariant |
| Engine.Scheme.LinkThroughTables | src/scheme/set-links.cpp:12-14 | one link writes one slot, reads `ports_info[p]` and appends one edge from the recorded owner |
| Engine.Scheme.RecordEdge | src/scheme/set-links.cpp:14 | `direct_graph[ports_info[p].block_index]` gains `to`, and reading `ports_info` inserts a default entry for a new address |
| Engine.Scheme.SetRelativeLinks | src/scheme/set-links.cpp:23-37 | after `allocate_memory`, the wiring and graph are those the `n` stride-3 links give through the relative tables; the totals, arenas and index tables are those `allocate_memory` plans; and the ports table, the sorted, active and compute lists, the call trace and the CONSTANT bits are those the ordering pass gives, starting from the planned ports table with every link's output entry touched |
| Engine.Scheme.OrderRelative | src/scheme/set-links.cpp:26-36 | from the allocated state, the relative link loop and then the ordering pass: the wiring and graph of the links, the lists, call trace, ports table and CONSTANT bits the ordering pass gives after the links' output entries are touched, the totals, arenas and index tables unchanged |
| Engine.Scheme.BindRelative | src/scheme/set-links.cpp:26-34 | the loop applies every relative link in order |
| Engine.Scheme.BindRelativeStep | src/scheme/set-links.cpp:28-33 | link `k` keeps the loop invariant |
| Engine.Scheme.LinkThroughRelativeTables | src/scheme/set-links.cpp:31-33 | one relative link writes one slot and appends one edge from the recorded owner |
| Engine.Scheme.RewireRelative | src/block/block.cpp:63-65 | `setInputPortRelative(t, i, p)` writes exactly that slot of block `b` |
| Engine.Scheme.SetAbsoluteBlockLinks | src/scheme/set-links.cpp:42-53 | after `allocate_memory`, the wiring and graph are those the `n` stride-4 block links give; the totals, arenas and index tables are those `allocate_memory` plans; and the ports table, the sorted, active and compute lists, the call trace and the CONSTANT bits are those the ordering pass gives, starting from the planned ports table |
| Engine.Scheme.OrderAbsoluteBlocks | src/scheme/set-links.cpp:45-52 | from the allocated state, the block link loop and then the ordering pass: the wiring and graph of the links, the lists, call trace, ports table and CONSTANT bits the ordering pass gives, the totals, arenas and index tables unchanged |
| Engine.Scheme.BindAbsoluteBlocks | src/scheme/set-links.cpp:45-50 | the loop applies every absolute block link in order |
| Engine.Scheme.BindAbsoluteBlockStep | src/scheme/set-links.cpp:47-49 | link `k` keeps the loop invariant |
| Engine.Scheme.AppendEdge | src/scheme/set-links.cpp:49 | `direct_graph[from]` gains `to`, and nothing else changes |
| Engine.Scheme.SetRelativeBlockLinks | src/scheme/set-links.cpp:58-71 | after `allocate_memory`, the wiring and graph are those the `n` stride-5 block links give; the totals, arenas and index tables are those `allocate_memory` plans; and the ports table, the sorted, active and compute lists, the call trace and the CONSTANT bits are those the ordering pass gives, starting from the planned ports table |
| Engine.Scheme.OrderRelativeBlocks | src/scheme/set-links.cpp:61-70 | from the allocated state, the relative block link loop and then the ordering pass: the wiring and graph of the links, the lists, call trace, ports table and CONSTANT bits the ordering pass gives, the totals, arenas and index tables unchanged |
| Engine.Scheme.BindRelativeBlocks | src/scheme/set-links.cpp:61-68 | the loop applies every relative block link in order |
| Engine.Scheme.BindRelativeBlockStep | src/scheme/set-links.cpp:64-67 | link `k` keeps the loop invariant |
| Assign.Byte | src/scheme/assign.cpp:115 | reading one byte succeeds exactly when a byte is left, and returns it with the cursor advanced by one |
| Assign.F64 | src/scheme/assign.cpp:115 | reading a `double` succeeds exactly when eight bytes are left, and returns those eight bytes |
| Assign.F64s | src/scheme/assign.cpp:116 | `read_arr` succeeds exactly when `8k` bytes are left, and returns `k` doubles where double `i` is bytes `8i` to `8i+8` |
| Assign.U16 | src/scheme/assign.cpp:115 | reading `uint16_t n` succeeds exactly when two bytes are left, and gives a value below 2^16 |
| Assign.U32 | src/scheme/assign.cpp:115 | reading a `uint32_t` succeeds exactly when four bytes are left, and gives a value below 2^32 |
| Assign.U32s | src/scheme/assign.cpp:491 | `k` link words read exactly when `4k` bytes are left, each below 2^32 |
| Assign.Flag | src/scheme/assign.cpp:115 | a `bool` reads as true exactly when its byte is nonzero |
| Assign.I8 | src/scheme/assign.cpp:115 | an `int8_t` reads as a two's-complement value in [-128, 128) |
| Assign.ReadTiming | src/scheme/assign.cpp:121-127 | the mode byte and, unless it is 1, the time `T`; a success stays inside the data |
| Assign.ReadOnOff | src/scheme/assign.cpp:137-144 | the mode byte and, unless it is 1, `T_on` and `T_off`; a success stays inside the data |
| Assign.ReadTrigger | src/scheme/assign.cpp:405-407 | the variant byte and the initial state need exactly two bytes |
| Assign.Entries | src/scheme/assign.cpp:118-483 | `k` entries push at most `k` blocks and stay inside the data |
| Assign.Description | src/scheme/assign.cpp:118-491 | a description yields at most `count` blocks and an even number of link words |
| Assign.Parse | src/scheme/assign.cpp:98-491 | as written, `blocks_count` is always `count`, while at most `count` blocks are pushed |
| Assign.ParseCounted | src/scheme/assign.cpp:98-491 | corrected: `blocks_count` is the number of blocks actually pushed, at most `count` |
| Assign.EntriesStep | src/scheme/assign.cpp:118-119 | reading `k` entries is one entry followed by `k - 1` more |
| Assign.EntriesNext | src/scheme/assign.cpp:118-483 | the loop invariant (blocks so far, then the parse of the rest) survives one more entry |
| Assign.ReadEntries | src/scheme/assign.cpp:118-483 | the `for` loop over `count` entries computes exactly `Entries(count, data, 0)` |
| Assign.Assign | src/scheme/assign.cpp:98-491 | the whole parser returns `ParseCounted`, so `blocks_count` equals the number of blocks pushed |
| Assign.Tag | include/constants/block-list.hxx:6-77 | every block description is written with an id that the switch has a case for |
| Assign.ByteRead | src/scheme/assign.cpp:115 | a written byte reads back, and the cursor lands on what follows |
| Assign.F64Read | src/scheme/assign.cpp:115 | a written double reads back |
| Assign.F64sRead | src/scheme/assign.cpp:116 | written doubles read back as the same list |
| Assign.U16Read | src/scheme/assign.cpp:115 | a little-endian `uint16_t` reads back as itself |
| Assign.U32Read | src/scheme/assign.cpp:115 | a little-endian `uint32_t` reads back as itself |
| Assign.U32sRead | src/scheme/assign.cpp:491 | written link words read back as the same list |
| Assign.TimingRead | src/scheme/assign.cpp:121-127 | a written mode and time read back as the same timing |
| Assign.OnOffRead | src/scheme/assign.cpp:137-144 | a written on/off timing reads back |
| Assign.EdgeRead | src/scheme/assign.cpp:408-423 | each T-trigger variant reads back both from its letter (`r`, `f`, `b`, `l`) and from its number (0 to 3), and no other byte selects it |
| Assign.DelayRead | src/scheme/assign.cpp:121-145 | a delay entry reads back as the delay it was written from |
| Assign.DynamicRead | src/scheme/assign.cpp:147-174 | a dynamic-block entry reads back |
| Assign.TablesRead | src/scheme/assign.cpp:178-179 | the two tables of a piecewise-linear entry read back, one after the other |
| Assign.PiecewiseRead | src/scheme/assign.cpp:176-182 | a piecewise-linear entry reads back with its `n`, tables and flag |
| Assign.LogicalRead | src/scheme/assign.cpp:184-228 | a logical-block entry reads back |
| Assign.NonlinearRead | src/scheme/assign.cpp:230-296 | a nonlinear-block entry reads back |
| Assign.HysteresisRead | src/scheme/assign.cpp:252-266 | a hysteresis entry reads back in both of its modes |
| Assign.I8Read | src/scheme/assign.cpp:274 | an `int8_t` written as its two's-complement byte reads back as itself |
| Assign.DeadbandStateRead | src/scheme/assign.cpp:268-276 | a hysteresis-deadband entry reads back with its ternary state |
| Assign.OperatorRead | src/scheme/assign.cpp:298-314 | an operator entry reads back |
| Assign.PulseRead | src/scheme/assign.cpp:316-357 | a pulse entry reads back |
| Assign.SignalRead | src/scheme/assign.cpp:359-374 | a signal entry reads back |
| Assign.SourceRead | src/scheme/assign.cpp:376-392 | a source entry reads back |
| Assign.TriggerRead | src/scheme/assign.cpp:398-477 | a trigger entry reads back, including the T-trigger variant |
| Assign.WriteRead | src/scheme/assign.cpp:118-483 | every encodable block's entry reads back as that block, and the cursor lands on what follows |
| Assign.EntriesRead | src/scheme/assign.cpp:118-483 | a list of entries reads back as the blocks it was written from, in order |
| Assign.ParseRoundTrip | src/scheme/assign.cpp:98-491 | a description written from blocks and links parses back to exactly those blocks and links, with `blocks_count` equal to their number |
| Assign.SkippedEntry | src/scheme/assign.cpp:479-481 | an entry pushes no block exactly when its id has no case, or it is a T-trigger with an unknown variant; the first consumes one byte, the second three |
| Assign.CountOverstated | src/scheme/assign.cpp:490 | one entry of id 0 and no links gives `blocks_count == 1` with no block as written, but 0 once corrected |
| Choice.NonzeroCount | include/blocks/signals/choice-3d.hpp:24-27 | the count of nonzero inputs is at most the number of inputs |
| Choice.NonzeroCountMultiset | include/blocks/signals/choice-3d.hpp:24-27 | the count is the number of inputs minus the multiplicity of zero |
| Choice.NonzeroCountPermutation | include/blocks/signals/choice-4d.hpp:24-28 | rearranging the inputs does not change the count |
| Choice.NonzeroCountMonotone | include/blocks/signals/choice-4d.hpp:24-28 | switching more inputs on never lowers the count |
| Choice.Count3 | include/blocks/signals/choice-3d.hpp:24-27 | the summed comparisons of three inputs equal the number of nonzero inputs |
| Choice.Choice3D | include/blocks/signals/choice-3d.hpp:23-32 | Choice3D has four outputs |
| Choice.Choice3DOutputs | include/blocks/signals/choice-3d.hpp:28-31 | every output is 0 or 1; "all three" implies "two", which implies "one"; "agree" holds exactly when none or all are on |
| Choice.Choice3DPermutation | include/blocks/signals/choice-3d.hpp:23-32 | the outputs do not depend on which channel carries which input |
| Choice.Count4 | include/blocks/signals/choice-4d.hpp:24-28 | the summed comparisons of four inputs equal the number of nonzero inputs |
| Choice.Choice4D | include/blocks/signals/choice-4d.hpp:23-35 | Choice4D has six outputs |
| Choice.Choice4DOutputs | include/blocks/signals/choice-4d.hpp:29-34 | the threshold outputs are nested; "exactly two" excludes both "agree" and "three" |
| Choice.Choice4DPermutation | include/blocks/signals/choice-4d.hpp:23-35 | the outputs do not depend on the order of the channels |
| Choice.Choice4DMonotone | include/blocks/signals/choice-4d.hpp:29-32 | switching more inputs on never turns a threshold output off |
| Delays.DelayOnStep | include/blocks/delays/delay-on.hpp:31-36 | each tick keeps the timer disarmed while the input is off, and an off input gives 0 |
| Delays.DelayOnHeld | include/blocks/delays/delay-on.hpp:31-36 | after a rising edge at `t0`, while the input stays on, the output is 1 exactly once the time reaches `t0 + T` |
| Delays.DelayOn.constructor | include/blocks/delays/delay-on.hpp:23-29 | a new on-delay keeps `T`, has its timer at the time maximum and has seen no input |
| Delays.DelayOn.Init | include/block.h:56 | the inherited `init` is one `compute` |
| Delays.DelayOn.Compute | include/blocks/delays/delay-on.hpp:31-36 | one tick moves the fields to `DelayOnNext` of the old state and keeps the disarmed-timer invariant |
| Delays.DelayOnOffStep | include/blocks/delays/delay-on-off.hpp:33-52 | without an input change the timers stay; a rising input arms `T_on = time + P_on` whatever the output; a falling input disarms `T_on`, and on a 1 output sets `T_off = time + P_off` exactly when `T_off < time` or `T_on <= time`, keeping it otherwise; `T_off` changes in no other case; while the input is off the output is `time < T_off` |
| Delays.DelayOnOffSteady | include/blocks/delays/delay-on-off.hpp:33-52 | a run without input changes keeps both timers, and its output is `time >= T_on \|\| time < T_off` |
| Delays.DelayOnOff.constructor | include/blocks/delays/delay-on-off.hpp:23-31 | a new on-off delay has `T_on` at the time maximum and `T_off` at the time minimum |
| Delays.DelayOnOff.Init | include/block.h:56 | the inherited `init` is one `compute` |
| Delays.DelayOnOff.Compute | include/blocks/delays/delay-on-off.hpp:33-52 | one tick moves the fields to `DelayOnOffNext` of the old state |
| Dynamic.StepDelayShifts | include/blocks/dynamic/step-delay.hpp:28-36 | after `init` on the first input and one `compute` per later input, for any number of ticks, the delay remembers the latest input and outputs the one before it; after `init` alone it outputs `y0` |
| Dynamic.StepDelay.constructor | include/blocks/dynamic/step-delay.hpp:19-26 | a new step delay keeps `y0`, and all its flags are clear, so it never unties a loop |
| Dynamic.StepDelay.Init | include/blocks/dynamic/step-delay.hpp:28-31 | `init` writes `y0` and remembers the input |
| Dynamic.StepDelay.Compute | include/blocks/dynamic/step-delay.hpp:33-36 | `compute` outputs the remembered input and remembers the current one |
| Dynamic.ChainTick | main.cpp:20-28 | one tick of a chain keeps its length |
| Dynamic.ChainTickShifts | main.cpp:20-28 | in a forward-order chain tick, delay `i` outputs what it remembered and remembers its neighbour's previous memory |
| Dynamic.ChainRunStep | main.cpp:32-36 | running `k` ticks is one more tick after `k - 1` |
| Dynamic.ChainStepAt | main.cpp:20-36 | delay `i` after tick `k` outputs what it remembered after tick `k - 1` and remembers the source value (delay 0) or its neighbour's previous memory |
| Dynamic.ChainMemory | main.cpp:20-36 | after `k` ticks, delay `i` remembers the source value of tick `k - i`, or `y0` while `k < i` |
| Dynamic.ChainDelays | main.cpp:20-36 | after `k` ticks, delay `i` of the chain outputs the source value of tick `k - i - 1`, or `y0` while `k <= i` |
| Logical.AnyOnIsPositiveCount | include/blocks/logical/or.hpp:24-31 | "some input is nonzero" holds exactly when the count of nonzero inputs is positive |
| Logical.OddOnAppend | include/blocks/logical/xor.hpp:25-27 | xoring in one more input flips the result exactly when that input is nonzero |
| Logical.LogicalPermutation | include/blocks/logical/or.hpp:24-31 | Or and Xor give the same result for any rearrangement of their inputs |
| Logical.Or.constructor | include/blocks/logical/or.hpp:18-22 | a new Or has its output at 0 |
| Logical.Or.Compute | include/blocks/logical/or.hpp:24-31 | the output is 1 exactly when some input is nonzero; the loop stops at the first one |
| Logical.Or.Init | include/block.h:56 | the inherited `init` computes the same output |
| Logical.Xor.constructor | include/blocks/logical/xor.hpp:18-22 | a new Xor has its output at 0 |
| Logical.Xor.Compute | include/blocks/logical/xor.hpp:24-29 | the output is 1 exactly when an odd number of inputs are nonzero; the first input is read whatever the count |
| Logical.Xor.Init | include/block.h:56 | the inherited `init` computes the same output |
| Logical.Constant.constructor | include/blocks/sources/constant.hpp:18-25 | a new Constant keeps its value |
| Logical.Constant.Init | include/blocks/sources/constant.hpp:27-30 | `init` writes the value to the output |
| Logical.Constant.Compute | include/block.h:56 | the inherited `compute` leaves the output as it was |
| Median.Sort3 | include/blocks/signals/median-3a.hpp:56-58 | the three channel indices are ordered by value |
| Median.Flags | include/blocks/signals/median-3a.hpp:64-91 | there are three outlier flags |
| Median.Validity | include/blocks/signals/median-3a.hpp:93-99 | a channel is valid exactly when its validity signal is nonzero and it is not flagged |
| Median.CountTrue3 | include/blocks/signals/median-3a.hpp:101-106 | the number of valid channels is the sum of the three tests |
| Median.ValidValues | include/blocks/signals/median-3a.hpp:118-123 | the gathered values number as many as the valid channels, and each is a measurement |
| Median.Outputs | include/blocks/signals/median-3a.hpp:154-161 | there are seven outputs |
| Median.SortExtremes | include/blocks/signals/median-3a.hpp:60-62 | the first sorted channel holds the minimum and the last the maximum |
| Median.MedianNeverFlagged | include/blocks/signals/median-3a.hpp:73-91 | the median channel is never flagged, so at most two flags are raised |
| Median.VotedIsAnInput | include/blocks/signals/median-3a.hpp:108-152 | Y is always one of the three measurements and lies between their minimum and maximum |
| Median.AllValidGivesMedian | include/blocks/signals/median-3a.hpp:111-114 | with all three validity signals on and no outlier, Y is the median and every status output is clear |
| Median.StatusOutputs | include/blocks/signals/median-3a.hpp:155-161 | FG and S2V3 are complementary, S1V3 is raised whenever FG is lowered, and every status output is 0 or 1 |
| Median.SortedValuesUnique | include/blocks/signals/median-3a.hpp:56-62 | any two sorts of the same measurements agree on the minimum, median and maximum values |
| Median.OutputsIndependentOfTies | include/blocks/signals/median-3a.hpp:56-161 | with a non-negative tolerance the outputs do not depend on how the unstable `std::sort` orders equal values |
| Median.NegativeToleranceDependsOnTies | include/blocks/signals/median-3a.hpp:73-91 | with a negative tolerance, two sorts of equal values flag different channels |
| Median.FlagOutliers | include/blocks/signals/median-3a.hpp:64-91 | the flags are set as `Flags` says |
| Median.Vote | include/blocks/signals/median-3a.hpp:101-152 | the voted value and the number of valid channels are those the specification functions give |
| Median.CountValid | include/blocks/signals/median-3a.hpp:102-106 | the counting loop counts the valid channels |
| Median.CollectValid | include/blocks/signals/median-3a.hpp:118-123 | the gathering loop collects the values of the valid channels in channel order |
| Median.Median3A.constructor | include/blocks/signals/median-3a.hpp:32-38 | a new block keeps TOL, BMIN and BMAX, and its seven outputs are 0 |
| Median.Median3A.Compute | include/blocks/signals/median-3a.hpp:40-162 | one evaluation writes exactly the seven outputs of `Outputs` over the sorted channels |
| Nonlinear.HystLevels | include/blocks/nonlinear/hysteresis.hpp:35-41 | an output at `y1` or `y2` stays at one of the two levels, whatever the input |
| Nonlinear.HystIdempotent | include/blocks/nonlinear/hysteresis.hpp:35-41 | a second tick with the same input changes nothing more |
| Nonlinear.HystBand | include/blocks/nonlinear/hysteresis.hpp:37-40 | strictly between `x1` and `x2` the previous level is kept |
| Nonlinear.Hysteresis.constructor | include/blocks/nonlinear/hysteresis.hpp:20-28 | a new block keeps its thresholds, levels and `y0`, with its output at 0 |
| Nonlinear.Hysteresis.Init | include/blocks/nonlinear/hysteresis.hpp:30-33 | `init` writes `y2` if `y0` is set and `y1` otherwise, then ticks once, so the output is always one of the two levels |
| Nonlinear.Hysteresis.Compute | include/blocks/nonlinear/hysteresis.hpp:35-41 | one tick applies the hysteresis rule to the old output and keeps the two-level invariant |
| Nonlinear.LowThresholdStep | include/blocks/nonlinear/low-threshold.hpp:31-37 | a boolean output stays boolean; above the deactivation level it is 0, and below the activation level (and not above deactivation) it is 1 |
| Nonlinear.LowThresholdBand | include/blocks/nonlinear/low-threshold.hpp:31-37 | with a non-negative delta, inputs inside [activation, activation + delta] keep the output |
| Nonlinear.LowThreshold.constructor | include/blocks/nonlinear/low-threshold.hpp:19-25 | the deactivation level is the activation threshold plus the delta |
| Nonlinear.LowThreshold.Init | include/blocks/nonlinear/low-threshold.hpp:27-29 | `init` writes `input < activation` and ignores the deactivation level |
| Nonlinear.LowThreshold.Compute | include/blocks/nonlinear/low-threshold.hpp:31-37 | one tick applies the threshold rule to the old output and keeps it boolean |
| Pulses.LongPulseNoEdgeNoPulse | include/blocks/pulses/long-pulse.hpp:31-36 | from the constructor's state, a run with no rising edge leaves the state unchanged, with the output at 0 |
| Pulses.LongPulseHolds | include/blocks/pulses/long-pulse.hpp:31-36 | after a rising edge at `t0`, the pulse lasts until `t0 + T` whatever the input does, as long as the input does not rise again |
| Pulses.LongPulse.constructor | include/blocks/pulses/long-pulse.hpp:23-29 | a new long pulse keeps `T` and has `T_off` at the time minimum |
| Pulses.LongPulse.Init | include/block.h:56 | the inherited `init` is one `compute` |
| Pulses.LongPulse.Compute | include/blocks/pulses/long-pulse.hpp:31-36 | one tick moves the fields to `LongPulseNext` of the old state |
| Pulses.RisingNeverTwice | include/blocks/pulses/rising-pulse.hpp:30-33 | a pulse lasts one tick: two consecutive outputs are never both 1 |
| Pulses.RisingMarksEdges | include/blocks/pulses/rising-pulse.hpp:30-33 | each output of a run is 1 exactly where the input rises |
| Pulses.RisingPulse.constructor | include/blocks/pulses/rising-pulse.hpp:19-23 | a new block has output 0 and has seen no input |
| Pulses.RisingPulse.Init | include/blocks/pulses/rising-pulse.hpp:25-28 | `init` clears the output and remembers the current level |
| Pulses.RisingPulse.Compute | include/blocks/pulses/rising-pulse.hpp:30-33 | one tick outputs the rising-edge test and remembers the level |
| Pulses.DebounceEdge | include/blocks/pulses/debounce-on-off.hpp:33-50 | on an input change, the output is the window test on the old timers, and the timers are re-armed in the four cases of the source |
| Pulses.DebounceSteady | include/blocks/pulses/debounce-on-off.hpp:51-52 | between input changes the timers stay as the last change armed them, and the output is `T_on <= time < T_off` |
| Pulses.DebounceOnOff.constructor | include/blocks/pulses/debounce-on-off.hpp:23-30 | a new block keeps `T`, with `T_on` at the time maximum and `T_off` at the time minimum |
| Pulses.DebounceOnOff.Init | include/block.h:56 | the inherited `init` is one `compute` |
| Pulses.DebounceOnOff.Compute | include/blocks/pulses/debounce-on-off.hpp:32-53 | one tick moves the fields to `DebounceNext` of the old state |
| Triggers.RsPriority | include/blocks/triggers/rs-trigger.hpp:30-35 | reset wins over set; set alone gives 1; with neither, the output is kept |
| Triggers.SrPriority | include/blocks/triggers/sr-trigger.hpp:30-35 | set wins over reset; reset alone gives 0; with neither, the output is kept |
| Triggers.RsRunLastActive | include/blocks/triggers/rs-trigger.hpp:30-35 | after a run, the output is decided by the last tick in which S or R was on: 0 if R was on in it, 1 otherwise |
| Triggers.RsRunQuiet | include/blocks/triggers/rs-trigger.hpp:30-35 | a run in which neither S nor R is ever on leaves the output unchanged |
| Triggers.SrRunLastActive | include/blocks/triggers/sr-trigger.hpp:30-35 | after a run, the last active tick gives 1 if S was on in it, 0 otherwise |
| Triggers.RsSrDisagree | include/blocks/triggers/sr-trigger.hpp:30-35 | the RS and SR triggers differ exactly on ticks where S and R are both on |
| Triggers.RsTrigger.constructor | include/blocks/triggers/rs-trigger.hpp:18-23 | a new RS trigger keeps `y0`, with its output at 0 |
| Triggers.RsTrigger.Init | include/blocks/triggers/rs-trigger.hpp:25-28 | `init` writes `y0` and then ticks once |
| Triggers.RsTrigger.Compute | include/blocks/triggers/rs-trigger.hpp:30-35 | one tick applies the RS rule to the old output |
| Triggers.SrTrigger.constructor | include/blocks/triggers/sr-trigger.hpp:18-23 | a new SR trigger keeps `y0`, with its output at 0 |
| Triggers.SrTrigger.Init | include/blocks/triggers/sr-trigger.hpp:25-28 | `init` writes `y0` and then ticks once |
| Triggers.SrTrigger.Compute | include/blocks/triggers/sr-trigger.hpp:30-35 | one tick applies the SR rule to the old output |
| Triggers.TbRunParity | include/blocks/triggers/t-triggers/t-trigger-b.hpp:33-37 | a T-B run from a boolean output ends at the start value when the final level equals the starting one, and at its negation otherwise; it always remembers the last level |
| Triggers.TbSteadyInput | include/blocks/triggers/t-triggers/t-trigger-b.hpp:33-37 | a T input that keeps the remembered level never changes the output |
| Triggers.RtsBQuietIsTb | include/blocks/triggers/t-triggers/rts-b-trigger.hpp:33-41 | with S and R off throughout, RTS-B behaves exactly as T-B on the T input |
| Triggers.RtsBPriority | include/blocks/triggers/t-triggers/rts-b-trigger.hpp:33-41 | every RTS-B tick remembers the T level; reset gives 0, and set without reset gives 1 |
| Triggers.TTriggerB.constructor | include/blocks/triggers/t-triggers/t-trigger-b.hpp:20-25 | a new T-B trigger keeps `y0`, with its output at 0 |
| Triggers.TTriggerB.Init | include/blocks/triggers/t-triggers/t-trigger-b.hpp:27-31 | `init` remembers the current level first, so its tick never toggles: the output is `y0` |
| Triggers.TTriggerB.Compute | include/blocks/triggers/t-triggers/t-trigger-b.hpp:33-37 | one tick toggles on any change of level and remembers the level |
| Triggers.RtsBTrigger.constructor | include/blocks/triggers/t-triggers/rts-b-trigger.hpp:20-25 | a new RTS-B trigger keeps `y0`, with its output at 0 |
| Triggers.RtsBTrigger.Init | include/blocks/triggers/t-triggers/rts-b-trigger.hpp:27-31 | `init` applies S and R to `y0` but never toggles |
| Triggers.RtsBTrigger.Compute | include/blocks/triggers/t-triggers/rts-b-trigger.hpp:33-41 | one tick applies reset, then set, then the toggle on a change of level |
| Triggers.StrLSetPriority | include/blocks/triggers/t-triggers/str-l-trigger.hpp:31-38 | set has priority over reset and toggling |
| Triggers.StrLHeldToggles | include/blocks/triggers/t-triggers/str-l-trigger.hpp:36-37 | holding T on, with S and R off, inverts the output on every tick |
| Triggers.StrLTrigger.constructor | include/blocks/triggers/t-triggers/str-l-trigger.hpp:19-24 | a new STR-L trigger keeps `y0`, with its output at 0 |
| Triggers.StrLTrigger.Init | include/blocks/triggers/t-triggers/str-l-trigger.hpp:26-29 | `init` writes `y0` and then ticks once |
| Triggers.StrLTrigger.Compute | include/blocks/triggers/t-triggers/str-l-trigger.hpp:31-38 | one tick applies set, then reset, then the toggle while T is on |

## Left out

- The topological sort of `compute_calculation_order` calls code in code/algorithms/graphs.hpp. That file is not part of this model, so the sorted order is a parameter `order` of the engine methods; the model requires only that it names existing blocks.
- `std::map::at` throws on a missing key, and indexing past a `std::vector` is undefined. Where the source relies on either (port lookups by type, link indices, block indices), the model states the lookup's success as a precondition. It does not model the exception.
- The link count `int n` of the binders is a `nat`, since a negative count never meets the loop's end pointer.
- Engine.Scheme.SetRelativeBlockLinks: the output position of a stride-5 link is not checked, just as in the source. The model computes the address `l[2]` elements past the block's base, and says nothing more about a position outside the block's outputs.
- Signal values are `real`, not IEEE doubles: rounding, NaN and infinities are not modelled. The arithmetic blocks whose behaviour depends on them (integrators, operators, sources) are outside this model.
- The `assign` parser keeps each `double` as eight opaque bytes and never decodes it.
- Assign.Parse: on input that ends too early, the source reads past its buffer. The model returns `Err` there.
- Assign.Parse: a link count of 2^31 or more becomes negative in `int n`. The model returns `Err` for it.
- Assign.Parse: a `bool` field is read as "byte is nonzero".
- Turning parsed descriptions into block objects is glue (one constructor call per id). The model stops at the descriptions (`BlockDesc`).
- The code generators (`printSource`, `printMemory`, `printInit` and the per-block source emission) write text for a downstream compiler. They are not modelled.
- The registry entries for container types have platform-dependent sizes. Only the six scalar types are registered in the model.
- `sync_step` is never initialised by the source. It is a constructor parameter of `Engine.Scheme`.
- Median.Sort3: `std::sort` may order equal values either way. The model uses a stable sort of three. Median.OutputsIndependentOfTies shows that the outputs do not depend on that choice when the tolerance is non-negative; Median.NegativeToleranceDependsOnTies shows that they can with a negative tolerance.
- Engine.Scheme.GetOutputCount is the length of the output buffer and has no contract of its own. The sizes it reports are stated by Engine.Scheme.BuildSignals.
- Logging and the command-line front end are not modelled. Of main.cpp, only the delay chain it builds is modelled (Dynamic.ChainDelays).
- Engine.Scheme.Step, Engine.Scheme.Compute, Engine.Scheme.ComputeSync, Engine.Scheme.ComputeCalculationOrder: the engine runs no block bodies. It appends each `init` and `compute` call to a ghost call trace. The per-kind block classes are not attached to the engine's `Blocks.Block` objects, so what a whole scheme computes in a tick is not stated; each block kind's behaviour is stated in its own module.
- Engine.Scheme.Step, Engine.Scheme.Compute, Engine.Scheme.ComputeSync: the clock is an unbounded integer. The source's signed 64-bit `time += dt` and `Time += steps * sync_step` (src/scheme/scheme.cpp:103, 111, 113) can overflow, and the model does not wrap.
- Delays.DelayOn.Compute, Delays.DelayOnOff.Compute, Pulses.LongPulse.Compute, Pulses.DebounceOnOff.Compute: the deadlines `time + T` (and `time + P_on`, `time + P_off`) are unbounded integers. In the source they are signed 64-bit sums that overflow near the largest time; the model does not wrap. The same holds for Delays.DelayOnNext, Delays.DelayOnOffNext, Pulses.LongPulseNext and Pulses.DebounceNext.
- Delays.DelayOn.constructor, Delays.DelayOnOff.constructor, Pulses.LongPulse.constructor, Pulses.DebounceOnOff.constructor: take the delay already as a count of microseconds. The source converts seconds given as a `double` with `static_cast<Time>(T * Context::sec)`; that rounding and range are not modelled.
- Nonlinear.Hysteresis.constructor, Triggers.RtsBTrigger.constructor, Median.Median3A.constructor: the source's default arguments (`y0 = false`; `TOL = 2, BMIN = 1, BMAX = 0`) are not modelled. Every argument is passed explicitly.
- Engine.Scheme.AllocateMemory, Engine.Scheme.SetAbsoluteLinks, Engine.Scheme.SetRelativeLinks, Engine.Scheme.SetAbsoluteBlockLinks, Engine.Scheme.SetRelativeBlockLinks: an output address is a pair of a port type and a byte offset into that type's arena, so it names the same output after any later allocation. In the source, `port_memory[type].resize(count * type_size)` (src/scheme/scheme.cpp:84-85) may move a growing arena, for instance when a block is added after an earlier allocation. Inputs wired before, the `absolute_output_ports` entries appended by earlier `initIndices` calls (src/block/block.cpp:53-54, never cleared) and the `ports_info` keys built from them then point into freed storage, and a later absolute link through such an entry wires an input to it. The model does not capture that reallocation or the dangling pointers it leaves; there a stale entry still names the output at that offset.
- Engine.Scheme.AllocateMemory, Engine.Scheme.AllocatePlanned, Engine.Scheme.SizeArenas, Engine.Scheme.SetAbsoluteLinks, Engine.Scheme.SetRelativeLinks, Engine.Scheme.SetAbsoluteBlockLinks, Engine.Scheme.SetRelativeBlockLinks: require every port type a block uses to be registered. In the source an unregistered type makes `type_size` throw `unknown type hash` (constants/config.hxx:49) during allocation; these members do not model that exception.
- Concurrency: the source is single-threaded, and so is the model.

## Findings

| source | as written | input that shows it | evidently intended | confidence | as-written member | corrected member |
|---|---|---|---|---|---|---|
| src/scheme/assign.cpp:490 | `blocks_count = count` is set after the loop, even when entries pushed no block: an unknown id, `Negate`, `ChangePulse`, or a T-trigger with an unknown variant. The loop of `init_indices` over `blocks_count` then reads past the end of `blocks`. | `count = 1`, data `[0, 0, 0, 0, 0]` (one entry of id 0, no links) | `blocks_count` equals the number of blocks pushed, as every other way of adding a block keeps it | not executed | Assign.Parse, Assign.CountOverstated | Assign.ParseCounted, Assign.Assign |
