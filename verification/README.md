# Tensor-ash host logic in Dafny

Tensor-ash runs matrix products and transformer layers on a GPU through Vulkan
compute. This project models the host-side logic that decides *what* is dispatched,
*in which order it may run*, *where in memory it reads and writes*, and *when a
recorded command buffer may be replayed*, and proves that these decisions are right
for every input, every interleaving and every run. `dafny verify dfyconfig.toml`
checks all of it.

## Modules

- `GpuExecution` is the device: kernels of arbitrary micro-steps over the memory they
  declare, run in any interleaving that barriers permit. `HazardGraph` is the
  mixed-op graph recorder (access sets, `HazardCursor`, barrier placement).
  `MatmulGraph` is the second, matmul-only recorder with inlined two-stage split-K
  ops and its shared scratch arena, `MatmulBarriers` says when its barriers are enough,
  `BarrierWaste` and `MatmulWaste` count how many are too many, `Submission` leads from
  ops and routes to it, and `MatmulOps` holds what both recorders share.
- `Meaning`, `OpMeaning` and `MatmulMeaning` give every op of both recorders a meaning on
  buffers and scratch, and derive from that alone what its dispatches must declare.
- `KvReference` is a causal transformer with greedy decoding as a term algebra. `KvOps`
  to `KvSession` are the llama session that computes it with caches: the op lists of
  decode and prefill (`KvOps`), the cache addresses they write (`KvCache`), what each op
  does to device memory (`KvDevice`), one layer (`KvLayer`), whole lists (`KvExec`), and
  the session object with its three recording caches (`KvSession`).
- `KvFrames`, `Kernels`, `KvEncoding` and `KvBarriers` join the two: what each dispatch of
  the session touches, kernels that implement dispatches of a symbolic memory on real
  memory, how tensor contents are written out as words, the session's lists under the
  barriers recorded for them, and (`KvCensus`) how many dispatches each of them records.
- `HalfFloat` is the f32/f16 codec, bit by bit, by division and shifts.
- `Catalog` and `Routing` are the kernel registry and the routing decision,
  `RoutingChoice` says which source decides it, and `TileRegions` which shapes get which
  tile.
- `SplitK`, `Shapes`, `Strided`, `Layout` and `Projection` are geometry, u32 address
  bounds, strided copies, packed weights and the Q/K/V projections.
- `TuneStore`, `Schedule` and `SlotPool` are the tuning file, the measurement
  schedule and the executor's slot pool; `TuneText` says what any text loads as.
- `Prelude` and `Arith` hold shared datatypes and nonlinear arithmetic facts.

## What the proofs found

Each of these is a theorem about the code as written, with the exact condition where
there is one.

- `src/dtype.rs:96-98` decodes every subnormal half strictly too small
  (`HalfFloat.DecodeSubnormalTooSmall`, with the exact value in
  `DecodeSubnormalValue`; 0x0001 becomes 2^-25), so decoding is exact only for zeros and
  normals (`DecodeExactIff`), the round trip fails for every subnormal and for every NaN
  but one (`DecodeEncodeRoundTripIff`), and `round_f32_via_f16` is idempotent exactly
  outside the magnitudes 0x33000001 to 0x387fdfff (`RoundIdempotentIff`). A shift one
  smaller and a ten-bit mask restore the round trip (`CorrectedRoundTrip`).
- Encoding has relative error at most 2^-11 for *values* in the normal range. For
  *results* in the normal range the bound fails for exactly the four magnitudes
  0x387fe000..0x387fe003, which round up into it (`RelativeBoundForNormalResults`).
- The matmul-graph tracker never looks at a fused store. Two ops, a scatter into a
  cache and a read of that cache, get no barrier (`ScatterThenReadIsUnsafe`);
  submissions are safe exactly when every conflict that involves a store happens to
  be fenced (`SafeIffStoreClashesFenced`). In terms of operands it is enough that any two
  ops that meet, last dispatch to first, meet where the tracker looks
  (`SeenClashesAreSafe`), for two ops exactly (`TwoOpSafeIff`). That whole ops meet there
  is not enough before a split-K op (`ScatterBeforeSplitIsUnsafe`). The decode
  projections, which are submitted with no barrier at all, need none
  (`HazardGraph.ProjectionsNeedNoBarrier`).
- The same tracker is greedy for what it believes (`TrackerIsGreedy`), hence has the
  fewest barriers of any safe placement without split-K ops (`DirectGraphIsOptimal`), and
  with them as long as no later op writes A or B of one (`StayingOperandsAreOptimal`).
  For any store-free submission it spends exactly one barrier too many for each split-K op
  that wastes one (`MatmulWaste.TrackerSurplus`, `OptimalIff`): a direct op writes its A or
  B, nothing from the reduction to that op needs a barrier, and the rest from that op on
  needs as many barriers by itself as it does behind the reduction. The last part is needed,
  because a barrier set too early can save a later one (`ThreeOpWasteIff`).
- Two routing rules are dead and a third is cut short: the rule for exact squares of 512
  and 1024 adds nothing, the shallow-K rule gets nothing at K = 128 (`TileOfRegion`), and
  the 64x128 tensor-core tile is never picked for M = 512 (`CoopmatTileOf`).
- The byte budget makes the demotion of a wave-fill coopmat tile to the 128-tile
  unreachable (`CoopmatFallbackNeverTaken`).
- `plan_copy_strided` multiplies extents with a wrapping u64 product in release
  builds: its count is right exactly when the product is below 2^64
  (`CopyTotalIff`, `WrappedCountAccepted`), and its bound check is right exactly when the
  furthest element of each side is (`CopyInBoundsIff`, `WrappedBoundAccepted`). A debug
  build panics there.
- The FLOP check of shape resolution can only reject calls whose A and B are both
  broadcast over several batches (`FlopsFit`, `FlopsCanOverflow`).
- The comment on `default_num_k_splits` says the count divides K; it need not
  (`DefaultSplitsNeedNotDivide`), and `DefaultSplitsDivideIff` says when it does.
- Holding the measurement lease over the split-K probe would deadlock a one-slot
  executor (`NestedLeaseDeadlocks`); dropping it first is what `tune_op` does.

## Modelling choices

- A GPU kernel is any finite list of micro-steps. Each step reads what its dispatch
  declares, keeps private state, and writes part of what its dispatch declares, so
  partial writes and in-place ops are included. A barrier keeps later dispatches
  from starting before earlier ones have finished. This is the Vulkan 1.2
  specification, chapter "Synchronization and Cache Control", section "Pipeline
  Barriers", restricted to full compute-to-compute memory barriers.
- In both recorders an op may compute anything: each buffer it writes is an arbitrary
  function of the contents of all its operands, old outputs, tables and weights included.
  What it can change and what it can notice follow from that, and `OpMeaning.OpDescribed`
  and `MatmulMeaning.GraphDescribed` prove that the declared accesses are exactly those.
- Device memory in the session model is symbolic. A residual stream is a term: the
  embedding of a token, or a layer applied to a stream and to the streams its attention
  reads. Equal terms are equal computations, so a theorem about terms holds for every
  choice of weights. A buffer holds rows of such terms at some stage of a layer, a key
  element names its stream, layer, column and the rope row it was rotated by, and a token
  is given by the caller or is the argmax on a stream. An op whose operands do not hold
  what it needs (the wrong buffer, layer, rotation, row order, or a cache position that is
  not stored) leaves junk, so the session theorems are about the wiring of every op, about
  what attention reads and about which token is fed back. Copies mean what their
  descriptors address, element by element.
- The composed softmax gives zero weight to every position past its valid prefix. Merging
  the partial softmaxes of decode attention is exact, so partials stand for the positions
  they were made from; which positions each chunk reads is modelled. Host and device argmax
  agree on ties.
- A submitted op list executes in list order. `KvBarriers.ListIsSerial` justifies this for
  every list under its recorded barriers, and `KvBarriers.ProjectionsAreSerial` for the one
  per-op submission of several ops without barriers. Both speak of any kernels that do,
  run alone, what the ops do. Every list has buffers, a layout of tensor contents in them
  and such kernels (`KvBarriers.EveryListRuns`), and they can always be run to the end
  (`KvBarriers.ListCompletes`).
- u32 and u64 limits, saturation and wrap-around are written out wherever the code
  relies on them. Floating point is bit-exact in `HalfFloat` and real elsewhere.
- The shared-memory byte counts of the coopmat tiles are the constants pinned by the
  repository's tests; all others are arbitrary.
- The slot pool and the device are state machines over atomic steps, because their
  point is interleaving. The recorders, the session, the scratch loop, the packing
  and transposing loops, the reference matmul, the tuning file and the measuring
  loop are imperative.

## Model

| member | source | states |
|---|---|---|
| GpuExecution.StepsCommute | src/executor/graph_ops.rs:205-211 | micro-steps of two dispatches that do not conflict (no store meets a load or store of the other) commute, private state included |
| GpuExecution.RunIsSerial | src/executor/recording.rs:21-36 | under a placement that separates conflicts, every complete interleaving of arbitrary kernels, from any reachable state, ends in the in-order memory |
| GpuExecution.SeparatedIsSafe | src/executor/graph_ops.rs:24-27 | a separating barrier placement makes a dispatch list equivalent to submission order, whatever the kernels compute |
| GpuExecution.UnseparatedIsUnsafe | src/executor/graph_ops.rs:205-211 | an unfenced conflict always admits kernels and an interleaving that end in another memory |
| GpuExecution.SafeIffSeparated | src/executor/graph_ops.rs:205-242 | a placement is safe for all kernels if and only if it separates every conflicting pair |
| GpuExecution.SomeDispatchEnabled | src/executor/recording.rs:21-36 | barriers never block: while a dispatch is unfinished some dispatch can take a step |
| GpuExecution.RunsComplete | src/executor/recording.rs:21-36 | every recording can be run to completion from every configuration |
| HazardGraph.PlanExecOps | src/executor/graph_ops.rs:357-581 | the planned access list is the concatenation of each op's access sets, AttnDecode expanding to two, and planning fails exactly when some op's own planner rejects it or it is an empty or oversized GEMV chain |
| HazardGraph.ConflictsByHandle | src/executor/graph_ops.rs:205-211 | two dispatches conflict exactly when a stored buffer of one is loaded or stored by the other |
| HazardGraph.HazardMeansConflict | src/executor/graph_ops.rs:205-211 | the pending-list test is true exactly when some dispatch since the last barrier conflicts |
| HazardGraph.HazardCursor.BarrierBefore | src/executor/graph_ops.rs:233-242 | the cursor asks for a barrier exactly where the greedy placement of everything shown so far has one, and its lists stay what was touched since |
| HazardGraph.RecordExecOps | src/executor/graph_ops.rs:587-624 | the command stream is the dispatches in order with the greedy barriers between them |
| HazardGraph.ExecOpsBarrierCount | src/executor/graph_ops.rs:338-353 | the plan-only census equals the dispatches and barriers that recording emits |
| HazardGraph.GreedySeparates | src/executor/graph_ops.rs:231-242 | the greedy placement separates every conflicting pair of any dispatch list |
| HazardGraph.ExecGraphIsSerial | src/executor/graph_ops.rs:587-624 | for every op list, every interleaving that the recorded barriers allow ends in the memory of in-order execution |
| HazardGraph.GreedyStaysAhead | src/executor/graph_ops.rs:231-242 | up to every dispatch, no separating placement has used fewer barriers |
| HazardGraph.GreedyIsOptimal | src/executor/graph_ops.rs:231-242 | among all separating placements the cursor's has the fewest barriers |
| HazardGraph.PlannedDispatchesWrite | src/executor/graph_ops.rs:369-579 | every planned dispatch stores something, so no dispatch is a no-op for the tracker |
| HazardGraph.AttnDecodeIsFenced | src/executor/graph_ops.rs:537-552 | the second stage of an AttnDecode always gets a barrier after the first |
| HazardGraph.ProjectionsNeedNoBarrier | tools/llama-ash/src/model/forward/mod.rs:41-87 | the three decode projections, submitted together without barriers, are safe in every interleaving when their outputs are distinct buffers |
| OpMeaning.OpDescribed | src/executor/graph_ops.rs:369-579 | for every op, its operands equal or distinct, a dispatch's planned stores are exactly the buffers it can change, and its planned loads and stores exactly those it can change or notice, whatever it computes from its operands; a GEMV chain's jobs feed each other |
| OpMeaning.DependentOpsAreFenced | src/executor/graph_ops.rs:205-242 | whenever one of two dispatches of a list can change a buffer that the other can change or notice, there is a barrier between them |
| OpMeaning.GraphDoesWhatItMeans | src/executor/graph_ops.rs:587-624 | whatever the ops of a graph compute, kernels can do it within the planned accesses, and every interleaving its recorded barriers allow ends as the ops in order |
| MatmulGraph.RecordOp | src/executor/recording/graph.rs:54-134 | one op's commands and the new written and read lists are those of the tracker specification, on both branches |
| MatmulGraph.RecordMatmulGraph | src/executor/recording/graph.rs:40-137 | the whole command stream, internal split-K barriers included, is that of the tracker |
| MatmulGraph.RecordSubmission | src/executor/dispatch.rs:190-244 | reserving scratch and recording routes exactly the ops whose region was reserved and emits the tracker's barriers |
| Submission.PlainIff | src/executor/dispatch.rs:151-163 | plain ops are exactly those whose dispatch has A and B as only inputs and C as only output, as the two stages have beside the scratch |
| Submission.SplitsIff | src/executor/dispatch.rs:151-168 | exactly which routed ops split: plain, without activation, f32, alone or in a graph on a device with addresses, with a count that the device admits |
| Submission.WantIsPlanned | src/executor/dispatch.rs:208-236 | a graph op asks for scratch exactly when its route splits, for the four bytes of every partial, at most 256 MiB |
| Submission.RoutedIsWell | src/executor/dispatch.rs:150-236 | every graph of resolved ops meets what the recorder's theorems assume of it |
| Submission.SubmissionIsSerial | src/executor/dispatch.rs:150-244 | so every store-free graph, as it is routed, is equivalent to its ops in order under every interleaving, on every device and for any tuning store |
| MatmulGraph.TrackerSeparates | src/executor/recording/graph.rs:54-134 | what the tracker looks at is always separated, split-K stages and scratch regions included |
| MatmulGraph.MatmulGraphIsSerial | src/executor/recording/graph.rs:40-137 | graphs of ops without fused stores, direct and two-stage mixed, are equivalent to submission order under every interleaving |
| MatmulGraph.SafeIffStoreClashesFenced | src/executor/recording/graph.rs:63-134 | with fused stores a submission is safe if and only if every pair whose conflict involves an untracked store operand is fenced anyway |
| MatmulGraph.TwoOpGraphSafeIff | src/executor/recording/graph.rs:128-133 | two direct ops are safe if and only if a footprint conflict implies a conflict among the operands the tracker lists |
| MatmulGraph.ScatterThenReadIsUnsafe | src/executor/recording/graph.rs:63-68 | a scatter into a cache followed by a read of it is recorded without a barrier and is unsafe |
| MatmulMeaning.GraphDescribed | src/executor/recording/graph.rs:40-137 | the accesses of a matmul graph are exactly what its dispatches can change and notice, fused operands, split-K stages and scratch bytes included |
| MatmulMeaning.SafeDoesWhatItMeans | src/executor/recording/graph.rs:40-137 | whatever its ops compute, a submission recorded safely ends as the ops in order under every interleaving |
| MatmulBarriers.TrackerIsGreedy | src/executor/recording/graph.rs:54-134 | for every mix of direct and split-K ops the tracker's barriers are exactly the greedy placement for the accesses it believes in: operands without the store, and a reduction that still reads A and B |
| MatmulBarriers.DirectTrackerIsMinimal | src/executor/recording/graph.rs:103-134 | without split-K ops no placement that separates the operands the tracker looks at has fewer barriers |
| MatmulBarriers.DirectGraphIsOptimal | src/executor/recording/graph.rs:103-134 | without stores either, no safe placement at all has fewer barriers |
| MatmulBarriers.WastedBarrierIff | src/executor/recording/graph.rs:93-97 | after a split-K op a direct op gets one barrier more than its conflicts need exactly when it writes A or B and does not touch C, for all operands and every scratch size that fits the arena |
| MatmulBarriers.StayingOperandsAreOptimal | src/executor/recording/graph.rs:54-134 | direct and split-K ops without stores get the fewest barriers of any safe placement when no op after a split-K op writes its A or B |
| MatmulWaste.TrackerSurplus | src/executor/recording/graph.rs:54-134 | for every submission without stores the tracker's barriers are the fewest that separate its real accesses plus one for each split-K op that wastes one: a direct op writes its A or B, nothing from the reduction to that op needs a barrier, and the rest from that op on needs as many by itself as behind the reduction |
| MatmulWaste.OptimalIff | src/executor/recording/graph.rs:54-134 | the tracker has the fewest barriers of any safe placement if and only if no split-K op wastes one |
| MatmulWaste.ThreeOpWasteIff | src/executor/recording/graph.rs:93-97 | when the op after a split-K op overwrites its A or B, a third op makes up for the extra barrier exactly when it has to wait for the split-K op and not for the second |
| MatmulBarriers.SeenClashesAreSafe | src/executor/recording/graph.rs:54-134 | a submission of any mix of ops is safe if any two ops that meet, last dispatch of the one to first dispatch of the other, meet where the tracker looks |
| MatmulBarriers.TwoOpSafeIff | src/executor/recording/graph.rs:54-134 | for two ops under any routing that condition is exact |
| MatmulBarriers.ScatterBeforeSplitIsUnsafe | src/executor/recording/graph.rs:63-97 | a scatter into A or B of a following split-K op is always unsafe, whatever else the two share and however large the scratch, unless its C is that operand too |
| SplitK.HeuristicSplits | src/executor/splitk2.rs:48-83 | the ladder search returns the first ladder value within both bounds, or none |
| SplitK.NoSplitIff | src/executor/splitk2.rs:48-83 | exactly which shapes do not split: degenerate ones, K below 1024, more than 16 tiles of 128x128 or too little K for 2 or 5 of them, more than 4 tiles of 64x64; in every other case a ladder value fits |
| SplitK.HeuristicSplitIsRight | src/executor/splitk2.rs:48-83 | a heuristic count leaves K of at least 64 per split, does not overshoot the occupancy target by a split per tile, and no larger ladder value fits |
| SplitK.HeuristicSplitFits | src/executor/splitk2.rs:155-188 | the automatic route accepts every heuristic count when each axis allows 65535 groups |
| SplitK.AutoRouteIff | src/executor/splitk2.rs:155-188 | the automatic route takes a count exactly when the planner accepts it and its scratch is at most 256 MiB |
| SplitK.DefaultSplitsAreRight | src/executor/splitk2.rs:94-122 | the experimental default reaches 64 workgroups without overshooting by a split per tile, short of it only when K runs out |
| SplitK.DefaultSplitsDivideIff | src/executor/splitk2.rs:94-122 | exactly when the default count divides K, in terms of the tile count and K |
| SplitK.DefaultSplitsNeedNotDivide | src/executor/splitk2.rs:112-122 | the default need not divide K |
| SplitK.AcceptedRoutePlans | src/executor/splitk2.rs:214-270 | whatever the automatic route accepts, the planner accepts, within the automatic scratch budget |
| SplitK.PlanIff | src/executor/splitk2.rs:214-270 | exactly which counts the planner accepts: in range, partials that u32 can index, and three grids within the device's limits |
| SplitK.PlanCovers | src/executor/splitk2.rs:214-270 | the stage-1 and reducer grids cover the output without a spare group, once per batch and split |
| SplitK.PlanSizes | src/executor/splitk2.rs:214-270 | a plan's byte count and element count are the true products, not truncated ones |
| SplitK.ScratchIndexing | src/executor/splitk2.rs:273-287 | every partial that stage 1 writes and the reducer reads has a u32 index inside the reserved bytes |
| SplitK.ScratchInjective | src/executor/splitk2.rs:273-287 | distinct (batch, split, element) triples never share a scratch element |
| SplitK.ArenaLayout | src/executor/dispatch.rs:208-236 | the scratch regions of one submission are pairwise disjoint, 16-byte aligned, as large as asked and inside the 256 MiB allocation |
| SplitK.ArenaPacked | src/executor/dispatch.rs:208-236 | an op gets a region exactly when it wants one that fits in what earlier ops left, and it starts where the last region ended |
| SplitK.ReserveScratch | src/executor/dispatch.rs:208-236 | the offset loop reserves exactly the arena regions; an op that does not fit keeps its direct dispatch |
| HalfFloat.EncodeCorrectlyRounded | src/dtype.rs:42-84 | encoding every finite f32 gives the nearest half, ties to even, with infinity exactly from 65520 (IEEE 754-2019 section 4.3.1) |
| HalfFloat.EncodeMonotone | src/dtype.rs:42-84 | encoding is monotone over all pairs of non-NaN values, signs and infinities included |
| HalfFloat.ErrorBounds | src/dtype.rs:42-84 | relative error at most 2^-11 for values in the normal range and absolute error at most 2^-25 below it |
| HalfFloat.RelativeBoundForNormalResults | src/dtype.rs:42-84 | for normal results the relative bound fails for exactly four magnitudes |
| HalfFloat.DecodeSubnormalValue | src/dtype.rs:94-100 | the exact value the subnormal arm produces |
| HalfFloat.DecodeSubnormalTooSmall | src/dtype.rs:96-98 | every nonzero subnormal decodes strictly below its value |
| HalfFloat.DecodeExactIff | src/dtype.rs:87-106 | decoding a finite half is exact if and only if it is zero or normal |
| HalfFloat.SubnormalComesBackLower | src/dtype.rs:94-100 | a subnormal half decoded and encoded comes back as the stated, strictly smaller half |
| HalfFloat.DecodeEncodeRoundTripIff | src/dtype.rs:87-106 | decoding then encoding gives a half back if and only if it is zero, normal, infinite or the NaN 0x7e00 |
| HalfFloat.CorrectedRoundTrip | src/dtype.rs:87-106 | with the corrected shift decoding then encoding gives back every half that is not a NaN |
| HalfFloat.DecodeCorrectedExact | src/dtype.rs:87-106 | the corrected arm decodes every finite half to exactly its value |
| HalfFloat.SubnormalResultIff | src/dtype.rs:42-84 | the inputs that encode to a subnormal half are exactly the magnitudes 0x33000001 up to 0x387fe000 |
| HalfFloat.RoundIdempotentIff | src/dtype.rs:110-112 | rounding through f16 twice changes nothing exactly at the inputs outside that interval |
| Routing.InBudgetIndex | src/pipeline/mod.rs:368-416 | the demotion loop terminates, returns the first filled sibling, and stops exactly when the chain runs out |
| Routing.DemotionKeepsPlainTiles | src/pipeline/mod.rs:368-416 | demotion keeps the weight storage class and never leaves the edge-checked kernels |
| Routing.CoopmatFallbackNeverTaken | src/pipeline/mod.rs:395-400 | an empty wave-fill coopmat slot implies an empty 128-tile slot, so that demotion never lands |
| Routing.CoopmatTileAligned | src/pipeline/routing.rs:68-135 | the picked coopmat tile divides the shape and matches the activation storage |
| Routing.HeuristicAgrees | src/pipeline/mod.rs:293-360 | every heuristic pick matches B's storage and the shape's alignment, and fuses an epilogue unless it is a coopmat kernel |
| Routing.EpilogueFallbackAgrees | src/pipeline/mod.rs:424-471 | the epilogue fallback always supports epilogues and agrees with storage and alignment |
| Routing.CandidateAgrees | src/pipeline/mod.rs:491-535 | every kernel the tuner may record for a shape passes recording's storage and alignment checks for it |
| Routing.RetainedWinnersMeasured | src/pipeline/mod.rs:226-230 | of a store measured under other gates, the retained entries are candidates on this device, each for its own shape |
| Routing.PlanAgrees | src/executor/mod.rs:218-257 | a planned kernel, from the heuristic, a tuned winner, packed weights or f16 activations, passes those checks |
| Routing.DemotionMeetsRecording | src/executor/mod.rs:268-315 | rerouting a fused op keeps the checks and supplies the epilogue |
| Routing.RouteMeetsRecording | src/executor/recording.rs:100-150 | automatic routing either stops on an empty slot or yields a filled slot that passes every storage, layout and alignment check and fuses the requested epilogue |
| Routing.RowFusionsHonoured | src/executor/mod.rs:296-315 | an M = 1 op whose row grid fits also gets its fused norm and store, whatever the tuner recorded |
| Routing.PlannedSplitDispatches | src/executor/mod.rs:179-210 | a split count in a routed plan is dispatchable as it stands |
| Routing.RouteNeverStops | src/pipeline/mod.rs:259-288 | where the budget admits the last-resort kernels, routing always yields a kernel |
| Routing.RouteRecordsIff | src/executor/recording.rs:252-267 | a routed op passes every check of recording, the dispatch grid included, exactly when N, M and batch are within the device's group counts times the tile |
| Routing.RouteGridFits | src/executor/recording.rs:252-267 | shapes up to 32 columns and 2 rows per group always route to a kernel whose grid fits |
| Routing.PackedTileMatches | src/pipeline/routing.rs:10-41 | the packing tile is the packed kernel's tile and divides every N resolution accepts |
| RoutingChoice.WinnerIsTaken | src/pipeline/mod.rs:259-288 | a measured winner whose slot is filled and which fuses what the op asks for is the route, with its own verdict on splitting where the device admits it |
| RoutingChoice.NoWinnerNoStore | src/pipeline/mod.rs:259-288 | without a winner for the shape, and for packed weights or f16 activations, the tuning store does not matter |
| RoutingChoice.HeuristicIsTaken | src/executor/mod.rs:179-210 | then a heuristic pick that fuses what the op asks for is the route, with the heuristic split count on a discrete device |
| RoutingChoice.EpilogueMoves | src/pipeline/mod.rs:424-471 | where an op with an epilogue goes when its planned kernel does not fuse it: the heuristic pick, the second-generation tensor-core kernel, or the edge-checked kernel of the tile class |
| RoutingChoice.RowMoves | src/executor/mod.rs:295-315 | a fused norm or store goes from a winner that lacks it to the heuristic pick that has it, unsplit |
| RoutingChoice.HeuristicKind | src/pipeline/mod.rs:293-360 | exactly when the heuristic picks a row, column, outer-product, tensor-core or descriptor kernel, by shape and device alone, and the row kernel's width |
| RoutingChoice.TilesKept | src/pipeline/routing.rs:137-167 | moving a tile to another storage class keeps its output tile, and so does the demotion of a deep-K tile |
| RoutingChoice.RoutedIsSupported | src/pipeline/mod.rs:174-181 | every routed kernel has the storage, tensor-core and shared-memory support it needs |
| TileRegions.TileOfRegion | src/pipeline/selection.rs:89-172 | the tile of every shape, as disjoint regions of its shorter side, longer side, K and batch |
| TileRegions.SmallIff | src/pipeline/selection.rs:35-87 | the 64-tile is preferred exactly for K below 128, a quarter more padding at 128, or too few 128-tiles for the device |
| TileRegions.CoopmatTileOf | src/pipeline/routing.rs:68-102 | the tensor-core tile of every 64-aligned shape |
| TileRegions.CoopmatFamily | src/pipeline/routing.rs:104-135 | each tensor-core kernel has the tile it was picked for and its activation type, and only wave-fill tiles demote, to the 128-tile |
| TileRegions.CandidatesAre | src/pipeline/mod.rs:491-535 | exactly which kernels the tuner measures for a shape, kernel by kernel |
| TileRegions.HeuristicIsCandidate | src/pipeline/mod.rs:485-535 | on a device with addresses the heuristic pick is measured, unless it is a wave-fill tensor-core tile |
| Shapes.TensorShapeElements | src/matmul/resolution.rs:18-45 | exactly the nonzero rank-2 and rank-3 shapes resolve, to as many elements as the tensor holds |
| Shapes.TensorShapeAxes | src/matmul/resolution.rs:18-45 | the last two extents are rows and columns, the one before them the batch |
| Shapes.CheckedProductIff | src/matmul/resolution.rs:472-476 | the checked fold of nonzero factors fails exactly when the whole product exceeds u64 |
| Shapes.BatchStrideIff | src/matmul/resolution.rs:51-76 | a layout is accepted exactly when it has at most 2^32 elements; neither the stride nor the u64 check rejects more |
| Shapes.OperandInBounds | src/matmul/resolution.rs:51-76 | every (batch, row, col) offset of an accepted operand is inside its tensor and u32 |
| Shapes.OperandAliases | src/matmul/resolution.rs:51-76 | two offsets meet exactly when they name the same element, or the same element of a broadcast plane |
| Shapes.OutputCovered | src/matmul/resolution.rs:51-76 | every element of C is the offset of some (batch, row, col) |
| Shapes.ResolvedAddresses | src/matmul/resolution.rs:421-441 | for every accepted call all A, B and C offsets are in bounds and u32, and C offsets are injective |
| Shapes.ResolvedCovers | src/matmul/resolution.rs:421-441 | the batch, extents and strides of the resolved record reach exactly the elements of A, of B and of C, each element of C once, and its FLOP count is that of those products |
| Shapes.ResolvedPlanes | src/matmul/resolution.rs:421-441 | output plane b reads plane b of A and B, or their only plane when they are broadcast |
| Shapes.FlopsFit | src/matmul/resolution.rs:467-470 | unless A and B are both broadcast the FLOP count is at most 2^49 |
| Shapes.FlopsCanOverflow | src/matmul/resolution.rs:467-470 | with both broadcast, addressable shapes can exceed u64 FLOPs |
| Shapes.AcceptedIff | src/matmul/resolution.rs:421-476 | acceptance in full: dimensions, broadcast, 2^32 elements per tensor and, only when both inputs broadcast, the FLOP count; the reported count is the true one |
| Strided.MaxIndexExact | src/executor/elementwise/ops.rs:405-413 | for fewer than 2^32 elements no u64 step of the bound computation wraps |
| Strided.CopyAcceptedIff | src/executor/elementwise/ops.rs:387-429 | a copy of any size is planned exactly when no axis is empty, the tensors differ, and its count and furthest elements pass modulo 2^64; below 2^64 elements exactly when it has fewer than 2^32 and every access of both sides is in bounds |
| Strided.CopyInBoundsIff | src/executor/elementwise/ops.rs:405-427 | an accepted copy of any size addresses only elements of its tensors exactly when the furthest element of neither side wraps |
| Strided.CopyTotalIff | src/executor/elementwise/ops.rs:401-429 | the planned count is the true one exactly when the extent product is below 2^64 |
| Strided.WrappedCountAccepted | src/executor/elementwise/ops.rs:401-429 | an extent product of 2^64 is accepted as an empty dispatch in a release build |
| Strided.WrappedBoundAccepted | src/executor/elementwise/ops.rs:405-427 | a furthest source element of 2^64 passes the bound check of a one-element tensor |
| Layout.PackThenSource | src/matmul/api.rs:324-344 | the packed position of (k, n) is in range and maps back to (k, n) |
| Layout.SourceThenPack | src/matmul/api.rs:324-344 | every packed position comes from exactly one element, so packing is a permutation |
| Layout.PackRowTiles | src/matmul/api.rs:324-344 | the tile loops put element (k, n) at its packed position, for every K, N and tile dividing N |
| Projection.CpuBmm | tools/test-support/src/lib.rs:66-135 | the reference fills every output with the scaled, optionally accumulated sum of products, broadcasting the shorter input |
| Projection.Transpose | tools/llama-ash/src/model/mod.rs:333-342 | the loops store the file's [out][in] matrix as [in][out] |
| Projection.ConcatQkv | tools/llama-ash/src/model/load.rs:163-174 | the row loop lays the Q, K and V columns side by side |
| Projection.DotPacked | src/matmul/api.rs:317-344 | a GEMV over packed weights equals the product with the original matrix |
| Projection.DotConcat | tools/llama-ash/src/model/load.rs:163-174 | a column of the concatenated product is the column of the part it came from |
| Projection.DecodeIsReference | tools/llama-ash/src/model/load.rs:144-185 | decode's packed row product equals the product with the file's own weight row |
| Projection.PrefillMatchesDecode | tools/llama-ash/src/model/forward/prefill.rs:122-191 | for every token row, splitting the concatenated prefill product by strided copy equals decode's packed product, and both equal the file's weights times the row |
| KvReference.LaterTokensDoNotMatter | tools/llama-ash/src/model/forward/prefill.rs:142-154 | the reference is causal: appending tokens changes no stream of an earlier position |
| KvReference.LayerOfRows | tools/llama-ash/src/model/forward/prefill.rs:109-284 | a layer over any run of rows with their causal prefixes gives the reference streams of the next layer |
| KvOps.ReplayIsRerecording | tools/llama-ash/src/model/forward/decode.rs:64-95 | a position-relative recording with p in the cell executes exactly the list for p on the fixed attention grid: rope rows, store addresses, KV lengths |
| KvOps.ReplayMatchesBuilder | tools/llama-ash/src/model/forward/decode.rs:163-171 | and that is what would be recorded for p now, op by op, apart from the chunk count of decode attention |
| KvOps.SubmissionsFlat | tools/llama-ash/src/model/forward/decode.rs:250-343 | the submissions of a per-op step, one after the other, are its op list |
| KvOps.PrepareExecOps | src/executor/graph_ops.rs:286-313 | preparing a list fails exactly when it is empty, the device has no buffer addresses, some op names a cell other than the one passed, or some op does not plan |
| KvOps.SessionListsPrepare | tools/llama-ash/src/model/forward/decode.rs:72-74 | every list the session prepares, prefill, position-relative or unrolled, passes those checks |
| KvOps.UnrolledIgnores | tools/llama-ash/src/model/forward/decode.rs:113-126 | an unrolled recording executes the same whatever the cell holds |
| KvOps.PrefillIgnores | tools/llama-ash/src/model/forward/prefill.rs:89-291 | so does a prefill recording |
| KvCache.KtCellUnique | tools/llama-ash/src/model/mod.rs:51-53 | distinct (head, lane, position) never share a key cell |
| KvCache.VCellUnique | tools/llama-ash/src/model/mod.rs:54-55 | distinct (head, lane, position) never share a value cell |
| KvCache.KtStoreEffect | src/matmul/api.rs:107-115 | a decode key store writes all lanes of its position and no other cell |
| KvCache.VStoreEffect | src/matmul/api.rs:107-115 | a decode value store writes all lanes of its position and no other cell |
| KvCache.KtAppendEffect | tools/llama-ash/src/model/forward/prefill.rs:204-215 | a prefill append writes all lanes of its positions, token by token, and no other cell |
| KvCache.VAppendEffect | tools/llama-ash/src/model/forward/prefill.rs:216-227 | the same for values |
| KvCache.HeldIsCoherent | tools/llama-ash/src/model/forward/decode.rs:206-221 | caches that hold the streams of a prefix are read back by attention as exactly those streams, in every head and lane |
| KvDevice.ChunksCover | shaders/attention_decode_kernel.glsl:103-107 | any number of chunks covers every position below the KV length exactly once, in order, chunks past the end being empty |
| KvDevice.ChunkedIsWhole | shaders/attention_decode_kernel.glsl:103-107 | chunked decode attention reads the whole prefix and only that, whatever the chunk count |
| KvDevice.GridDoesNotMatter | src/executor/elementwise/attn.rs:130-137 | lists that differ in their chunk counts compute the same from every memory |
| KvLayer.QkvRuns | tools/llama-ash/src/model/forward/mod.rs:50-87 | the three GEMVs of one row leave its rotated query, and its rotated key and its value at its position of the layer's caches |
| KvLayer.AttentionReads | tools/llama-ash/src/model/forward/decode.rs:203-236 | fused or composed, on either grid, attention of a step reads exactly positions 0 up to its own, all stored |
| KvLayer.PerOpAttentionReads | tools/llama-ash/src/model/forward/decode.rs:268-336 | so do the three attention variants of the per-op path |
| KvLayer.MlpRuns | tools/llama-ash/src/model/forward/mod.rs:134-227 | the MLP block of every width turns the attended rows and the layer's input into the layer's output in the other buffer |
| KvLayer.SplitAppendRuns | tools/llama-ash/src/model/forward/prefill.rs:156-227 | split, rotate and append leave rotated keys and plain values of all rows in the layer's caches, and rotated queries |
| KvLayer.FlashRuns | tools/llama-ash/src/model/forward/prefill.rs:142-280 | on each of the three paths flash attention gives every row exactly its causal prefix |
| KvLayer.DecodeLayerRuns | tools/llama-ash/src/model/forward/decode.rs:184-242 | one decode layer computes the reference's next layer and stores its keys and values |
| KvLayer.PrefillLayerRuns | tools/llama-ash/src/model/forward/prefill.rs:110-284 | one prefill layer computes the reference's next layer for all rows and stores their keys and values |
| KvExec.DecodeRuns | tools/llama-ash/src/model/forward/decode.rs:172-246 | a decode step computes the reference streams of its token through all layers, writes exactly its position of every cache, and leaves the logits of its last stream |
| KvExec.PerOpRuns | tools/llama-ash/src/model/forward/decode.rs:250-343 | so does a step submitted op by op, with any attention variant |
| KvExec.PrefillRuns | tools/llama-ash/src/model/forward/prefill.rs:89-291 | a prefill does it for all its tokens at once, from any stored history, and leaves the reference's greedy token in the token cell |
| KvExec.HistoryGains | tools/llama-ash/src/model/forward/prefill.rs:204-227 | gained positions extend the stored history and no earlier position is overwritten |
| KvExec.ClosedStepStores | tools/llama-ash/src/model/forward/mod.rs:314-328 | a closed step stores its token, writes the greedy token after it to the cell and feeds itself that token's embedding |
| KvExec.ReplayComputes | tools/llama-ash/src/model/forward/decode.rs:86-94 | a replay with p in the cell computes what the list recorded for p now would, from every memory |
| KvExec.UnrolledDecodes | tools/llama-ash/src/model/forward/decode.rs:113-135 | one submission of n unrolled steps feeds and stores the n tokens of greedy decoding |
| KvCensus.DecodeCensus | tools/llama-ash/src/model/forward/decode.rs:144-246 | a decode step plans nine dispatches a layer with fused attention, ten without, one for the logits, and two more when it closes the token loop |
| KvCensus.PrefillCensus | tools/llama-ash/src/model/forward/prefill.rs:89-291 | a prefill plans 12, 18, 17 or 16 dispatches a layer by width, activation and cache type, and three or five around them |
| KvCensus.PerOpCensus | tools/llama-ash/src/model/forward/decode.rs:250-343 | a per-op step makes eight, six or ten submissions a layer by attention kind, and one for the logits |
| KvCensus.ChunksRight | src/executor/elementwise/mod.rs:235-237 | a chunk per 32 positions, at least 8 and at most 32, all 32 in a replay |
| KvBarriers.StoresOnly | src/executor/graph_ops.rs:369-579 | a dispatch of a session op changes only buffers the recorder tracks as stored, however tensors map to buffers |
| KvBarriers.ReadsOnly | src/executor/graph_ops.rs:369-579 | and what it leaves there depends only on the buffers tracked as loaded or stored |
| KvBarriers.ListFramed | src/executor/graph_ops.rs:357-581 | every list stays, dispatch by dispatch, within the accesses planned for it |
| KvBarriers.ListIsSerial | src/executor/graph_ops.rs:587-624 | whatever kernels implement a list's dispatches within those accesses, every interleaving its recorded barriers allow ends in the memory of its ops in list order |
| KvBarriers.ListCompletes | src/executor/graph_ops.rs:587-624 | and some interleaving does end there |
| KvBarriers.ListHasKernels | src/executor/graph_ops.rs:587-624 | every list has such kernels on every faithful layout of the tensors it touches |
| KvBarriers.EveryListRuns | src/executor/graph_ops.rs:587-624 | and such a layout exists: for every list there are buffers for its tensors, a faithful layout and kernels within its planned accesses |
| KvBarriers.ProjectionsAreSerial | tools/llama-ash/src/model/forward/mod.rs:41-87 | the per-op path's submission of three projections without barriers does what they do in order |
| KvBarriers.ReplayPlansTheSame | src/executor/graph_ops.rs:264-313 | a replay has the accesses of its recording whatever the position cell holds, so barriers recorded once serve every position |
| Kernels.RunPerforms | src/executor/recording.rs:21-36 | under any safe placement, kernels that implement dispatches of a symbolic memory end in their in-order result |
| Kernels.KernelsExist | src/executor/graph_ops.rs:205-211 | dispatches that stay within their accesses can be implemented within them |
| KvSession.Session.constructor | tools/llama-ash/src/model/load.rs:136-200 | a loaded model has zeroed caches, position 0 and no recording |
| KvSession.Session.Reset | tools/llama-ash/src/model/mod.rs:349-357 | reset zeroes the caches and the position and keeps the recordings valid |
| KvSession.Session.DropPrepared | tools/llama-ash/src/model/mod.rs:361-365 | dropping clears all three recordings and nothing else |
| KvSession.Session.EnsureScratch | tools/llama-ash/src/model/forward/prefill.rs:29-37 | replacing the scratch drops the recording that names it; a matching scratch keeps both |
| KvSession.Session.Prefill | tools/llama-ash/src/model/forward/prefill.rs:24-80 | succeeds exactly when tokens fit, executes the list the builder makes now whether it replays or records, stores the given tokens' streams at the next positions and nowhere else, and returns the reference's greedy token |
| KvSession.Session.PrefillGraph | tools/llama-ash/src/model/forward/prefill.rs:297-318 | reports the list a prefill would submit and keeps the session valid, touching no cache |
| KvSession.Session.DecodeGraph | tools/llama-ash/src/model/forward/decode.rs:26-42 | one step stores the given token at the current position and returns the greedy token after it, or changes nothing at a full cache or for an id outside the vocabulary |
| KvSession.Session.DecodePerOp | tools/llama-ash/src/model/forward/decode.rs:250-343 | the same step submission by submission |
| KvSession.Session.DecodeEach | tools/llama-ash/src/model/forward/decode.rs:53-60 | the fallback loop returns the n greedy tokens, or stops at the first step that does not fit, keeping the steps taken, or at once for an id outside the vocabulary; each step submits what its mode does: one graph, or the op-by-op lists of its attention kind |
| KvSession.Session.ReplayStep | tools/llama-ash/src/model/forward/decode.rs:86-94 | one replay executes the list for the position in the cell, stores the token it was fed and reads back the greedy one |
| KvSession.Session.DecodeMany | tools/llama-ash/src/model/forward/decode.rs:52-98 | returns the n tokens greedy decoding produces and stores the n it feeds; in prepared mode with fused attention n replays for consecutive positions, or nothing at all when they do not fit or the id is unknown, even for no steps; in every other mode steps submitted one by one as the mode says, stopping at the first that does not fit |
| KvSession.Session.DecodeUnrolled | tools/llama-ash/src/model/forward/decode.rs:103-137 | in prepared mode with fused attention the same tokens in one submission, returning the last, or nothing at all, the recording being reused only for the same start and count; in every other mode as DecodeMany |
| KvSession.HistoryDetermines | tools/llama-ash/src/model/forward/decode.rs:103-137 | two sessions with the same tokens hold the same cache elements, however the tokens got there: whole or chunked prefill, any decode mode |
| TuneStore.ParseDecimal | src/pipeline/tuning.rs:121-123 | printing and parsing a u32 are inverse |
| TuneStore.LineRoundTrip | src/pipeline/tuning.rs:115-151 | parsing a printed entry gives its key, kernel and flags, the split count dropped when outside 2..65535 |
| TuneStore.StoreRoundTrip | src/pipeline/tuning.rs:98-182 | load after save gives every binding back, and exactly the store if and only if every split count is absent or in 2..65535 |
| TuneStore.ForeignHeaderDiscards | src/pipeline/tuning.rs:106-113 | a store with another driver or shader header loads as empty |
| TuneStore.TextIsCanonical | src/pipeline/tuning.rs:165-182 | the printed text depends on the contents of the map alone |
| TuneText.NumberIff | src/pipeline/tuning.rs:121-123 | exactly the digit strings below 2^32, with or without a plus sign, are numbers, with the value they spell |
| TuneText.WordsAre | src/pipeline/tuning.rs:115-120 | words for every text: runs of other characters between spaces |
| TuneText.LinesAre | src/pipeline/tuning.rs:106-115 | lines for every text, a carriage return before the newline dropped, an unfinished last line kept |
| TuneText.FlagsAre | src/pipeline/tuning.rs:129-138 | the last splitk2= word alone decides the count, absent if out of 2..65535 or no number; bf16 anywhere counts; other words are ignored |
| TuneText.EntryIff | src/pipeline/tuning.rs:115-138 | a line is an entry exactly when it has four numbers and a known kernel name, and then what it says |
| TuneText.BindingsAre | src/pipeline/tuning.rs:139-151 | a key is bound exactly when some line after the header has it, to the last such line |
| TuneStore.LoadTuned | src/pipeline/tuning.rs:98-154 | the line and token loops compute the specified map, later lines winning |
| TuneStore.SaveTuned | src/pipeline/tuning.rs:157-182 | from any iteration order the writer prints the sorted listing, and the text loads as the store it was written from |
| Schedule.RoundIsPermutation | src/executor/tuning.rs:302-313 | every round visits every candidate exactly once, with an explicit inverse |
| Schedule.PairBalanced | src/executor/tuning.rs:302-313 | rounds 2p+1 and 2p+2 are each other's reverse, so every candidate's ranks sum to len - 1 |
| Schedule.PairsAreSpaced | src/executor/tuning.rs:302-313 | the first measured round is the given order, and each pair of rounds starts half a turn after the pair before it |
| Schedule.RunBalanced | src/executor/tuning.rs:302-313 | over any number of pairs all candidates have the same total rank |
| Schedule.Measure | src/executor/tuning.rs:114-132 | after the measuring loop every candidate has exactly its own reported samples of the measured rounds, in order, warm-up discarded, and every round, the warm-up included, has run every candidate once in its order |
| SlotPool.StepKeepsSlots | src/executor/submission.rs:29-53 | no step of any thread loses or duplicates a slot |
| SlotPool.StepKeepsInv | src/executor/submission.rs:29-53 | every step keeps the slots, single leases, and that sleepers imply pool size at most pending notifications plus woken threads |
| SlotPool.RunKeepsInv | src/executor/submission.rs:29-53 | the invariant holds in every reachable state of any number of threads |
| SlotPool.LeaseIsExclusive | src/executor/submission.rs:29-53 | a leased slot is neither pooled nor leased to anyone else |
| SlotPool.NoDeadlock | src/executor/submission.rs:37-53 | whenever a thread sleeps some thread has a step to take, even with one slot |
| SlotPool.StepCosts | src/executor/submission.rs:37-53 | every step, waking and sleeping again included, uses up a bounded cost |
| SlotPool.RunsAreBounded | src/executor/submission.rs:37-53 | no run is longer than the cost of its first state |
| SlotPool.StuckMeansFinished | src/executor/submission.rs:37-53 | where no step exists every call has completed and every slot is back |
| SlotPool.TuneHoldsOneLease | src/executor/tuning.rs:105-163 | dropping the measurement lease first keeps tuning within one lease at a time, for any number of probe leases |
| SlotPool.NestedLeaseDeadlocks | src/executor/tuning.rs:135-138 | keeping it would deadlock a one-slot executor at the first probe lease |

## Left out

- Vulkan object creation, drivers, memory types, feature probing, pipeline caches and timestamps: foreign calls.
- GLSL kernel bodies, except which positions the chunks of decode attention read: a dispatch is any computation within its declared accesses, and PrefillQkvPack and the fused stores have the layouts their descriptors document.
- Sub-buffer granularity: the trackers see whole buffers, and so does the model, except for the bytes of the split-K scratch arena.
- The pipeline-bind bookkeeping of the recorders: it saves a command and orders nothing.
- Explicit `ML_KERNEL` selections: only automatic routing is modelled.
- The GEMV-chain planner behind `ExecOp::GemvChain`: only its access set and its job limit.
- Tensor-shape validation of the elementwise ops other than strided copies, and error message text.
- Routing.RouteMeetsRecording: takes the winners as measured by the tuner, here or under other gates; a store edited by hand could name any kernel.
- What the planners of single ops check (tensor shapes, contexts, descriptor-bound kernels): planning and preparing take their verdicts as given.
- Shared-memory byte counts of kernels other than the coopmat tiles: arbitrary, so the routing theorems hold for all of them.
- The GGUF reader, the C ABI, benchmarks, reports, command line and device selection.
- Rounding inside matmuls and the f16 narrowing of stored weights and activations: products are over the reals.
- KvSession.Session.Prefill: the device gathers prompt ids outside the vocabulary unchecked, which is not captured; positions are unbounded integers, so a wrap of `pos_base + t` in u32 is not modelled, here or in the decode calls.
- Numeric values of activations and logits in the session: a layer is an uninterpreted function of its stream and its context, whose length is the position.
- Device loss, failed submissions and allocation failures.
- TuneStore.SaveTuned: the temporary file and rename are not modelled, and the sort of the standard library is an insertion sort here.
- Schedule.Measure: a failed measurement aborts tuning in the code; here every run succeeds, with or without a timestamp. The median and the 2% winner rule are one-line comparisons.
- SlotPool.StepKeepsInv: the queue and condition variable are atomic steps of a state machine, without a class, since a waiting method has no sequential contract.
