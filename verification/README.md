# HICS transfer engine: a verified model

HICS schedules transfers over a GPU cluster: a topology graph with two isolated InfiniBand rails, a
path engine that stripes KV-cache migrations over the rails and preempts them when a
tensor-parallel transfer would miss its deadline, an executor that moves chunks tick by tick, a
telemetry ring and an LSTM predictor that feed the path costs, and a shim that fixes the order of
steps. This project models that code in Dafny and proves what it keeps. `dafny verify
dfyconfig.toml` checks all of it.

## How it is built

Every object of the C++ code that updates its fields is a class here, with the same fields and the
same loops: `TransferExecutor`, `TopologyGraph`, `PathSelectionEngine`, `HicsShim`,
`TelemetryRingBuffer`, `LSTMPredictor` and the prediction refresher. Each method is proved equal, on
the whole state, to a function over values (`TransferSpec`, `SystemSpec`, `EngineSpec`,
`LstmWeights`, the log functions of `Telemetry`). The theorems are about those functions and about
all their runs.

| files | what they hold |
|---|---|
| `Model`, `Arithmetic` | shared types and constants, sums, products and remainders |
| `TransferSpec`, `TransferInvariant`, `TransferRuns` | the executor's operations, what each keeps, and all runs of them |
| `TransferDelivery`, `TransferPayload`, `ForcedCompletion` | which bytes are where: delivery, frames, and what a forced drain loses |
| `TransferExecutor`, `ExecutorLaws`, `Bandwidth` | the executor object, what its bookkeeping means, and the bytes a tick offers |
| `PathSearch`, `Revisits`, `Topology` | the best-first and the FIFO path search, which of its walks revisit a vertex, and the graph with its path cache |
| `DualRail`, `Cluster`, `ClassPaths`, `KvRails`, `SimpleRoutes` | the wiring rule, the builders, what each class keeps out of, both rails as candidates, and no candidate that revisits a vertex |
| `EngineSpec`, `EngineScores`, `PathCosts`, `PathEngine` | candidates, biases, path costs, striping, preemption, deferred reroutes |
| `LoadLaws`, `SelectionLaws`, `DrainLaws`, `PendingEdges` | what load does to links and paths, what the scores prefer, where reroutes come from and go |
| `ComposedTransfer`, `SystemSpec`, `SystemInvariant`, `BoundedCompletion`, `SystemRuns`, `TickLaws`, `FlowRegistry`, `Shim` | executor, engine and shim together, over whole runs of shim calls |
| `Telemetry`, `LstmWeights`, `LstmPredictor`, `PredictionRefresh` | ring against log, weight file, history windows, the rotating cursor |

The main results, in the order of their weight: no suspension is ever lost and the engine's books
balance (`SystemRuns.FromStart`, `SystemRuns.NoLostSuspension`); a transfer completes within a bound
that counts its preemptions (`SystemRuns.CompletesWithin`, with `Bandwidth.ShimOffers` for the bytes
a tick really offers) and no sooner than two rails can carry it (`TickLaws.TakesAtLeast`); a completed transfer has delivered its buffer (`SystemRuns.ScheduledDelivers`,
`TransferPayload.RunWrites`); a reroute leaves the busy rail (`DrainLaws.DrainLeaves`) and the flow
registry follows it (`FlowRegistry.RegistryFromStart`); bytes, rails and reports are conserved over every run of the executor
(`TransferRuns.RunOk`, `TransferRuns.ReportedOnce`); the search is optimal, complete and terminates
(`PathSearch.BestFirst`); both rails are always candidates (`KvRails.BothRailsAreCandidates`).

The theorems about runs range over every sequence of shim calls that meets `SystemRuns.CallOk`, the
host writing memory as it likes between calls. The methods of `HicsShim` are proved to make such
calls from any state of a healthy shim, and `HicsShim.Initialize` to return a healthy one over a
cluster of any size.

## What it takes as given

- Each mutex-guarded method is one atomic step. The iteration order of the transfers map, the order
  the priority queue gives to ties and the order `std::sort` gives to equal slacks are arbitrary.
- `IbverbsTransport::transfer_chunk` is a copy that succeeds. Delivery asks of the caller that bound
  buffers do not wrap, do not overlap those of other live transfers, and are left alone by the host
  while the transfer is live (`TransferRuns.RunContract`).
- `pow` is any function `residual` that leaves at least the cube of its base for exponents up to 3
  (`PathCosts.PowLike`) and, where the effect of load matters, rises with its base
  (`LoadLaws.Contends`); where that matters, utilizations lie in [0, 1]. With links of at least
  1 GB/s, as every built cluster has, the code's own path costs then stay below the maximal double
  for every 64-bit size (`PathCosts.PathCostTame`), so that a reroute finds a path.
- Clocks, telemetry readings, the predictor's forward pass and the number of refreshes that fit into
  the profiling sweep are parameters.
- The graph and its search defaults are frozen once the shim is initialised.

## Where the code does not do what one would expect

Each of these is proved on an input, and so is exactly when it happens.

- `drain_ready` reports a transfer as completed although chunks that were waiting for a rail slot are
  unsent (`ForcedCompletion.DrainLosesBytes`). Of the transfers a drain forces, those lose bytes that
  have such a chunk when it does (`ForcedCompletion.DrainOutcome`, `ForcedCompletion.ForcedIsFull`);
  one that has none when the drain is called loses nothing (`ForcedCompletion.DrainKeepsBytes`).
- A telemetry snapshot is every edge's last value only for at most 512 edges
  (`Telemetry.SnapshotFaithfulIff`); the default cluster has 1104 (`Telemetry.DefaultClusterOverflows`).
- The Rust snapshot takes 0.0 for "not seen", so it can return an older value than the C++ one
  (`Telemetry.SnapshotsDiffer`; exactly when: `Telemetry.SnapshotsAgreeIff`).
- A weight file rejected after its header has already replaced the layers, although the shim then
  reports "using defaults" (`LstmWeights.CutAfterHeader`, `Shim.NotTheDefaults`; exactly when:
  `LstmWeights.RejectionKeepsIff`).
- An answer cached before `add_edge` stays and can be wrong (`Topology.StaleAfterAddEdge`). It is still
  right if and only if every admissible walk over the new edge finds k answers already, the last of
  them no dearer (`Topology.StillBestIff`, and `AddEdge` for the whole cache).
- `cancel` has no state check: a completed transfer it is called on becomes cancelled, and that is the
  only call that takes a transfer out of Completed (`TransferRuns.StepTerminal`,
  `TransferRuns.CompletedUnlessCancelled`).
- The search's check against cycles compares edge heads only, so a walk can come back to the source
  (`Revisits.AnswerRevisits`). A walk revisits a vertex if and only if one of its edges leads to the
  source (`Revisits.RevisitsIff`). All answers to a query are simple if and only if every such walk
  has k strictly lighter ones (`Revisits.SimpleIff`). Between the nodes of a default cluster that is
  so, and every candidate is simple (`SimpleRoutes.CandidatesAreSimple`).

## Model

| member | source | states |
|---|---|---|
| TransferInvariant.PromoteExclusive | transfer/transfer_executor.cpp:85-111 | the slot loop never puts two chunks on one rail slot, given that the chunks already in flight hold theirs |
| TransferInvariant.PromoteStarts | transfer/transfer_executor.cpp:301-317 | while some waiting chunk has a free slot, the slot loop leaves a chunk in flight |
| ExecutorLaws.PromoteInOrder | transfer/transfer_executor.cpp:85-111 | first come, first served: a chunk is left waiting only if its slot was busy or an earlier chunk was started on it |
| TransferInvariant.TickTransferOk | transfer/transfer_executor.cpp:282-370 | a tick keeps every per-transfer invariant, and the transfer's sent bytes grow by exactly the bytes wired |
| TransferInvariant.UnionEdgesHas | transfer/transfer_executor.cpp:103-108 | `path_edges` of a striped transfer is exactly the union of its chunks' edges |
| TransferInvariant.StripedOk | transfer/transfer_executor.cpp:63-116 | a striped submission starts in order: one chunk per slot in flight, the rest pending, edges covered, nothing sent |
| TransferInvariant.SubmittedOk | transfer/transfer_executor.cpp:30-61 | a plain submission starts in order with nothing sent |
| TransferInvariant.CancelOk | transfer/transfer_executor.cpp:149-159 | cancel keeps the invariant and the byte count, from any state, Completed included; what becomes of the state is `StepTerminal` |
| TransferInvariant.RerouteExclusive | transfer/transfer_executor.cpp:217-227 | after a reroute no rail slot has two chunks in flight |
| TransferInvariant.RerouteOk | transfer/transfer_executor.cpp:196-235 | reroute keeps the invariant and the byte count; afterwards all unfinished chunks share the new rail and its edges |
| TransferInvariant.ForceOk | transfer/transfer_executor.cpp:385-409 | the forced end of drain_ready keeps the invariant and adds exactly the bytes it wires |
| TransferInvariant.SuspendAllAt | transfer/transfer_executor.cpp:185-192 | suspending the chosen transfers changes each of them and no other, and counts each once |
| TransferInvariant.TickKeepsOk | transfer/transfer_executor.cpp:282-370 | a tick over any iteration order keeps the whole-state invariant |
| TransferInvariant.ForceKeepsOk | transfer/transfer_executor.cpp:385-409 | a forced drain over any iteration order keeps the whole-state invariant |
| TransferRuns.RunOk | transfer/transfer_executor.cpp:268-280 | over every run of all operations, forced drains included: `bytes_transferred_` is the sum of all chunks' `bytes_sent`, each parent's sum agrees, no chunk exceeds its size, `reroute_count_` is the sum of the transfers' counts, rails stay exclusive and edges covered |
| TransferRuns.TickAt | transfer/transfer_executor.cpp:286-368 | a tick gives each visited transfer exactly its own step, so the map's iteration order does not matter to any transfer |
| TransferRuns.TickDoneAt | transfer/transfer_executor.cpp:354-360 | a tick reports exactly the transfers whose step completes, each once, and counts them |
| TransferRuns.ForceDoneAt | transfer/transfer_executor.cpp:389-409 | a forced drain reports exactly the active transfers, each once |
| TransferRuns.StepMoves | transfer/transfer_executor.cpp:128-235 | no operation moves a buffer, changes a request or takes a transfer out of a terminal state into an active one |
| TransferRuns.RunMoves | transfer/transfer_executor.cpp:128-413 | over every run a terminal transfer stays terminal and a transfer keeps its layout |
| TransferRuns.StepTerminal | transfer/transfer_executor.cpp:149-159 | a call leaves a terminal transfer in its state unless it cancels that transfer, and then it is Cancelled |
| TransferRuns.CompletedUnlessCancelled | transfer/transfer_executor.cpp:149-159 | over every run a completed transfer is still Completed at the end if and only if no call of the run cancelled it |
| ExecutorLaws.CancelledFrozen | transfer/transfer_executor.cpp:149-159 | no later call changes a cancelled transfer, so none moves a byte of it |
| ExecutorLaws.CancelChunks | transfer/transfer_executor.cpp:149-159 | cancelling leaves each chunk finished or Cancelled, with the bytes it had sent |
| ExecutorLaws.SlackIs | transfer/transfer_executor.cpp:30-61 | slack is the deadline less the path latency after a submission or a reroute, the deadline after a striped submission, the deadline less the time gone by after a tick |
| TransferRuns.ReportedOnce | transfer/transfer_executor.cpp:275-280 | over every run each id is reported done at most once |
| TransferRuns.StepDelivers | transfer/transfer_executor.cpp:260-266 | one operation keeps every live chunk's sent range equal to its source range, for disjoint bound buffers |
| TransferRuns.RunDelivers | transfer/transfer_executor.cpp:260-266 | over every interleaving, every live chunk keeps dst[off..off+sent) equal to src[off..off+sent) |
| TransferDelivery.WireEffect | transfer/transfer_executor.cpp:320-349 | wiring a list of chunks copies each chunk's next bytes; every other byte of the destination is kept or a copy of its source byte, and nothing outside it changes |
| TransferDelivery.WireDelivers | transfer/transfer_executor.cpp:260-266 | with source and destination apart, wiring extends every chunk's delivered range by what was wired for it |
| TransferDelivery.TickOneDelivers | transfer/transfer_executor.cpp:320-349 | a tick of one transfer keeps its own delivered ranges and those of all transfers with separate buffers |
| TransferDelivery.ForceOneDelivers | transfer/transfer_executor.cpp:389-402 | so does a forced drain of one transfer |
| TransferPayload.TickCompletesFull | transfer/transfer_executor.cpp:351-361 | when chunk sizes sum to the request, a transfer that a tick completes has every chunk full |
| TransferPayload.StepWrites | transfer/transfer_executor.cpp:260-266 | an operation writes no address outside the bound destination buffers |
| TransferPayload.RunWrites | transfer/transfer_executor.cpp:260-266 | over every run without host writes, memory outside all destination buffers is untouched |
| TransferPayload.RunKeepsSource | transfer/transfer_executor.cpp:260-266 | the source buffer of a live transfer holds throughout what it held at the start |
| TransferPayload.PayloadDelivered | transfer/transfer_executor.cpp:320-361 | a bound transfer that tiles its request and is completed by a tick has dst equal, over the whole buffer, to what src held at the start |
| ForcedCompletion.ForcedIsFull | transfer/transfer_executor.cpp:389-409 | a forced drain completes a transfer with every byte sent if and only if no chunk with bytes left was waiting for a slot |
| ForcedCompletion.DrainOutcome | transfer/transfer_executor.cpp:372-413 | a drain that does not use up its 10000 ticks leaves nothing active; if it forced the end, each transfer active before that is Completed, with every byte sent if and only if none of its chunks with bytes left was waiting |
| ForcedCompletion.DrainKeepsBytes | transfer/transfer_executor.cpp:372-413 | a transfer that has no chunk with bytes left waiting when drain_ready is called has every byte sent if the drain forces its end |
| ForcedCompletion.DrainLosesBytes | transfer/transfer_executor.cpp:372-413 | two chunks of n bytes on one rail, any n, any offer, any clock: a drain called after the submission reports the transfer done with the second chunk unsent |
| SlackOrder.Sort | transfer/transfer_executor.cpp:180-183 | the candidates come out sorted by falling slack, none lost, none added |
| SlackOrder.ChosenFirst | transfer/transfer_executor.cpp:180-193 | the first `max_preempt` of the sorted candidates are min(max, n) of them, and none left out has strictly more slack |
| ExecutorLaws.SparesOnlyUrgent | transfer/transfer_executor.cpp:161-194 | a preemption spares a candidate only if the limit is reached, and then all it suspends have at least as much slack |
| ExecutorLaws.SuspendsOnlySharing | transfer/transfer_executor.cpp:161-194 | everything suspended is a running KV migration with a path or chunk on a busy edge, and there are at most `max_preempt` of them |
| SelectionLaws.EightAreSuspended | path_engine/path_engine.cpp:149-159 | the engine's preemption spares a candidate only after suspending eight |
| Executor.TransferExecutor.Submit | transfer/transfer_executor.cpp:30-61 | the method's whole effect on the fields is the specified submission |
| Executor.TransferExecutor.SubmitStriped | transfer/transfer_executor.cpp:63-116 | the method's whole effect is the specified striped submission, the empty-stripe fallback included |
| Executor.TransferExecutor.RailOf | transfer/transfer_executor.cpp:118-126 | the first rail along the path, 0 without one |
| ExecutorLaws.RailsAgree | transfer/transfer_executor.cpp:118-126 | executor and engine read a path's rail off the same edge; without one the engine says -1 and the executor 0 |
| ExecutorLaws.RailIsFirst | path_engine/path_engine.cpp:10-17 | the rail of a path is that of its first edge that has one |
| Executor.TransferExecutor.Pause | transfer/transfer_executor.cpp:128-143 | accepts exactly the active preemptible transfers, and otherwise changes nothing |
| Executor.TransferExecutor.Cancel | transfer/transfer_executor.cpp:149-159 | the method's whole effect is the specified cancellation |
| Executor.TransferExecutor.PreemptSharing | transfer/transfer_executor.cpp:161-194 | what it picks is an admissible choice among the candidates, and exactly the picked are suspended |
| Executor.TransferExecutor.IsCandidate | transfer/transfer_executor.cpp:165-179 | true exactly for the preemptible in-flight transfers that share an edge, by path list or by an in-flight chunk |
| Executor.TransferExecutor.Reroute | transfer/transfer_executor.cpp:196-235 | accepts exactly the states the source accepts, and its whole effect is the specified reroute |
| Executor.TransferExecutor.RefreshAggregate | transfer/transfer_executor.cpp:268-273 | recomputes sent and remaining from the chunks |
| Executor.TransferExecutor.Stage | transfer/transfer_executor.cpp:293-318 | parks pending chunks on suspend, otherwise promotes them onto free slots |
| Executor.TransferExecutor.AdvanceChunks | transfer/transfer_executor.cpp:320-349 | the in-flight loop: memory, byte counter and chunks all move by the same steps |
| Executor.TransferExecutor.SettleTransfer | transfer/transfer_executor.cpp:351-367 | completion, boundary pause or going on |
| Executor.TransferExecutor.Tick | transfer/transfer_executor.cpp:282-370 | the loop over the map, in whatever order it iterates, is the specified tick and reports the specified ids |
| Executor.TransferExecutor.ForceActive | transfer/transfer_executor.cpp:385-409 | the loop over the map is the specified forced drain |
| Executor.TransferExecutor.DrainReady | transfer/transfer_executor.cpp:372-413 | the call is a run of ticks that use the given offers and clocks, each but the last completing something and leaving something active, ended by a tick that leaves nothing active, or by one that completes nothing and a force, or after 10000; it returns what that run reports |
| Bandwidth.BottleneckGbps | transfer/transfer_executor.cpp:237-250 | the narrowest edge under the load it has, at least 0.1 GB/s; what load does to it is `LoadLaws.OfferFalls` |
| LoadLaws.HotterIsSlower | transfer/transfer_executor.cpp:244-249 | a hotter link has less bandwidth left, strictly less within [0, 0.99] and for a positive exponent |
| LoadLaws.LinearLeft | transfer/transfer_executor.cpp:244-249 | with an exponent of 1 exactly the free share of the peak is left, never less than a hundredth |
| LoadLaws.OfferFalls | transfer/transfer_executor.cpp:237-258 | neither the bottleneck nor the offer of any path rises when any of its edges gets hotter |
| LoadLaws.NarrowestIs | transfer/transfer_executor.cpp:237-250 | the minimum is below every edge of the path and reached by one of them |
| LoadLaws.OneLinkOffer | transfer/transfer_executor.cpp:237-250 | a single link at utilization u has exactly what that leaves it, above the floor |
| LoadLaws.MoveTimeOffers | topology/topology.cpp:11-18 | the move time of edge_latency_us is exactly how long a tick must last for bytes_for_dt to offer that many bytes |
| LoadLaws.EstimateOffers | path_engine/path_engine.cpp:107 | the estimated duration of a transfer is what it takes at 50 GB/s |
| Bandwidth.OfferFloorIff | transfer/transfer_executor.cpp:237-258 | a tick offers every path of every graph, under every load, at least q bytes if and only if dt times 100000 is at least q |
| Bandwidth.ShimOffers | shim/shim.cpp:143-173 | ticks of at least 0.05 ms, as in submit_transfer, offer every path at least 5000 bytes |
| PathSearch.ExpandStep | topology/topology.cpp:68-95 | expanding a queued state keeps the search invariant: no admissible walk is lost, none is queued twice |
| PathSearch.FoundStep | topology/topology.cpp:71-76 | taking a lightest state that is at the destination keeps the results distinct, admissible and in order |
| PathSearch.ExpandLoad | topology/topology.cpp:68-95 | each pop lowers the sum over queued states of (E+1)^(max_hops - length), although it may push E states |
| PathSearch.BestFirst | topology/topology.cpp:54-97 | k-path optimality and termination on every graph, whatever order the queue gives ties: distinct admissible walks, all of them if fewer than k; where no edge's cost is infinite or negative they come in order of cost and nothing cheaper than the last is missing |
| PathSearch.FirstInFirstOut | topology/topology.rs:74-123 | the FIFO version, on every graph: the same with the number of edges in place of cost, always in order |
| PathSearch.SearchesAgree | topology/topology.rs:74-123 | both versions return equally many walks, and the same set of walks when there are fewer than k |
| Topology.ShiftOrIsMulAdd | topology/topology.hpp:47-49 | on 32-bit operands the shift-or packing is src * 2^32 + dst |
| Topology.PathKeyInjective | topology/topology.hpp:47-49 | the packing is injective on pairs of 32-bit indices |
| Topology.TopologyGraph.AddVertex | topology/topology.cpp:20-23 | appends the vertex and returns its index |
| Topology.StillBestIff | topology/topology.cpp:25-52 | with one more edge an answer is still a k-best answer if and only if every admissible walk over that edge finds k answers already, the last of them no dearer |
| Topology.TopologyGraph.AddEdge | topology/topology.cpp:25-28 | appends the edge and leaves the cache alone; a cache that agreed with fresh searches still does if and only if no cached answer loses to a walk over the new edge |
| Topology.TopologyGraph.VertexOf | topology/topology.cpp:30-35 | the first vertex with the label, or the all-ones index |
| Topology.TopologyGraph.PrecomputePaths | topology/topology.cpp:37-40 | sets the search defaults; agrees with an empty cache |
| Topology.TopologyGraph.YenKShortest | topology/topology.cpp:54-97 | the k best walks of the graph as it is |
| Topology.TopologyGraph.Paths | topology/topology.cpp:42-52 | returns what the cache holds, or else searches and stores; if the cache agrees with fresh searches it stays so and the answer is k-best; no other entry changes |
| Topology.StaleAfterAddEdge | topology/topology.cpp:25-52 | two vertices are asked for, an edge between them is added, and the cached empty answer stays, which no fresh search would give |
| Revisits.RevisitsIff | topology/topology.cpp:78-89 | a walk of the search is at some vertex twice if and only if one of its edges leads back to the source |
| Revisits.AnsweredIff | topology/topology.cpp:54-97 | an admissible walk is in some k-best answer if and only if there are not k distinct admissible walks strictly lighter than it |
| Revisits.SimpleIff | topology/topology.cpp:78-89 | every answer to a query holds simple paths only, if and only if each admissible walk that comes back to its source has k strictly lighter admissible walks |
| Revisits.AnswerRevisits | topology/topology.cpp:78-89 | with edges 0-1, 1-0, 0-2, every answer of two paths or more from 0 to 2 contains the walk that is at 0 twice |
| SimpleRoutes.ComingBackCosts | topology/topology.cpp:78-89 | between GPUs of different nodes a walk that comes back to its source pays at least two links more than a rail path |
| SimpleRoutes.CandidatesAreSimple | topology/topology.cpp:54-97 | on a built cluster with at least k / 2 GPUs a node, which the default has, no candidate between GPUs of different nodes is at a vertex twice |
| Cluster.BuildH100Node | topology/topology.cpp:99-141 | one node is exactly the fabric over its GPUs, CPU, CXL controller and two IB ports, with the edge count |
| Cluster.BuildCluster | topology/topology.cpp:143-176 | for every size, the cluster's edges are in bijection with the ordered pairs the wiring rule links, and are counted |
| Cluster.DefaultEdgeCount | topology/topology.cpp:143-176 | the default 8 x 8 cluster has 1104 directed edges |
| DualRail.LinkPays | topology/topology.cpp:123-139 | no link undercuts the potential between two GPUs of different nodes, and only rail hops meet it |
| DualRail.WalkPays | topology/topology.cpp:68-95 | a walk costs at least the potential it crosses, with equality only along rail hops |
| DualRail.CheapestAreRails | topology/topology.cpp:54-97 | between GPUs of different nodes every walk costs at least 60015, and one that costs no more is a three-edge rail path |
| DualRail.RailPathUnique | topology/topology.cpp:163-175 | there is one path per rail |
| DualRail.BothRailsFound | topology/topology.cpp:54-97 | with k >= 2 and at least three hops, the k best walks contain the paths of both rails, whatever the tie order |
| KvRails.RailAdmitted | path_engine/path_engine.cpp:35-69 | a rail path is InfiniBand of one rail throughout, admitted by every traffic class |
| KvRails.BothRailsAreCandidates | path_engine/path_engine.cpp:35-69 | on a built cluster of any size, between any two GPUs of different nodes, the candidate set holds a path on rail 0 and a path on rail 1 |
| EngineSpec.FilterIs | path_engine/path_engine.cpp:43-63 | the filter keeps exactly the paths whose every edge the class admits |
| ClassPaths.AdmittedIff | path_engine/path_engine.cpp:43-63 | on a wired cluster a KV migration may take exactly the paths that pass no CPU, a tensor-parallel transfer those that pass neither CPU nor CXL controller, pipeline traffic any |
| EngineSpec.RoutableHasCandidates | path_engine/path_engine.cpp:35-69 | a KV request that can be routed has candidates, each with at least one edge |
| EngineSpec.CandidateRoutes | path_engine/path_engine.cpp:35-69 | a candidate with an edge is a way to a different destination within the hop bound |
| EngineSpec.BestSnoc | path_engine/path_engine.cpp:107-118 | the selection loop's step: one more candidate replaces the best if and only if it is strictly cheaper, so the first of the cheapest is kept |
| EngineSpec.BestRoutes | path_engine/path_engine.cpp:220-239 | with finite costs a routable KV request always gets a path with edges |
| EngineSpec.StripeCount | path_engine/path_engine.cpp:277-309 | a stripe has ceil(size / chunk) chunks |
| EngineSpec.LaidOutRebuilds | transfer/transfer_executor.cpp:85-111 | the offset rule of submit_striped rebuilds the stripe's own layout |
| EngineSpec.LayoutSums | path_engine/path_engine.cpp:277-309 | the first n chunks of a stripe hold min(size, n * chunk) bytes |
| EngineScores.MeanOf | path_engine/path_engine.cpp:19-31 | the mean over the measured edges, 1 on no edges, 0 when none is measured |
| EngineScores.MeanIsUnit | path_engine/path_engine.cpp:19-31 | the mean of utilizations in [0, 1] is in [0, 1] |
| SelectionLaws.MeanBetween | path_engine/path_engine.cpp:19-31 | the mean lies between the least and the greatest measured utilization of the path |
| PathCosts.EffectiveUtilUnit | lstm/lstm_predictor.cpp:288-294 | the blended utilization is at least the current one and at most 1 |
| LoadLaws.BlendIs | lstm/lstm_predictor.cpp:288-294 | a hotter prediction counts in proportion to the expected duration, fully from 5 ms on; a cooler one not at all |
| LoadLaws.BlendRises | lstm/lstm_predictor.cpp:288-294 | the blend rises with the reading and with the prediction |
| LoadLaws.HotterTakesLonger | topology/topology.cpp:11-18 | the latency of a link rises with its utilization, strictly within [0, 0.99] for a transfer with bytes |
| LoadLaws.CostRises | path_engine/path_engine.cpp:74-85 | a path costs no less when its edges are hotter or predicted to be |
| LoadLaws.HotterCostsMore | path_engine/path_engine.cpp:74-85 | one link strictly hotter makes a path strictly dearer |
| LoadLaws.InstantCost | path_engine/path_engine.cpp:74-85 | what is expected to take no time is costed from readings alone |
| LoadLaws.BumpAllIs | path_engine/path_engine.cpp:301-306 | added load heats an edge once for each time it is on the path, up to 0.99, and no other edge |
| LoadLaws.HeatSpares | path_engine/path_engine.cpp:209-212 | the heat on a reroute's busy edges changes nothing for a path clear of them |
| LoadLaws.HeatHurts | path_engine/path_engine.cpp:209-212 | and makes no path cheaper |
| PathCosts.EdgeLatencyBound | topology/topology.cpp:11-18 | on a wide link and under any load, 64 bits of bytes take a bounded, non-negative time |
| PathCosts.PathCostTame | path_engine/path_engine.cpp:74-85 | the code's own path cost is non-negative and below half of the maximal double, for every load, every 64-bit size and every path within the hop bound, on wide links |
| EngineScores.DrainScoreFinite | path_engine/path_engine.cpp:220-236 | with such costs, and utilizations in [0, 1], the biased reroute scores stay below the maximal cost |
| EngineScores.EvenCostsAlternate | path_engine/path_engine.cpp:280-291 | when candidates cost the same before the rail bias, chunk i goes out on rail i mod 2 |
| EngineScores.RerouteLeaves | path_engine/path_engine.cpp:215-236 | the pick of a reroute is on another rail and clear of the busy edges, if some candidate is and costs less than 5/3 of every other before the biases |
| EngineScores.EvenReroutesLeave | path_engine/path_engine.cpp:215-236 | so it is when all base costs are equal, utilizations are in [0, 1] and that candidate is not wholly hot |
| SelectionLaws.RerouteTakesCoolest | path_engine/path_engine.cpp:220-236 | among candidates of one rail and equal cost, clear of the busy edges or not, a reroute takes a coolest |
| SelectionLaws.StripeTakesCoolest | path_engine/path_engine.cpp:280-299 | among candidates of one rail and equal cost a chunk takes a coolest |
| SelectionLaws.StripeLoadIs | path_engine/path_engine.cpp:301-306 | the load a stripe goes by is 0.05 on each edge for every chunk sent over it so far, up to 0.99 |
| SelectionLaws.KvTakesCoolest | path_engine/path_engine.cpp:107-118 | among candidates of equal cost a KV migration takes a coolest |
| SelectionLaws.KvTakesUndominated | path_engine/path_engine.cpp:107-118 | a candidate cheaper than what a KV migration takes is hotter |
| SelectionLaws.KvPrefersIff | path_engine/path_engine.cpp:107-118 | of two candidates a KV migration prefers the lower cost times 3 + 2 * mean, so a cold path may cost up to 5/3 of a hot one |
| SelectionLaws.OthersTakeCheapest | path_engine/path_engine.cpp:107-118 | the other classes take a cheapest candidate |
| SelectionLaws.PreemptsIffHopeless | path_engine/path_engine.cpp:121-124 | a tensor-parallel request with a choice of paths preempts if and only if every one of them misses its deadline |
| SelectionLaws.NobodyElsePreempts | path_engine/path_engine.cpp:87-127 | no other request preempts |
| SelectionLaws.PreemptsOnItsPath | path_engine/path_engine.cpp:121-124 | what a missed deadline suspends are running KV migrations on the very path the request then takes, all of them or eight |
| SelectionLaws.KvChunks | path_engine/path_engine.cpp:313-346 | a KV migration is submitted in ceil(size / 268435456) chunks, or whole if it has no candidates |
| PathEngine.AdmissiblePaths | path_engine/path_engine.cpp:35-69 | the candidates are the flexibility set of a k-best answer, through the cache |
| PathEngine.PathSelectionEngine.CostOf | path_engine/path_engine.cpp:74-85 | the loop sums the latencies of the path's edges under the blended utilizations |
| PathEngine.RailId | path_engine/path_engine.cpp:10-17 | the first rail along the path, -1 without one |
| PathEngine.PathSelectionEngine.PreemptKvMigrations | path_engine/path_engine.cpp:141-161 | suspends an admissible choice, counts it, and queues a reroute for each when asked |
| PathEngine.PathSelectionEngine.PreemptFlows | path_engine/path_engine.cpp:163-180 | without an executor: a slack-sorted permutation of the flows in which exactly the running, unfinished, overlapping ones are marked, reported and counted |
| PathEngine.PathSelectionEngine.SelectCheapest | path_engine/path_engine.cpp:107-118 | the scoring loop ends with the first of the cheapest candidates, or with none if all cost the maximum |
| PathEngine.PathSelectionEngine.PickChunk | path_engine/path_engine.cpp:280-299 | the scoring loop for one chunk ends with the first of the cheapest candidates, else with candidate 0 |
| PathEngine.PathSelectionEngine.RerouteCheapest | path_engine/path_engine.cpp:220-236 | the scoring loop of a reroute ends with the first of the cheapest candidates, if any is below the maximum |
| PathEngine.PathSelectionEngine.SelectPath | path_engine/path_engine.cpp:87-127 | what is selected, and that exactly a too slow tensor-parallel choice preempts, over the selected edges |
| PathEngine.SelectedRoutes | path_engine/path_engine.cpp:87-127 | a selected path with edges is a way to the destination |
| PathEngine.PathSelectionEngine.StripeKvMigration | path_engine/path_engine.cpp:258-311 | no candidates, no stripe; otherwise contiguous disjoint chunks covering [0, size), full except possibly the last, each on the best candidate under the load of the chunks before it |
| PathEngine.PathSelectionEngine.UnregisterKvFlow | path_engine/path_engine.cpp:135-139 | removes exactly the flows with the id |
| PathEngine.PathSelectionEngine.SelectReroute | path_engine/path_engine.cpp:205-236 | the cheapest candidate under heated busy edges; never empty for a routable KV transfer on wide links with telemetry in [0, 1] |
| PathEngine.PathSelectionEngine.DrainOne | path_engine/path_engine.cpp:190-253 | one entry is finished, kept, or rerouted with its flow record, as its transfer's state says; a paused one goes to the best candidate for the bytes it has left under its busy edges' heat |
| PathEngine.PathSelectionEngine.DrainBoundaryReroutes | path_engine/path_engine.cpp:183-256 | the loop is the specified drain; each entry is either done or kept; every paused transfer it meets gets the best candidate for it, with edges if it can be routed |
| DrainLaws.DrainRoutes | path_engine/path_engine.cpp:183-256 | after a drain every paused transfer is on the best candidate for what it had left |
| DrainLaws.DrainLeaves | path_engine/path_engine.cpp:183-256 | and if some candidate leaves the busy rail at less than 5/3 of any other's cost, everything left of it is off the busy rail and its edges |
| DrainLaws.CallLeaves | shim/shim.cpp:143-173 | so it is after a shim call for what its tick leaves paused |
| DrainLaws.OtherRailIsWayOut | path_engine/path_engine.cpp:205-236 | on a built cluster the other rail's path is such a candidate |
| PendingEdges.WaitersOnPath | shim/shim.cpp:143-173 | in every run from the start a transfer waiting for a reroute is on one of the edges it is to be moved off |
| PathEngine.PathSelectionEngine.ScheduleAndExecute | path_engine/path_engine.cpp:313-346 | its whole effect is select or stripe, perhaps preempt, submit, and register the KV flow under the id returned |
| PathEngine.PlannedOk | path_engine/path_engine.cpp:313-346 | what it plans is a stripe of the request or a single path, with edges only when the request can be routed |
| ComposedTransfer.PausedAtBoundary | transfer/transfer_executor.cpp:351-366 | a paused transfer has only full completed chunks and untouched paused ones, at least one of these and two chunks in all, and `bytes_remaining` is the sum of the paused sizes |
| ComposedTransfer.PartlySentIsInFlight | transfer/transfer_executor.cpp:293-318 | a partly sent chunk of an unfinished transfer is in flight |
| ComposedTransfer.ReroutedHasOneInFlight | transfer/transfer_executor.cpp:208-227 | once rerouted, a transfer has at most one chunk in flight |
| ComposedTransfer.TickComposed | transfer/transfer_executor.cpp:282-370 | a tick keeps suspension at chunk boundaries |
| ComposedTransfer.StripedComposed | path_engine/path_engine.cpp:258-311 | a submitted stripe tiles its request inside the buffer |
| BoundedCompletion.TickWork | transfer/transfer_executor.cpp:282-370 | a tick that offers q bytes a path completes a transfer or leaves it at least one tick less to do |
| BoundedCompletion.RerouteWork | transfer/transfer_executor.cpp:196-235 | a reroute from Paused changes nothing about the work left |
| BoundedCompletion.SuspendWork | transfer/transfer_executor.cpp:185-192 | a suspension costs at most one tick |
| BoundedCompletion.UnfinishedWork | transfer/transfer_executor.cpp:282-370 | an unfinished transfer has work left |
| SystemInvariant.CandidateShares | transfer/transfer_executor.cpp:165-179 | the per-chunk check of preempt_sharing adds no candidate that the path list does not give |
| SystemInvariant.PreemptKeeps | path_engine/path_engine.cpp:149-159 | preemption keeps the system invariant |
| SystemInvariant.SubmitKeeps | path_engine/path_engine.cpp:313-346 | submission and registration keep the system invariant |
| SystemInvariant.UnregisterAllIs | shim/shim.cpp:62-66 | the completion callback removes exactly the completed KV flows |
| FlowRegistry.NewMirrors | path_engine/path_engine.cpp:313-346 | the record registered for a plan has the edges, endpoints, bytes and slack of the transfer submitted for it |
| FlowRegistry.RerouteMirrors | path_engine/path_engine.cpp:240-250 | a reroute moves the record along: edges, bytes left, and slack for a positive latency |
| FlowRegistry.RegistryFromStart | shim/shim.cpp:143-173 | in every run from the start the registry holds exactly the unfinished KV transfers, and each record mirrors its transfer's path, endpoints and bytes |
| SystemInvariant.TickKeeps | shim/shim.cpp:143-173 | a tick with its callback keeps the system invariant |
| SystemInvariant.DrainKeeps | path_engine/path_engine.cpp:183-256 | a drain keeps the system invariant and leaves nothing paused, the pending reroutes being exactly the SuspendPending transfers, each once |
| SystemRuns.NoLostSuspension | shim/shim.cpp:143-173 | no lost suspension: over every run, when a call returns nothing is paused and `pending_reroutes_` holds exactly the SuspendPending ids, each once; `kv_flows_` holds exactly the unfinished KV transfers, each once |
| SystemRuns.BooksBalance | transfer/transfer_executor.cpp:275-280 | when a call returns, reroutes equal boundary suspends, and preempts exceed them by the pending reroutes and the suspensions that ended in completion |
| SystemRuns.TickedKeeps | shim/shim.cpp:143-173 | between tick and drain the same books hold with the paused transfers as the gap |
| SystemRuns.FromStart | shim/shim.cpp:143-173 | in every run from the start: quiet, registry exact, all bytes, reroutes and preemptions accounted for, partly sent chunks in flight |
| SystemRuns.CallWork | shim/shim.cpp:143-173 | one call brings an unfinished transfer at least one tick closer, or costs it one preemption |
| SystemRuns.CompletesWithin | shim/shim.cpp:143-173 | bounded completion under interference: with q bytes offered per tick a transfer completes within the sum of max(1, ceil(remaining/q)) over its unfinished chunks, plus one call per preemption (and one if it starts suspended with nothing in flight) |
| TickLaws.ChunkTakes | transfer/transfer_executor.cpp:320-349 | of a tick a chunk on the wire takes all it is offered or all it needs, any other chunk nothing |
| TickLaws.TickAtMost | transfer/transfer_executor.cpp:282-370 | a tick moves at most two offers for one transfer, one for each rail |
| TickLaws.TakesAtLeast | shim/shim.cpp:143-173 | bounded speed: n calls that offer at most q bytes a path take at most 2 q n off what a transfer has left, and do not complete it sooner |
| TickLaws.LastChunkCompletes | transfer/transfer_executor.cpp:320-361 | a tick completes a transfer down to its last chunk if and only if it offers what that chunk needs |
| TickLaws.PollCompletesIff | shim/shim.cpp:166-173 | poll_transfers(dt) reports such a transfer if and only if its chunk needs no more than its path moves in dt under the telemetry of the moment |
| SystemRuns.CallIsRun | shim/shim.cpp:143-173 | a shim call is a run of executor operations |
| SystemRuns.SubmissionTiles | path_engine/path_engine.cpp:313-346 | after its scheduling step a submission has a transfer under the returned id that tiles the request, on the caller's buffers, with nothing sent yet |
| SystemRuns.ScheduledDelivers | shim/shim.cpp:143-173 | end-to-end delivery, from the start: if call i submits a bound transfer and the tick of call j, its own or a later one, reports it done, dst then holds over the whole request what src held at the submission |
| SystemRuns.PlansTile | path_engine/path_engine.cpp:313-346 | what schedule_and_execute submits tiles its request, the empty-stripe fallback included |
| Shim.HicsShim.Initialize | shim/shim.cpp:25-75 | the initial system: a built cluster searched six paths wide and five hops far, the predictor on its default weights or on what reading the file made of them, every edge with one zero sample and one per refresh and the prediction of a blank window, in order and quiet; fit for scheduling if the contention law is like pow |
| Shim.HicsShim.RunProfilingSweep | shim/shim.cpp:77-95 | each edge takes its reading once and then once per refresh, and its cached prediction is the one its window gave at the last refresh that came round to it, or at the start; no weight changes |
| Shim.HicsShim.WarmAll | shim/shim.cpp:85-89 | every edge's cached prediction is the one its window gives, next to its present reading |
| Shim.HicsShim.TickWithCallback | shim/shim.cpp:62-66 | a tick and its completion callbacks are the specified system tick |
| Shim.HicsShim.SubmitTransfer | shim/shim.cpp:143-164 | snapshot, schedule, a tick of 0.05 ms, drain, in this order, all from that snapshot; on a healthy shim it is an admissible call, and from a system in order it leaves one in order and quiet |
| Shim.HicsShim.PollTransfers | shim/shim.cpp:166-173 | snapshot, a tick of dt, drain, from that snapshot; returns the number of completions; on a healthy shim it is an admissible call, and from a system in order it leaves one in order and quiet |
| Telemetry.TelemetryRingBuffer.Write | telemetry/telemetry.cpp:18-25 | the ring keeps the last 512 log entries, across 32-bit wrap of the index |
| Telemetry.TelemetryRingBuffer.ReadLatest | telemetry/telemetry.cpp:27-37 | the newest timed value for the edge among the last 512 written |
| Telemetry.TelemetryRingBuffer.Snapshot | telemetry/telemetry.cpp:39-45 | every edge's newest value in the window, 0 where there is none |
| Telemetry.TelemetryRingBuffer.SnapshotOnePass | telemetry/telemetry.rs:49-63 | every edge's newest nonzero value in the window |
| Telemetry.TelemetryRingBuffer.Collect | telemetry/telemetry.cpp:216-219 | one sweep appends every edge in order, and a log of whole sweeps stays one |
| Telemetry.OneMoreSweep | telemetry/telemetry.cpp:211-222 | a log of whole sweeps is one after another sweep, so that what is said of swept logs holds of everything collected |
| Telemetry.KnownIffYoung | telemetry/telemetry.cpp:27-45 | after a complete sweep the ring knows an edge exactly when fewer than 512 entries followed its last one |
| Telemetry.SnapshotFaithfulIff | telemetry/telemetry.cpp:211-222 | snapshots of a swept log are every edge's last value if and only if there are at most 512 edges |
| Telemetry.DefaultClusterOverflows | telemetry/telemetry.cpp:211-222 | with the 1104 edges of the default cluster some edge always reads as unknown |
| Telemetry.SweepIsRead | telemetry/telemetry.cpp:211-222 | after a sweep over at most 512 edges a snapshot is what the sweep wrote |
| Telemetry.SnapshotsAgreeIff | telemetry/telemetry.rs:49-63 | the two snapshots of an edge agree unless its newest value is 0 and an older one in the window is not |
| Telemetry.SnapshotsDiffer | telemetry/telemetry.rs:49-63 | after a nonzero and a zero value of one edge the C++ ring's snapshot reads 0 and the Rust one the older value |
| Telemetry.NonzeroSnapshotsAgree | telemetry/telemetry.rs:49-63 | they agree when no written value is 0 |
| LstmWeights.SaveLoadRoundTrip | lstm/lstm_predictor.cpp:73-180 | loading what save_weights wrote restores every field of any well-shaped model, whatever follows in the file |
| LstmWeights.TruncatedRejected | lstm/lstm_predictor.cpp:111-180 | a saved file cut short anywhere is rejected |
| LstmWeights.RejectionKeepsIff | lstm/lstm_predictor.cpp:130-165 | a rejected v2 file is sure to leave the weights alone if and only if its header was not accepted |
| LstmWeights.CutAfterHeader | lstm/lstm_predictor.cpp:130-165 | every saved file cut short after its header is rejected with its header accepted, and some weights do not survive it |
| LstmWeights.HeaderAlone | lstm/lstm_predictor.cpp:130-165 | a file that ends with its header leaves any model with two empty layers |
| Shim.NotTheDefaults | shim/shim.cpp:34-40 | so a shim given such a file does not start on its default weights, whatever it reports |
| LstmWeights.LegacyAcceptedIff | lstm/lstm_predictor.cpp:116-133 | a file without the magic is accepted exactly when it holds every byte of layer 0 and two scales |
| LstmWeights.LegacyRoundTrip | lstm/lstm_predictor.cpp:116-133 | a legacy file of layer 0's weights and scales puts each back in its place and changes nothing else |
| LstmPredictor.LSTMPredictor.InitDefaultWeights | lstm/lstm_predictor.cpp:31-70 | the loops leave exactly the specified default weights |
| LstmWeights.DefaultsShaped | lstm/lstm_predictor.cpp:31-70 | the default weights are well-shaped, so that saving and loading restores them |
| LstmPredictor.Slide | lstm/lstm_predictor.cpp:310-312 | a full window moves by one sample, in place |
| LstmPredictor.LSTMPredictor.PushSample | lstm/lstm_predictor.cpp:296-314 | after any pushes each edge's window is its last 16 samples in order, zero-padded at the end while shorter |
| LstmPredictor.LSTMPredictor.PredictEdge | lstm/lstm_predictor.cpp:316-326 | the forward pass over exactly that window, or a blank one |
| LstmPredictor.LSTMPredictor.UpdateCache | lstm/lstm_predictor.cpp:271-280 | one cached prediction and one cached utilization change, whatever the growth, and both caches grow to hold the edge |
| LstmPredictor.LSTMPredictor.SaveWeights | lstm/lstm_predictor.cpp:73-109 | the bytes written are the specified file |
| LstmPredictor.LSTMPredictor.LoadWeights | lstm/lstm_predictor.cpp:111-180 | accepts and stores exactly what the file says; a rejected file never sets the loaded flag |
| PredictionRefresh.Refresher.Refresh | shim/shim.cpp:97-114 | every window takes its newest reading; exactly the cursor's batch is predicted, from the windows as they then are, and cached beside its readings |
| PredictionRefresh.AllRenewedIff | shim/shim.cpp:103-113 | t consecutive calls renew every edge's prediction if and only if 8 t is at least the number of edges |

## Left out

- Executor.TransferExecutor.Tick: the completion callback runs after the loop instead of inside it; it touches no executor state, so the two orders agree.
- PathEngine.PathSelectionEngine.PreemptKvMigrations: the test for a missing executor is two methods, this one and `PreemptFlows`; the other methods take the executor as present.
- Topology.TopologyGraph.YenKShortest: dividing by a zero bandwidth gives the maximal double instead of infinity, and no order of the answers is claimed where some edge's cost is infinite or negative.
- PathEngine.PathSelectionEngine.CostOf: the same where no bandwidth is left, which no wide link comes to; an empty transfer there would give NaN.
- Shim.HicsShim.Initialize: the telemetry daemon's thread, the transports and their discovery are not set up.
- LstmPredictor.LSTMPredictor.LoadWeights: opening a file, a failed write and a layer too large to allocate are not modelled; nor is the reset of the Adagrad accumulators.
- Shim.HicsShim.SubmitTransfer: a shim without an executor, which only selects a path, and the decision time counter are not modelled.
- Widths: transfer ids and 64-bit counters are unbounded, and so are 32-bit vertex, edge and chunk numbers; only the ring's write index and the path key wrap or pack.
- Floating point, `pow`, `exp` and `tanh`: reals or arbitrary functions; the cast of a byte count beyond 64 bits is not modelled.
- `started_ns` and `active_chunk` of a transfer, which no decision reads; elapsed time is a parameter of a tick.
- `list_inflight`, `list_paused_kv`, `transfer_status`, `resume` and the two intercept hooks: plain reads or renamings of modelled calls.
- Hardware counters, ibverbs, CUDA, NCCL and UCX discovery and registration: foreign calls.
- LSTM numerics, online updates, training, the profiler and the serving simulation: no promise beyond their arithmetic.
- Real threads: data races on the telemetry ring, the daemon's start and stop, and wall-clock sleeps.
- The Rust and Python ports of the builders and of the path engine, which repeat the C++ logic.
