/** The interposition shim: what one submission and one poll are made of, in order. */
module Shim {
  import opened Model
  import opened Sums
  import opened PathSearch
  import opened Topology
  import opened Cluster
  import opened TransferSpec
  import opened TransferRuns
  import opened EngineSpec
  import opened EngineScores
  import opened DualRail
  import opened KvRails
  import opened SystemSpec
  import opened SystemRuns
  import opened PathEngine
  import opened Executor
  import opened Bandwidth
  import opened PathCosts
  import opened Telemetry
  import opened LstmWeights
  import opened LstmPredictor
  import opened PredictionRefresh

  /** A tick leaves every transfer's request alone. */
  lemma TickRequests(s: ExecState, order: seq<TransferId>, offer: Offer, elapsed: Clock)
    requires IsOrder(order, s.transfers)
    ensures SameRequests(s, Tick(s, order, offer, elapsed))
    ensures forall id :: id in TickDone(s, order, offer, elapsed) ==> id in s.transfers
  {
    hide TickTransfer, Tick, TickDone;
    TickAt(s, order, offer, elapsed);
    TickDoneAt(s, order, offer, elapsed);
    forall id | id in s.transfers
      ensures Tick(s, order, offer, elapsed).transfers[id].request == s.transfers[id].request
    {
      TickRequest(s.transfers[id], offer, elapsed(id));
    }
  }

  lemma TickRequest(t: Transfer, offer: Offer, elapsed: real)
    ensures TickTransfer(t, offer, elapsed).request == t.request
  {
    hide Advanced, SumBy;
  }

  /** What a callback looks at is the same before and after the tick. */
  lemma {:induction false} UnregisterSame(flows: seq<Flow>, ts: map<TransferId, Transfer>,
                                          us: map<TransferId, Transfer>, done: seq<TransferId>)
    requires us.Keys == ts.Keys && forall id :: id in ts ==> us[id].request == ts[id].request
    ensures UnregisterAll(flows, us, done) == UnregisterAll(flows, ts, done)
  {
    if done != [] { UnregisterSame(flows, ts, us, done[..|done| - 1]); }
  }

  /** set_topology: the rail of every edge. */
  method RailsOf(edges: seq<GraphEdge>) returns (rails: seq<int>)
    ensures |rails| == |edges| && forall e :: 0 <= e < |edges| ==> rails[e] == edges[e].attrs.rail
  {
    rails := [];
    for e := 0 to |edges|
      invariant |rails| == e && forall i :: 0 <= i < e ==> rails[i] == edges[i].attrs.rail
    {
      rails := rails + [edges[e].attrs.rail];
    }
  }

  datatype WeightsFile = NoFile | File(bytes: seq<Byte>)

  /** Readings of a log whose values lie between 0 and 1 do too. */
  lemma ReadingsUnit(log: seq<Sample>, edges: nat)
    requires forall i :: 0 <= i < |log| ==> 0.0 <= log[i].util <= 1.0
    ensures UnitUtils(Readings(log, edges))
  {
    forall e | 0 <= e < edges ensures 0.0 <= Readings(log, edges)[e] <= 1.0 { NewestIsWritten(Window(log), e); }
  }

  /** The fabric of a built cluster, under a contention law like pow, is fit for scheduling. */
  lemma ClusterFit(f: Fabric, nodes: nat, gpus: nat)
    requires BuiltCluster(f, nodes, gpus) && f.k == 6 && f.hops == 5
    ensures Wide(f.edges) && f.k >= 1 && f.hops <= MAX_HOPS
  {
    FabricWide(f.vertices, f.edges);
    hide IsFabric, Wide;
  }

  method ClusterGraph(nodes: nat, gpus: nat) returns (g: TopologyGraph)
    requires |ClusterVertices(nodes, gpus)| < WORD
    ensures fresh(g) && g.CacheAgrees() && |g.vertices| < WORD && g.defaultK == 6 && g.defaultHops == 5
    ensures BuiltCluster(Fabric(g.vertices, g.edges, g.defaultK, g.defaultHops), nodes, gpus)
  {
    hide KBest, IsFabric;
    g := BuildCluster(nodes, gpus);
    g.PrecomputePaths(6, 5);
  }

  /** The weights initialize ends up with: the defaults, or what reading the file made of them. */
  function StartWeights(file: WeightsFile): Weights {
    if file.File? then LstmWeights.Load(DefaultWeights(), file.bytes).weights else DefaultWeights()
  }

  /** After the first samples and predictions of a profiling sweep. */
  lemma FirstSample(net: Network, views: seq<EdgeView>, before: seq<seq<real>>, utils: seq<real>, start: nat)
    requires |views| == |utils|
    requires forall e :: 0 <= e < |utils| ==>
      && views[e].samples == PredictionRefresh.Grown(SamplesIn(before, e), utils, e)
      && views[e].cached == Predicts(net, views[e].samples) && views[e].util == utils[e]
    ensures AllSwept(net, views, before, utils, start, 0)
  {
    forall e: nat | e < |utils|
      ensures EdgeSwept(net, views[e], SamplesIn(before, e), utils[e], 0, LastRenewal(start, |utils|, 0, e))
    {
      assert Repeated(utils[e], 1) == [utils[e]];
    }
    hide EdgeSwept;
  }

  /** From blank windows at readings of 0 every prediction is the one a blank window gives. */
  lemma BlankSweep(net: Network, views: seq<EdgeView>, rounds: nat)
    requires AllSwept(net, views, [], Readings([], |views|), 0, rounds)
    ensures forall e :: 0 <= e < |views| ==>
      views[e] == EdgeView(Repeated(0.0, rounds + 1), net.forward(net.weights, Repeated(0.0, HISTORY_LEN)), 0.0)
  {
    forall e | 0 <= e < |views|
      ensures views[e]
        == EdgeView(Repeated(0.0, rounds + 1), net.forward(net.weights, Repeated(0.0, HISTORY_LEN)), 0.0)
    {
      var last := LastRenewal(0, |views|, rounds, e);
      assert EdgeSwept(net, views[e], SamplesIn([], e), Readings([], |views|)[e], rounds, last);
      assert [] + Repeated(0.0, rounds + 1) == Repeated(0.0, rounds + 1);
      assert WindowOf([] + Repeated(0.0, last + 1)) == Repeated(0.0, HISTORY_LEN);
    }
  }

  /** What "using defaults" can come to: a file cut short after its header is rejected, and the shim
      starts with empty layers. */
  lemma NotTheDefaults(m: Weights)
    requires Shaped(m)
    ensures |SaveBytes(m)| > 24 && !LstmWeights.Load(DefaultWeights(), SaveBytes(m)[..24]).ok
    ensures StartWeights(File(SaveBytes(m)[..24])) == DefaultWeights().(layers := [FreshLayer(), FreshLayer()])
    ensures StartWeights(File(SaveBytes(m)[..24])) != DefaultWeights()
  {
    DefaultsShaped();
    HeaderAlone(DefaultWeights(), m);
    assert |DefaultWeights().layers[0].wIh| == ROWS;
    hide SaveBytes, LstmWeights.Load;
  }

  /** The predictor on its default weights, or on a file's. */
  method PredictorFrom(file: WeightsFile, forward: (Weights, seq<real>) -> real) returns (p: LSTMPredictor)
    ensures fresh(p) && p.Valid() && p.histories == [] && p.samples == []
    ensures p.Held() == StartWeights(file) && p.forward == forward
    ensures p.weightsLoaded == (file.File? && LstmWeights.Load(DefaultWeights(), file.bytes).ok)
  {
    hide LstmWeights.Load, DefaultLayer;
    p := new LSTMPredictor(forward);
    if file.File? { var loaded := p.LoadWeights(file.bytes); }
  }

  class HicsShim {
    const graph: TopologyGraph
    const predictor: LSTMPredictor
    const ring: TelemetryRingBuffer
    const refresher: Refresher
    const executor: TransferExecutor
    const engine: PathSelectionEngine
    var decisionsMade: nat

    ghost predicate Valid()
      reads this, engine, graph, refresher, predictor, predictor.histories, ring, ring.buffer
    {
      && engine.graph == graph && engine.executor == executor && engine.predictor == predictor
      && refresher.predictor == predictor && refresher.ring == ring && refresher.edges == |graph.edges|
      && engine.Valid() && predictor.Valid() && ring.Valid()
    }

    ghost function Frozen(): Fabric
      reads this, graph
    {
      Fabric(graph.vertices, graph.edges, graph.defaultK, graph.defaultHops)
    }

    /** Telemetry between 0 and 1, over a graph the engine can schedule on. */
    ghost predicate Healthy()
      reads this, engine, engine.graph, ring, graph
    {
      engine.Reliable(Readings(ring.log, |graph.edges|))
    }

    constructor (graph: TopologyGraph, predictor: LSTMPredictor, ring: TelemetryRingBuffer, refresher: Refresher,
                 executor: TransferExecutor, engine: PathSelectionEngine)
      ensures this.graph == graph && this.predictor == predictor && this.ring == ring
      ensures this.refresher == refresher && this.executor == executor && this.engine == engine && decisionsMade == 0
    {
      this.graph, this.predictor, this.ring, this.refresher := graph, predictor, ring, refresher;
      this.executor, this.engine, decisionsMade := executor, engine, 0;
    }

    /** initialize: the cluster, six paths of at most five hops, the predictor with its weights, an
        idle executor, and the profiling sweep. `rounds` is how many refreshes the sweep's 200 ms allow. */
    static method Initialize(nodes: nat, gpus: nat, file: WeightsFile, forward: (Weights, seq<real>) -> real,
                             residual: Residual, mem: Memory, rounds: nat)
      returns (shim: HicsShim)
      requires |ClusterVertices(nodes, gpus)| < WORD
      ensures fresh(shim) && shim.Valid() && BuiltCluster(shim.Frozen(), nodes, gpus)
      ensures SysOk(shim.Frozen(), shim.engine.State()) && Quiet(shim.engine.State())
      ensures shim.predictor.Held() == StartWeights(file)
      ensures shim.ring.log == []
      ensures |shim.predictor.predictionCache| >= |shim.graph.edges|
      ensures forall e :: 0 <= e < |shim.graph.edges| ==>
        ViewsOf(shim.predictor, |shim.graph.edges|)[e]
          == EdgeView(Repeated(0.0, rounds + 1), forward(StartWeights(file), Repeated(0.0, HISTORY_LEN)), 0.0)
      ensures PowLike(residual) ==> shim.Healthy()
    {
      hide IsFabric, SysOk, Quiet, Wide, PowLike, Newest, Window, KBest, StartWeights, ClusterVertices, UnitUtils,
           BuiltCluster, Readings, LSTMPredictor.Valid;
      var g := ClusterGraph(nodes, gpus);
      var p := PredictorFrom(file, forward);
      shim := Assemble(g, p, residual, mem);
      ClusterFit(shim.Frozen(), nodes, gpus);
      shim.RunProfilingSweep(rounds);
      BlankSweep(NetworkOf(shim.predictor), ViewsOf(shim.predictor, |shim.graph.edges|), rounds);
    }

    /** The telemetry ring, the executor and the engine around a graph and a predictor. */
    static method Assemble(g: TopologyGraph, p: LSTMPredictor, residual: Residual, mem: Memory)
      returns (shim: HicsShim)
      requires g.CacheAgrees() && |g.vertices| < WORD && p.Valid()
      ensures fresh(shim) && shim.Valid() && shim.graph == g && shim.predictor == p
      ensures fresh(shim.refresher) && shim.refresher.cursor == 0
      ensures shim.ring.log == [] && shim.engine.residual == residual
      ensures SysOk(shim.Frozen(), shim.engine.State()) && Quiet(shim.engine.State())
      ensures UnitUtils(Readings(shim.ring.log, |g.edges|))
    {
      hide SysOk, Quiet, KBest, UnitUtils, Readings, LSTMPredictor.Valid;
      var t := new TelemetryRingBuffer();
      var rails := RailsOf(g.edges);
      var exec := new TransferExecutor(rails, mem);
      var eng := new PathSelectionEngine(g, exec, p, residual);
      var ref := new Refresher(p, t, |g.edges|);
      shim := new HicsShim(g, p, t, ref, exec, eng);
      ReadingsUnit(t.log, |g.edges|);
      StartKeeps(shim.Frozen(), rails, mem);
    }

    /** run_profiling_sweep: every edge's history gets the present reading and its prediction is made,
        then some refreshes. */
    method RunProfilingSweep(rounds: nat)
      requires Valid()
      modifies refresher, predictor, predictor.histories
      ensures Valid() && predictor.Held() == old(predictor.Held())
      ensures |predictor.predictionCache| >= |graph.edges|
      ensures AllSwept(NetworkOf(predictor), ViewsOf(predictor, |graph.edges|), old(predictor.samples),
                       Readings(ring.log, |graph.edges|), old(refresher.cursor), rounds)
      ensures forall e: nat :: e >= |graph.edges| ==> predictor.SamplesOf(e) == old(predictor.SamplesOf(e))
      ensures |graph.edges| > 0 ==> refresher.cursor == CursorAfter(old(refresher.cursor), |graph.edges|, rounds)
    {
      hide Window, Newest, LSTMPredictor.Valid, WindowOf, EdgeSwept, InBatch, AllSwept;
      ghost var before, start := predictor.samples, refresher.cursor;
      var utils := ring.Snapshot(|graph.edges|);
      assert utils == Readings(ring.log, |graph.edges|);
      FirstRound(utils);
      for n := 0 to rounds
        invariant Valid() && predictor.Held() == old(predictor.Held())
        invariant forall h :: h in predictor.histories ==> h in old(predictor.histories) || fresh(h)
        invariant |predictor.predictionCache| >= |utils|
        invariant AllSwept(NetworkOf(predictor), ViewsOf(predictor, |utils|), before, utils, start, n)
        invariant forall e: nat :: e >= |utils| ==> predictor.SamplesOf(e) == old(predictor.SamplesOf(e))
        invariant |utils| > 0 ==> refresher.cursor == CursorAfter(start, |utils|, n)
      {
        assert forall i :: 0 <= i < |predictor.histories| ==>
          predictor.histories[i] in old(predictor.histories) || fresh(predictor.histories[i]);
        ghost var net, views := NetworkOf(predictor), ViewsOf(predictor, |utils|);
        refresher.Refresh();
        AllRefresh(net, views, ViewsOf(predictor, |utils|), before, utils, start, n);
      }
    }

    /** The first sample and prediction of every edge. */
    method FirstRound(utils: seq<real>)
      requires Valid() && |utils| == |graph.edges|
      modifies predictor, predictor.histories
      ensures Valid() && predictor.Held() == old(predictor.Held())
      ensures forall h :: h in predictor.histories ==> h in old(predictor.histories) || fresh(h)
      ensures |predictor.predictionCache| >= |utils|
      ensures AllSwept(NetworkOf(predictor), ViewsOf(predictor, |utils|), old(predictor.samples), utils,
                       refresher.cursor, 0)
      ensures forall e: nat :: e >= |utils| ==> predictor.SamplesOf(e) == old(predictor.SamplesOf(e))
    {
      hide LSTMPredictor.Valid, WindowOf, AllSwept, KBest, TelemetryRingBuffer.Valid;
      ghost var before := predictor.samples;
      refresher.PushAll(utils);
      WarmAll(utils);
      FirstSample(NetworkOf(predictor), ViewsOf(predictor, |utils|), before, utils, refresher.cursor);
    }

    /** Predict every edge once. */
    method WarmAll(utils: seq<real>)
      requires Valid() && |utils| == |graph.edges|
      modifies predictor`predictionCache, predictor`currentUtilCache
      ensures Valid() && predictor.Held() == old(predictor.Held())
      ensures forall e: nat :: predictor.SamplesOf(e) == old(predictor.SamplesOf(e))
      ensures |predictor.predictionCache| >= |utils|
      ensures forall e: nat :: e < |utils| ==>
        predictor.Cached(e) == Fresh(predictor, e) && predictor.CachedUtil(e) == utils[e]
    {
      hide LSTMPredictor.Cached, LSTMPredictor.CachedUtil, WindowOf;
      for k := 0 to |utils|
        invariant Valid() && predictor.Held() == old(predictor.Held()) && |predictor.predictionCache| >= k
        invariant forall e: nat :: predictor.SamplesOf(e) == old(predictor.SamplesOf(e))
        invariant forall e: nat :: e < k ==>
          predictor.Cached(e) == Fresh(predictor, e) && predictor.CachedUtil(e) == utils[e]
      {
        var predicted := predictor.PredictEdge(k);
        predictor.UpdateCache(k, utils[k], predicted);
      }
    }

    /** A tick whose completions unregister their KV flows. */
    method TickWithCallback(offer: Offer, elapsed: Clock) returns (done: seq<TransferId>, ghost order: seq<TransferId>)
      requires Valid()
      modifies engine, executor
      ensures Valid()
      ensures IsOrder(order, old(executor.transfers)) && done == TickDone(old(executor.State()), order, offer, elapsed)
      ensures engine.State() == SysTick(old(engine.State()), order, offer, elapsed)
    {
      hide Tick, TickDone, IsOrder, SystemSpec.Ended, KBest, LSTMPredictor.Valid, TelemetryRingBuffer.Valid,
           UnregisterAll;
      ghost var s := engine.State();
      done, order := executor.Tick(offer, elapsed);
      TickRequests(s.exec, order, offer, elapsed);
      UnregisterSame(engine.flows, s.exec.transfers, executor.transfers, done);
      Completed(done);
      engine.ended := engine.ended + SystemSpec.Ended(s.exec, order, offer, elapsed);
    }

    /** The completion callback, for every completed transfer. */
    method Completed(done: seq<TransferId>)
      requires engine.executor == executor && forall id :: id in done ==> id in executor.transfers
      modifies engine`flows
      ensures engine.flows == UnregisterAll(old(engine.flows), executor.transfers, done)
    {
      for k := 0 to |done|
        invariant engine.flows == UnregisterAll(old(engine.flows), executor.transfers, done[..k])
      {
        assert done[..k + 1][..k] == done[..k];
        var id := done[k];
        assert id in done;
        if executor.transfers[id].request.cls == KVMigration { engine.UnregisterKvFlow(id); }
      }
      assert done[..|done|] == done;
    }

    /** submit_transfer: snapshot, schedule, tick, drain. A call in order leaves the system in order
        and without a paused transfer. */
    method SubmitTransfer(req: TransferRequest, bufs: Buffers, elapsed: Clock)
      returns (id: TransferId, ghost call: Call)
      requires Valid()
      modifies this`decisionsMade, engine, executor, graph`cache
      ensures Valid() && Frozen() == old(Frozen()) && decisionsMade == old(decisionsMade) + 1
      ensures old(Healthy()) ==> Healthy()
      ensures id == old(executor.nextId)
      ensures call.SubmitTransfer? && call.host == old(executor.mem) && call.req == req && call.bufs == bufs
      ensures call.flow == FlowOf(Frozen(), req, call.plan)
      ensures call.tick.offer == OfferOf(graph.edges, engine.residual)(0.05, Readings(ring.log, |graph.edges|))
      ensures call.tick.elapsed == elapsed && Offers(call, 5000)
      ensures DrainChoices(Frozen(), engine.Cost(), Readings(ring.log, |graph.edges|),
                           Ticked(old(engine.State()), call), call.picks)
      ensures Planned(Frozen(), engine.Cost(), Readings(ring.log, |graph.edges|), req, call.plan, call.miss)
      ensures |call.picks| == |Ticked(old(engine.State()), call).pending|
      ensures engine.State() == AfterCall(old(engine.State()), call)
      ensures Healthy() ==> CallOk(Frozen(), old(engine.State()), call)
      ensures Healthy() && old(SysOk(Frozen(), engine.State())) ==>
        SysOk(Frozen(), engine.State()) && Quiet(engine.State())
    {
      hide SysOk, Quiet, PicksOk, PlanOk, Planned, PreemptChoice, SysSubmit, SysTick, SysDrain, IsOrder, TickDone,
           Newest, Window, Wide, PowLike, UnitUtils, LSTMPredictor.Valid, PathCostOf, Bottleneck, BytesForDt, Offers,
           ChoicesSoFar, FlowOf;
      ghost var s, f := engine.State(), Frozen();
      ghost var miss, plan, order, picks;
      var utils := ring.Snapshot(|graph.edges|);
      assert utils == Readings(ring.log, |graph.edges|);
      id, miss, plan := engine.ScheduleAndExecute(req, utils, bufs);
      var offer := OfferOf(graph.edges, engine.residual)(0.05, utils);
      var done;
      done, order := TickWithCallback(offer, elapsed);
      var drained;
      drained, picks := engine.DrainBoundaryReroutes(utils);
      decisionsMade := decisionsMade + 1;
      ghost var tick := TickArgs(order, offer, elapsed);
      call := Call.SubmitTransfer(s.exec.mem, miss, req, plan, bufs, FlowOf(f, req, plan), tick, picks);
      ShimOffers(graph.edges, engine.residual, 0.05, utils, call);
      HostedSame(s);
      PlannedOk(f, engine.Cost(), utils, req, plan, miss);
      if Healthy() && SysOk(f, s) { CallKeeps(f, s, call); }
    }

    /** poll_transfers: snapshot, tick, drain; returns how many transfers completed. */
    method PollTransfers(dt: real, elapsed: Clock) returns (completed: nat, ghost call: Call)
      requires Valid()
      modifies engine, executor, graph`cache
      ensures Valid() && Frozen() == old(Frozen())
      ensures old(Healthy()) ==> Healthy()
      ensures call.PollTransfers? && call.host == old(executor.mem)
      ensures call.tick.offer == OfferOf(graph.edges, engine.residual)(dt, Readings(ring.log, |graph.edges|))
      ensures call.tick.elapsed == elapsed && (dt >= 0.05 ==> Offers(call, 5000))
      ensures DrainChoices(Frozen(), engine.Cost(), Readings(ring.log, |graph.edges|),
                           Ticked(old(engine.State()), call), call.picks)
      ensures completed == |Done(old(executor.State()), TickOp(call))|
      ensures |call.picks| == |Ticked(old(engine.State()), call).pending|
      ensures engine.State() == AfterCall(old(engine.State()), call)
      ensures Healthy() ==> CallOk(Frozen(), old(engine.State()), call)
      ensures Healthy() && old(SysOk(Frozen(), engine.State())) ==>
        SysOk(Frozen(), engine.State()) && Quiet(engine.State())
    {
      hide SysOk, Quiet, PicksOk, PreemptChoice, SysTick, SysDrain, IsOrder, TickDone, Newest, Window, Wide, PowLike,
           UnitUtils, LSTMPredictor.Valid, Bottleneck, BytesForDt, Offers, PathCostOf, ChoicesSoFar;
      ghost var s, f := engine.State(), Frozen();
      ghost var order, picks;
      var utils := ring.Snapshot(|graph.edges|);
      assert utils == Readings(ring.log, |graph.edges|);
      var offer := OfferOf(graph.edges, engine.residual)(dt, utils);
      var done;
      done, order := TickWithCallback(offer, elapsed);
      var drained;
      drained, picks := engine.DrainBoundaryReroutes(utils);
      completed := |done|;
      call := Call.PollTransfers(s.exec.mem, TickArgs(order, offer, elapsed), picks);
      if dt >= 0.05 { ShimOffers(graph.edges, engine.residual, dt, utils, call); }
      HostedSame(s);
      if Healthy() && SysOk(f, s) { CallKeeps(f, s, call); }
    }
  }

  /** Writing back what is there changes nothing. */
  lemma HostedSame(s: Sys)
    ensures Hosted(s, s.exec.mem) == s
  {
  }
}
