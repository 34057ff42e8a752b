/** The path selection engine: an object over the graph and the executor, each method proved
    to be a step of SystemSpec. */
module PathEngine {
  import opened Arithmetic
  import opened Model
  import opened PathSearch
  import opened Topology
  import opened TransferSpec
  import opened TransferRuns
  import opened EngineSpec
  import opened EngineScores
  import opened Bandwidth
  import opened PathCosts
  import opened LstmPredictor
  import opened SystemSpec
  import opened SystemRuns
  import opened Executor

  // ------------------------------------------------------- specifications

  predicate Missing(f: Fabric, req: TransferRequest) {
    FindVertex(f.vertices, req.source) == NO_VERTEX || FindVertex(f.vertices, req.dest) == NO_VERTEX
  }

  /** What select_path answers. */
  ghost predicate Selected(f: Fabric, cost: Scorer, utils: seq<real>, req: TransferRequest,
                           cands: seq<seq<nat>>, best: PathCost)
  {
    if Missing(f, req) then cands == [] && best == PathCost([], DBL_MAX)
    else
      && CandidatesOf(f, req, cands)
      && (if cands == [] then best == PathCost([], DBL_MAX)
          else if |cands| == 1 then
            best == PathCost(cands[0], cost(utils, cands[0], req.size, cost(utils, cands[0], req.size, 1.0) / 1000.0))
          else BestOf(cands, SelectScore(cost, utils, req), best))
  }

  /** A selected path with edges is a way to the destination. */
  lemma SelectedRoutes(f: Fabric, cost: Scorer, utils: seq<real>, req: TransferRequest, cands: seq<seq<nat>>,
                       best: PathCost)
    requires Selected(f, cost, utils, req, cands, best)
    ensures PlanOk(f, req, Single(best))
  {
    hide CandidatesOf, Routable;
    if best.edges != [] {
      if |cands| == 1 {
        CandidateRoutes(f, req, cands, best.edges);
      } else {
        BestIsRoutable(f, req, cands, SelectScore(cost, utils, req), best);
      }
    }
  }

  /** Chunk i of a stripe goes over the best candidate under the load of the chunks before it. */
  ghost predicate StripePick(cost: Scorer, utils: seq<real>, edges: seq<GraphEdge>, quantum: nat,
                             cands: seq<seq<nat>>, out: seq<ChunkPath>, i: nat)
    requires i < |out| && cands != []
  {
    PickedPath(cands, StripeScore(cost, LoadAfter(utils, out[..i]), utils, edges, i, out[i].size, quantum),
               out[i].edges)
  }

  /** The best candidate, or the first when the best has no edges or there is none. */
  ghost predicate PickedPath(cands: seq<seq<nat>>, score: seq<nat> -> real, path: seq<nat>)
    requires cands != []
  {
    exists best: PathCost :: BestOf(cands, score, best) && path == if best.edges == [] then cands[0] else best.edges
  }

  ghost predicate StripePicks(cost: Scorer, utils: seq<real>, edges: seq<GraphEdge>, quantum: nat,
                              cands: seq<seq<nat>>, out: seq<ChunkPath>)
    requires cands != []
  {
    forall i :: 0 <= i < |out| ==> StripePick(cost, utils, edges, quantum, cands, out, i)
  }

  predicate ChosenFrom(edges: seq<GraphEdge>, cands: seq<seq<nat>>, out: seq<ChunkPath>) {
    forall i :: 0 <= i < |out| ==> out[i].edges in cands && out[i].rail == PathRail(edges, out[i].edges)
  }

  /** What stripe_kv_migration returns: nothing without candidates, else a stripe of the request
      with every chunk on its best candidate. */
  ghost predicate Striping(f: Fabric, cost: Scorer, utils: seq<real>, req: TransferRequest, quantum: nat,
                           cands: seq<seq<nat>>, out: seq<ChunkPath>)
  {
    && CandidatesOf(f, req, cands)
    && (cands == [] ==> out == [])
    && (cands != [] ==>
          StripeOk(f, req.size, quantum, cands, out)
          && StripePicks(cost, utils, f.edges, quantum, cands, out))
  }

  lemma StripingRoutes(f: Fabric, cost: Scorer, utils: seq<real>, req: TransferRequest, cands: seq<seq<nat>>,
                       out: seq<ChunkPath>)
    requires Striping(f, cost, utils, req, KV_CHUNK_BYTES, cands, out)
    ensures PlanOk(f, req, Striped(out))
  {
    hide CandidatesOf, Routable, Layout, StripePick;
    if i :| 0 <= i < |out| && out[i].edges != [] { CandidateRoutes(f, req, cands, out[i].edges); }
  }

  function AllEdges(paths: seq<ChunkPath>): seq<nat> {
    if paths == [] then [] else AllEdges(paths[..|paths| - 1]) + paths[|paths| - 1].edges
  }

  /** The flow that schedule_and_execute registers for a plan (its id comes from the executor). */
  function FlowOf(f: Fabric, req: TransferRequest, plan: Plan): Flow {
    var src, dst := FindVertex(f.vertices, req.source), FindVertex(f.vertices, req.dest);
    match plan
    case Single(path) => Flow(0, src, dst, req.size, req.deadline - path.latency, false, path.edges)
    case Striped(paths) => Flow(0, src, dst, req.size, req.deadline, false, AllEdges(paths))
  }

  /** The plan of schedule_and_execute: KV migrations of more than one chunk are striped. */
  ghost predicate Planned(f: Fabric, cost: Scorer, utils: seq<real>, req: TransferRequest, plan: Plan, miss: Miss)
  {
    if req.cls == KVMigration && req.size > KV_CHUNK_BYTES then
      miss == NoMiss && plan.Striped?
      && exists cands :: Striping(f, cost, utils, req, KV_CHUNK_BYTES, cands, plan.paths)
    else
      plan.Single?
      && exists cands :: Selected(f, cost, utils, req, cands, plan.path) && MissFor(req, cands, plan.path, miss)
  }

  /** Only a tensor-parallel request with a choice, whose best path is too slow, preempts. */
  predicate MissFor(req: TransferRequest, cands: seq<seq<nat>>, best: PathCost, miss: Miss) {
    if req.cls == TensorParallel && |cands| >= 2 && best.latency > req.deadline
    then miss.Miss? && miss.busy == best.edges
    else miss == NoMiss
  }

  lemma PlannedOk(f: Fabric, cost: Scorer, utils: seq<real>, req: TransferRequest, plan: Plan, miss: Miss)
    requires Planned(f, cost, utils, req, plan, miss)
    ensures PlanOk(f, req, plan)
  {
    hide Selected, Striping, PlanOk;
    if plan.Striped? {
      var cands :| Striping(f, cost, utils, req, KV_CHUNK_BYTES, cands, plan.paths);
      StripingRoutes(f, cost, utils, req, cands, plan.paths);
    } else {
      var cands :| Selected(f, cost, utils, req, cands, plan.path);
      SelectedRoutes(f, cost, utils, req, cands, plan.path);
    }
  }

  /** A pick without edges is only for a transfer that cannot be given any. */
  ghost predicate Serves(f: Fabric, ts: map<TransferId, Transfer>, id: TransferId, pick: PathCost) {
    pick.edges == [] ==> id in ts && !(Routable(f, ts[id].request) && ts[id].request.cls == KVMigration)
  }

  /** What a reroute selects: the best candidate for the rest of the transfer, its busy edges made hot. */
  ghost predicate RerouteChoice(f: Fabric, cost: Scorer, utils: seq<real>, avoid: seq<nat>, t: Transfer,
                                pick: PathCost)
  {
    exists cands :: CandidatesOf(f, t.request, cands)
      && BestOf(cands, DrainScore(cost, BumpAll(utils, avoid, 0.5), f.edges, avoid, t.remaining), pick)
  }

  /** What a drain selects for an entry that finds its transfer paused with bytes left. */
  ghost predicate EntryChoice(f: Fabric, cost: Scorer, utils: seq<real>, e: ExecState, pr: PendingReroute,
                              pick: PathCost)
  {
    pr.id in e.transfers && e.transfers[pr.id].state == TransferState.Paused && e.transfers[pr.id].remaining > 0
    ==> RerouteChoice(f, cost, utils, pr.avoid, e.transfers[pr.id], pick)
  }

  /** The first n entries of a drain, each as it finds the executor. */
  ghost predicate ChoicesSoFar(f: Fabric, cost: Scorer, utils: seq<real>, s: Sys, picks: seq<PathCost>, n: nat)
    requires n <= |picks| == |s.pending|
  {
    forall i :: 0 <= i < n ==> EntryChoice(f, cost, utils, DrainN(s, picks, i).exec, s.pending[i], picks[i])
  }

  ghost predicate DrainChoices(f: Fabric, cost: Scorer, utils: seq<real>, s: Sys, picks: seq<PathCost>) {
    |picks| == |s.pending| && ChoicesSoFar(f, cost, utils, s, picks, |picks|)
  }

  lemma NoChoices(f: Fabric, cost: Scorer, utils: seq<real>, s: Sys, picks: seq<PathCost>)
    requires |picks| == |s.pending|
    ensures ChoicesSoFar(f, cost, utils, s, picks, 0)
  {
  }

  lemma MoreChoices(f: Fabric, cost: Scorer, utils: seq<real>, s: Sys, picks: seq<PathCost>, n: nat, pick: PathCost)
    requires n < |picks| == |s.pending| && ChoicesSoFar(f, cost, utils, s, picks, n)
    requires EntryChoice(f, cost, utils, DrainN(s, picks, n).exec, s.pending[n], pick)
    ensures ChoicesSoFar(f, cost, utils, s, picks[n := pick], n + 1)
  {
    hide EntryChoice, DrainN;
    forall i | 0 <= i <= n
      ensures EntryChoice(f, cost, utils, DrainN(s, picks[n := pick], i).exec, s.pending[i], picks[n := pick][i])
    {
      DrainNPrefix(s, picks, picks[n := pick], i);
    }
  }

  // ----------------------------------------------------- flexibility set

  method AdmissiblePaths(graph: TopologyGraph, src: nat, dst: nat, cls: TrafficClass)
    returns (cands: seq<seq<nat>>, ghost all: seq<seq<nat>>)
    requires src < WORD && dst < WORD && graph.CacheAgrees()
    modifies graph`cache
    ensures graph.CacheAgrees()
    ensures KBest(Query(graph.edges, src, dst, graph.defaultHops), graph.defaultK, ByCost, all)
    ensures AllIndex(graph.edges, all) && cands == EngineSpec.FlexibilitySet(graph.edges, cls, all)
  {
    var paths := graph.Paths(src, dst);
    all := paths;
    AnswersIndex(Query(graph.edges, src, dst, graph.defaultHops), graph.defaultK, all);
    hide *;
    cands := Admitted(graph.edges, cls, paths);
  }

  /** The admissible paths of the class; all of them when a KV migration has none. */
  method Admitted(edges: seq<GraphEdge>, cls: TrafficClass, paths: seq<seq<nat>>) returns (cands: seq<seq<nat>>)
    requires AllIndex(edges, paths)
    ensures cands == FlexibilitySet(edges, cls, paths)
  {
    hide Indexes, PathAdmitted;
    cands := [];
    for k := 0 to |paths|
      invariant cands == Filter(edges, cls, paths[..k])
    {
      assert paths[..k + 1][..k] == paths[..k];
      var valid := PathValid(edges, cls, paths[k]);
      if valid { cands := cands + [paths[k]]; }
    }
    assert paths[..|paths|] == paths;
    if cands == [] && cls == KVMigration { cands := paths; }
  }

  lemma AnswersIndex(q: Query, k: nat, all: seq<seq<nat>>)
    requires KBest(q, k, ByCost, all)
    ensures AllIndex(q.edges, all)
  {
    forall i | 0 <= i < |all| ensures Indexes(q.edges, all[i]) { assert Admissible(q, all[i]); }
  }

  method PathValid(edges: seq<GraphEdge>, cls: TrafficClass, path: seq<nat>) returns (valid: bool)
    requires Indexes(edges, path)
    ensures valid == PathAdmitted(edges, cls, path)
  {
    for k := 0 to |path|
      invariant forall i :: 0 <= i < k ==> Admits(cls, edges[path[i]].attrs.fabric)
    {
      var fabric := edges[path[k]].attrs.fabric;
      match cls {
        case TensorParallel => if fabric != NVLink && fabric != InfiniBand { return false; }
        case PipelineParallel =>
        case KVMigration => if fabric == PCIe { return false; }
      }
    }
    valid := true;
  }

  // ------------------------------------------------------- flows by slack

  predicate FlowsBySlack(flows: seq<Flow>) { forall i, j :: 0 <= i < j < |flows| ==> flows[i].slack >= flows[j].slack }

  /** A running flow with bytes left that shares a busy edge. */
  predicate FlowHit(f: Flow, busy: seq<nat>) { !f.paused && f.bytes != 0 && Shares(f.edges, busy) }

  function HitIds(flows: seq<Flow>, busy: seq<nat>): seq<TransferId> {
    if flows == [] then []
    else
      HitIds(flows[..|flows| - 1], busy) + if FlowHit(flows[|flows| - 1], busy) then [flows[|flows| - 1].id] else []
  }

  function MarkFlow(f: Flow, busy: seq<nat>): Flow { if FlowHit(f, busy) then f.(paused := true) else f }

  method IsHit(f: Flow, busy: seq<nat>) returns (hit: bool)
    ensures hit == FlowHit(f, busy)
  {
    if f.paused || f.bytes == 0 { return false; }
    hit := TransferExecutor.SharesEdge(f.edges, busy);
  }

  /** Equal slacks keep no promised order. */
  method SortFlows(flows: seq<Flow>) returns (r: seq<Flow>)
    ensures multiset(r) == multiset(flows) && FlowsBySlack(r)
  {
    hide FlowsBySlack;
    r := [];
    NoFlows();
    for k := 0 to |flows|
      invariant multiset(r) == multiset(flows[..k]) && FlowsBySlack(r)
    {
      assert flows[..k + 1] == flows[..k] + [flows[k]];
      r := InsertFlow(r, flows[k]);
    }
    assert flows[..|flows|] == flows;
  }

  lemma NoFlows()
    ensures FlowsBySlack([])
  {
  }

  method InsertFlow(r0: seq<Flow>, f: Flow) returns (r: seq<Flow>)
    requires FlowsBySlack(r0)
    ensures multiset(r) == multiset(r0) + multiset{f} && FlowsBySlack(r)
  {
    var p: nat := 0;
    while p < |r0| && r0[p].slack >= f.slack
      invariant p <= |r0| && forall i :: 0 <= i < p ==> r0[i].slack >= f.slack
    {
      p := p + 1;
    }
    InsertSorted(r0, f, p);
    hide FlowsBySlack;
    r := r0[..p] + [f] + r0[p..];
    assert r0 == r0[..p] + r0[p..];
  }

  lemma InsertSorted(r0: seq<Flow>, f: Flow, p: nat)
    requires FlowsBySlack(r0) && p <= |r0|
    requires forall i :: 0 <= i < p ==> r0[i].slack >= f.slack
    requires p < |r0| ==> r0[p].slack < f.slack
    ensures FlowsBySlack(r0[..p] + [f] + r0[p..])
  {
    var r := r0[..p] + [f] + r0[p..];
    forall i, j | 0 <= i < j < |r| ensures r[i].slack >= r[j].slack {
      assert i != p ==> r[i] == r0[if i < p then i else i - 1];
      assert j != p ==> r[j] == r0[if j < p then j else j - 1];
      assert p < |r0| ==> forall m :: p <= m < |r0| ==> r0[p].slack >= r0[m].slack;
    }
  }

  // ----------------------------------------------------------- the engine

  class PathSelectionEngine {
    const graph: TopologyGraph
    const executor: TransferExecutor
    const predictor: LSTMPredictor
    /** The contention law, pow in the source. */
    const residual: Residual
    var utils: seq<real>
    var flows: seq<Flow>
    var pending: seq<PendingReroute>
    var preemptEvents: nat
    var rerouteEvents: nat
    /** For the books only: suspensions that ended in completion. */
    ghost var ended: nat

    constructor (graph: TopologyGraph, executor: TransferExecutor, predictor: LSTMPredictor, residual: Residual)
      ensures this.graph == graph && this.executor == executor && this.predictor == predictor
      ensures this.residual == residual
      ensures flows == [] && pending == [] && preemptEvents == 0 && rerouteEvents == 0 && ended == 0
    {
      this.graph, this.executor, this.predictor, this.residual := graph, executor, predictor, residual;
      utils, flows, pending, preemptEvents, rerouteEvents, ended := [], [], [], 0, 0, 0;
    }

    ghost predicate Valid()
      reads this, graph
    {
      graph.CacheAgrees() && |graph.vertices| < WORD
    }

    ghost function Frozen(): Fabric
      reads this, graph
    {
      Fabric(graph.vertices, graph.edges, graph.defaultK, graph.defaultHops)
    }

    ghost function State(): Sys
      reads this, executor
    {
      Sys(executor.State(), flows, pending, preemptEvents, rerouteEvents, ended)
    }

    /** path_cost as it is now. */
    ghost function Cost(): Scorer
      reads this, graph, predictor
    {
      PathCostOf(graph.edges, predictor.predictionCache, residual)
    }

    /** Enough for every routable KV migration to be given a path: utilizations between 0 and 1,
        some path to answer with, wide links, and a contention law like pow. */
    ghost predicate Reliable(currentUtils: seq<real>)
      reads this, graph
    {
      && UnitUtils(currentUtils) && PowLike(residual)
      && graph.defaultK >= 1 && graph.defaultHops <= MAX_HOPS && Wide(graph.edges)
    }

    method CostOf(path: seq<nat>, size: nat, ms: real) returns (total: real)
      ensures total == Cost()(utils, path, size, ms)
    {
      hide EdgeLatency, EffectiveUtil;
      total := 0.0;
      for k := 0 to |path|
        invariant total == LatencySum(graph.edges, predictor.predictionCache, residual, utils, path[..k], size, ms)
      {
        assert path[..k + 1][..k] == path[..k];
        var e := path[k];
        if e < |graph.edges| {
          var util := EffectiveUtil(predictor.Cached(e), if e < |utils| then utils[e] else 0.0, ms);
          total := total + EdgeLatency(graph.edges[e], size, util, residual);
        }
      }
      assert path[..|path|] == path;
    }

    method CandidatesFor(req: TransferRequest) returns (cands: seq<seq<nat>>)
      requires Valid()
      modifies graph`cache
      ensures Valid() && CandidatesOf(Frozen(), req, cands)
    {
      var src := graph.VertexOf(req.source);
      var dst := graph.VertexOf(req.dest);
      ghost var all;
      cands, all := AdmissiblePaths(graph, src, dst, req.cls);
      assert FlexOf(Frozen(), req, all, cands);
    }

    method PreemptKvMigrations(busy: seq<nat>, doReroute: bool) returns (paused: seq<TransferId>)
      modifies this, executor
      ensures PreemptChoice(old(executor.State()), busy, MAX_PREEMPT, paused)
      ensures doReroute ==> State() == SysPreempt(old(State()), busy, paused)
      ensures !doReroute ==> State() == SysPreempt(old(State()), busy, paused).(pending := old(pending))
    {
      hide PreemptChoice, SuspendAll;
      paused := executor.PreemptSharing(busy);
      preemptEvents := preemptEvents + |paused|;
      if doReroute { QueueReroutes(paused, busy); }
    }

    method QueueReroutes(paused: seq<TransferId>, busy: seq<nat>)
      modifies this`pending
      ensures pending == old(pending) + PendAll(paused, busy)
    {
      for k := 0 to |paused|
        invariant pending == old(pending) + PendAll(paused, busy)[..k]
      {
        pending := pending + [PendingReroute(paused[k], busy)];
      }
      assert PendAll(paused, busy)[..|paused|] == PendAll(paused, busy);
    }

    /** preempt_kv_migrations without an executor: the flows are sorted by falling slack, and
        every running flow with bytes left that shares an edge is marked, without a limit. */
    method PreemptFlows(busy: seq<nat>) returns (paused: seq<TransferId>, ghost sorted: seq<Flow>)
      modifies this`flows, this`preemptEvents
      ensures multiset(sorted) == multiset(old(flows)) && FlowsBySlack(sorted)
      ensures |flows| == |sorted| && forall i :: 0 <= i < |flows| ==> flows[i] == MarkFlow(sorted[i], busy)
      ensures paused == HitIds(sorted, busy) && preemptEvents == old(preemptEvents) + |paused|
    {
      hide FlowsBySlack, FlowHit;
      flows := SortFlows(flows);
      sorted, paused := flows, [];
      for k := 0 to |flows|
        invariant |flows| == |sorted| && paused == HitIds(sorted[..k], busy)
        invariant preemptEvents == old(preemptEvents) + |paused|
        invariant forall i :: k <= i < |flows| ==> flows[i] == sorted[i]
        invariant forall i :: 0 <= i < k ==> flows[i] == MarkFlow(sorted[i], busy)
      {
        assert sorted[..k + 1][..k] == sorted[..k];
        var hit := IsHit(flows[k], busy);
        if hit {
          paused := paused + [flows[k].id];
          flows := flows[k := flows[k].(paused := true)];
          preemptEvents := preemptEvents + 1;
        }
      }
      assert sorted[..|sorted|] == sorted;
    }

    method SelectCheapest(cands: seq<seq<nat>>, req: TransferRequest, currentUtils: seq<real>) returns (best: PathCost)
      requires utils == currentUtils
      ensures BestOf(cands, SelectScore(Cost(), currentUtils, req), best)
    {
      hide BestOf, SelectScore, PathCostOf;
      ghost var score := SelectScore(Cost(), currentUtils, req);
      best := PathCost([], DBL_MAX);
      NoneBest(score);
      for k := 0 to |cands|
        invariant BestOf(cands[..k], score, best)
      {
        assert cands[..k + 1] == cands[..k] + [cands[k]];
        BestSnoc(cands[..k], cands[k], score, best);
        var cost := SelectCost(cands[k], req, currentUtils);
        if cost < best.latency { best := PathCost(cands[k], cost); }
      }
      assert cands[..|cands|] == cands;
    }

    method SelectCost(path: seq<nat>, req: TransferRequest, currentUtils: seq<real>) returns (cost: real)
      requires utils == currentUtils
      ensures cost == SelectScore(Cost(), currentUtils, req)(path)
    {
      hide MeanUtil, PathCostOf;
      cost := CostOf(path, req.size, EstMs(req.size));
      if req.cls == KVMigration {
        var mean := MeanOf(path, currentUtils);
        cost := cost * (0.75 + 0.5 * mean);
      }
    }

    method SelectPath(req: TransferRequest, currentUtils: seq<real>)
      returns (best: PathCost, ghost miss: Miss, ghost cands: seq<seq<nat>>)
      requires Valid()
      modifies this, executor, graph`cache
      ensures Valid() && Frozen() == old(Frozen())
      ensures Selected(Frozen(), Cost(), currentUtils, req, cands, best) && MissFor(req, cands, best, miss)
      ensures miss.Miss? ==> PreemptChoice(old(executor.State()), miss.busy, MAX_PREEMPT, miss.picked)
      ensures State() == AfterMiss(old(State()), miss)
    {
      hide PreemptChoice, BestOf, CandidatesOf;
      utils := currentUtils;
      miss, cands := NoMiss, [];
      var src := graph.VertexOf(req.source);
      var dst := graph.VertexOf(req.dest);
      if src == NO_VERTEX || dst == NO_VERTEX { return PathCost([], DBL_MAX), NoMiss, []; }
      var found := CandidatesFor(req);
      cands := found;
      if found == [] { return PathCost([], DBL_MAX), NoMiss, []; }
      if |found| == 1 {
        var us := CostOf(found[0], req.size, 1.0);
        us := CostOf(found[0], req.size, us / 1000.0);
        return PathCost(found[0], us), NoMiss, found;
      }
      best := SelectCheapest(found, req, currentUtils);
      if req.cls == TensorParallel && best.latency > req.deadline {
        var paused := PreemptKvMigrations(best.edges, true);
        miss := Miss(best.edges, paused);
      }
    }

    // -------------------------------------------------------------- stripe

    method StripeKvMigration(req: TransferRequest, currentUtils: seq<real>, chunkSize: nat)
      returns (out: seq<ChunkPath>, ghost cands: seq<seq<nat>>)
      requires Valid()
      modifies this`utils, graph`cache
      ensures Valid()
      ensures Striping(Frozen(), Cost(), currentUtils, req, if chunkSize == 0 then KV_CHUNK_BYTES else chunkSize, cands,
                       out)
    {
      hide CandidatesOf, Layout, ChosenFrom, StripePicks;
      out := [];
      var quantum := if chunkSize == 0 then KV_CHUNK_BYTES else chunkSize;
      var found := CandidatesFor(req);
      cands := found;
      if found != [] {
        utils := currentUtils;
        out := StripeOver(req.size, quantum, found, currentUtils);
      }
      StripingIs(Frozen(), Cost(), currentUtils, req, quantum, found, out);
    }

    /** The stripe loop: one chunk after another, each on the best candidate of the moment. */
    method StripeOver(total: nat, quantum: nat, cands: seq<seq<nat>>, currentUtils: seq<real>)
      returns (out: seq<ChunkPath>)
      requires quantum > 0 && cands != [] && utils == currentUtils
      modifies this`utils
      ensures Layout(total, quantum, out) && ChosenFrom(graph.edges, cands, out)
      ensures StripePicks(Cost(), currentUtils, graph.edges, quantum, cands, out)
    {
      hide PathRail, BestOf, StripePick;
      out := [];
      var remaining, offset: nat := total, 0;
      while remaining > 0
        invariant remaining + offset == total && utils == LoadAfter(currentUtils, out)
        invariant LaidSoFar(total, quantum, out, offset)
        invariant ChosenFrom(graph.edges, cands, out)
        invariant StripePicks(Cost(), currentUtils, graph.edges, quantum, cands, out)
      {
        var size := Min(remaining, quantum);
        var path := PickChunk(|out|, size, quantum, cands, currentUtils);
        var rail := RailId(graph.edges, path);
        var chunk := ChunkPath(|out|, path, size, offset, rail);
        LaidMore(total, quantum, out, chunk);
        PickStays(Cost(), currentUtils, graph.edges, quantum, cands, out, chunk);
        LoadSnoc(currentUtils, out, chunk);
        out := out + [chunk];
        utils := AddLoad(utils, path, 0.05);
        remaining, offset := remaining - size, offset + size;
      }
    }

    method PickChunk(i: nat, size: nat, quantum: nat, cands: seq<seq<nat>>, currentUtils: seq<real>)
      returns (path: seq<nat>)
      requires cands != []
      ensures path in cands
      ensures PickedPath(cands, StripeScore(Cost(), utils, currentUtils, graph.edges, i, size, quantum), path)
    {
      hide BestOf, StripeScore, PathCostOf;
      ghost var score := StripeScore(Cost(), utils, currentUtils, graph.edges, i, size, quantum);
      var best := PathCost([], DBL_MAX);
      NoneBest(score);
      for k := 0 to |cands|
        invariant BestOf(cands[..k], score, best)
      {
        assert cands[..k + 1] == cands[..k] + [cands[k]];
        BestSnoc(cands[..k], cands[k], score, best);
        var cost := StripeCost(cands[k], i, size, quantum, currentUtils);
        if cost < best.latency { best := PathCost(cands[k], cost); }
      }
      assert cands[..|cands|] == cands;
      if best.edges != [] { PickedFrom(cands, score, best); }
      path := if best.edges == [] then cands[0] else best.edges;
    }

    method StripeCost(path: seq<nat>, i: nat, size: nat, quantum: nat, currentUtils: seq<real>) returns (cost: real)
      ensures cost == StripeScore(Cost(), utils, currentUtils, graph.edges, i, size, quantum)(path)
    {
      hide MeanUtil, PathCostOf, PathRail;
      cost := CostOf(path, size, EstMs(quantum));
      var mean := MeanOf(path, currentUtils);
      cost := cost * (0.75 + 0.5 * mean);
      var rail := RailId(graph.edges, path);
      if rail >= 0 && i % IB_RAIL_COUNT == rail { cost := cost * 0.92; }
    }

    // ------------------------------------------------------- flow registry

    method RegisterKvFlow(flow: Flow)
      modifies this`flows
      ensures flows == old(flows) + [flow]
    {
      flows := flows + [flow];
    }

    method UnregisterKvFlow(id: TransferId)
      modifies this`flows
      ensures flows == Unregister(old(flows), id)
    {
      var kept := [];
      for k := 0 to |flows|
        invariant flows == old(flows) && kept == Unregister(flows[..k], id)
      {
        assert flows[..k + 1][..k] == flows[..k];
        if flows[k].id != id { kept := kept + [flows[k]]; }
      }
      assert flows[..|flows|] == flows;
      flows := kept;
    }

    // --------------------------------------------------------------- drain

    /** The cheapest candidate for the rest of a paused transfer, its busy edges made hot. */
    method SelectReroute(pr: PendingReroute, t: Transfer, currentUtils: seq<real>)
      returns (best: PathCost, ghost cands: seq<seq<nat>>)
      requires Valid()
      modifies this`utils, graph`cache
      ensures Valid() && CandidatesOf(Frozen(), t.request, cands)
      ensures var hot := BumpAll(currentUtils, pr.avoid, 0.5);
        BestOf(cands, DrainScore(Cost(), hot, graph.edges, pr.avoid, t.remaining), best)
      ensures Reliable(currentUtils) && Routable(Frozen(), t.request) && t.request.cls == KVMigration ==>
        best.edges != []
    {
      hide CandidatesOf, BestOf, Routable, DrainScore, BumpAll, Tame, PathCostOf, Wide, PowLike, UnitUtils;
      var hot := AddLoad(currentUtils, pr.avoid, 0.5);
      var found := CandidatesFor(t.request);
      cands := found;
      if found != [] { utils := hot; }
      ghost var score := DrainScore(Cost(), hot, graph.edges, pr.avoid, t.remaining);
      best := RerouteCheapest(found, hot, pr.avoid, t.remaining);
      if Reliable(currentUtils) && Routable(Frozen(), t.request) && t.request.cls == KVMigration {
        BumpAllUnit(currentUtils, pr.avoid, 0.5);
        CandidatesBounded(Frozen(), t.request, found);
        PathCostTame(graph.edges, predictor.predictionCache, residual, graph.defaultHops);
        DrainScoreFinite(Cost(), graph.defaultHops, hot, graph.edges, pr.avoid, t.remaining, found);
        BestRoutes(Frozen(), t.request, found, score, best);
      }
    }

    method RerouteCheapest(cands: seq<seq<nat>>, hot: seq<real>, avoid: seq<nat>, remain: nat) returns (best: PathCost)
      requires cands != [] ==> utils == hot
      ensures BestOf(cands, DrainScore(Cost(), hot, graph.edges, avoid, remain), best)
    {
      hide BestOf, DrainScore, PathCostOf;
      ghost var score := DrainScore(Cost(), hot, graph.edges, avoid, remain);
      best := PathCost([], DBL_MAX);
      NoneBest(score);
      for k := 0 to |cands|
        invariant BestOf(cands[..k], score, best)
      {
        assert cands[..k + 1] == cands[..k] + [cands[k]];
        BestSnoc(cands[..k], cands[k], score, best);
        var cost := DrainCost(cands[k], hot, avoid, remain);
        if cost < best.latency { best := PathCost(cands[k], cost); }
      }
      assert cands[..|cands|] == cands;
    }

    method DrainCost(path: seq<nat>, hot: seq<real>, avoid: seq<nat>, remain: nat) returns (cost: real)
      requires utils == hot
      ensures cost == DrainScore(Cost(), hot, graph.edges, avoid, remain)(path)
    {
      hide MeanUtil, PathCostOf, PathRail, Shares;
      var overlaps := TransferExecutor.SharesEdge(path, avoid);
      cost := CostOf(path, remain, EstMs(remain));
      if !overlaps { cost := cost * 0.5; }
      var busyRail := RailId(graph.edges, avoid);
      var rail := RailId(graph.edges, path);
      if busyRail >= 0 && rail >= 0 && rail != busyRail { cost := cost * 0.6; }
      var mean := MeanOf(path, hot);
      cost := cost * (0.75 + 0.5 * mean);
    }

    method RerouteFlow(id: TransferId, best: PathCost, remain: nat, deadline: real)
      modifies this`flows
      ensures flows == FlowsRerouted(old(flows), id, best, remain, deadline)
    {
      for k := 0 to |flows|
        invariant |flows| == |old(flows)|
        invariant forall i :: 0 <= i < k ==> flows[i] == FlowRerouted(old(flows)[i], id, best, remain, deadline)
        invariant forall i :: k <= i < |flows| ==> flows[i] == old(flows)[i]
      {
        if flows[k].id == id {
          var slack := if best.latency > 0.0 then deadline - best.latency else flows[k].slack;
          flows := flows[k := flows[k].(paused := false, edges := best.edges, bytes := remain, slack := slack)];
        }
      }
    }

    /** One entry of the drain. */
    method DrainOne(pr: PendingReroute, still0: seq<PendingReroute>, currentUtils: seq<real>, ghost before: Drained)
      returns (still: seq<PendingReroute>, finished: bool, ghost pick: PathCost)
      requires Valid() && before.exec == executor.State() && before.still == still0 && before.flows == flows
      modifies this`utils, this`flows, this`rerouteEvents, executor, graph`cache
      ensures Valid() && rerouteEvents >= old(rerouteEvents)
      ensures Drained(executor.State(), still, flows, before.events + (rerouteEvents - old(rerouteEvents)))
        == DrainEntry(before, pr, pick)
      ensures |still| == |still0| + if finished then 0 else 1
      ensures Reliable(currentUtils) ==> Serves(Frozen(), old(executor.transfers), pr.id, pick)
      ensures EntryChoice(Frozen(), Cost(), currentUtils, old(executor.State()), pr, pick)
    {
      hide CandidatesOf, BestOf, Routable, RerouteTransfer, FlowsRerouted, DrainScore, PathCostOf, BumpAll;
      still, finished, pick := still0, false, PathCost([0], 0.0);
      if pr.id !in executor.transfers { return still0 + [pr], false, pick; }
      var t := executor.transfers[pr.id];
      if t.state == Completed || t.state == Cancelled { return still0, true, pick; }
      if t.state != TransferState.Paused { return still0 + [pr], false, pick; }
      if t.remaining == 0 { return still0, true, pick; }
      var best, cands := SelectReroute(pr, t, currentUtils);
      pick := best;
      if best.edges != [] {
        var ok := executor.Reroute(pr.id, best);
        rerouteEvents := rerouteEvents + 1;
        finished := true;
        RerouteFlow(pr.id, best, t.remaining, t.request.deadline);
      } else {
        still := still0 + [pr];
      }
    }

    method DrainBoundaryReroutes(currentUtils: seq<real>) returns (done: nat, ghost picks: seq<PathCost>)
      requires Valid()
      modifies this, executor, graph`cache
      ensures Valid() && Frozen() == old(Frozen())
      ensures |picks| == |old(pending)| && State() == SysDrain(old(State()), picks)
      ensures done + |pending| == |old(pending)|
      ensures Reliable(currentUtils) ==> PicksOk(Frozen(), old(State()), picks)
      ensures DrainChoices(Frozen(), Cost(), currentUtils, old(State()), picks)
    {
      hide DrainEntry, CandidatesOf, Routable, Reroute, PickOk, Serves, SameRequests, EntryChoice, ChoicesSoFar,
           PathCostOf;
      ghost var s, f := State(), Frozen();
      NoChoices(f, Cost(), currentUtils, s, seq(|pending|, i => PathCost([0], 0.0)));
      done, picks := 0, seq(|pending|, i => PathCost([0], 0.0));
      if pending == [] { return; }
      var still := [];
      SameRequestsRefl(s.exec);
      for n := 0 to |pending|
        invariant Valid() && Frozen() == f && pending == s.pending && |picks| == |pending|
        invariant preemptEvents == s.preemptEvents && ended == s.ended && rerouteEvents >= s.rerouteEvents
        invariant Drained(executor.State(), still, flows, rerouteEvents - s.rerouteEvents) == DrainN(s, picks, n)
        invariant done + |still| == n
        invariant SameRequests(s.exec, executor.State())
        invariant Reliable(currentUtils) ==> PicksSoFar(f, s, picks, n)
        invariant ChoicesSoFar(f, Cost(), currentUtils, s, picks, n)
      {
        ghost var before, pick := DrainN(s, picks, n), PathCost([0], 0.0);
        var finished;
        still, finished, pick := DrainOne(pending[n], still, currentUtils, before);
        if finished { done := done + 1; }
        DrainNPrefix(s, picks, picks[n := pick], n);
        DrainEntryRequests(before, pending[n], pick);
        SameRequestsTrans(s.exec, before.exec, executor.State());
        RequestKept(f, s, before.exec, picks, n, pick);
        MoreChoices(f, Cost(), currentUtils, s, picks, n, pick);
        picks := picks[n := pick];
      }
      pending := still;
    }

    // ------------------------------------------------------------ schedule

    method ScheduleAndExecute(req: TransferRequest, currentUtils: seq<real>, bufs: Buffers)
      returns (id: TransferId, ghost miss: Miss, ghost plan: Plan)
      requires Valid()
      modifies this, executor, graph`cache
      ensures Valid() && Frozen() == old(Frozen())
      ensures id == old(executor.nextId)
      ensures Planned(Frozen(), Cost(), currentUtils, req, plan, miss)
      ensures miss.Miss? ==> PreemptChoice(old(executor.State()), miss.busy, MAX_PREEMPT, miss.picked)
      ensures State() == SysSubmit(AfterMiss(old(State()), miss), req, plan, bufs, FlowOf(Frozen(), req, plan))
    {
      hide Selected, Striping, PreemptChoice, StripedTransfer, SubmittedTransfer, Unregister;
      miss := NoMiss;
      ghost var cands;
      if req.cls == KVMigration && req.size > KV_CHUNK_BYTES {
        var paths;
        paths, cands := StripeKvMigration(req, currentUtils, KV_CHUNK_BYTES);
        plan := Striped(paths);
        id := executor.SubmitStriped(req, paths, bufs);
        var src := graph.VertexOf(req.source);
        var dst := graph.VertexOf(req.dest);
        var edges := EdgesOf(paths);
        RegisterKvFlow(Flow(id, src, dst, req.size, req.deadline, false, edges));
      } else {
        var path;
        path, miss, cands := SelectPath(req, currentUtils);
        plan := Single(path);
        PreemptKeepsNext(old(State()), miss);
        id := executor.Submit(req, path, bufs);
        if req.cls == KVMigration {
          var src := graph.VertexOf(req.source);
          var dst := graph.VertexOf(req.dest);
          RegisterKvFlow(Flow(id, src, dst, req.size, req.deadline - path.latency, false, path.edges));
        }
      }
    }
  }

  // --------------------------------------------------------------- lemmas

  method EdgesOf(paths: seq<ChunkPath>) returns (edges: seq<nat>)
    ensures edges == AllEdges(paths)
  {
    edges := [];
    for k := 0 to |paths|
      invariant edges == AllEdges(paths[..k])
    {
      assert paths[..k + 1][..k] == paths[..k];
      edges := edges + paths[k].edges;
    }
    assert paths[..|paths|] == paths;
  }

  lemma NoneBest(score: seq<nat> -> real)
    ensures BestOf([], score, PathCost([], DBL_MAX))
  {
  }

  lemma PickedFrom(cands: seq<seq<nat>>, score: seq<nat> -> real, best: PathCost)
    requires BestOf(cands, score, best) && best.edges != []
    ensures best.edges in cands
  {
  }

  lemma CandidatesBounded(f: Fabric, req: TransferRequest, cands: seq<seq<nat>>)
    requires CandidatesOf(f, req, cands)
    ensures forall i :: 0 <= i < |cands| ==> Indexes(f.edges, cands[i]) && |cands[i]| <= f.hops
  {
    forall i | 0 <= i < |cands| ensures Indexes(f.edges, cands[i]) && |cands[i]| <= f.hops {
      CandidateAdmissible(f, req, cands, cands[i]);
    }
  }

  /** path_rail_id. */
  method RailId(edges: seq<GraphEdge>, path: seq<nat>) returns (rail: int)
    ensures rail == PathRail(edges, path)
  {
    for k := 0 to |path|
      invariant PathRail(edges, path[k..]) == PathRail(edges, path)
    {
      if path[k] < |edges| && edges[path[k]].attrs.rail >= 0 { return edges[path[k]].attrs.rail; }
      assert path[k..][1..] == path[k + 1..];
    }
    rail := -1;
  }

  lemma StripingIs(f: Fabric, cost: Scorer, utils: seq<real>, req: TransferRequest, quantum: nat,
                   cands: seq<seq<nat>>, out: seq<ChunkPath>)
    requires CandidatesOf(f, req, cands) && (cands == [] ==> out == [])
    requires cands != [] ==>
      Layout(req.size, quantum, out) && ChosenFrom(f.edges, cands, out)
      && StripePicks(cost, utils, f.edges, quantum, cands, out)
    ensures Striping(f, cost, utils, req, quantum, cands, out)
  {
    hide CandidatesOf, StripePicks, PathRail, Layout;
  }

  /** A layout in the making: the chunks so far end at offset. */
  predicate LaidSoFar(total: nat, quantum: nat, out: seq<ChunkPath>, offset: nat) {
    && (forall i :: 0 <= i < |out| ==> StripeChunk(total, quantum, i, out[i]))
    && (offset < total ==> offset == |out| * quantum)
    && (offset >= total ==> |out| * quantum >= total)
  }

  lemma LaidMore(total: nat, quantum: nat, out: seq<ChunkPath>, c: ChunkPath)
    requires c.offset < total && quantum > 0 && LaidSoFar(total, quantum, out, c.offset)
    requires c.chunkSeq == |out| && c.size == Min(total - c.offset, quantum)
    ensures LaidSoFar(total, quantum, out + [c], c.offset + c.size)
  {
    MulSucc(|out|, quantum);
  }

  lemma LoadSnoc(utils: seq<real>, out: seq<ChunkPath>, c: ChunkPath)
    ensures LoadAfter(utils, out + [c]) == BumpAll(LoadAfter(utils, out), c.edges, 0.05)
  {
    assert (out + [c])[..|out|] == out;
  }

  lemma PickStays(cost: Scorer, utils: seq<real>, edges: seq<GraphEdge>, quantum: nat, cands: seq<seq<nat>>,
                  out: seq<ChunkPath>, chunk: ChunkPath)
    requires cands != [] && StripePicks(cost, utils, edges, quantum, cands, out)
    requires PickedPath(cands, StripeScore(cost, LoadAfter(utils, out), utils, edges, |out|, chunk.size, quantum),
                        chunk.edges)
    ensures StripePicks(cost, utils, edges, quantum, cands, out + [chunk])
  {
    hide PickedPath, LoadAfter, StripeScore;
    var all := out + [chunk];
    assert all[..|out|] == out;
    forall i | 0 <= i < |all| ensures StripePick(cost, utils, edges, quantum, cands, all, i) {
      if i < |out| {
        assert StripePick(cost, utils, edges, quantum, cands, out, i);
        assert all[..i] == out[..i];
      }
    }
  }

  /** A drain's first n entries depend on the first n picks only. */
  lemma {:induction false} DrainNPrefix(s: Sys, picks: seq<PathCost>, more: seq<PathCost>, n: nat)
    requires n <= |s.pending| && |picks| == |more| == |s.pending|
    requires forall i :: 0 <= i < n ==> picks[i] == more[i]
    ensures DrainN(s, picks, n) == DrainN(s, more, n)
  {
    hide DrainEntry;
    if n > 0 { DrainNPrefix(s, picks, more, n - 1); }
  }

  ghost predicate SameRequests(a: ExecState, b: ExecState) {
    && b.transfers.Keys == a.transfers.Keys
    && forall id :: id in a.transfers ==> b.transfers[id].request == a.transfers[id].request
  }

  lemma DrainEntryRequests(d: Drained, pr: PendingReroute, best: PathCost)
    ensures SameRequests(d.exec, DrainEntry(d, pr, best).exec)
  {
  }

  lemma SameRequestsRefl(a: ExecState)
    ensures SameRequests(a, a)
  {
  }

  lemma SameRequestsTrans(a: ExecState, b: ExecState, c: ExecState)
    requires SameRequests(a, b) && SameRequests(b, c)
    ensures SameRequests(a, c)
  {
  }

  ghost predicate PicksSoFar(f: Fabric, s: Sys, picks: seq<PathCost>, n: nat)
    requires n <= |picks| == |s.pending|
  {
    forall i :: 0 <= i < n ==> PickOk(f, s, i, picks[i])
  }

  /** The pick for entry n serves the transfer as it was before the drain. */
  lemma RequestKept(f: Fabric, s: Sys, e: ExecState, picks: seq<PathCost>, n: nat, pick: PathCost)
    requires n < |s.pending| == |picks| && SameRequests(s.exec, e)
    ensures Serves(f, e.transfers, s.pending[n].id, pick) && PicksSoFar(f, s, picks, n)
      ==> PicksSoFar(f, s, picks[n := pick], n + 1)
  {
    hide Routable;
    assert Serves(f, e.transfers, s.pending[n].id, pick) ==> PickOk(f, s, n, pick);
    hide PickOk, Serves;
  }

  lemma PreemptKeepsNext(s: Sys, miss: Miss)
    ensures AfterMiss(s, miss).exec.nextId == s.exec.nextId
  {
    if miss.Miss? { SuspendKeepsNext(s.exec, miss.picked); }
  }

  lemma {:induction false} SuspendKeepsNext(e: ExecState, picked: seq<TransferId>)
    ensures SuspendAll(e, picked).nextId == e.nextId
  {
    if picked != [] { SuspendKeepsNext(e, picked[..|picked| - 1]); }
  }
}
