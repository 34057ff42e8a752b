/** What the path engine chooses from, how it chooses, and how it stripes. */
module EngineSpec {
  import opened Model
  import opened Arithmetic
  import opened Sums
  import opened PathSearch
  import opened Topology
  import opened TransferSpec

  /** The frozen graph and its search defaults. */
  datatype Fabric = Fabric(vertices: seq<EndpointId>, edges: seq<GraphEdge>, k: nat, hops: nat)

  function QueryOf(f: Fabric, req: TransferRequest): Query {
    Query(f.edges, FindVertex(f.vertices, req.source), FindVertex(f.vertices, req.dest), f.hops)
  }

  // ------------------------------------------------------- flexibility set

  predicate Admits(cls: TrafficClass, fabric: FabricType) {
    match cls
    case TensorParallel => fabric == NVLink || fabric == InfiniBand
    case PipelineParallel => true
    case KVMigration => fabric != PCIe
  }

  predicate PathAdmitted(edges: seq<GraphEdge>, cls: TrafficClass, path: seq<nat>)
    requires Indexes(edges, path)
  {
    forall i :: 0 <= i < |path| ==> Admits(cls, edges[path[i]].attrs.fabric)
  }

  predicate AllIndex(edges: seq<GraphEdge>, paths: seq<seq<nat>>) {
    forall i :: 0 <= i < |paths| ==> Indexes(edges, paths[i])
  }

  function Filter(edges: seq<GraphEdge>, cls: TrafficClass, paths: seq<seq<nat>>): seq<seq<nat>>
    requires AllIndex(edges, paths)
  {
    if paths == [] then []
    else
      var n := |paths| - 1;
      Filter(edges, cls, paths[..n]) + if PathAdmitted(edges, cls, paths[n]) then [paths[n]] else []
  }

  /** Admissible paths for the class; a KV migration with none falls back on all of them. */
  function FlexibilitySet(edges: seq<GraphEdge>, cls: TrafficClass, paths: seq<seq<nat>>): seq<seq<nat>>
    requires AllIndex(edges, paths)
  {
    var admitted := Filter(edges, cls, paths);
    if admitted == [] && cls == KVMigration then paths else admitted
  }

  lemma {:induction false} FilterIs(edges: seq<GraphEdge>, cls: TrafficClass, paths: seq<seq<nat>>, p: seq<nat>)
    requires AllIndex(edges, paths)
    ensures p in Filter(edges, cls, paths) <==> p in paths && Indexes(edges, p) && PathAdmitted(edges, cls, p)
  {
    if paths != [] {
      var n := |paths| - 1;
      FilterIs(edges, cls, paths[..n], p);
      assert paths == paths[..n] + [paths[n]];
    }
  }

  /** The candidates for a request: the flexibility set of a k-best answer. */
  ghost predicate CandidatesOf(f: Fabric, req: TransferRequest, cands: seq<seq<nat>>)
  {
    exists all: seq<seq<nat>> :: FlexOf(f, req, all, cands)
  }

  ghost predicate FlexOf(f: Fabric, req: TransferRequest, all: seq<seq<nat>>, cands: seq<seq<nat>>)
  {
    && KBest(QueryOf(f, req), f.k, ByCost, all)
    && AllIndex(f.edges, all)
    && cands == FlexibilitySet(f.edges, req.cls, all)
  }

  /** There is a way from the source to a different destination within the hop bound. */
  ghost predicate Routable(f: Fabric, req: TransferRequest) {
    && QueryOf(f, req).src != QueryOf(f, req).dst
    && exists w: seq<nat> :: Admissible(QueryOf(f, req), w)
  }

  lemma CandidateAdmissible(f: Fabric, req: TransferRequest, cands: seq<seq<nat>>, p: seq<nat>)
    requires CandidatesOf(f, req, cands) && p in cands
    ensures Admissible(QueryOf(f, req), p)
  {
    var all :| FlexOf(f, req, all, cands);
    FilterIs(f.edges, req.cls, all, p);
    var i :| 0 <= i < |all| && all[i] == p;
  }

  /** A candidate with at least one edge shows that the request can be routed. */
  lemma CandidateRoutes(f: Fabric, req: TransferRequest, cands: seq<seq<nat>>, p: seq<nat>)
    requires CandidatesOf(f, req, cands) && p in cands && p != []
    ensures Routable(f, req)
  {
    CandidateAdmissible(f, req, cands, p);
    assert VertexAt(f.edges, QueryOf(f, req).src, p, 0) != QueryOf(f, req).dst;
  }

  /** A KV migration that can be routed has candidates, and every one of them has an edge. */
  lemma RoutableHasCandidates(f: Fabric, req: TransferRequest, cands: seq<seq<nat>>)
    requires f.k >= 1 && CandidatesOf(f, req, cands) && Routable(f, req) && req.cls == KVMigration
    ensures cands != [] && forall i :: 0 <= i < |cands| ==> cands[i] != []
  {
    var all :| FlexOf(f, req, all, cands);
    var w :| Admissible(QueryOf(f, req), w);
    assert all != [];
    forall i | 0 <= i < |cands| ensures cands[i] != [] {
      CandidateAdmissible(f, req, cands, cands[i]);
      assert VertexAt(f.edges, QueryOf(f, req).src, cands[i], 0) == QueryOf(f, req).src;
    }
  }

  // ------------------------------------------------------------- selection

  /** path_rail_id: the first rail on the path, -1 when there is none. */
  function PathRail(edges: seq<GraphEdge>, path: seq<nat>): int {
    if path == [] then -1
    else if path[0] < |edges| && edges[path[0]].attrs.rail >= 0 then edges[path[0]].attrs.rail
    else PathRail(edges, path[1..])
  }

  /** The first of the cheapest candidates, or no path when none costs less than DBL_MAX. */
  ghost predicate BestOf(cands: seq<seq<nat>>, cost: seq<nat> -> real, best: PathCost) {
    || (best == PathCost([], DBL_MAX) && forall i :: 0 <= i < |cands| ==> cost(cands[i]) >= DBL_MAX)
    || exists b :: 0 <= b < |cands| && FirstBest(cands, cost, best, b)
  }

  ghost predicate FirstBest(cands: seq<seq<nat>>, cost: seq<nat> -> real, best: PathCost, b: nat)
    requires b < |cands|
  {
    && best == PathCost(cands[b], cost(cands[b])) && best.latency < DBL_MAX
    && (forall i :: 0 <= i < |cands| ==> best.latency <= cost(cands[i]))
    && (forall i :: 0 <= i < b ==> best.latency < cost(cands[i]))
  }

  /** One more candidate: it becomes the best if and only if it is strictly cheaper. */
  lemma BestSnoc(cands: seq<seq<nat>>, p: seq<nat>, cost: seq<nat> -> real, best: PathCost)
    requires BestOf(cands, cost, best)
    ensures best.latency <= DBL_MAX
    ensures BestOf(cands + [p], cost, if cost(p) < best.latency then PathCost(p, cost(p)) else best)
  {
    var all, n := cands + [p], |cands|;
    assert forall i :: 0 <= i < n ==> all[i] == cands[i];
    assert all[n] == p;
    if cost(p) < best.latency {
      assert forall i :: 0 <= i < n ==> best.latency <= cost(cands[i]);
      assert FirstBest(all, cost, PathCost(p, cost(p)), n);
    } else if exists b :: 0 <= b < n && FirstBest(cands, cost, best, b) {
      var b :| 0 <= b < n && FirstBest(cands, cost, best, b);
      assert FirstBest(all, cost, best, b);
    }
  }

  predicate FiniteCosts(cands: seq<seq<nat>>, cost: seq<nat> -> real) {
    forall i :: 0 <= i < |cands| ==> cost(cands[i]) < DBL_MAX
  }

  /** With finite costs a routable KV migration always gets a path with edges. */
  lemma BestRoutes(f: Fabric, req: TransferRequest, cands: seq<seq<nat>>, cost: seq<nat> -> real, best: PathCost)
    requires f.k >= 1 && CandidatesOf(f, req, cands) && BestOf(cands, cost, best) && FiniteCosts(cands, cost)
    requires Routable(f, req) && req.cls == KVMigration
    ensures best.edges != []
  {
    RoutableHasCandidates(f, req, cands);
    assert cost(cands[0]) < DBL_MAX;
  }

  lemma BestIsRoutable(f: Fabric, req: TransferRequest, cands: seq<seq<nat>>, cost: seq<nat> -> real, best: PathCost)
    requires CandidatesOf(f, req, cands) && BestOf(cands, cost, best) && best.edges != []
    ensures Routable(f, req)
  {
    var b :| 0 <= b < |cands| && FirstBest(cands, cost, best, b);
    CandidateRoutes(f, req, cands, best.edges);
  }

  // -------------------------------------------------------------- striping

  /** Chunk i of a stripe starts at i whole chunks and holds what is left, up to a chunk. */
  predicate StripeChunk(size: nat, quantum: nat, i: nat, c: ChunkPath) {
    && c.chunkSeq == i
    && c.offset == i * quantum
    && c.offset < size
    && c.size == Min(size - c.offset, quantum)
  }

  /** Contiguous, disjoint chunks covering [0, size), full except possibly the last. */
  predicate Layout(size: nat, quantum: nat, out: seq<ChunkPath>) {
    && (forall i :: 0 <= i < |out| ==> StripeChunk(size, quantum, i, out[i]))
    && |out| * quantum >= size
  }

  /** A striped request: such a layout, each chunk on a candidate path and its rail. */
  predicate StripeOk(f: Fabric, size: nat, quantum: nat, cands: seq<seq<nat>>, out: seq<ChunkPath>) {
    && Layout(size, quantum, out)
    && forall i :: 0 <= i < |out| ==> out[i].edges in cands && out[i].rail == PathRail(f.edges, out[i].edges)
  }

  /** The chunk count is the size over the quantum, rounded up. */
  lemma StripeCount(size: nat, quantum: nat, out: seq<ChunkPath>)
    requires quantum > 0 && Layout(size, quantum, out)
    ensures |out| == (size + quantum - 1) / quantum
  {
    var n := |out|;
    if n > 0 { assert StripeChunk(size, quantum, n - 1, out[n - 1]); }
    CeilUnique(size, quantum, n);
  }

  lemma CeilUnique(size: nat, quantum: nat, n: nat)
    requires quantum > 0 && n * quantum >= size && (n > 0 ==> (n - 1) * quantum < size)
    ensures n == (size + quantum - 1) / quantum
  {
    var r := size + quantum - 1 - n * quantum;
    if n > 0 { assert (n - 1) * quantum == n * quantum - quantum; }
    assert 0 <= r < quantum;
    DivIs(size + quantum - 1, quantum, n, r);
  }

  /** submit_striped's offset rule rebuilds the stripe's own layout. */
  lemma {:induction false} LaidOutRebuilds(size: nat, quantum: nat, out: seq<ChunkPath>, rails: seq<int>,
                                           n: nat, i: nat)
    requires quantum > 0 && Layout(size, quantum, out) && n <= i < |out|
    ensures LaidOut(out[n..], n * quantum, rails)[i - n] == LaidChunk(out[i], i * quantum, rails)
    ensures LaidChunk(out[i], i * quantum, rails).offset == i * quantum
    decreases i - n
  {
    assert StripeChunk(size, quantum, n, out[n]) && StripeChunk(size, quantum, i, out[i]);
    if n < i {
      assert StripeChunk(size, quantum, n + 1, out[n + 1]);
      MulSucc(n, quantum);
      assert out[n..][1..] == out[n + 1..];
      hide Layout;
      assert LaidOut(out[n..], n * quantum, rails)[i - n]
        == LaidOut(out[n + 1..], (n + 1) * quantum, rails)[i - n - 1];
      LaidOutRebuilds(size, quantum, out, rails, n + 1, i);
    }
  }

  /** The chunks laid out so far hold the first min(size, n * quantum) bytes. */
  lemma {:induction false} LayoutSums(size: nat, quantum: nat, cs: seq<Chunk>, n: nat)
    requires n <= |cs|
    requires forall i :: 0 <= i < |cs| ==> i * quantum < size && cs[i].size == Min(size - i * quantum, quantum)
    ensures SumBy(cs[..n], SizeOf) == Min(size, n * quantum)
  {
    if n > 0 {
      LayoutSums(size, quantum, cs, n - 1);
      assert cs[..n][..n - 1] == cs[..n - 1];
      MulSucc(n - 1, quantum);
      assert cs[n - 1].size == Min(size - (n - 1) * quantum, quantum);
    }
  }
}
