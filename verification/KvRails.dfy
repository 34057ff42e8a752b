/** From the built cluster to a KV stripe's candidates: both IB rails, always. */
module KvRails {
  import opened Model
  import opened PathSearch
  import opened Topology
  import opened DualRail
  import opened Cluster
  import opened EngineSpec

  /** The path of rail x between the request's endpoints. */
  predicate OverRail(f: Fabric, req: TransferRequest, x: nat, p: seq<nat>)
    requires Sound(f.vertices, f.edges)
  {
    RailPath(f.vertices, f.edges, req.source, req.dest, x, p)
  }

  /** The frozen fabric that build_cluster makes, searched wide and far enough. */
  ghost predicate BuiltCluster(f: Fabric, nodes: nat, gpus: nat) {
    f.vertices == ClusterVertices(nodes, gpus) && IsFabric(f.vertices, f.edges) && f.k >= 2 && f.hops >= 3
  }

  predicate GpuOf(ep: EndpointId, nodes: nat, gpus: nat) { ep.kind == GPU && ep.node < nodes && ep.local < gpus }

  lemma FindsVertex(vertices: seq<EndpointId>, ep: EndpointId)
    requires ep in vertices
    ensures FindVertex(vertices, ep) < |vertices| && vertices[FindVertex(vertices, ep)] == ep
  {
    var i :| 0 <= i < |vertices| && vertices[i] == ep;
  }

  lemma RequestBetween(f: Fabric, req: TransferRequest, nodes: nat, gpus: nat)
    requires BuiltCluster(f, nodes, gpus) && GpuOf(req.source, nodes, gpus) && GpuOf(req.dest, nodes, gpus)
    requires req.source.node != req.dest.node
    ensures Between(f.vertices, QueryOf(f, req), req.source, req.dest) && TwoPorts(f.vertices)
    ensures forall x: nat :: x < 2 ==>
      EndpointId(req.source.node, x, IBPort) in f.vertices && EndpointId(req.dest.node, x, IBPort) in f.vertices
  {
    hide IsFabric, ClusterVertices, FindVertex;
    ClusterLabels(nodes, gpus);
    ClusterHas(nodes, gpus, req.source);
    ClusterHas(nodes, gpus, req.dest);
    FindsVertex(f.vertices, req.source);
    FindsVertex(f.vertices, req.dest);
    forall x: nat | x < 2
      ensures EndpointId(req.source.node, x, IBPort) in f.vertices && EndpointId(req.dest.node, x, IBPort) in f.vertices
    {
      ClusterHas(nodes, gpus, EndpointId(req.source.node, x, IBPort));
      ClusterHas(nodes, gpus, EndpointId(req.dest.node, x, IBPort));
    }
  }

  /** A rail path crosses InfiniBand of its own rail only, which every traffic class admits. */
  lemma RailAdmitted(f: Fabric, req: TransferRequest, x: nat, p: seq<nat>)
    requires Sound(f.vertices, f.edges) && TwoNodes(req.source, req.dest) && OverRail(f, req, x, p)
    ensures Indexes(f.edges, p) && PathAdmitted(f.edges, req.cls, p) && PathRail(f.edges, p) == x
  {
    RailPathCosts(f.vertices, f.edges, req.source, req.dest, x, p);
    hide Sound;
    assert f.edges[p[0]].attrs.rail == x;
  }

  /** One rail's path is among the candidates. */
  lemma RailIsCandidate(f: Fabric, req: TransferRequest, cands: seq<seq<nat>>, nodes: nat, gpus: nat, x: nat)
    returns (p: seq<nat>)
    requires BuiltCluster(f, nodes, gpus) && GpuOf(req.source, nodes, gpus) && GpuOf(req.dest, nodes, gpus)
    requires req.source.node != req.dest.node && x < 2
    requires CandidatesOf(f, req, cands)
    ensures p in cands && OverRail(f, req, x, p) && PathRail(f.edges, p) == x
  {
    hide IsFabric, FindVertex, KBest, ClusterVertices;
    RequestBetween(f, req, nodes, gpus);
    var q := QueryOf(f, req);
    p := RailPathExists(f.vertices, q, req.source, req.dest, x);
    assert Sound(f.vertices, f.edges) by { FabricSound(f.vertices, f.edges); }
    hide Sound, RailPath;
    RailAdmitted(f, req, x, p);
    var all :| FlexOf(f, req, all, cands);
    BothRailsFound(f.vertices, q, req.source, req.dest, f.k, all, x, p);
    FilterIs(f.edges, req.cls, all, p);
  }

  lemma FabricSound(vertices: seq<EndpointId>, edges: seq<GraphEdge>)
    requires IsFabric(vertices, edges)
    ensures Sound(vertices, edges)
  {
  }

  /** Dual-rail guarantee on a built cluster: between any two GPUs of different nodes, whatever
      the search's tie order, the candidates hold the path over rail 0 and the path over rail 1. */
  lemma BothRailsAreCandidates(f: Fabric, req: TransferRequest, cands: seq<seq<nat>>, nodes: nat, gpus: nat)
    requires BuiltCluster(f, nodes, gpus) && GpuOf(req.source, nodes, gpus) && GpuOf(req.dest, nodes, gpus)
    requires req.source.node != req.dest.node
    requires CandidatesOf(f, req, cands)
    ensures exists p, r :: p in cands && r in cands && PathRail(f.edges, p) == 0 && PathRail(f.edges, r) == 1
    ensures f.k >= 1 && Routable(f, req)
  {
    hide BuiltCluster, CandidatesOf, Routable;
    var p := RailIsCandidate(f, req, cands, nodes, gpus, 0);
    var r := RailIsCandidate(f, req, cands, nodes, gpus, 1);
    assert p != [];
    CandidateRoutes(f, req, cands, p);
    assert f.k >= 2 by { WideEnough(f, nodes, gpus); }
  }

  lemma WideEnough(f: Fabric, nodes: nat, gpus: nat)
    requires BuiltCluster(f, nodes, gpus)
    ensures f.k >= 2
  {
  }
}
