/** The graph builders: one node, and a cluster of nodes over two isolated rails. */
module Cluster {
  import opened Arithmetic
  import opened Model
  import opened PathSearch
  import opened Topology
  import opened DualRail

  /** The vertices of node n: its GPUs, then CPU, CXL and the two IB ports. */
  function NodeVertices(n: nat, gpus: nat): (r: seq<EndpointId>)
    ensures |r| == gpus + 4
    ensures forall i :: 0 <= i < gpus ==> r[i] == EndpointId(n, i, GPU)
    ensures r[gpus] == EndpointId(n, 0, CPU) && r[gpus + 1] == EndpointId(n, 0, CXLController)
    ensures r[gpus + 2] == EndpointId(n, 0, IBPort) && r[gpus + 3] == EndpointId(n, 1, IBPort)
  {
    seq(gpus, i requires 0 <= i < gpus => EndpointId(n, i, GPU))
    + [EndpointId(n, 0, CPU), EndpointId(n, 0, CXLController), EndpointId(n, 0, IBPort), EndpointId(n, 1, IBPort)]
  }

  function ClusterVertices(nodes: nat, gpus: nat): seq<EndpointId> {
    if nodes == 0 then [] else ClusterVertices(nodes - 1, gpus) + NodeVertices(nodes - 1, gpus)
  }

  function NodeEdgeCount(gpus: nat): nat { (if gpus == 0 then 0 else gpus * (gpus - 1)) + 8 * gpus + 4 }

  /** Unordered pairs of distinct nodes whose smaller one is below i. */
  function NodePairs(nodes: nat, i: nat): nat
    requires i <= nodes
  {
    if i == 0 then 0 else NodePairs(nodes, i - 1) + (nodes - i)
  }

  function EdgeCount(nodes: nat, gpus: nat): nat { nodes * NodeEdgeCount(gpus) + 4 * NodePairs(nodes, nodes) }

  /** The default cluster of 8 nodes with 8 GPUs has 1104 directed edges. */
  lemma DefaultEdgeCount()
    ensures EdgeCount(8, 8) == 1104
  {
    assert NodePairs(8, 4) == 22;
    assert NodePairs(8, 8) == 28;
  }

  // ---------------------------------------------------------------- wiring

  type Pair = (nat, nat)

  /** The edges follow the rule and join exactly the given pairs, each once. */
  ghost predicate Wiring(vertices: seq<EndpointId>, edges: seq<GraphEdge>, pairs: set<Pair>) {
    && Sound(vertices, edges)
    && Simple(edges)
    && (forall e :: 0 <= e < |edges| ==> (edges[e].src, edges[e].dst) in pairs)
    && (forall u: nat, v: nat :: (u, v) in pairs ==> Joined(edges, u, v))
  }

  ghost predicate CanWire(vertices: seq<EndpointId>, u: nat, v: nat) {
    u < |vertices| && v < |vertices| && Link(vertices[u], vertices[v]).Wired?
  }

  lemma WiringPush(vertices: seq<EndpointId>, edges: seq<GraphEdge>, pairs: set<Pair>, u: nat, v: nat,
                   attrs: EdgeAttributes)
    requires Wiring(vertices, edges, pairs) && (u, v) !in pairs
    requires u < |vertices| && v < |vertices| && Link(vertices[u], vertices[v]) == Wired(attrs)
    ensures Wiring(vertices, edges + [GraphEdge(u, v, attrs)], pairs + {(u, v)})
  {
    hide Link;
    var more := edges + [GraphEdge(u, v, attrs)];
    forall a: nat, b: nat | (a, b) in pairs + {(u, v)} ensures Joined(more, a, b) {
      if (a, b) in pairs {
        assert Joined(edges, a, b);
        var e: nat :| e < |edges| && Joins(edges, e, a, b);
        assert Joins(more, e, a, b);
      } else {
        assert Joins(more, |edges|, u, v);
      }
    }
  }

  lemma WiringGrows(vertices: seq<EndpointId>, more: seq<EndpointId>, edges: seq<GraphEdge>, pairs: set<Pair>)
    requires Wiring(vertices, edges, pairs) && vertices <= more
    ensures Wiring(more, edges, pairs)
  {
    hide Link;
  }

  /** Wired exactly where the rule links: that is the fabric. */
  lemma WiringDone(vertices: seq<EndpointId>, edges: seq<GraphEdge>, pairs: set<Pair>)
    requires Wiring(vertices, edges, pairs) && DistinctLabels(vertices)
    requires forall u: nat, v: nat :: CanWire(vertices, u, v) ==> (u, v) in pairs
    ensures IsFabric(vertices, edges)
  {
    hide Link;
    forall u: nat, v: nat | u < |vertices| && v < |vertices| && Link(vertices[u], vertices[v]).Wired?
      ensures Joined(edges, u, v)
    {
      assert CanWire(vertices, u, v);
    }
  }

  /** Add one edge and record its pair. */
  method Connect(g: TopologyGraph, u: nat, v: nat, attrs: EdgeAttributes, ghost pairs: set<Pair>)
    returns (ghost wired: set<Pair>)
    requires Wiring(g.vertices, g.edges, pairs) && (u, v) !in pairs
    requires u < |g.vertices| && v < |g.vertices| && Link(g.vertices[u], g.vertices[v]) == Wired(attrs)
    modifies g`edges
    ensures wired == pairs + {(u, v)}
    ensures Wiring(g.vertices, g.edges, wired) && |g.edges| == |old(g.edges)| + 1
  {
    hide Link, Wiring;
    WiringPush(g.vertices, g.edges, pairs, u, v, attrs);
    wired := pairs + {(u, v)};
    var e := g.AddEdge(u, v, attrs);
  }

  predicate Nvlinked(gpus: nat, i: nat, j: nat, u: nat, v: nat) {
    u < gpus && v < gpus && u != v && (u < i || (u == i && v < j))
  }

  predicate Hubbed(gpus: nat, done: nat, u: nat, v: nat) {
    (u < done && gpus <= v < gpus + 4) || (v < done && gpus <= u < gpus + 4)
  }

  method NodeVerts(g: TopologyGraph, n: nat, gpus: nat)
    requires g.vertices == []
    modifies g`vertices
    ensures g.vertices == NodeVertices(n, gpus)
  {
    for i := 0 to gpus
      invariant g.vertices == NodeVertices(n, gpus)[..i]
    {
      var v := g.AddVertex(EndpointId(n, i, GPU));
    }
    var cpu := g.AddVertex(EndpointId(n, 0, CPU));
    var cxl := g.AddVertex(EndpointId(n, 0, CXLController));
    var ib0 := g.AddVertex(EndpointId(n, 0, IBPort));
    var ib1 := g.AddVertex(EndpointId(n, 1, IBPort));
  }

  /** The NVLinks out of GPU i. */
  method NvlinkRow(g: TopologyGraph, n: nat, gpus: nat, i: nat, ghost pairs0: set<Pair>)
    returns (ghost pairs: set<Pair>)
    requires g.vertices == NodeVertices(n, gpus) && i < gpus && Wiring(g.vertices, g.edges, pairs0)
    requires forall u: nat, v: nat :: (u, v) in pairs0 <==> Nvlinked(gpus, i, 0, u, v)
    modifies g`edges
    ensures Wiring(g.vertices, g.edges, pairs)
    ensures forall u: nat, v: nat :: (u, v) in pairs <==> Nvlinked(gpus, i, gpus, u, v)
    ensures |g.edges| == |old(g.edges)| + gpus - 1
  {
    hide Wiring;
    pairs := pairs0;
    for j := 0 to gpus
      invariant Wiring(g.vertices, g.edges, pairs)
      invariant forall u: nat, v: nat :: (u, v) in pairs <==> Nvlinked(gpus, i, j, u, v)
      invariant |g.edges| == |old(g.edges)| + if j > i then j - 1 else j
    {
      if i != j { pairs := Connect(g, i, j, DefaultFabricAttrs(NVLink, -1), pairs); }
    }
  }

  method NvlinkAllToAll(g: TopologyGraph, n: nat, gpus: nat) returns (ghost pairs: set<Pair>)
    requires g.vertices == NodeVertices(n, gpus) && g.edges == []
    modifies g`edges
    ensures Wiring(g.vertices, g.edges, pairs)
    ensures forall u: nat, v: nat :: (u, v) in pairs <==> Nvlinked(gpus, gpus, 0, u, v)
    ensures |g.edges| == if gpus == 0 then 0 else gpus * (gpus - 1)
  {
    pairs := {};
    assert Wiring(g.vertices, g.edges, pairs);
    hide Wiring, NodeVertices;
    for i := 0 to gpus
      invariant Wiring(g.vertices, g.edges, pairs)
      invariant forall u: nat, v: nat :: (u, v) in pairs <==> Nvlinked(gpus, i, 0, u, v)
      invariant |g.edges| == i * (gpus - 1)
    {
      pairs := NvlinkRow(g, n, gpus, i, pairs);
      MulSucc(i, gpus - 1);
    }
  }

  /** A link in both directions. */
  method ConnectBoth(g: TopologyGraph, u: nat, v: nat, attrs: EdgeAttributes, ghost pairs: set<Pair>)
    returns (ghost wired: set<Pair>)
    requires Wiring(g.vertices, g.edges, pairs) && (u, v) !in pairs && (v, u) !in pairs && u != v
    requires Links(g.vertices, u, v, attrs)
    modifies g`edges
    ensures wired == pairs + {(u, v), (v, u)}
    ensures Wiring(g.vertices, g.edges, wired) && |g.edges| == |old(g.edges)| + 2
  {
    hide Link, Wiring;
    wired := Connect(g, u, v, attrs, pairs);
    wired := Connect(g, v, u, attrs, wired);
  }

  predicate Links(vertices: seq<EndpointId>, u: nat, v: nat, attrs: EdgeAttributes) {
    && u < |vertices| && v < |vertices|
    && Link(vertices[u], vertices[v]) == Wired(attrs) == Link(vertices[v], vertices[u])
  }

  function HubPairs(gpus: nat, gv: nat): set<Pair> {
    {(gv, gpus), (gpus, gv), (gv, gpus + 1), (gpus + 1, gv)}
    + {(gv, gpus + 2), (gpus + 2, gv), (gv, gpus + 3), (gpus + 3, gv)}
  }

  lemma HubPairsAre(gpus: nat, gv: nat, u: nat, v: nat)
    requires gv < gpus
    ensures (u, v) in HubPairs(gpus, gv) <==> !Hubbed(gpus, gv, u, v) && Hubbed(gpus, gv + 1, u, v)
  {
  }

  /** The PCIe, CXL and IB edges of GPU gv. */
  method ConnectHubs(g: TopologyGraph, n: nat, gpus: nat, gv: nat, ghost pairs0: set<Pair>)
    returns (ghost pairs: set<Pair>)
    requires g.vertices == NodeVertices(n, gpus) && gv < gpus && Wiring(g.vertices, g.edges, pairs0)
    requires forall u: nat, v: nat :: (u, v) in pairs0 <==> Nvlinked(gpus, gpus, 0, u, v) || Hubbed(gpus, gv, u, v)
    modifies g`edges
    ensures Wiring(g.vertices, g.edges, pairs) && |g.edges| == |old(g.edges)| + 8
    ensures forall u: nat, v: nat :: (u, v) in pairs <==> Nvlinked(gpus, gpus, 0, u, v) || Hubbed(gpus, gv + 1, u, v)
  {
    hide *;
    HubsFree(gpus, gv, pairs0);
    HubLinks(n, gpus, gv);
    pairs := ConnectBoth(g, gv, gpus, DefaultFabricAttrs(PCIe, -1), pairs0);
    pairs := ConnectBoth(g, gv, gpus + 1, DefaultFabricAttrs(CXL, -1), pairs);
    pairs := ConnectBoth(g, gv, gpus + 2, DefaultFabricAttrs(InfiniBand, 0), pairs);
    pairs := ConnectBoth(g, gv, gpus + 3, DefaultFabricAttrs(InfiniBand, 1), pairs);
    HubsDone(gpus, gv, pairs0, pairs);
  }

  lemma HubsFree(gpus: nat, gv: nat, pairs0: set<Pair>)
    requires gv < gpus
    requires forall u: nat, v: nat :: (u, v) in pairs0 <==> Nvlinked(gpus, gpus, 0, u, v) || Hubbed(gpus, gv, u, v)
    ensures (gv, gpus) !in pairs0 && (gpus, gv) !in pairs0
    ensures (gv, gpus + 1) !in pairs0 && (gpus + 1, gv) !in pairs0
    ensures (gv, gpus + 2) !in pairs0 && (gpus + 2, gv) !in pairs0
    ensures (gv, gpus + 3) !in pairs0 && (gpus + 3, gv) !in pairs0
  {
  }

  lemma HubLinks(n: nat, gpus: nat, gv: nat)
    requires gv < gpus
    ensures Links(NodeVertices(n, gpus), gv, gpus, DefaultFabricAttrs(PCIe, -1))
    ensures Links(NodeVertices(n, gpus), gv, gpus + 1, DefaultFabricAttrs(CXL, -1))
    ensures Links(NodeVertices(n, gpus), gv, gpus + 2, DefaultFabricAttrs(InfiniBand, 0))
    ensures Links(NodeVertices(n, gpus), gv, gpus + 3, DefaultFabricAttrs(InfiniBand, 1))
  {
  }

  lemma HubsDone(gpus: nat, gv: nat, pairs0: set<Pair>, pairs: set<Pair>)
    requires gv < gpus
    requires pairs == pairs0 + {(gv, gpus), (gpus, gv)} + {(gv, gpus + 1), (gpus + 1, gv)}
                             + {(gv, gpus + 2), (gpus + 2, gv)} + {(gv, gpus + 3), (gpus + 3, gv)}
    requires forall u: nat, v: nat :: (u, v) in pairs0 <==> Nvlinked(gpus, gpus, 0, u, v) || Hubbed(gpus, gv, u, v)
    ensures forall u: nat, v: nat :: (u, v) in pairs <==> Nvlinked(gpus, gpus, 0, u, v) || Hubbed(gpus, gv + 1, u, v)
  {
    assert pairs == pairs0 + HubPairs(gpus, gv);
    forall u: nat, v: nat
      ensures (u, v) in pairs <==> Nvlinked(gpus, gpus, 0, u, v) || Hubbed(gpus, gv + 1, u, v)
    {
      hide HubPairs, Nvlinked;
      HubPairsAre(gpus, gv, u, v);
      assert Hubbed(gpus, gv, u, v) ==> Hubbed(gpus, gv + 1, u, v);
    }
  }

  /** One node's graph is exactly the fabric over its vertices. */
  method BuildH100Node(n: nat, gpus: nat) returns (g: TopologyGraph)
    ensures fresh(g) && g.vertices == NodeVertices(n, gpus) && IsFabric(g.vertices, g.edges)
    ensures |g.edges| == NodeEdgeCount(gpus)
  {
    g := new TopologyGraph();
    NodeVerts(g, n, gpus);
    ghost var pairs := NvlinkAllToAll(g, n, gpus);
    for gv := 0 to gpus
      invariant g.vertices == NodeVertices(n, gpus) && Wiring(g.vertices, g.edges, pairs)
      invariant forall u: nat, v: nat :: (u, v) in pairs <==> Nvlinked(gpus, gpus, 0, u, v) || Hubbed(gpus, gv, u, v)
      invariant |g.edges| == (if gpus == 0 then 0 else gpus * (gpus - 1)) + 8 * gv
    {
      pairs := ConnectHubs(g, n, gpus, gv, pairs);
    }
    assert Links(g.vertices, gpus, gpus + 2, DefaultFabricAttrs(PCIe, -1));
    assert Links(g.vertices, gpus, gpus + 3, DefaultFabricAttrs(PCIe, -1));
    hide Wiring, Links, NodeVertices;
    pairs := ConnectBoth(g, gpus, gpus + 2, DefaultFabricAttrs(PCIe, -1), pairs);
    pairs := ConnectBoth(g, gpus, gpus + 3, DefaultFabricAttrs(PCIe, -1), pairs);
    NodePairsComplete(n, gpus, pairs);
    WiringDone(g.vertices, g.edges, pairs);
  }

  lemma NodePairsComplete(n: nat, gpus: nat, pairs: set<Pair>)
    requires forall u: nat, v: nat ::
      Nvlinked(gpus, gpus, 0, u, v) || Hubbed(gpus, gpus, u, v) ==> (u, v) in pairs
    requires (gpus, gpus + 2) in pairs && (gpus + 2, gpus) in pairs
    requires (gpus, gpus + 3) in pairs && (gpus + 3, gpus) in pairs
    ensures DistinctLabels(NodeVertices(n, gpus))
    ensures forall u: nat, v: nat :: CanWire(NodeVertices(n, gpus), u, v) ==> (u, v) in pairs
  {
    var vs := NodeVertices(n, gpus);
    forall u: nat, v: nat | CanWire(vs, u, v) ensures (u, v) in pairs {
      assert u < gpus || u == gpus || u == gpus + 1 || u == gpus + 2 || u == gpus + 3;
      assert v < gpus || v == gpus || v == gpus + 1 || v == gpus + 2 || v == gpus + 3;
      assert Nvlinked(gpus, gpus, 0, u, v) || Hubbed(gpus, gpus, u, v) || (u >= gpus && v >= gpus);
    }
  }

  // --------------------------------------------------------------- cluster

  lemma {:induction false} ClusterLabels(nodes: nat, gpus: nat)
    ensures forall ep :: ep in ClusterVertices(nodes, gpus) ==> ep.node < nodes
    ensures DistinctLabels(ClusterVertices(nodes, gpus)) && TwoPorts(ClusterVertices(nodes, gpus))
  {
    if nodes > 0 {
      ClusterLabels(nodes - 1, gpus);
      NodeLabels(nodes - 1, gpus);
      LabelsAppend(ClusterVertices(nodes - 1, gpus), NodeVertices(nodes - 1, gpus), nodes - 1);
    }
  }

  lemma LabelsAppend(before: seq<EndpointId>, nv: seq<EndpointId>, n: nat)
    requires DistinctLabels(before) && TwoPorts(before) && forall ep :: ep in before ==> ep.node < n
    requires DistinctLabels(nv) && TwoPorts(nv) && forall i :: 0 <= i < |nv| ==> nv[i].node == n
    ensures DistinctLabels(before + nv) && TwoPorts(before + nv)
    ensures forall ep :: ep in before + nv ==> ep.node < n + 1
  {
    assert forall u :: 0 <= u < |before| ==> before[u] in before;
  }

  lemma NodeLabels(n: nat, gpus: nat)
    ensures DistinctLabels(NodeVertices(n, gpus)) && TwoPorts(NodeVertices(n, gpus))
    ensures forall i :: 0 <= i < |NodeVertices(n, gpus)| ==> NodeVertices(n, gpus)[i].node == n
  {
    var vs := NodeVertices(n, gpus);
    forall i | 0 <= i < |vs| ensures vs[i].node == n && (vs[i].kind == IBPort ==> vs[i].local < 2) {
      assert i < gpus || i == gpus || i == gpus + 1 || i == gpus + 2 || i == gpus + 3;
    }
    forall u, v | 0 <= u < v < |vs| ensures vs[u] != vs[v] {
      assert u < gpus || u == gpus || u == gpus + 1 || u == gpus + 2 || u == gpus + 3;
      assert v < gpus || v == gpus || v == gpus + 1 || v == gpus + 2 || v == gpus + 3;
    }
  }

  /** Every endpoint of the cluster has its vertex. */
  lemma {:induction false} ClusterHas(nodes: nat, gpus: nat, ep: EndpointId)
    requires ep.node < nodes
    requires (ep.kind == GPU && ep.local < gpus) || (ep.kind == IBPort && ep.local < 2)
    ensures ep in ClusterVertices(nodes, gpus)
  {
    if ep.node == nodes - 1 {
      var vs := NodeVertices(nodes - 1, gpus);
      var i := if ep.kind == GPU then ep.local else gpus + 2 + ep.local;
      assert vs[i] == ep;
    } else {
      ClusterHas(nodes - 1, gpus, ep);
    }
  }

  /** Wired exactly within nodes. */
  ghost predicate WiredWithin(vertices: seq<EndpointId>, pairs: set<Pair>) {
    forall u: nat, v: nat :: (u, v) in pairs <==> CanWire(vertices, u, v) && vertices[u].node == vertices[v].node
  }

  /** Wired within nodes, and across for the pairs of nodes before (i, j). */
  ghost predicate WiredUpTo(vertices: seq<EndpointId>, pairs: set<Pair>, i: nat, j: nat) {
    forall u: nat, v: nat :: (u, v) in pairs <==>
      CanWire(vertices, u, v) && Before(vertices[u].node, vertices[v].node, i, j)
  }

  predicate Before(a: nat, b: nat, i: nat, j: nat) {
    a == b || Min(a, b) < i || (Min(a, b) == i && a + b - i < j)
  }

  /** The port vertices recorded per node. */
  predicate Ports(vertices: seq<EndpointId>, ib: seq<nat>, x: nat) {
    forall m :: 0 <= m < |ib| ==> ib[m] < |vertices| && vertices[ib[m]] == EndpointId(m, x, IBPort)
  }

  /** Pairs of one copied node: joined by its first k edges, moved up by base. */
  ghost predicate CopiedPairs(pairs: set<Pair>, old_: set<Pair>, edges: seq<GraphEdge>, base: nat, k: nat)
    requires k <= |edges|
  {
    forall u: nat, v: nat :: (u, v) in pairs <==>
      (u, v) in old_ || (u >= base && v >= base && Joined(edges[..k], u - base, v - base))
  }

  lemma CopyStep(pairs: set<Pair>, old_: set<Pair>, edges: seq<GraphEdge>, base: nat, k: nat)
    requires k < |edges| && CopiedPairs(pairs, old_, edges, base, k)
    ensures CopiedPairs(pairs + {(edges[k].src + base, edges[k].dst + base)}, old_, edges, base, k + 1)
  {
    var a, b := edges[k].src, edges[k].dst;
    forall u: nat, v: nat ensures Joined(edges[..k + 1], u, v) <==> Joined(edges[..k], u, v) || (u == a && v == b) {
      if Joined(edges[..k + 1], u, v) {
        var e: nat :| e < k + 1 && Joins(edges[..k + 1], e, u, v);
        if e < k { assert Joins(edges[..k], e, u, v); }
      }
      if Joined(edges[..k], u, v) {
        var e: nat :| e < k && Joins(edges[..k], e, u, v);
        assert Joins(edges[..k + 1], e, u, v);
      }
      if u == a && v == b { assert Joins(edges[..k + 1], k, u, v); }
    }
  }

  lemma CopyFree(pairs: set<Pair>, old_: set<Pair>, edges: seq<GraphEdge>, base: nat, k: nat)
    requires k < |edges| && CopiedPairs(pairs, old_, edges, base, k) && Simple(edges)
    requires forall u: nat, v: nat :: (u, v) in old_ ==> u < base
    ensures (edges[k].src + base, edges[k].dst + base) !in pairs
  {
    var a, b := edges[k].src, edges[k].dst;
    forall e: nat | e < k ensures !Joins(edges[..k], e, a, b) {
      assert edges[..k][e] == edges[e];
    }
  }

  method AppendVertices(g: TopologyGraph, more: seq<EndpointId>)
    modifies g`vertices
    ensures g.vertices == old(g.vertices) + more
  {
    for i := 0 to |more|
      invariant g.vertices == old(g.vertices) + more[..i]
    {
      var v := g.AddVertex(more[i]);
    }
    assert more[..|more|] == more;
  }

  /** Append one node's vertices and edges to the cluster. */
  method CopyNode(g: TopologyGraph, node: TopologyGraph, n: nat, gpus: nat, ghost pairs0: set<Pair>)
    returns (ghost pairs: set<Pair>)
    requires g != node && g.vertices == ClusterVertices(n, gpus) && node.vertices == NodeVertices(n, gpus)
    requires IsFabric(node.vertices, node.edges)
    requires Wiring(g.vertices, g.edges, pairs0) && WiredWithin(g.vertices, pairs0)
    modifies g`vertices, g`edges
    ensures g.vertices == ClusterVertices(n + 1, gpus)
    ensures Wiring(g.vertices, g.edges, pairs) && WiredWithin(g.vertices, pairs)
    ensures |g.edges| == |old(g.edges)| + |node.edges|
  {
    var base := |g.vertices|;
    ghost var before, all := g.vertices, g.vertices + node.vertices;
    AppendVertices(g, node.vertices);
    pairs := pairs0;
    WiringGrows(before, all, g.edges, pairs);
    hide *;
    pairs := CopyEdges(g, base, before, node.vertices, node.edges, pairs);
    CopyDone(before, node.vertices, node.edges, n, gpus, pairs0, pairs);
  }

  method CopyEdges(g: TopologyGraph, base: nat, ghost before: seq<EndpointId>, ghost nv: seq<EndpointId>,
                   edges: seq<GraphEdge>, ghost pairs0: set<Pair>) returns (ghost pairs: set<Pair>)
    requires base == |before| && g.vertices == before + nv && IsFabric(nv, edges) && WiredWithin(before, pairs0)
    requires Wiring(g.vertices, g.edges, pairs0)
    modifies g`edges
    ensures Wiring(g.vertices, g.edges, pairs) && CopiedPairs(pairs, pairs0, edges, |before|, |edges|)
    ensures |g.edges| == |old(g.edges)| + |edges|
  {
    hide *;
    pairs := pairs0;
    CopyStart(pairs0, edges, base);
    for k := 0 to |edges|
      invariant Wiring(g.vertices, g.edges, pairs) && CopiedPairs(pairs, pairs0, edges, base, k)
      invariant |g.edges| == |old(g.edges)| + k
    {
      var e := edges[k];
      CopyOk(before, nv, edges, pairs0, pairs, k);
      CopyStep(pairs, pairs0, edges, base, k);
      pairs := Connect(g, e.src + base, e.dst + base, e.attrs, pairs);
    }
  }

  lemma CopyStart(pairs0: set<Pair>, edges: seq<GraphEdge>, base: nat)
    ensures CopiedPairs(pairs0, pairs0, edges, base, 0)
  {
  }

  /** The next copied edge is new and follows the rule. */
  lemma CopyOk(before: seq<EndpointId>, nv: seq<EndpointId>, edges: seq<GraphEdge>, pairs0: set<Pair>,
               pairs: set<Pair>, k: nat)
    requires k < |edges| && IsFabric(nv, edges) && WiredWithin(before, pairs0)
    requires CopiedPairs(pairs, pairs0, edges, |before|, k)
    ensures var u, v := edges[k].src + |before|, edges[k].dst + |before|;
      && (u, v) !in pairs && u < |before + nv| && v < |before + nv|
      && Link((before + nv)[u], (before + nv)[v]) == Wired(edges[k].attrs)
  {
    hide Link;
    CopyFree(pairs, pairs0, edges, |before|, k);
    assert edges[k].src < |nv| && edges[k].dst < |nv|;
  }

  /** Copying a whole fabric wires the appended vertices within their node, and only there. */
  lemma CopyDone(before: seq<EndpointId>, nv: seq<EndpointId>, edges: seq<GraphEdge>, n: nat, gpus: nat,
                 pairs0: set<Pair>, pairs: set<Pair>)
    requires before == ClusterVertices(n, gpus) && nv == NodeVertices(n, gpus)
    requires IsFabric(nv, edges) && WiredWithin(before, pairs0)
    requires CopiedPairs(pairs, pairs0, edges, |before|, |edges|)
    ensures WiredWithin(before + nv, pairs)
  {
    ClusterLabels(n, gpus);
    assert edges[..|edges|] == edges;
    NodeLabels(n, gpus);
    forall i | 0 <= i < |before| ensures before[i].node < n { assert before[i] in before; }
    forall u: nat, v: nat ensures Joined(edges, u, v) <==> CanWire(nv, u, v) {
      FabricJoins(nv, edges, u, v);
    }
    hide Link, IsFabric, NodeVertices, ClusterVertices, Joined, CanWire;
    forall u: nat, v: nat
      ensures (u, v) in pairs
        <==> CanWire(before + nv, u, v) && (before + nv)[u].node == (before + nv)[v].node
    {
      WireMoves(before, nv, n, u, v);
      if u >= |before| && v >= |before| {
        assert Joined(edges, u - |before|, v - |before|) <==> CanWire(nv, u - |before|, v - |before|);
      }
    }
  }

  /** Within a node, wiring among concatenated vertices is wiring among the part both are in. */
  lemma WireMoves(before: seq<EndpointId>, nv: seq<EndpointId>, n: nat, u: nat, v: nat)
    requires forall i :: 0 <= i < |nv| ==> nv[i].node == n
    requires forall i :: 0 <= i < |before| ==> before[i].node < n
    ensures var all, b := before + nv, |before|;
      CanWire(all, u, v) ==> (u < |all| && v < |all|)
    ensures var all, b := before + nv, |before|;
      (CanWire(all, u, v) && all[u].node == all[v].node)
      <==> (CanWire(before, u, v) && before[u].node == before[v].node)
           || (u >= b && v >= b && CanWire(nv, u - b, v - b))
    ensures CanWire(before, u, v) ==> u < |before| && v < |before|
  {
    hide Link;
  }

  lemma FabricJoins(vertices: seq<EndpointId>, edges: seq<GraphEdge>, u: nat, v: nat)
    requires IsFabric(vertices, edges)
    ensures Joined(edges, u, v) <==> CanWire(vertices, u, v)
  {
    hide Link;
    if Joined(edges, u, v) {
      var e: nat :| e < |edges| && Joins(edges, e, u, v);
      assert Link(vertices[edges[e].src], vertices[edges[e].dst]) == Wired(edges[e].attrs);
    }
  }

  // ------------------------------------------------------ across the nodes

  /** The two rails between nodes i and j, both ways. */
  method ConnectNodes(g: TopologyGraph, ib0: seq<nat>, ib1: seq<nat>, i: nat, j: nat, ghost pairs0: set<Pair>)
    returns (ghost pairs: set<Pair>)
    requires i < j < |ib0| == |ib1| && Ports(g.vertices, ib0, 0) && Ports(g.vertices, ib1, 1)
    requires DistinctLabels(g.vertices) && TwoPorts(g.vertices)
    requires Wiring(g.vertices, g.edges, pairs0) && WiredUpTo(g.vertices, pairs0, i, j)
    modifies g`edges
    ensures Wiring(g.vertices, g.edges, pairs) && WiredUpTo(g.vertices, pairs, i, j + 1)
    ensures |g.edges| == |old(g.edges)| + 4
  {
    hide *;
    RailsFree(g.vertices, ib0, 0, i, j, pairs0);
    RailsFree(g.vertices, ib1, 1, i, j, pairs0);
    RailsApart(g.vertices, ib0, ib1, i, j);
    pairs := ConnectBoth(g, ib0[i], ib0[j], DefaultFabricAttrs(InfiniBand, 0), pairs0);
    pairs := ConnectBoth(g, ib1[i], ib1[j], DefaultFabricAttrs(InfiniBand, 1), pairs);
    RailsDone(g.vertices, ib0, ib1, i, j, pairs0, pairs);
  }

  lemma RailsApart(vertices: seq<EndpointId>, ib0: seq<nat>, ib1: seq<nat>, i: nat, j: nat)
    requires i < j < |ib0| == |ib1| && Ports(vertices, ib0, 0) && Ports(vertices, ib1, 1)
    ensures ib0[i] != ib1[i] && ib0[i] != ib1[j] && ib0[j] != ib1[i] && ib0[j] != ib1[j]
  {
    assert vertices[ib0[i]] != vertices[ib1[i]] && vertices[ib0[j]] != vertices[ib1[j]];
    assert vertices[ib0[i]] != vertices[ib1[j]] && vertices[ib0[j]] != vertices[ib1[i]];
  }

  lemma RailsFree(vertices: seq<EndpointId>, ib: seq<nat>, x: nat, i: nat, j: nat, pairs: set<Pair>)
    requires i < j < |ib| && Ports(vertices, ib, x) && WiredUpTo(vertices, pairs, i, j)
    ensures ib[i] != ib[j] && (ib[i], ib[j]) !in pairs && (ib[j], ib[i]) !in pairs
    ensures Links(vertices, ib[i], ib[j], DefaultFabricAttrs(InfiniBand, x))
  {
    assert vertices[ib[i]] == EndpointId(i, x, IBPort) && vertices[ib[j]] == EndpointId(j, x, IBPort);
  }

  lemma RailsDone(vertices: seq<EndpointId>, ib0: seq<nat>, ib1: seq<nat>, i: nat, j: nat,
                  pairs0: set<Pair>, pairs: set<Pair>)
    requires i < j < |ib0| == |ib1| && Ports(vertices, ib0, 0) && Ports(vertices, ib1, 1)
    requires DistinctLabels(vertices) && TwoPorts(vertices) && WiredUpTo(vertices, pairs0, i, j)
    requires pairs == pairs0 + {(ib0[i], ib0[j]), (ib0[j], ib0[i])} + {(ib1[i], ib1[j]), (ib1[j], ib1[i])}
    ensures WiredUpTo(vertices, pairs, i, j + 1)
  {
    forall u: nat, v: nat
      ensures (u, v) in pairs <==> CanWire(vertices, u, v) && Before(vertices[u].node, vertices[v].node, i, j + 1)
    {
      RailsDoneAt(vertices, ib0, ib1, i, j, u, v);
    }
  }

  /** Among what can be wired, the step from j to j + 1 adds the four rail ends and no more. */
  lemma RailsDoneAt(vertices: seq<EndpointId>, ib0: seq<nat>, ib1: seq<nat>, i: nat, j: nat, u: nat, v: nat)
    requires i < j < |ib0| == |ib1| && Ports(vertices, ib0, 0) && Ports(vertices, ib1, 1)
    requires DistinctLabels(vertices) && TwoPorts(vertices)
    ensures CanWire(vertices, u, v) && Before(vertices[u].node, vertices[v].node, i, j + 1)
      <==> (CanWire(vertices, u, v) && Before(vertices[u].node, vertices[v].node, i, j))
           || (u, v) in {(ib0[i], ib0[j]), (ib0[j], ib0[i]), (ib1[i], ib1[j]), (ib1[j], ib1[i])}
  {
    assert vertices[ib0[i]] == EndpointId(i, 0, IBPort) && vertices[ib0[j]] == EndpointId(j, 0, IBPort);
    assert vertices[ib1[i]] == EndpointId(i, 1, IBPort) && vertices[ib1[j]] == EndpointId(j, 1, IBPort);
    if CanWire(vertices, u, v) {
      var a, b := vertices[u], vertices[v];
      if Before(a.node, b.node, i, j + 1) && !Before(a.node, b.node, i, j) {
        assert a.kind == IBPort == b.kind && a.local == b.local < 2;
        assert (a.node == i && b.node == j) || (a.node == j && b.node == i);
      }
    }
  }

  /** The whole cluster is exactly the fabric over its vertices. */
  method BuildCluster(nodes: nat, gpus: nat) returns (g: TopologyGraph)
    ensures fresh(g) && g.cache == map[]
    ensures g.vertices == ClusterVertices(nodes, gpus) && IsFabric(g.vertices, g.edges)
    ensures |g.edges| == EdgeCount(nodes, gpus)
  {
    g := new TopologyGraph();
    ghost var pairs := {};
    var ib0: seq<nat>, ib1: seq<nat> := [], [];
    EmptyWiring();
    hide *;
    for n := 0 to nodes
      invariant fresh(g) && g.cache == map[] && g.vertices == ClusterVertices(n, gpus)
      invariant Wiring(g.vertices, g.edges, pairs) && WiredWithin(g.vertices, pairs)
      invariant |ib0| == |ib1| == n && Ports(g.vertices, ib0, 0) && Ports(g.vertices, ib1, 1)
      invariant |g.edges| == n * NodeEdgeCount(gpus)
    {
      var node := BuildH100Node(n, gpus);
      var base := |g.vertices|;
      PortsOf(n, gpus, ib0, ib1);
      MulSucc(n, NodeEdgeCount(gpus));
      pairs := CopyNode(g, node, n, gpus, pairs);
      ib0, ib1 := ib0 + [base + gpus + 2], ib1 + [base + gpus + 3];
    }
    pairs := JoinNodes(g, nodes, gpus, ib0, ib1, pairs);
    CountEdges(nodes, gpus);
  }

  lemma EmptyWiring()
    ensures Wiring([], [], {}) && WiredWithin([], {}) && Ports([], [], 0) && Ports([], [], 1)
    ensures forall gpus: nat :: ClusterVertices(0, gpus) == []
  {
  }

  lemma CountEdges(nodes: nat, gpus: nat)
    ensures EdgeCount(nodes, gpus) == nodes * NodeEdgeCount(gpus) + 4 * NodePairs(nodes, nodes)
  {
  }

  lemma PortsOf(n: nat, gpus: nat, ib0: seq<nat>, ib1: seq<nat>)
    requires |ib0| == |ib1| == n
    requires Ports(ClusterVertices(n, gpus), ib0, 0) && Ports(ClusterVertices(n, gpus), ib1, 1)
    ensures var base := |ClusterVertices(n, gpus)|;
      Ports(ClusterVertices(n + 1, gpus), ib0 + [base + gpus + 2], 0)
      && Ports(ClusterVertices(n + 1, gpus), ib1 + [base + gpus + 3], 1)
  {
  }

  method JoinWithLater(g: TopologyGraph, ib0: seq<nat>, ib1: seq<nat>, i: nat, ghost pairs0: set<Pair>)
    returns (ghost pairs: set<Pair>)
    requires i < |ib0| == |ib1| && Ports(g.vertices, ib0, 0) && Ports(g.vertices, ib1, 1)
    requires DistinctLabels(g.vertices) && TwoPorts(g.vertices)
    requires Wiring(g.vertices, g.edges, pairs0) && WiredUpTo(g.vertices, pairs0, i, i + 1)
    modifies g`edges
    ensures Wiring(g.vertices, g.edges, pairs) && WiredUpTo(g.vertices, pairs, i, |ib0|)
    ensures |g.edges| == |old(g.edges)| + 4 * (|ib0| - i - 1)
  {
    hide *;
    pairs := pairs0;
    for j := i + 1 to |ib0|
      invariant Wiring(g.vertices, g.edges, pairs) && WiredUpTo(g.vertices, pairs, i, j)
      invariant |g.edges| == |old(g.edges)| + 4 * (j - i - 1)
    {
      pairs := ConnectNodes(g, ib0, ib1, i, j, pairs);
    }
  }

  method JoinAll(g: TopologyGraph, nodes: nat, gpus: nat, ib0: seq<nat>, ib1: seq<nat>, ghost pairs0: set<Pair>)
    returns (ghost pairs: set<Pair>)
    requires g.vertices == ClusterVertices(nodes, gpus) && DistinctLabels(g.vertices) && TwoPorts(g.vertices)
    requires Wiring(g.vertices, g.edges, pairs0) && WiredUpTo(g.vertices, pairs0, 0, 1)
    requires |ib0| == |ib1| == nodes && Ports(g.vertices, ib0, 0) && Ports(g.vertices, ib1, 1)
    modifies g`edges
    ensures Wiring(g.vertices, g.edges, pairs) && WiredUpTo(g.vertices, pairs, nodes, nodes + 1)
    ensures |g.edges| == |old(g.edges)| + 4 * NodePairs(nodes, nodes)
  {
    hide *;
    pairs := pairs0;
    PairsStep(nodes, 0);
    var i: nat := 0;
    while i < nodes
      invariant i <= nodes
      invariant Wiring(g.vertices, g.edges, pairs) && WiredUpTo(g.vertices, pairs, i, i + 1)
      invariant |g.edges| == |old(g.edges)| + 4 * NodePairs(nodes, i)
    {
      pairs := JoinWithLater(g, ib0, ib1, i, pairs);
      NextNode(nodes, gpus, pairs, i);
      PairsStep(nodes, i);
      i := i + 1;
    }
  }

  method JoinNodes(g: TopologyGraph, nodes: nat, gpus: nat, ib0: seq<nat>, ib1: seq<nat>, ghost pairs0: set<Pair>)
    returns (ghost pairs: set<Pair>)
    requires g.vertices == ClusterVertices(nodes, gpus)
    requires Wiring(g.vertices, g.edges, pairs0) && WiredWithin(g.vertices, pairs0)
    requires |ib0| == |ib1| == nodes && Ports(g.vertices, ib0, 0) && Ports(g.vertices, ib1, 1)
    modifies g`edges
    ensures IsFabric(g.vertices, g.edges) && |g.edges| == |old(g.edges)| + 4 * NodePairs(nodes, nodes)
  {
    hide *;
    ClusterLabels(nodes, gpus);
    WithinIsUpTo(g.vertices, pairs0);
    pairs := JoinAll(g, nodes, gpus, ib0, ib1, pairs0);
    AllNodes(nodes, gpus, g.edges, pairs);
  }

  lemma PairsStep(nodes: nat, i: nat)
    ensures NodePairs(nodes, 0) == 0
    ensures i < nodes ==> NodePairs(nodes, i + 1) == NodePairs(nodes, i) + (nodes - i - 1)
  {
  }

  lemma WithinIsUpTo(vertices: seq<EndpointId>, pairs: set<Pair>)
    requires WiredWithin(vertices, pairs)
    ensures WiredUpTo(vertices, pairs, 0, 1)
  {
    hide CanWire;
  }

  /** All of node i's partners done is none of node i + 1's done. */
  lemma NextNode(nodes: nat, gpus: nat, pairs: set<Pair>, i: nat)
    requires i < nodes && WiredUpTo(ClusterVertices(nodes, gpus), pairs, i, nodes)
    ensures WiredUpTo(ClusterVertices(nodes, gpus), pairs, i + 1, i + 2)
  {
    ClusterLabels(nodes, gpus);
    var vs := ClusterVertices(nodes, gpus);
    forall u: nat | u < |vs| ensures vs[u].node < nodes { assert vs[u] in vs; }
    hide Link, ClusterVertices;
  }

  lemma AllNodes(nodes: nat, gpus: nat, edges: seq<GraphEdge>, pairs: set<Pair>)
    requires Wiring(ClusterVertices(nodes, gpus), edges, pairs)
    requires WiredUpTo(ClusterVertices(nodes, gpus), pairs, nodes, nodes + 1)
    ensures IsFabric(ClusterVertices(nodes, gpus), edges)
  {
    ClusterLabels(nodes, gpus);
    var vs := ClusterVertices(nodes, gpus);
    forall u: nat, v: nat | CanWire(vs, u, v) ensures (u, v) in pairs {
      assert vs[u] in vs && vs[v] in vs;
    }
    hide Link, ClusterVertices, Wiring;
    WiringDone(vs, edges, pairs);
  }
}
