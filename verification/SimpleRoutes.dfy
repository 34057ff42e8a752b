/** On a built cluster the search's weak check against cycles does no harm between nodes: there are
    enough light walks to crowd out every walk that comes back to its source. */
module SimpleRoutes {
  import opened Model
  import opened PathSearch
  import opened Revisits
  import opened Topology
  import opened Cluster
  import opened DualRail
  import opened EngineSpec
  import opened KvRails

  // --------------------------------------------- what coming back costs

  /** No link costs less than an NVLink, and no GPU is linked to itself. */
  lemma LinkFloor(a: EndpointId, b: EndpointId, edge: GraphEdge)
    requires Link(a, b) == Wired(edge.attrs)
    ensures EdgeCost(edge) >= 1112.0 && (a == b ==> a.kind != GPU)
  {
  }

  lemma EdgeFloor(vertices: seq<EndpointId>, edges: seq<GraphEdge>, e: nat)
    requires Sound(vertices, edges) && e < |edges|
    ensures EdgeCost(edges[e]) >= 1112.0
  {
    LinkFloor(vertices[edges[e].src], vertices[edges[e].dst], edges[e]);
  }

  lemma {:induction false} PrefixFloor(vertices: seq<EndpointId>, edges: seq<GraphEdge>, w: seq<nat>, n: nat)
    requires Sound(vertices, edges) && Indexes(edges, w) && n <= |w|
    ensures Indexes(edges, w[..n]) && Cost(edges, w[..n]) >= 1112.0 * n as real
  {
    hide Sound, Cost, EdgeCost;
    CostOfPrefix(edges, w, n);
    if n > 0 {
      PrefixFloor(vertices, edges, w, n - 1);
      EdgeFloor(vertices, edges, w[n - 1]);
    }
  }

  /** What the first n edges cost, and what their end still owes. */
  function Bound(vertices: seq<EndpointId>, q: Query, s: EndpointId, d: EndpointId, w: seq<nat>, n: nat): real
    requires Indexes(q.edges, w) && n <= |w| && Sound(vertices, q.edges) && q.src < |vertices|
  {
    Cost(q.edges, w[..n]) + Potential(s, d, LabelAt(vertices, q, w, n))
  }

  lemma BoundStep(vertices: seq<EndpointId>, q: Query, s: EndpointId, d: EndpointId, w: seq<nat>, n: nat)
    requires Sound(vertices, q.edges) && q.src < |vertices| && TwoNodes(s, d) && Partial(q, w) && n < |w|
    ensures Bound(vertices, q, s, d, w, n) <= Bound(vertices, q, s, d, w, n + 1)
  {
    assert Indexes(q.edges, w);
    hide Partial, Potential, Sound, Hop, LabelAt, Cost, EdgeCost, Link;
    CostOfPrefix(q.edges, w, n + 1);
    StepPays(vertices, q, s, d, w, n);
  }

  /** It never falls along a walk. */
  lemma {:induction false} BoundGrows(vertices: seq<EndpointId>, q: Query, s: EndpointId, d: EndpointId, w: seq<nat>,
                                      from: nat, n: nat)
    requires Sound(vertices, q.edges) && q.src < |vertices| && TwoNodes(s, d) && Partial(q, w) && from <= n <= |w|
    ensures Bound(vertices, q, s, d, w, from) <= Bound(vertices, q, s, d, w, n)
  {
    hide *;
    if n > from {
      BoundGrows(vertices, q, s, d, w, from, n - 1);
      BoundStep(vertices, q, s, d, w, n - 1);
    }
  }

  /** Back at its source after i edges, at least two, a walk owes as much as at first. */
  lemma BackAtCosts(vertices: seq<EndpointId>, q: Query, s: EndpointId, d: EndpointId, w: seq<nat>, i: nat)
    requires Sound(vertices, q.edges) && q.src < |vertices| && TwoNodes(s, d) && Partial(q, w) && 2 <= i <= |w|
    requires LabelAt(vertices, q, w, i) == s && LabelAt(vertices, q, w, |w|) == d
    ensures Cost(q.edges, w) >= 62239.0
  {
    assert Indexes(q.edges, w);
    hide Sound, Partial, LabelAt, Cost, EdgeCost, Link;
    PrefixFloor(vertices, q.edges, w, i);
    BoundGrows(vertices, q, s, d, w, i, |w|);
    assert w[..|w|] == w;
  }

  lemma BackAt(vertices: seq<EndpointId>, q: Query, s: EndpointId, d: EndpointId, w: seq<nat>) returns (i: nat)
    requires Between(vertices, q, s, d) && Admissible(q, w) && ComesBack(q, w)
    ensures Sound(vertices, q.edges) && q.src < |vertices| && TwoNodes(s, d) && Partial(q, w) && 2 <= i <= |w|
    ensures LabelAt(vertices, q, w, i) == s && LabelAt(vertices, q, w, |w|) == d
  {
    hide Link, DistinctLabels, DualRail.Simple, Joined;
    var j :| 0 <= j < |w| && q.edges[w[j]].dst == q.src;
    i := j + 1;
    if j == 0 { NoLoop(vertices, q, s, w); }
  }

  /** A walk that comes back pays for two more links than the cheapest. */
  lemma ComingBackCosts(vertices: seq<EndpointId>, q: Query, s: EndpointId, d: EndpointId, w: seq<nat>)
    requires Between(vertices, q, s, d) && Admissible(q, w) && ComesBack(q, w)
    ensures Cost(q.edges, w) >= 62239.0
  {
    hide *;
    var i := BackAt(vertices, q, s, d, w);
    BackAtCosts(vertices, q, s, d, w, i);
  }

  lemma NoLoop(vertices: seq<EndpointId>, q: Query, s: EndpointId, w: seq<nat>)
    requires Sound(vertices, q.edges) && Partial(q, w) && w != []
    requires q.src < |vertices| && vertices[q.src] == s && s.kind == GPU
    ensures q.edges[w[0]].dst != q.src
  {
    var edge := q.edges[w[0]];
    assert edge.src == VertexAt(q.edges, q.src, w, 0);
    LinkFloor(vertices[edge.src], vertices[edge.dst], edge);
  }

  // --------------------------------------------------------- light walks

  function Port(node: nat, x: nat): EndpointId { EndpointId(node, x, IBPort) }

  /** The walk goes out over rail j % 2, straight from its source or by way of GPU j / 2. */
  predicate Marked(vertices: seq<EndpointId>, q: Query, s: EndpointId, j: nat, w: seq<nat>)
    requires Indexes(q.edges, w) && Sound(vertices, q.edges)
  {
    |w| >= 3
    && if j / 2 == s.local then vertices[q.edges[w[0]].dst] == Port(s.node, j % 2)
       else vertices[q.edges[w[0]].dst] == EndpointId(s.node, j / 2, GPU)
            && vertices[q.edges[w[1]].dst] == Port(s.node, j % 2)
  }

  ghost predicate Light(vertices: seq<EndpointId>, q: Query, s: EndpointId, j: nat, w: seq<nat>) {
    && Admissible(q, w) && Sound(vertices, q.edges)
    && Cost(q.edges, w) < 62239.0 && Marked(vertices, q, s, j, w)
  }

  /** GPU j / 2 and port j % 2 are there, on the source's node. */
  predicate HasWay(vertices: seq<EndpointId>, s: EndpointId, d: EndpointId, j: nat) {
    && EndpointId(s.node, j / 2, GPU) in vertices
    && Port(s.node, j % 2) in vertices && Port(d.node, j % 2) in vertices
  }

  lemma EdgeBetween(vertices: seq<EndpointId>, edges: seq<GraphEdge>, a: EndpointId, b: EndpointId)
    returns (e: nat)
    requires IsFabric(vertices, edges) && a in vertices && b in vertices && Link(a, b).Wired?
    ensures e < |edges| && edges[e].src < |vertices| && edges[e].dst < |vertices|
    ensures vertices[edges[e].src] == a && vertices[edges[e].dst] == b && Link(a, b) == Wired(edges[e].attrs)
  {
    var u: nat :| u < |vertices| && vertices[u] == a;
    var v: nat :| v < |vertices| && vertices[v] == b;
    assert Joined(edges, u, v);
    e :| e < |edges| && Joins(edges, e, u, v);
  }

  /** Vertices with one label are one vertex. */
  lemma OneVertex(vertices: seq<EndpointId>, u: nat, v: nat)
    requires DistinctLabels(vertices) && u < |vertices| && v < |vertices|
    ensures vertices[u] == vertices[v] <==> u == v
  {
  }

  lemma CostOfFour(edges: seq<GraphEdge>, p: seq<nat>)
    requires Indexes(edges, p) && |p| == 4
    ensures Cost(edges, p)
      == EdgeCost(edges[p[0]]) + EdgeCost(edges[p[1]]) + EdgeCost(edges[p[2]]) + EdgeCost(edges[p[3]])
  {
    var t := p[..3];
    assert forall i :: 0 <= i < 3 ==> t[i] == p[i];
    CostOfThree(edges, t);
  }

  lemma FourHops(q: Query, p: seq<nat>)
    requires Indexes(q.edges, p) && |p| == 4 && q.hops >= 4
    requires q.edges[p[0]].src == q.src && q.edges[p[0]].dst == q.edges[p[1]].src
    requires q.edges[p[1]].dst == q.edges[p[2]].src && q.edges[p[2]].dst == q.edges[p[3]].src
    requires q.edges[p[3]].dst == q.dst && q.src != q.dst
    requires q.edges[p[0]].dst != q.dst && q.edges[p[1]].dst != q.dst && q.edges[p[2]].dst != q.dst
    requires q.edges[p[0]].dst != q.edges[p[1]].dst && q.edges[p[1]].dst != q.edges[p[2]].dst
    requires q.edges[p[0]].dst != q.edges[p[2]].dst
    ensures Admissible(q, p)
  {
    forall i | 0 <= i < 4
      ensures q.edges[p[i]].src == VertexAt(q.edges, q.src, p, i) != q.dst
    {
      assert i == 0 || i == 1 || i == 2 || i == 3;
    }
    forall i, j | 0 <= i < j < 4 ensures q.edges[p[i]].dst != q.edges[p[j]].dst {
      assert (i == 0 && (j == 1 || j == 2 || j == 3)) || (i == 1 && (j == 2 || j == 3)) || (i == 2 && j == 3);
    }
  }

  /** One NVLink to another GPU of the node, and out over rail x from there. */
  lemma ByWayOf(vertices: seq<EndpointId>, q: Query, s: EndpointId, d: EndpointId, j: nat) returns (w: seq<nat>)
    requires Between(vertices, q, s, d) && q.hops >= 4 && HasWay(vertices, s, d, j) && j / 2 != s.local
    ensures Light(vertices, q, s, j, w)
  {
    var b, out, over := EndpointId(s.node, j / 2, GPU), Port(s.node, j % 2), Port(d.node, j % 2);
    var e0 := EdgeBetween(vertices, q.edges, s, b);
    var e1 := EdgeBetween(vertices, q.edges, b, out);
    var e2 := EdgeBetween(vertices, q.edges, out, over);
    var e3 := EdgeBetween(vertices, q.edges, over, d);
    w := [e0, e1, e2, e3];
    assert EdgeCost(q.edges[e0]) < 2000.0 && EdgeCost(q.edges[e1]) == 20005.0;
    assert EdgeCost(q.edges[e2]) == EdgeCost(q.edges[e3]) == 20005.0;
    assert Sound(vertices, q.edges) && DistinctLabels(vertices);
    hide IsFabric, Sound, Link, EdgeCost, DistinctLabels;
    CostOfFour(q.edges, w);
    OneVertex(vertices, q.edges[e0].src, q.src);
    OneVertex(vertices, q.edges[e0].dst, q.edges[e1].src);
    OneVertex(vertices, q.edges[e1].dst, q.edges[e2].src);
    OneVertex(vertices, q.edges[e2].dst, q.edges[e3].src);
    OneVertex(vertices, q.edges[e3].dst, q.dst);
    FourHops(q, w);
  }

  lemma LightWalk(vertices: seq<EndpointId>, q: Query, s: EndpointId, d: EndpointId, j: nat) returns (w: seq<nat>)
    requires Between(vertices, q, s, d) && q.hops >= 4 && HasWay(vertices, s, d, j)
    ensures Light(vertices, q, s, j, w)
  {
    if j / 2 == s.local {
      w := RailPathExists(vertices, q, s, d, j % 2);
      RailPathAdmissible(vertices, q, s, d, j % 2, w);
    } else {
      w := ByWayOf(vertices, q, s, d, j);
    }
  }

  /** Different ways are different walks. */
  lemma WaysDiffer(vertices: seq<EndpointId>, q: Query, s: EndpointId, i: nat, j: nat, w: seq<nat>)
    requires s.kind == GPU && i != j
    requires Light(vertices, q, s, i, w)
    ensures !Light(vertices, q, s, j, w)
  {
    hide Admissible, Cost;
    assert i == i / 2 * 2 + i % 2 && j == j / 2 * 2 + j % 2;
  }

  lemma {:induction false} LightWalks(vertices: seq<EndpointId>, q: Query, s: EndpointId, d: EndpointId, n: nat)
    returns (ws: seq<seq<nat>>)
    requires Between(vertices, q, s, d) && q.hops >= 4 && forall j: nat :: j < n ==> HasWay(vertices, s, d, j)
    ensures |ws| == n && forall j :: 0 <= j < n ==> Light(vertices, q, s, j, ws[j])
  {
    hide Light, Between, HasWay;
    if n == 0 {
      ws := [];
    } else {
      ws := LightWalks(vertices, q, s, d, n - 1);
      var w := LightWalk(vertices, q, s, d, n - 1);
      ws := ws + [w];
    }
  }

  /** With as many ways as paths asked for, a walk that comes back is outdone. */
  lemma ComingBackIsOutdone(vertices: seq<EndpointId>, q: Query, s: EndpointId, d: EndpointId, k: nat, w: seq<nat>)
    requires Between(vertices, q, s, d) && q.hops >= 4 && forall j: nat :: j < k ==> HasWay(vertices, s, d, j)
    requires Admissible(q, w) && ComesBack(q, w)
    ensures Outdone(q, k, ByCost, w)
  {
    var ws := LightWalks(vertices, q, s, d, k);
    ComingBackCosts(vertices, q, s, d, w);
    assert s.kind == GPU && Indexes(q.edges, w);
    hide Between, ComesBack, Marked, Cost, Sound, Partial, HasWay;
    forall i, j | 0 <= i < j < k ensures ws[i] != ws[j] {
      if ws[i] == ws[j] { WaysDiffer(vertices, q, s, i, j, ws[i]); }
    }
    assert Outdoes(q, k, ByCost, w, ws);
  }

  // ------------------------------------------------------------- cluster

  lemma ClusterWays(f: Fabric, req: TransferRequest, nodes: nat, gpus: nat, j: nat)
    requires BuiltCluster(f, nodes, gpus) && GpuOf(req.source, nodes, gpus) && GpuOf(req.dest, nodes, gpus)
    requires j < 2 * gpus
    ensures HasWay(f.vertices, req.source, req.dest, j)
  {
    hide IsFabric, ClusterVertices;
    ClusterHas(nodes, gpus, EndpointId(req.source.node, j / 2, GPU));
    ClusterHas(nodes, gpus, Port(req.source.node, j % 2));
    ClusterHas(nodes, gpus, Port(req.dest.node, j % 2));
  }

  /** On a built cluster with two ways out for each path asked for, no candidate between GPUs of
      different nodes is at a vertex twice. */
  lemma CandidatesAreSimple(f: Fabric, req: TransferRequest, cands: seq<seq<nat>>, nodes: nat, gpus: nat, p: seq<nat>)
    requires BuiltCluster(f, nodes, gpus) && GpuOf(req.source, nodes, gpus) && GpuOf(req.dest, nodes, gpus)
    requires req.source.node != req.dest.node && f.k <= 2 * gpus && f.hops >= 4
    requires CandidatesOf(f, req, cands) && p in cands
    ensures Admissible(QueryOf(f, req), p) && !Repeats(QueryOf(f, req), p)
  {
    var q := QueryOf(f, req);
    CandidateAdmissible(f, req, cands, p);
    RequestBetween(f, req, nodes, gpus);
    var all :| FlexOf(f, req, all, cands);
    FilterIs(f.edges, req.cls, all, p);
    RevisitsIff(q, p);
    FabricSound(f.vertices, f.edges);
    FabricPhysical(f.vertices, f.edges);
    hide FindVertex, BuiltCluster, KBest, Admissible, Repeats, Between, FlexOf, CandidatesOf;
    if ComesBack(q, p) {
      hide ComesBack;
      forall j: nat | j < f.k ensures HasWay(f.vertices, req.source, req.dest, j) {
        ClusterWays(f, req, nodes, gpus, j);
      }
      ComingBackIsOutdone(f.vertices, q, req.source, req.dest, f.k, p);
      OutdoneIsOut(q, f.k, ByCost, all, p);
    }
  }
}
