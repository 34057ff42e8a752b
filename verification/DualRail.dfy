/** The fabric that the builders wire, and why a KV stripe between two nodes always has both
    IB rails among its candidates. */
module DualRail {
  import opened Model
  import opened PathSearch

  datatype Wire = NoWire | Wired(attrs: EdgeAttributes)

  /** The wiring rule: which link, if any, joins two labelled endpoints. */
  function Link(a: EndpointId, b: EndpointId): Wire {
    if a.node == b.node then
      match (a.kind, b.kind)
      case (GPU, GPU) => if a.local != b.local then Wired(DefaultFabricAttrs(NVLink, -1)) else NoWire
      case (GPU, CPU) => Wired(DefaultFabricAttrs(PCIe, -1))
      case (CPU, GPU) => Wired(DefaultFabricAttrs(PCIe, -1))
      case (GPU, CXLController) => Wired(DefaultFabricAttrs(CXL, -1))
      case (CXLController, GPU) => Wired(DefaultFabricAttrs(CXL, -1))
      case (GPU, IBPort) => Wired(DefaultFabricAttrs(InfiniBand, b.local))
      case (IBPort, GPU) => Wired(DefaultFabricAttrs(InfiniBand, a.local))
      case (CPU, IBPort) => Wired(DefaultFabricAttrs(PCIe, -1))
      case (IBPort, CPU) => Wired(DefaultFabricAttrs(PCIe, -1))
      case _ => NoWire
    else if a.kind == IBPort && b.kind == IBPort && a.local == b.local then
      Wired(DefaultFabricAttrs(InfiniBand, a.local))
    else NoWire
  }

  predicate DistinctLabels(vertices: seq<EndpointId>) {
    forall u, v :: 0 <= u < v < |vertices| ==> vertices[u] != vertices[v]
  }

  /** Every edge follows the rule. */
  predicate Sound(vertices: seq<EndpointId>, edges: seq<GraphEdge>) {
    forall e :: 0 <= e < |edges| ==>
      && edges[e].src < |vertices| && edges[e].dst < |vertices|
      && Link(vertices[edges[e].src], vertices[edges[e].dst]) == Wired(edges[e].attrs)
  }

  predicate Simple(edges: seq<GraphEdge>) {
    forall e, f :: 0 <= e < f < |edges| ==> !(edges[e].src == edges[f].src && edges[e].dst == edges[f].dst)
  }

  predicate Joins(edges: seq<GraphEdge>, e: nat, u: nat, v: nat) {
    e < |edges| && edges[e].src == u && edges[e].dst == v
  }

  predicate Joined(edges: seq<GraphEdge>, u: nat, v: nat) { exists e: nat :: e < |edges| && Joins(edges, e, u, v) }

  /** The edges are in bijection with the ordered pairs of vertices the rule links. */
  ghost predicate IsFabric(vertices: seq<EndpointId>, edges: seq<GraphEdge>) {
    && DistinctLabels(vertices)
    && Sound(vertices, edges)
    && Simple(edges)
    && forall u: nat, v: nat :: u < |vertices| && v < |vertices| && Link(vertices[u], vertices[v]).Wired?
         ==> Joined(edges, u, v)
  }

  lemma FabricPhysical(vertices: seq<EndpointId>, edges: seq<GraphEdge>)
    requires Sound(vertices, edges)
    ensures Physical(edges)
  {
    forall e | 0 <= e < |edges| ensures edges[e].attrs.bandwidth > 0.0 && edges[e].attrs.latency >= 0.0 {
      assert Link(vertices[edges[e].src], vertices[edges[e].dst]) == Wired(edges[e].attrs);
    }
  }

  // -------------------------------------------- a potential for the walk cost

  /** A lower bound on what is still to pay from `at` when going from s to d. */
  function Potential(s: EndpointId, d: EndpointId, at: EndpointId): real {
    if at.node == d.node then
      match at.kind
      case GPU => if at == d then 0.0 else 1.0
      case IBPort => 20005.0
      case _ => 10000.0
    else if at.node == s.node then
      match at.kind
      case GPU => if at == s then 60015.0 else 59500.0
      case IBPort => 40010.0
      case _ => 50000.0
    else 30000.0
  }

  /** The three hops of a rail path: GPU to its port, port to port, port to GPU. */
  predicate RailHop(s: EndpointId, d: EndpointId, a: EndpointId, b: EndpointId) {
    || (a == s && b.node == s.node && b.kind == IBPort)
    || (a.node == s.node && a.kind == IBPort && b.node == d.node && b.kind == IBPort && a.local == b.local)
    || (a.node == d.node && a.kind == IBPort && b == d)
  }

  predicate TwoNodes(s: EndpointId, d: EndpointId) { s.kind == GPU && d.kind == GPU && s.node != d.node }

  /** No link undercuts the potential, and only rail hops meet it. */
  lemma LinkPays(s: EndpointId, d: EndpointId, a: EndpointId, b: EndpointId, edge: GraphEdge)
    requires TwoNodes(s, d) && Link(a, b) == Wired(edge.attrs)
    ensures edge.attrs.bandwidth > 0.0
    ensures EdgeCost(edge) >= Potential(s, d, a) - Potential(s, d, b)
    ensures !RailHop(s, d, a, b) ==> EdgeCost(edge) > Potential(s, d, a) - Potential(s, d, b)
  {
  }

  function LabelAt(vertices: seq<EndpointId>, q: Query, w: seq<nat>, i: nat): EndpointId
    requires Indexes(q.edges, w) && i <= |w| && Sound(vertices, q.edges) && q.src < |vertices|
  {
    assert i > 0 ==> w[i - 1] < |q.edges|;
    vertices[VertexAt(q.edges, q.src, w, i)]
  }

  predicate Hop(vertices: seq<EndpointId>, q: Query, s: EndpointId, d: EndpointId, w: seq<nat>, i: nat)
    requires Indexes(q.edges, w) && i < |w| && Sound(vertices, q.edges) && q.src < |vertices|
  {
    RailHop(s, d, LabelAt(vertices, q, w, i), LabelAt(vertices, q, w, i + 1))
  }

  lemma StepPays(vertices: seq<EndpointId>, q: Query, s: EndpointId, d: EndpointId, w: seq<nat>, i: nat)
    requires Sound(vertices, q.edges) && q.src < |vertices| && TwoNodes(s, d)
    requires Partial(q, w) && i < |w|
    ensures var paid, owed := EdgeCost(q.edges[w[i]]),
                Potential(s, d, LabelAt(vertices, q, w, i)) - Potential(s, d, LabelAt(vertices, q, w, i + 1));
      paid >= owed && (paid == owed ==> Hop(vertices, q, s, d, w, i))
  {
    var edge := q.edges[w[i]];
    assert edge.src == VertexAt(q.edges, q.src, w, i) && edge.dst == VertexAt(q.edges, q.src, w, i + 1);
    assert Link(vertices[edge.src], vertices[edge.dst]) == Wired(edge.attrs);
    hide Link, Potential, RailHop, Partial, Sound, Physical;
    LinkPays(s, d, LabelAt(vertices, q, w, i), LabelAt(vertices, q, w, i + 1), edge);
  }

  lemma {:induction false} WalkPays(vertices: seq<EndpointId>, q: Query, s: EndpointId, d: EndpointId,
                                    w: seq<nat>, n: nat)
    requires Sound(vertices, q.edges) && q.src < |vertices| && TwoNodes(s, d)
    requires Partial(q, w) && n <= |w|
    ensures Indexes(q.edges, w[..n])
    ensures var owed := Potential(s, d, LabelAt(vertices, q, w, 0)) - Potential(s, d, LabelAt(vertices, q, w, n));
      && Cost(q.edges, w[..n]) >= owed
      && (Cost(q.edges, w[..n]) == owed ==> forall i :: 0 <= i < n ==> Hop(vertices, q, s, d, w, i))
  {
    assert Indexes(q.edges, w);
    hide Partial, Potential, Sound, Physical, Hop, LabelAt, Cost, Link;
    CostOfPrefix(q.edges, w, n);
    if n > 0 {
      WalkPays(vertices, q, s, d, w, n - 1);
      StepPays(vertices, q, s, d, w, n - 1);
    }
  }

  lemma CostOfPrefix(edges: seq<GraphEdge>, w: seq<nat>, n: nat)
    requires Indexes(edges, w) && n <= |w|
    ensures Indexes(edges, w[..n]) && (n == 0 ==> Cost(edges, w[..n]) == 0.0)
    ensures n > 0 ==>
      (Indexes(edges, w[..n - 1]) && Cost(edges, w[..n]) == Cost(edges, w[..n - 1]) + EdgeCost(edges[w[n - 1]]))
  {
    if n > 0 { assert w[..n][..n - 1] == w[..n - 1]; }
  }

  // ------------------------------------------------------------ rail paths

  /** The three-edge path over rail x. */
  predicate RailPath(vertices: seq<EndpointId>, edges: seq<GraphEdge>, s: EndpointId, d: EndpointId,
                     x: nat, p: seq<nat>)
    requires Sound(vertices, edges)
  {
    && |p| == 3 && Indexes(edges, p)
    && vertices[edges[p[0]].src] == s
    && vertices[edges[p[0]].dst] == EndpointId(s.node, x, IBPort) == vertices[edges[p[1]].src]
    && vertices[edges[p[1]].dst] == EndpointId(d.node, x, IBPort) == vertices[edges[p[2]].src]
    && vertices[edges[p[2]].dst] == d
  }

  /** A node's IB ports are numbered 0 and 1. */
  predicate TwoPorts(vertices: seq<EndpointId>) {
    forall i :: 0 <= i < |vertices| && vertices[i].kind == IBPort ==> vertices[i].local < 2
  }

  ghost predicate Between(vertices: seq<EndpointId>, q: Query, s: EndpointId, d: EndpointId) {
    && IsFabric(vertices, q.edges)
    && TwoNodes(s, d)
    && q.src < |vertices| && vertices[q.src] == s
    && q.dst < |vertices| && vertices[q.dst] == d
  }

  lemma RailPathExists(vertices: seq<EndpointId>, q: Query, s: EndpointId, d: EndpointId, x: nat) returns (p: seq<nat>)
    requires Between(vertices, q, s, d)
    requires EndpointId(s.node, x, IBPort) in vertices && EndpointId(d.node, x, IBPort) in vertices
    ensures RailPath(vertices, q.edges, s, d, x, p)
  {
    var a: nat :| a < |vertices| && vertices[a] == EndpointId(s.node, x, IBPort);
    var b: nat :| b < |vertices| && vertices[b] == EndpointId(d.node, x, IBPort);
    assert Joined(q.edges, q.src, a) && Joined(q.edges, a, b) && Joined(q.edges, b, q.dst);
    var e0: nat :| e0 < |q.edges| && Joins(q.edges, e0, q.src, a);
    var e1: nat :| e1 < |q.edges| && Joins(q.edges, e1, a, b);
    var e2: nat :| e2 < |q.edges| && Joins(q.edges, e2, b, q.dst);
    p := [e0, e1, e2];
  }

  lemma RailPathWalk(vertices: seq<EndpointId>, q: Query, s: EndpointId, d: EndpointId, x: nat, p: seq<nat>)
    requires Between(vertices, q, s, d) && RailPath(vertices, q.edges, s, d, x, p)
    ensures q.edges[p[0]].src == q.src && q.edges[p[0]].dst == q.edges[p[1]].src
    ensures q.edges[p[1]].dst == q.edges[p[2]].src && q.edges[p[2]].dst == q.dst
    ensures q.edges[p[0]].dst != q.dst && q.edges[p[1]].dst != q.dst && q.src != q.dst
    ensures q.edges[p[0]].dst != q.edges[p[1]].dst
  {
    hide Simple, Link;
  }

  lemma RailPathCosts(vertices: seq<EndpointId>, edges: seq<GraphEdge>, s: EndpointId, d: EndpointId, x: nat,
                      p: seq<nat>)
    requires Sound(vertices, edges) && TwoNodes(s, d) && RailPath(vertices, edges, s, d, x, p)
    ensures forall i :: 0 <= i < 3 ==>
      edges[p[i]].attrs == DefaultFabricAttrs(InfiniBand, x) && EdgeCost(edges[p[i]]) == 20005.0
  {
    forall i | 0 <= i < 3 ensures edges[p[i]].attrs == DefaultFabricAttrs(InfiniBand, x) {
      assert Link(vertices[edges[p[i]].src], vertices[edges[p[i]].dst]) == Wired(edges[p[i]].attrs);
    }
  }

  lemma CostOfThree(edges: seq<GraphEdge>, p: seq<nat>)
    requires Indexes(edges, p) && |p| == 3
    ensures Cost(edges, p) == EdgeCost(edges[p[0]]) + EdgeCost(edges[p[1]]) + EdgeCost(edges[p[2]])
  {
    assert p[..2][..1] == p[..1] && p[..1][..0] == [];
    assert Cost(edges, p[..1]) == EdgeCost(edges[p[0]]);
    assert Cost(edges, p[..2]) == Cost(edges, p[..1]) + EdgeCost(edges[p[1]]);
  }

  lemma RailPathAdmissible(vertices: seq<EndpointId>, q: Query, s: EndpointId, d: EndpointId, x: nat, p: seq<nat>)
    requires Between(vertices, q, s, d) && q.hops >= 3 && RailPath(vertices, q.edges, s, d, x, p)
    ensures Admissible(q, p)
    ensures Physical(q.edges) && Cost(q.edges, p) == 60015.0
  {
    hide Sound, Physical, Simple, DistinctLabels, Admissible, Link;
    FabricPhysical(vertices, q.edges);
    RailPathWalk(vertices, q, s, d, x, p);
    RailPathCosts(vertices, q.edges, s, d, x, p);
    CostOfThree(q.edges, p);
    ThreeHops(q, p);
  }

  lemma ThreeHops(q: Query, p: seq<nat>)
    requires Indexes(q.edges, p) && |p| == 3 && q.hops >= 3
    requires q.edges[p[0]].src == q.src && q.edges[p[0]].dst == q.edges[p[1]].src
    requires q.edges[p[1]].dst == q.edges[p[2]].src && q.edges[p[2]].dst == q.dst
    requires q.edges[p[0]].dst != q.dst && q.edges[p[1]].dst != q.dst && q.src != q.dst
    requires q.edges[p[0]].dst != q.edges[p[1]].dst
    ensures Admissible(q, p)
  {
    forall i | 0 <= i < 3
      ensures q.edges[p[i]].src == VertexAt(q.edges, q.src, p, i) != q.dst
    {
      assert i == 0 || i == 1 || i == 2;
    }
    forall i, j | 0 <= i < j < 3 ensures q.edges[p[i]].dst != q.edges[p[j]].dst {
      assert (i == 0 && j == 1) || (i == 0 && j == 2) || (i == 1 && j == 2);
    }
  }

  lemma SameEdge(vertices: seq<EndpointId>, edges: seq<GraphEdge>, e: nat, f: nat)
    requires IsFabric(vertices, edges) && e < |edges| && f < |edges|
    requires vertices[edges[e].src] == vertices[edges[f].src] && vertices[edges[e].dst] == vertices[edges[f].dst]
    ensures e == f
  {
    assert edges[e].src < |vertices| && edges[e].dst < |vertices|;
    assert edges[e].src == edges[f].src && edges[e].dst == edges[f].dst;
  }

  lemma RailPathUnique(vertices: seq<EndpointId>, edges: seq<GraphEdge>, s: EndpointId, d: EndpointId, x: nat,
                       p: seq<nat>, r: seq<nat>)
    requires IsFabric(vertices, edges)
    requires RailPath(vertices, edges, s, d, x, p) && RailPath(vertices, edges, s, d, x, r)
    ensures p == r
  {
    hide IsFabric, Sound;
    SameEdge(vertices, edges, p[0], r[0]);
    SameEdge(vertices, edges, p[1], r[1]);
    SameEdge(vertices, edges, p[2], r[2]);
  }

  /** A walk between GPUs of two nodes costs at least 60015, and a walk that costs no more
      is the path over one of the rails. */
  lemma CheapestAreRails(vertices: seq<EndpointId>, q: Query, s: EndpointId, d: EndpointId, w: seq<nat>)
    requires Between(vertices, q, s, d) && Admissible(q, w)
    ensures Cost(q.edges, w) >= 60015.0
    ensures Cost(q.edges, w) == 60015.0 ==> exists x: nat :: RailPath(vertices, q.edges, s, d, x, w)
  {
    WalkPays(vertices, q, s, d, w, |w|);
    assert w[..|w|] == w;
    if Cost(q.edges, w) == 60015.0 {
      HopsAreRail(vertices, q, s, d, w);
    }
  }

  lemma HopsAreRail(vertices: seq<EndpointId>, q: Query, s: EndpointId, d: EndpointId, w: seq<nat>)
    requires Between(vertices, q, s, d) && Admissible(q, w)
    requires forall i :: 0 <= i < |w| ==> Hop(vertices, q, s, d, w, i)
    ensures exists x: nat :: RailPath(vertices, q.edges, s, d, x, w)
  {
    assert LabelAt(vertices, q, w, 0) == s && |w| > 0;
    assert Hop(vertices, q, s, d, w, 0);
    var a := LabelAt(vertices, q, w, 1);
    assert VertexAt(q.edges, q.src, w, 1) != q.dst && |w| > 1;
    assert Hop(vertices, q, s, d, w, 1);
    var b := LabelAt(vertices, q, w, 2);
    assert VertexAt(q.edges, q.src, w, 2) != q.dst && |w| > 2;
    assert Hop(vertices, q, s, d, w, 2);
    assert LabelAt(vertices, q, w, 3) == d;
    assert VertexAt(q.edges, q.src, w, 3) == q.dst && |w| == 3;
    assert RailPath(vertices, q.edges, s, d, a.local, w);
  }

  /** Dual-rail guarantee: with k >= 2 and at least three hops allowed, the k best walks contain
      the path over rail 0 and the path over rail 1, whatever the search's tie order. */
  lemma BothRailsFound(vertices: seq<EndpointId>, q: Query, s: EndpointId, d: EndpointId, k: nat,
                       res: seq<seq<nat>>, x: nat, p: seq<nat>)
    requires Between(vertices, q, s, d) && q.hops >= 3 && k >= 2
    requires KBest(q, k, ByCost, res) && RailPath(vertices, q.edges, s, d, x, p)
    requires TwoPorts(vertices)
    ensures p in res
  {
    RailPathAdmissible(vertices, q, s, d, x, p);
    if p !in res {
      LightResultsAreRails(q, k, res, p);
      hide *;
      OnlyTwoRails(vertices, q, s, d, x, p, res[0], res[1]);
    }
  }

  /** Besides p there is one other cheapest walk. */
  lemma OnlyTwoRails(vertices: seq<EndpointId>, q: Query, s: EndpointId, d: EndpointId, x: nat,
                     p: seq<nat>, r0: seq<nat>, r1: seq<nat>)
    requires Between(vertices, q, s, d) && TwoPorts(vertices)
    requires RailPath(vertices, q.edges, s, d, x, p) && Cost(q.edges, p) == 60015.0
    requires Admissible(q, r0) && Admissible(q, r1) && r0 != p && r0 != r1
    requires Cost(q.edges, r0) <= Cost(q.edges, p) && Cost(q.edges, r1) <= Cost(q.edges, p)
    ensures r1 == p
  {
    hide RailPath, IsFabric, Sound, Admissible, Cost;
    if r1 != p {
      OtherRail(vertices, q, s, d, x, p, r0);
      OtherRail(vertices, q, s, d, x, p, r1);
      RailPathUnique(vertices, q.edges, s, d, 1 - x, r0, r1);
    }
  }

  /** If a walk of weight 60015 is missing, every result weighs no more than it. */
  lemma LightResultsAreRails(q: Query, k: nat, res: seq<seq<nat>>, p: seq<nat>)
    requires Physical(q.edges) && KBest(q, k, ByCost, res) && k >= 2 && Admissible(q, p) && p !in res
    ensures |res| == k && res[0] != res[1]
    ensures forall i :: 0 <= i < 2 ==> res[i] != p && Admissible(q, res[i]) && Cost(q.edges, res[i]) <= Cost(q.edges, p)
  {
    assert Weight(q, ByCost, res[k - 1]) <= Weight(q, ByCost, p);
    forall i | 0 <= i < 2
      ensures res[i] != p && Admissible(q, res[i]) && Cost(q.edges, res[i]) <= Cost(q.edges, p)
    {
      assert res[i] in res && Weight(q, ByCost, res[i]) <= Weight(q, ByCost, res[k - 1]);
    }
  }

  lemma OtherRail(vertices: seq<EndpointId>, q: Query, s: EndpointId, d: EndpointId, x: nat, p: seq<nat>, r: seq<nat>)
    requires Between(vertices, q, s, d) && TwoPorts(vertices)
    requires RailPath(vertices, q.edges, s, d, x, p) && Cost(q.edges, p) == 60015.0
    requires Admissible(q, r) && r != p && Cost(q.edges, r) <= Cost(q.edges, p)
    ensures x < 2 && RailPath(vertices, q.edges, s, d, 1 - x, r)
  {
    CheapestAreRails(vertices, q, s, d, r);
    var y: nat :| RailPath(vertices, q.edges, s, d, y, r);
    assert vertices[q.edges[p[0]].dst] in vertices && vertices[q.edges[r[0]].dst] in vertices;
    if y == x { RailPathUnique(vertices, q.edges, s, d, x, p, r); }
  }
}
