/** The topology graph object: vertices, edges, the lazy path cache and the search behind it. */
module Topology {
  import opened Model
  import opened PathSearch

  /** Index of the first vertex with this label, or NO_VERTEX. */
  function FindVertex(vertices: seq<EndpointId>, ep: EndpointId): nat {
    if exists i :: 0 <= i < |vertices| && vertices[i] == ep then FirstIndex(vertices, ep) else NO_VERTEX
  }

  function FirstIndex(vertices: seq<EndpointId>, ep: EndpointId): (r: nat)
    requires exists i :: 0 <= i < |vertices| && vertices[i] == ep
    ensures r < |vertices| && vertices[r] == ep && forall i :: 0 <= i < r ==> vertices[i] != ep
  {
    if vertices[0] == ep then 0
    else
      var i :| 0 <= i < |vertices| && vertices[i] == ep;
      assert vertices[1..][i - 1] == ep;
      var r := FirstIndex(vertices[1..], ep);
      assert forall j :: 0 < j < 1 + r ==> vertices[j] == vertices[1..][j - 1];
      1 + r
  }

  /** path_key on its 64-bit operands. */
  function PathKeyBits(src: bv64, dst: bv64): bv64 { (src << 32) | dst }

  const WORD: nat := 0x1_0000_0000

  /** The number path_key packs a pair of 32-bit indices into. */
  function PathKey(src: nat, dst: nat): nat { src * WORD + dst }

  /** On 32-bit operands the shift-or is that multiply-add. */
  lemma ShiftOrIsMulAdd(src: bv64, dst: bv64)
    requires src <= 0xFFFF_FFFF && dst <= 0xFFFF_FFFF
    ensures PathKeyBits(src, dst) == src * 0x1_0000_0000 + dst
  {
  }

  /** path_key is injective on all pairs of 32-bit indices, in bits and in numbers. */
  lemma PathKeyInjective(a: nat, b: nat, c: nat, d: nat)
    requires b < WORD && d < WORD && PathKey(a, b) == PathKey(c, d)
    ensures a == c && b == d
  {
    assert (a - c) * WORD == d - b;
  }

  // ------------------------------------------------ what a new edge does

  /** Every admissible walk over the edge numbered e is beaten: k results are in, and (where weights
      are monotone) none of them costs more. */
  ghost predicate EdgeLoses(q: Query, e: nat, k: nat, res: seq<seq<nat>>)
    requires AllAdmissible(q, res)
  {
    forall w: seq<nat> :: Admissible(q, w) && e in w ==>
      |res| == k && (Monotone(q, ByCost) && res != [] ==> Weight(q, ByCost, res[|res| - 1]) <= Weight(q, ByCost, w))
  }

  function Grown(q: Query, edge: GraphEdge): Query { q.(edges := q.edges + [edge]) }

  /** Walks over the old edges are what they were. */
  lemma OldWalks(q: Query, edge: GraphEdge, w: seq<nat>)
    ensures Admissible(q, w) <==> Admissible(Grown(q, edge), w) && |q.edges| !in w
  {
    var g := Grown(q, edge);
    if Indexes(q.edges, w) {
      assert forall i :: 0 <= i < |w| ==> g.edges[w[i]] == q.edges[w[i]];
      assert forall i :: 0 <= i <= |w| ==> VertexAt(g.edges, q.src, w, i) == VertexAt(q.edges, q.src, w, i);
    }
  }

  lemma {:induction false} OldCost(q: Query, edge: GraphEdge, w: seq<nat>)
    requires Indexes(q.edges, w)
    ensures Indexes(Grown(q, edge).edges, w) && Cost(Grown(q, edge).edges, w) == Cost(q.edges, w)
  {
    if w != [] { OldCost(q, edge, w[..|w| - 1]); }
  }

  lemma OldAnswer(q: Query, edge: GraphEdge, res: seq<seq<nat>>)
    requires AllAdmissible(q, res)
    ensures AllAdmissible(Grown(q, edge), res)
    ensures forall i :: 0 <= i < |res| ==>
      |q.edges| !in res[i] && Weight(Grown(q, edge), ByCost, res[i]) == Weight(q, ByCost, res[i])
  {
    forall i | 0 <= i < |res|
      ensures Admissible(Grown(q, edge), res[i]) && |q.edges| !in res[i]
      ensures Cost(Grown(q, edge).edges, res[i]) == Cost(q.edges, res[i])
    {
      assert Admissible(q, res[i]);
      OldWalks(q, edge, res[i]);
      OldCost(q, edge, res[i]);
    }
  }

  /** Adding an edge leaves an answer one of the k best if and only if every walk over the new
      edge is beaten by it. */
  lemma StillBestIff(q: Query, edge: GraphEdge, k: nat, res: seq<seq<nat>>)
    requires KBest(q, k, ByCost, res)
    ensures AllAdmissible(Grown(q, edge), res)
    ensures KBest(Grown(q, edge), k, ByCost, res) <==> EdgeLoses(Grown(q, edge), |q.edges|, k, res)
  {
    var g := Grown(q, edge);
    OldAnswer(q, edge, res);
    assert Physical(g.edges) ==> Physical(q.edges) by {
      assert forall e :: 0 <= e < |q.edges| ==> g.edges[e] == q.edges[e];
    }
    if EdgeLoses(g, |q.edges|, k, res) {
      forall w: seq<nat> | Admissible(g, w) && w !in res
        ensures |res| == k
          && (Monotone(g, ByCost) && res != [] ==> Weight(g, ByCost, res[|res| - 1]) <= Weight(g, ByCost, w))
      {
        if |q.edges| !in w { OldBeaten(q, edge, k, res, w); }
      }
    }
    hide Admissible, Physical, Weight;
  }

  lemma OldBeaten(q: Query, edge: GraphEdge, k: nat, res: seq<seq<nat>>, w: seq<nat>)
    requires KBest(q, k, ByCost, res) && AllAdmissible(Grown(q, edge), res)
    requires Admissible(Grown(q, edge), w) && |q.edges| !in w && w !in res
    requires Physical(Grown(q, edge).edges) ==> Physical(q.edges)
    ensures |res| == k
    ensures var g := Grown(q, edge);
      Monotone(g, ByCost) && res != [] ==> Weight(g, ByCost, res[|res| - 1]) <= Weight(g, ByCost, w)
  {
    OldWalks(q, edge, w);
    OldCost(q, edge, w);
    OldAnswer(q, edge, res);
    hide Admissible, Physical;
  }

  /** An answer that no walk over the edge numbered e betters. */
  ghost predicate Stands(q: Query, e: nat, k: nat, res: seq<seq<nat>>) {
    AllAdmissible(q, res) && EdgeLoses(q, e, k, res)
  }

  lemma StandsIff(q: Query, edge: GraphEdge, k: nat, res: seq<seq<nat>>)
    requires KBest(q, k, ByCost, res)
    ensures KBest(Grown(q, edge), k, ByCost, res) <==> Stands(Grown(q, edge), |q.edges|, k, res)
  {
    hide KBest, EdgeLoses;
    StillBestIff(q, edge, k, res);
  }

  class TopologyGraph {
    var vertices: seq<EndpointId>
    var edges: seq<GraphEdge>
    var cache: map<nat, seq<seq<nat>>>
    var defaultK: nat
    var defaultHops: nat

    constructor ()
      ensures vertices == [] && edges == [] && cache == map[] && defaultK == 6 && defaultHops == 5
    {
      vertices, edges, cache, defaultK, defaultHops := [], [], map[], 6, 5;
    }

    /** Every cached answer is one a fresh search could give now. */
    ghost predicate CacheAgrees()
      reads this
    {
      forall s: nat, d: nat :: s < WORD && d < WORD && PathKey(s, d) in cache ==>
        KBest(Query(edges, s, d, defaultHops), defaultK, ByCost, cache[PathKey(s, d)])
    }

    /** No cached answer is beaten over the edge numbered e. */
    ghost predicate CacheStands(e: nat)
      reads this
    {
      forall s: nat, d: nat :: s < WORD && d < WORD && PathKey(s, d) in cache ==>
        Stands(Query(edges, s, d, defaultHops), e, defaultK, cache[PathKey(s, d)])
    }

    method AddVertex(ep: EndpointId) returns (v: nat)
      modifies this`vertices
      ensures v == |old(vertices)| && vertices == old(vertices) + [ep]
    {
      vertices := vertices + [ep];
      v := |vertices| - 1;
    }

    /** The cache is not touched: a cache that agreed still does if and only if no cached answer is
        beaten over the new edge. */
    method AddEdge(src: nat, dst: nat, attrs: EdgeAttributes) returns (e: nat)
      modifies this`edges
      ensures e == |old(edges)| && edges == old(edges) + [GraphEdge(src, dst, attrs)]
      ensures old(CacheAgrees()) ==> (CacheAgrees() <==> CacheStands(e))
    {
      ghost var before := edges;
      edges := edges + [GraphEdge(src, dst, attrs)];
      e := |edges| - 1;
      hide KBest, Stands;
      if old(CacheAgrees()) {
        forall s: nat, d: nat | s < WORD && d < WORD && PathKey(s, d) in cache
          ensures KBest(Query(edges, s, d, defaultHops), defaultK, ByCost, cache[PathKey(s, d)])
            <==> Stands(Query(edges, s, d, defaultHops), e, defaultK, cache[PathKey(s, d)])
        {
          StandsIff(Query(before, s, d, defaultHops), GraphEdge(src, dst, attrs), defaultK, cache[PathKey(s, d)]);
        }
      }
    }

    method VertexOf(ep: EndpointId) returns (v: nat)
      ensures v == FindVertex(vertices, ep)
    {
      for i := 0 to |vertices|
        invariant forall j :: 0 <= j < i ==> vertices[j] != ep
      {
        if vertices[i] == ep { return i; }
      }
      v := NO_VERTEX;
    }

    method PrecomputePaths(k: nat, hops: nat)
      modifies this`defaultK, this`defaultHops
      ensures defaultK == k && defaultHops == hops
      ensures cache == map[] ==> CacheAgrees()
    {
      defaultK, defaultHops := k, hops;
    }

    method YenKShortest(src: nat, dst: nat, k: nat, hops: nat) returns (res: seq<seq<nat>>)
      ensures KBest(Query(edges, src, dst, hops), k, ByCost, res)
    {
      res := BestFirst(Query(edges, src, dst, hops), k);
    }

    /** A cached answer comes back as it is, a new one is searched for and kept. While the cache
        agrees (edges and defaults frozen) it is transparent: every call returns what a fresh search
        could. */
    method Paths(src: nat, dst: nat) returns (res: seq<seq<nat>>)
      requires src < WORD && dst < WORD
      modifies this`cache
      ensures old(CacheAgrees()) ==> CacheAgrees()
      ensures old(CacheAgrees()) || PathKey(src, dst) !in old(cache) ==>
        KBest(Query(edges, src, dst, defaultHops), defaultK, ByCost, res)
      ensures PathKey(src, dst) in cache && cache[PathKey(src, dst)] == res
      ensures forall key :: key in old(cache) ==> key in cache && cache[key] == old(cache)[key]
    {
      var key := PathKey(src, dst);
      if key !in cache {
        var found := YenKShortest(src, dst, defaultK, defaultHops);
        hide KBest;
        cache := cache[key := found];
        forall s: nat, d: nat | s < WORD && d < WORD && PathKey(s, d) in cache && old(CacheAgrees())
          ensures KBest(Query(edges, s, d, defaultHops), defaultK, ByCost, cache[PathKey(s, d)])
        {
          if PathKey(s, d) == key { PathKeyInjective(s, d, src, dst); }
        }
      }
      res := cache[key];
    }
  }

  // ------------------------------------------------------- a stale answer

  lemma NoEdgesNoWalk(src: nat, dst: nat, hops: nat, w: seq<nat>)
    requires src != dst
    ensures !Admissible(Query([], src, dst, hops), w)
  {
    if w != [] { assert w[0] >= |Query([], src, dst, hops).edges|; }
  }

  lemma NoEdgesNoAnswer(src: nat, dst: nat, hops: nat, k: nat, res: seq<seq<nat>>)
    requires src != dst && KBest(Query([], src, dst, hops), k, ByCost, res)
    ensures res == []
  {
    hide Admissible;
    if res != [] { NoEdgesNoWalk(src, dst, hops, res[0]); }
  }

  lemma OneEdgeWalk(attrs: EdgeAttributes)
    ensures !KBest(Query([GraphEdge(0, 1, attrs)], 0, 1, 5), 6, ByCost, [])
  {
    var q := Query([GraphEdge(0, 1, attrs)], 0, 1, 5);
    assert VertexAt(q.edges, 0, [0], 0) == 0 && VertexAt(q.edges, 0, [0], 1) == 1;
    assert Admissible(q, [0]);
  }

  /** A cached answer can be stale: two vertices are asked for before the edge between them is
      added, and from then on paths answers that there is no way, which no fresh search would. */
  method StaleAfterAddEdge(a: EndpointId, b: EndpointId, attrs: EdgeAttributes)
    returns (g: TopologyGraph, asked: seq<seq<nat>>, again: seq<seq<nat>>)
    ensures fresh(g) && g.vertices == [a, b] && g.edges == [GraphEdge(0, 1, attrs)]
    ensures asked == again == [] && PathKey(0, 1) in g.cache && g.cache[PathKey(0, 1)] == []
    ensures !KBest(Query(g.edges, 0, 1, g.defaultHops), g.defaultK, ByCost, again) && !g.CacheAgrees()
  {
    hide KBest, Stands;
    g := new TopologyGraph();
    var u := g.AddVertex(a);
    var v := g.AddVertex(b);
    asked := g.Paths(0, 1);
    NoEdgesNoAnswer(0, 1, g.defaultHops, g.defaultK, asked);
    var e := g.AddEdge(0, 1, attrs);
    again := g.Paths(0, 1);
    OneEdgeWalk(attrs);
  }
}
