/** The k-path search over a tree of walks: best first (C++) and first-in first-out (Rust). */
module PathSearch {
  import opened Model
  import opened Arithmetic
  import opened Sums

  /** One question to the search. */
  datatype Query = Query(edges: seq<GraphEdge>, src: nat, dst: nat, hops: nat)

  datatype SearchState = SearchState(vertex: nat, path: seq<nat>, cost: real)

  /** The base cost of an edge. Without bandwidth it is infinite in the source; DBL_MAX stands for that. */
  function EdgeCost(edge: GraphEdge): real {
    edge.attrs.latency + if edge.attrs.bandwidth == 0.0 then DBL_MAX else 1000000.0 / edge.attrs.bandwidth
  }

  /** No edge's cost is infinite or negative. */
  predicate Physical(edges: seq<GraphEdge>) {
    forall e :: 0 <= e < |edges| ==> edges[e].attrs.bandwidth != 0.0 && EdgeCost(edges[e]) >= 0.0
  }

  predicate Indexes(edges: seq<GraphEdge>, p: seq<nat>) { forall i :: 0 <= i < |p| ==> p[i] < |edges| }

  function Cost(edges: seq<GraphEdge>, p: seq<nat>): real
    requires Indexes(edges, p)
  {
    if p == [] then 0.0 else Cost(edges, p[..|p| - 1]) + EdgeCost(edges[p[|p| - 1]])
  }

  /** The vertex reached after i edges of p. */
  function VertexAt(edges: seq<GraphEdge>, src: nat, p: seq<nat>, i: nat): nat
    requires Indexes(edges, p) && i <= |p|
  {
    if i == 0 then src else edges[p[i - 1]].dst
  }

  /** A walk from src within the hop bound, with pairwise distinct edge heads, that has not
      been at dst before its end. */
  predicate Partial(q: Query, p: seq<nat>) {
    && Indexes(q.edges, p)
    && |p| <= q.hops
    && (forall i :: 0 <= i < |p| ==> q.edges[p[i]].src == VertexAt(q.edges, q.src, p, i))
    && (forall i, j :: 0 <= i < j < |p| ==> q.edges[p[i]].dst != q.edges[p[j]].dst)
    && (forall i :: 0 <= i < |p| ==> VertexAt(q.edges, q.src, p, i) != q.dst)
  }

  /** ... and that is at dst at its end: what the search is to return. */
  predicate Admissible(q: Query, p: seq<nat>) {
    Partial(q, p) && VertexAt(q.edges, q.src, p, |p|) == q.dst
  }

  /** What the results are ordered by: base cost, or the number of edges. */
  datatype Measure = ByCost | ByHops

  /** A longer walk never weighs less: always by hops, by cost on a physical graph. */
  predicate Monotone(q: Query, m: Measure) { m == ByHops || Physical(q.edges) }

  function Weight(q: Query, m: Measure, p: seq<nat>): real
    requires Indexes(q.edges, p)
  {
    if m == ByCost then Cost(q.edges, p) else |p| as real
  }

  predicate NoRepeats(res: seq<seq<nat>>) { forall i, j :: 0 <= i < j < |res| ==> res[i] != res[j] }

  predicate AllAdmissible(q: Query, res: seq<seq<nat>>) { forall i :: 0 <= i < |res| ==> Admissible(q, res[i]) }

  predicate Ordered(q: Query, m: Measure, res: seq<seq<nat>>)
    requires AllAdmissible(q, res)
  {
    forall i, j :: 0 <= i < j < |res| ==> Weight(q, m, res[i]) <= Weight(q, m, res[j])
  }

  /** k-path optimality: distinct admissible walks, all of them when fewer than k come back; and,
      where weights are monotone, in order of weight with nothing lighter than the last missing. */
  ghost predicate KBest(q: Query, k: nat, m: Measure, res: seq<seq<nat>>) {
    && |res| <= k
    && NoRepeats(res)
    && AllAdmissible(q, res)
    && (Monotone(q, m) ==> Ordered(q, m, res))
    && (forall w: seq<nat> :: Admissible(q, w) && w !in res ==>
          |res| == k && (Monotone(q, m) && res != [] ==> Weight(q, m, res[|res| - 1]) <= Weight(q, m, w)))
  }

  // --------------------------------------------------------------- walks

  lemma {:induction false} CostNonNegative(edges: seq<GraphEdge>, w: seq<nat>)
    requires Physical(edges) && Indexes(edges, w)
    ensures Cost(edges, w) >= 0.0
  {
    if w != [] { CostNonNegative(edges, w[..|w| - 1]); }
  }

  lemma {:induction false} CostGrows(edges: seq<GraphEdge>, w: seq<nat>, n: nat)
    requires Physical(edges) && Indexes(edges, w) && n <= |w|
    ensures Cost(edges, w[..n]) <= Cost(edges, w)
  {
    if n == |w| {
      assert w[..n] == w;
    } else {
      CostGrows(edges, w[..|w| - 1], n);
      assert w[..|w| - 1][..n] == w[..n];
    }
  }

  lemma WeightGrows(q: Query, m: Measure, w: seq<nat>, p: seq<nat>)
    requires Monotone(q, m) && Indexes(q.edges, w) && p <= w
    ensures Indexes(q.edges, p) && Weight(q, m, p) <= Weight(q, m, w)
  {
    assert p == w[..|p|];
    if m == ByCost { CostGrows(q.edges, w, |p|); }
  }

  /** Every prefix of a partial walk is one, and ends short of dst unless it is the whole. */
  lemma PrefixPartial(q: Query, w: seq<nat>, p: seq<nat>)
    requires Partial(q, w) && p <= w
    ensures Partial(q, p)
    ensures p != w ==> VertexAt(q.edges, q.src, p, |p|) != q.dst
  {
    assert forall i :: 0 <= i <= |p| ==> VertexAt(q.edges, q.src, p, i) == VertexAt(q.edges, q.src, w, i);
    if p != w { assert |p| < |w|; }
  }

  /** The cycle check: some edge of p already has this head. */
  predicate HeadSeen(edges: seq<GraphEdge>, p: seq<nat>, head: nat)
    requires Indexes(edges, p)
  {
    exists i :: 0 <= i < |p| && edges[p[i]].dst == head
  }

  /** Edge e may be appended to the walk p. */
  predicate Extends(q: Query, p: seq<nat>, e: nat)
    requires Indexes(q.edges, p)
  {
    && e < |q.edges|
    && q.edges[e].src == VertexAt(q.edges, q.src, p, |p|)
    && !HeadSeen(q.edges, p, q.edges[e].dst)
  }

  lemma ExtendPartial(q: Query, p: seq<nat>, e: nat)
    requires Partial(q, p) && |p| < q.hops && VertexAt(q.edges, q.src, p, |p|) != q.dst
    requires Extends(q, p, e)
    ensures Partial(q, p + [e])
  {
    var w := p + [e];
    ExtendWalk(q, p, e, w);
    ExtendHeads(q, p, e, w);
    ExtendSteps(q, p, e, w);
    hide Extends, VertexAt;
  }

  lemma ExtendSteps(q: Query, p: seq<nat>, e: nat, w: seq<nat>)
    requires Partial(q, p) && VertexAt(q.edges, q.src, p, |p|) != q.dst && Extends(q, p, e)
    requires w == p + [e] && Indexes(q.edges, w)
    ensures forall i :: 0 <= i < |w| ==>
      VertexAt(q.edges, q.src, w, i) != q.dst && q.edges[w[i]].src == VertexAt(q.edges, q.src, w, i)
  {
    ExtendWalk(q, p, e, w);
    forall i | 0 <= i < |w|
      ensures VertexAt(q.edges, q.src, w, i) != q.dst && q.edges[w[i]].src == VertexAt(q.edges, q.src, w, i)
    {
      assert VertexAt(q.edges, q.src, w, i) == VertexAt(q.edges, q.src, p, i);
      if i < |p| { assert q.edges[p[i]].src == VertexAt(q.edges, q.src, p, i); }
    }
  }

  lemma ExtendHeads(q: Query, p: seq<nat>, e: nat, w: seq<nat>)
    requires Indexes(q.edges, p) && Extends(q, p, e) && w == p + [e] && Indexes(q.edges, w)
    requires forall i, j :: 0 <= i < j < |p| ==> q.edges[p[i]].dst != q.edges[p[j]].dst
    ensures forall i, j :: 0 <= i < j < |w| ==> q.edges[w[i]].dst != q.edges[w[j]].dst
  {
    forall i, j | 0 <= i < j < |w| ensures q.edges[w[i]].dst != q.edges[w[j]].dst {
      assert w[i] == p[i];
      if j < |p| { assert w[j] == p[j]; }
    }
  }

  lemma ExtendWalk(q: Query, p: seq<nat>, e: nat, w: seq<nat>)
    requires Indexes(q.edges, p) && e < |q.edges| && w == p + [e]
    ensures Indexes(q.edges, w) && |w| == |p| + 1 && w[|p|] == e
    ensures forall i :: 0 <= i < |p| ==> w[i] == p[i]
    ensures forall i :: 0 <= i <= |p| ==> VertexAt(q.edges, q.src, w, i) == VertexAt(q.edges, q.src, p, i)
  {
    assert forall i :: 0 <= i < |p| ==> w[i] == p[i];
  }

  lemma PartialExtends(q: Query, w: seq<nat>, n: nat)
    requires Partial(q, w) && n < |w|
    ensures Indexes(q.edges, w[..n]) && Extends(q, w[..n], w[n])
  {
  }

  // ------------------------------------------------------------ frontier

  ghost predicate StateOk(q: Query, s: SearchState)
  {
    && Partial(q, s.path)
    && s.vertex == VertexAt(q.edges, q.src, s.path, |s.path|)
    && s.cost == Cost(q.edges, s.path)
  }

  /** Queued walks are in order and none is a prefix of another or of a result. */
  ghost predicate FrontierOk(q: Query, pq: seq<SearchState>, res: seq<seq<nat>>)
  {
    && (forall i :: 0 <= i < |pq| ==> StateOk(q, pq[i]))
    && (forall i, j :: 0 <= i < |pq| && 0 <= j < |pq| && i != j ==> !(pq[i].path <= pq[j].path))
    && (forall i, j :: 0 <= i < |pq| && 0 <= j < |res| ==> !(pq[i].path <= res[j]))
    && NoRepeats(res)
    && AllAdmissible(q, res)
  }

  ghost predicate Queued(pq: seq<SearchState>, w: seq<nat>) { exists i :: 0 <= i < |pq| && pq[i].path <= w }

  /** Every admissible walk is found already or will grow out of a queued one. */
  ghost predicate Complete(q: Query, pq: seq<SearchState>, res: seq<seq<nat>>) {
    forall w: seq<nat> :: Admissible(q, w) ==> w in res || Queued(pq, w)
  }

  function Child(q: Query, s: SearchState, e: nat): SearchState
    requires e < |q.edges|
  {
    SearchState(q.edges[e].dst, s.path + [e], s.cost + EdgeCost(q.edges[e]))
  }

  /** The states pushed for the first n edges. */
  function Kids(q: Query, s: SearchState, n: nat): seq<SearchState>
    requires Indexes(q.edges, s.path) && n <= |q.edges|
  {
    if n == 0 then []
    else Kids(q, s, n - 1) + if Extends(q, s.path, n - 1) then [Child(q, s, n - 1)] else []
  }

  predicate KidAlong(q: Query, s: SearchState, e: nat, kid: SearchState)
    requires Indexes(q.edges, s.path)
  {
    Extends(q, s.path, e) && kid == Child(q, s, e)
  }

  ghost predicate SomeKid(q: Query, s: SearchState, n: nat, kid: SearchState)
    requires Indexes(q.edges, s.path)
  {
    exists e: nat :: e < n && KidAlong(q, s, e, kid)
  }

  /** ks holds exactly the children along the first n edges that extend the walk, each once. */
  ghost predicate KidsOf(q: Query, s: SearchState, n: nat, ks: seq<SearchState>)
    requires Indexes(q.edges, s.path) && n <= |q.edges|
  {
    && (forall i :: 0 <= i < |ks| ==> SomeKid(q, s, n, ks[i]))
    && (forall e: nat :: e < n && Extends(q, s.path, e) ==> Child(q, s, e) in ks)
    && (forall i, j :: 0 <= i < j < |ks| ==> ks[i].path != ks[j].path)
  }

  lemma {:induction false} KidsAre(q: Query, s: SearchState, n: nat)
    requires Indexes(q.edges, s.path) && n <= |q.edges|
    ensures KidsOf(q, s, n, Kids(q, s, n))
  {
    if n > 0 {
      KidsAre(q, s, n - 1);
      KidsSnoc(q, s, n, Kids(q, s, n - 1));
    }
  }

  lemma KidsSnoc(q: Query, s: SearchState, n: nat, fewer: seq<SearchState>)
    requires Indexes(q.edges, s.path) && 0 < n <= |q.edges|
    requires KidsOf(q, s, n - 1, fewer)
    ensures KidsOf(q, s, n, fewer + if Extends(q, s.path, n - 1) then [Child(q, s, n - 1)] else [])
  {
    var ks := fewer + if Extends(q, s.path, n - 1) then [Child(q, s, n - 1)] else [];
    forall i | 0 <= i < |fewer| ensures fewer[i].path != s.path + [n - 1] {
      assert SomeKid(q, s, n - 1, fewer[i]);
      var e: nat :| e < n - 1 && KidAlong(q, s, e, fewer[i]);
      assert (s.path + [e])[|s.path|] != (s.path + [n - 1])[|s.path|];
    }
    forall i | 0 <= i < |ks| ensures SomeKid(q, s, n, ks[i]) {
      if i < |fewer| {
        assert SomeKid(q, s, n - 1, fewer[i]);
      } else {
        assert KidAlong(q, s, n - 1, ks[i]);
      }
    }
  }

  // ---------------------------------------------------------------- steps

  function Without(pq: seq<SearchState>, i: nat): seq<SearchState>
    requires i < |pq|
  {
    pq[..i] + pq[i + 1..]
  }

  lemma WithoutAt(pq: seq<SearchState>, i: nat)
    requires i < |pq|
    ensures |Without(pq, i)| == |pq| - 1
    ensures forall j :: 0 <= j < i ==> Without(pq, i)[j] == pq[j]
    ensures forall j :: i <= j < |pq| - 1 ==> Without(pq, i)[j] == pq[j + 1]
  {
  }

  lemma WithoutOk(q: Query, pq: seq<SearchState>, res: seq<seq<nat>>, i: nat)
    requires FrontierOk(q, pq, res) && i < |pq|
    ensures FrontierOk(q, Without(pq, i), res)
    ensures forall j :: 0 <= j < |pq| - 1 ==>
      !(pq[i].path <= Without(pq, i)[j].path) && !(Without(pq, i)[j].path <= pq[i].path)
  {
    WithoutAt(pq, i);
    var rest := Without(pq, i);
    forall j, k | 0 <= j < |rest| && 0 <= k < |rest| && j != k ensures !(rest[j].path <= rest[k].path) {
      assert rest[j] == pq[if j < i then j else j + 1] && rest[k] == pq[if k < i then k else k + 1];
    }
    forall j | 0 <= j < |rest| ensures StateOk(q, rest[j]) {
      assert rest[j] == pq[if j < i then j else j + 1];
    }
    forall j, k | 0 <= j < |rest| && 0 <= k < |res| ensures !(rest[j].path <= res[k]) {
      assert rest[j] == pq[if j < i then j else j + 1];
    }
    forall j | 0 <= j < |rest|
      ensures !(pq[i].path <= rest[j].path) && !(rest[j].path <= pq[i].path)
    {
      assert rest[j] == pq[if j < i then j else j + 1];
    }
  }

  /** Whatever a queue covers, it covers without state i or through state i. */
  lemma WithoutCovers(pq: seq<SearchState>, i: nat, w: seq<nat>)
    requires i < |pq| && Queued(pq, w)
    ensures pq[i].path <= w || Queued(Without(pq, i), w)
  {
    WithoutAt(pq, i);
    var j :| 0 <= j < |pq| && pq[j].path <= w;
    if j < i {
      assert Without(pq, i)[j].path <= w;
    } else if j > i {
      assert Without(pq, i)[j - 1].path <= w;
    }
  }

  /** A popped state at dst becomes a result. */
  lemma FoundOk(q: Query, pq: seq<SearchState>, res: seq<seq<nat>>, i: nat)
    requires FrontierOk(q, pq, res) && Complete(q, pq, res)
    requires i < |pq| && pq[i].vertex == q.dst
    ensures FrontierOk(q, Without(pq, i), res + [pq[i].path])
    ensures Complete(q, Without(pq, i), res + [pq[i].path])
  {
    var p, rest, res' := pq[i].path, Without(pq, i), res + [pq[i].path];
    assert StateOk(q, pq[i]);
    WithoutOk(q, pq, res, i);
    forall k | 0 <= k < |res| ensures res[k] != p {
      assert !(p <= res[k]);
    }
    forall w: seq<nat> | Admissible(q, w) ensures w in res' || Queued(rest, w) {
      if w !in res {
        WithoutCovers(pq, i, w);
        if p <= w { PrefixPartial(q, w, p); }
      } else {
        assert w in res';
      }
    }
  }

  /** A popped state at the hop bound, short of dst, leads nowhere. */
  lemma DropOk(q: Query, pq: seq<SearchState>, res: seq<seq<nat>>, i: nat)
    requires FrontierOk(q, pq, res) && Complete(q, pq, res)
    requires i < |pq| && pq[i].vertex != q.dst && |pq[i].path| >= q.hops
    ensures FrontierOk(q, Without(pq, i), res) && Complete(q, Without(pq, i), res)
  {
    WithoutOk(q, pq, res, i);
    assert StateOk(q, pq[i]);
    forall w: seq<nat> | Admissible(q, w) ensures w in res || Queued(Without(pq, i), w) {
      if w !in res { WithoutCovers(pq, i, w); }
    }
  }

  lemma KidOk(q: Query, s: SearchState, kid: SearchState)
    requires StateOk(q, s) && s.vertex != q.dst && |s.path| < q.hops
    requires SomeKid(q, s, |q.edges|, kid)
    ensures StateOk(q, kid) && |kid.path| == |s.path| + 1 && s.path <= kid.path
  {
    var e: nat :| e < |q.edges| && KidAlong(q, s, e, kid);
    ExtendPartial(q, s.path, e);
    hide Partial, Extends;
    assert (s.path + [e])[..|s.path|] == s.path;
  }

  /** Prefixes of equal length of one walk are equal. */
  lemma PrefixesMeet(a: seq<nat>, b: seq<nat>, w: seq<nat>)
    requires a <= w && b <= w
    ensures a <= b || b <= a
  {
    if |a| <= |b| { assert a == w[..|a|] == b[..|a|]; } else { assert b == w[..|b|] == a[..|b|]; }
  }

  /** Replacing a popped state by its kids keeps the frontier in order. */
  lemma ExpandFrontier(q: Query, pq: seq<SearchState>, res: seq<seq<nat>>, i: nat, kids: seq<SearchState>)
    requires FrontierOk(q, pq, res)
    requires i < |pq| && StateOk(q, pq[i]) && pq[i].vertex != q.dst && |pq[i].path| < q.hops
    requires KidsOf(q, pq[i], |q.edges|, kids)
    ensures FrontierOk(q, Without(pq, i) + kids, res)
  {
    hide EdgeCost, Cost;
    var s, rest := pq[i], Without(pq, i);
    var all := rest + kids;
    WithoutOk(q, pq, res, i);
    forall k | 0 <= k < |kids|
      ensures StateOk(q, kids[k]) && |kids[k].path| == |s.path| + 1 && s.path <= kids[k].path
    {
      KidOk(q, s, kids[k]);
    }
    forall k, j | 0 <= k < |kids| && 0 <= j < |rest|
      ensures !(kids[k].path <= rest[j].path) && !(rest[j].path <= kids[k].path)
    {
      if rest[j].path <= kids[k].path { PrefixesMeet(rest[j].path, s.path, kids[k].path); }
      if kids[k].path <= rest[j].path { PrefixTrans(s.path, kids[k].path, rest[j].path); }
    }
    forall k, j | 0 <= k < |kids| && 0 <= j < |kids| && k != j ensures !(kids[k].path <= kids[j].path) {
      assert kids[k].path != kids[j].path;
    }
    forall k, j | 0 <= k < |kids| && 0 <= j < |res| ensures !(kids[k].path <= res[j]) {
      if kids[k].path <= res[j] { PrefixTrans(s.path, kids[k].path, res[j]); }
    }
  }

  lemma PrefixTrans(a: seq<nat>, b: seq<nat>, c: seq<nat>)
    requires a <= b <= c
    ensures a <= c
  {
    assert a == b[..|a|] == c[..|a|];
  }

  lemma ExpandComplete(q: Query, pq: seq<SearchState>, res: seq<seq<nat>>, i: nat, kids: seq<SearchState>)
    requires FrontierOk(q, pq, res) && Complete(q, pq, res)
    requires i < |pq| && StateOk(q, pq[i]) && pq[i].vertex != q.dst
    requires KidsOf(q, pq[i], |q.edges|, kids)
    ensures Complete(q, Without(pq, i) + kids, res)
  {
    hide FrontierOk, StateOk, KidsOf, Admissible;
    var s, rest := pq[i], Without(pq, i);
    var all := rest + kids;
    forall w: seq<nat> | Admissible(q, w) && w !in res ensures Queued(all, w) {
      WithoutCovers(pq, i, w);
      if Queued(rest, w) {
        var j :| 0 <= j < |rest| && rest[j].path <= w;
        assert all[j].path <= w;
      } else {
        GrowsThroughKid(q, s, kids, w);
        var k :| 0 <= k < |kids| && kids[k].path <= w;
        assert all[|rest| + k].path <= w;
      }
    }
  }

  lemma NextEdge(q: Query, s: SearchState, w: seq<nat>)
    requires StateOk(q, s) && s.vertex != q.dst && Admissible(q, w) && s.path <= w
    ensures |s.path| < |w| && w[|s.path|] < |q.edges| && Extends(q, s.path, w[|s.path|])
    ensures s.path + [w[|s.path|]] <= w
  {
    hide Partial, Extends, StateOk, Physical, VertexAt;
    var n := |s.path|;
    assert s.path == w[..n];
    EndsShort(q, s, w);
    PartialExtends(q, w, n);
    assert s.path + [w[n]] == w[..n + 1];
  }

  lemma EndsShort(q: Query, s: SearchState, w: seq<nat>)
    requires StateOk(q, s) && s.vertex != q.dst && Admissible(q, w) && s.path <= w
    ensures |s.path| < |w|
  {
    assert |s.path| == |w| ==> s.path == w;
  }

  lemma GrowsThroughKid(q: Query, s: SearchState, kids: seq<SearchState>, w: seq<nat>)
    requires StateOk(q, s) && s.vertex != q.dst
    requires KidsOf(q, s, |q.edges|, kids) && Admissible(q, w) && s.path <= w
    ensures Queued(kids, w)
  {
    NextEdge(q, s, w);
    hide Physical, StateOk, Admissible, Extends;
    var kid := Child(q, s, w[|s.path|]);
    assert kid in kids;
    var k :| 0 <= k < |kids| && kids[k] == kid;
    assert kids[k].path <= w;
  }

  // ---------------------------------------------------------------- order

  /** No queued walk is lighter than a result. */
  ghost predicate Below(q: Query, m: Measure, pq: seq<SearchState>, res: seq<seq<nat>>)
    requires FrontierOk(q, pq, res)
  {
    forall i, j :: 0 <= i < |res| && 0 <= j < |pq| ==> Weight(q, m, res[i]) <= StateWeight(q, m, pq[j])
  }

  function StateWeight(q: Query, m: Measure, s: SearchState): real
    requires Indexes(q.edges, s.path)
  {
    Weight(q, m, s.path)
  }

  lemma KidsHeavier(q: Query, m: Measure, s: SearchState, kids: seq<SearchState>)
    requires Monotone(q, m) && StateOk(q, s) && s.vertex != q.dst && |s.path| < q.hops
    requires KidsOf(q, s, |q.edges|, kids)
    ensures forall k :: 0 <= k < |kids| ==>
      (Indexes(q.edges, kids[k].path) && StateWeight(q, m, s) <= StateWeight(q, m, kids[k]))
  {
    forall k | 0 <= k < |kids|
      ensures Indexes(q.edges, kids[k].path) && StateWeight(q, m, s) <= StateWeight(q, m, kids[k])
    {
      assert SomeKid(q, s, |q.edges|, kids[k]);
      KidOk(q, s, kids[k]);
      WeightGrows(q, m, kids[k].path, s.path);
    }
  }

  lemma WithoutBelow(q: Query, m: Measure, pq: seq<SearchState>, res: seq<seq<nat>>, i: nat)
    requires FrontierOk(q, pq, res) && Below(q, m, pq, res) && i < |pq|
    ensures FrontierOk(q, Without(pq, i), res) && Below(q, m, Without(pq, i), res)
  {
    WithoutOk(q, pq, res, i);
    WithoutAt(pq, i);
    var rest := Without(pq, i);
    forall k, j | 0 <= k < |res| && 0 <= j < |rest| ensures Weight(q, m, res[k]) <= StateWeight(q, m, rest[j]) {
      assert rest[j] == pq[if j < i then j else j + 1];
    }
  }

  /** State i is as light as any queued. */
  ghost predicate Lightest(q: Query, m: Measure, pq: seq<SearchState>, i: nat)
    requires forall j :: 0 <= j < |pq| ==> Indexes(q.edges, pq[j].path)
  {
    i < |pq| && forall j :: 0 <= j < |pq| ==> StateWeight(q, m, pq[i]) <= StateWeight(q, m, pq[j])
  }

  ghost predicate SearchOk(q: Query, m: Measure, pq: seq<SearchState>, res: seq<seq<nat>>)
  {
    && FrontierOk(q, pq, res)
    && Complete(q, pq, res)
    && (Monotone(q, m) ==> Sorted(q, m, pq, res))
  }

  lemma StartOk(q: Query, m: Measure)
    ensures SearchOk(q, m, [SearchState(q.src, [], 0.0)], [])
  {
    var pq := [SearchState(q.src, [], 0.0)];
    forall w: seq<nat> | Admissible(q, w) ensures Queued(pq, w) {
      assert pq[0].path <= w;
    }
  }

  /** Results in order of weight, and nothing queued lighter than them. */
  ghost predicate Sorted(q: Query, m: Measure, pq: seq<SearchState>, res: seq<seq<nat>>)
    requires FrontierOk(q, pq, res)
  {
    Ordered(q, m, res) && Below(q, m, pq, res)
  }

  lemma FoundStep(q: Query, m: Measure, pq: seq<SearchState>, res: seq<seq<nat>>, i: nat)
    requires SearchOk(q, m, pq, res)
    requires Lightest(q, m, pq, i) && pq[i].vertex == q.dst
    ensures SearchOk(q, m, Without(pq, i), res + [pq[i].path])
  {
    hide FrontierOk, Complete, Sorted, Monotone;
    FoundOk(q, pq, res, i);
    if Monotone(q, m) { FoundSorted(q, m, pq, res, i); }
  }

  lemma FoundSorted(q: Query, m: Measure, pq: seq<SearchState>, res: seq<seq<nat>>, i: nat)
    requires FrontierOk(q, pq, res) && Sorted(q, m, pq, res) && Lightest(q, m, pq, i)
    requires FrontierOk(q, Without(pq, i), res + [pq[i].path])
    ensures Sorted(q, m, Without(pq, i), res + [pq[i].path])
  {
    WithoutAt(pq, i);
    var rest, res' := Without(pq, i), res + [pq[i].path];
    assert AllAdmissible(q, res') && forall k :: 0 <= k < |res| ==> res'[k] == res[k];
    hide FrontierOk, Weight, Admissible;
    FoundOrdered(q, m, pq, res, i);
    forall k, j | 0 <= k < |res'| && 0 <= j < |rest| ensures Weight(q, m, res'[k]) <= StateWeight(q, m, rest[j]) {
      assert rest[j] == pq[if j < i then j else j + 1];
    }
  }

  /** State i weighs no less than any result. */
  lemma OutweighsAll(q: Query, m: Measure, pq: seq<SearchState>, res: seq<seq<nat>>, i: nat)
    requires i < |pq| && FrontierOk(q, pq, res) && Below(q, m, pq, res)
    ensures AllAdmissible(q, res) && Indexes(q.edges, pq[i].path)
    ensures forall k :: 0 <= k < |res| ==> Weight(q, m, res[k]) <= StateWeight(q, m, pq[i])
  {
    assert StateOk(q, pq[i]);
    hide Weight;
  }

  lemma FoundOrdered(q: Query, m: Measure, pq: seq<SearchState>, res: seq<seq<nat>>, i: nat)
    requires FrontierOk(q, pq, res) && Sorted(q, m, pq, res) && Lightest(q, m, pq, i)
    requires AllAdmissible(q, res + [pq[i].path])
    ensures Ordered(q, m, res + [pq[i].path])
  {
    OutweighsAll(q, m, pq, res, i);
    hide FrontierOk, Weight, Below;
    var res' := res + [pq[i].path];
    forall k, j | 0 <= k < j < |res'| ensures Weight(q, m, res'[k]) <= Weight(q, m, res'[j]) {
      assert res'[k] == res[k];
      if j < |res| { assert res'[j] == res[j]; }
    }
  }

  lemma DropStep(q: Query, m: Measure, pq: seq<SearchState>, res: seq<seq<nat>>, i: nat)
    requires SearchOk(q, m, pq, res)
    requires i < |pq| && pq[i].vertex != q.dst && |pq[i].path| >= q.hops
    ensures SearchOk(q, m, Without(pq, i), res)
  {
    hide FrontierOk, Complete, Monotone;
    DropOk(q, pq, res, i);
    if Monotone(q, m) { WithoutBelow(q, m, pq, res, i); }
  }

  lemma ExpandStep(q: Query, m: Measure, pq: seq<SearchState>, res: seq<seq<nat>>, i: nat)
    requires SearchOk(q, m, pq, res)
    requires i < |pq| && StateOk(q, pq[i]) && pq[i].vertex != q.dst && |pq[i].path| < q.hops
    ensures SearchOk(q, m, Without(pq, i) + Kids(q, pq[i], |q.edges|), res)
  {
    var s, kids := pq[i], Kids(q, pq[i], |q.edges|);
    hide FrontierOk, Complete, StateOk, Sorted, Monotone;
    KidsAre(q, s, |q.edges|);
    ExpandFrontier(q, pq, res, i, kids);
    ExpandComplete(q, pq, res, i, kids);
    hide KidsOf, Kids;
    if Monotone(q, m) { ExpandSorted(q, m, pq, res, i, kids); }
  }

  lemma ExpandSorted(q: Query, m: Measure, pq: seq<SearchState>, res: seq<seq<nat>>, i: nat, kids: seq<SearchState>)
    requires Monotone(q, m) && FrontierOk(q, pq, res) && Sorted(q, m, pq, res)
    requires i < |pq| && StateOk(q, pq[i]) && pq[i].vertex != q.dst && |pq[i].path| < q.hops
    requires KidsOf(q, pq[i], |q.edges|, kids) && FrontierOk(q, Without(pq, i) + kids, res)
    ensures Sorted(q, m, Without(pq, i) + kids, res)
  {
    hide FrontierOk, StateOk, KidsOf, Weight, StateWeight, Below, Monotone;
    var s, rest := pq[i], Without(pq, i);
    OutweighsAll(q, m, pq, res, i);
    WithoutBelow(q, m, pq, res, i);
    KidsHeavier(q, m, s, kids);
    BelowBoth(q, m, rest, kids, res, s);
  }

  /** What lies above the results, put behind a queue that does, does. */
  lemma BelowBoth(q: Query, m: Measure, rest: seq<SearchState>, kids: seq<SearchState>, res: seq<seq<nat>>,
                  s: SearchState)
    requires FrontierOk(q, rest, res) && FrontierOk(q, rest + kids, res) && Below(q, m, rest, res)
    requires Indexes(q.edges, s.path) && forall k :: 0 <= k < |res| ==> Weight(q, m, res[k]) <= StateWeight(q, m, s)
    requires forall k :: 0 <= k < |kids| ==>
      (Indexes(q.edges, kids[k].path) && StateWeight(q, m, s) <= StateWeight(q, m, kids[k]))
    ensures Below(q, m, rest + kids, res)
  {
    forall j | 0 <= j < |rest + kids| ensures Indexes(q.edges, (rest + kids)[j].path) {
      assert StateOk(q, (rest + kids)[j]);
    }
    assert forall k :: 0 <= k < |res| ==> Admissible(q, res[k]) && Indexes(q.edges, res[k]);
    hide FrontierOk, Weight, StateWeight, Admissible, Indexes;
    forall k, j | 0 <= k < |res| && 0 <= j < |rest + kids|
      ensures Weight(q, m, res[k]) <= StateWeight(q, m, (rest + kids)[j])
    {
      assert (rest + kids)[j] == if j < |rest| then rest[j] else kids[j - |rest|];
    }
  }

  /** When the queue is empty or k results are in, the results are the k best. */
  lemma Finish(q: Query, k: nat, m: Measure, pq: seq<SearchState>, res: seq<seq<nat>>)
    requires SearchOk(q, m, pq, res)
    requires |res| <= k && (pq == [] || |res| == k)
    ensures KBest(q, k, m, res)
  {
    hide Weight;
    forall w: seq<nat> | Admissible(q, w) && w !in res
      ensures |res| == k && (Monotone(q, m) && res != [] ==> Weight(q, m, res[|res| - 1]) <= Weight(q, m, w))
    {
      assert Queued(pq, w);
      if Monotone(q, m) && res != [] { LastLightest(q, m, pq, res, w); }
    }
  }

  lemma LastLightest(q: Query, m: Measure, pq: seq<SearchState>, res: seq<seq<nat>>, w: seq<nat>)
    requires Monotone(q, m) && FrontierOk(q, pq, res) && Sorted(q, m, pq, res)
    requires res != [] && Admissible(q, w) && Queued(pq, w)
    ensures Weight(q, m, res[|res| - 1]) <= Weight(q, m, w)
  {
    var j :| 0 <= j < |pq| && pq[j].path <= w;
    assert StateOk(q, pq[j]);
    hide Weight, FrontierOk;
    assert Weight(q, m, res[|res| - 1]) <= StateWeight(q, m, pq[j]);
    WeightGrows(q, m, w, pq[j].path);
  }

  // ---------------------------------------------------------- termination

  function Pow(b: nat, e: nat): nat { if e == 0 then 1 else b * Pow(b, e - 1) }

  /** A queued state can still cause (|E|+1)^(hops - length) pops. */
  function LoadOf(q: Query): SearchState -> nat {
    (s: SearchState) => Pow(|q.edges| + 1, if |s.path| <= q.hops then q.hops - |s.path| else 0)
  }

  function Load(q: Query, pq: seq<SearchState>): nat { SumBy(pq, LoadOf(q)) }

  lemma {:induction false} PowPositive(b: nat, e: nat)
    requires b > 0
    ensures Pow(b, e) >= 1
  {
    if e > 0 { PowPositive(b, e - 1); }
  }

  lemma {:induction false} KidsLoad(q: Query, s: SearchState, n: nat)
    requires Indexes(q.edges, s.path) && n <= |q.edges| && |s.path| < q.hops
    ensures Load(q, Kids(q, s, n)) <= n * Pow(|q.edges| + 1, q.hops - |s.path| - 1)
  {
    var unit := Pow(|q.edges| + 1, q.hops - |s.path| - 1);
    if n > 0 {
      KidsLoad(q, s, n - 1);
      MulSucc(n - 1, unit);
      if Extends(q, s.path, n - 1) {
        var kid := Child(q, s, n - 1);
        assert LoadOf(q)(kid) == unit;
        SumByAppend(Kids(q, s, n - 1), kid, LoadOf(q));
        assert Kids(q, s, n) == Kids(q, s, n - 1) + [kid];
      } else {
        assert Kids(q, s, n) == Kids(q, s, n - 1);
      }
    }
  }

  lemma WithoutLoad(q: Query, pq: seq<SearchState>, i: nat)
    requires i < |pq|
    ensures Load(q, Without(pq, i)) + LoadOf(q)(pq[i]) == Load(q, pq)
    ensures LoadOf(q)(pq[i]) >= 1
  {
    assert pq == (pq[..i] + [pq[i]]) + pq[i + 1..];
    SumByConcat(pq[..i] + [pq[i]], pq[i + 1..], LoadOf(q));
    SumByAppend(pq[..i], pq[i], LoadOf(q));
    SumByConcat(pq[..i], pq[i + 1..], LoadOf(q));
    PowPositive(|q.edges| + 1, if |pq[i].path| <= q.hops then q.hops - |pq[i].path| else 0);
  }

  /** Although a pop may push |E| states, the load falls with every pop. */
  lemma ExpandLoad(q: Query, pq: seq<SearchState>, i: nat)
    requires i < |pq| && Indexes(q.edges, pq[i].path) && |pq[i].path| < q.hops
    ensures Load(q, Without(pq, i) + Kids(q, pq[i], |q.edges|)) < Load(q, pq)
  {
    var n, s := |q.edges|, pq[i];
    var unit := Pow(n + 1, q.hops - |s.path| - 1);
    WithoutLoad(q, pq, i);
    KidsLoad(q, s, n);
    PowPositive(n + 1, q.hops - |s.path| - 1);
    MulSucc(n, unit);
    hide Kids, Extends, Physical;
    assert LoadOf(q)(s) == (n + 1) * unit;
    SumByConcat(Without(pq, i), Kids(q, s, n), LoadOf(q));
  }

  // -------------------------------------------------------------- methods

  lemma KidsStep(q: Query, s: SearchState, e: nat)
    requires StateOk(q, s) && e < |q.edges|
    ensures Kids(q, s, 0) == []
    ensures Kids(q, s, e + 1) == Kids(q, s, e) +
      if q.edges[e].src == s.vertex && !HeadSeen(q.edges, s.path, q.edges[e].dst) then [Child(q, s, e)] else []
  {
  }

  /** The edge loop of the search: push every child of s. */
  method PushKids(q: Query, s: SearchState, rest: seq<SearchState>) returns (pq: seq<SearchState>)
    requires StateOk(q, s)
    ensures pq == rest + Kids(q, s, |q.edges|)
  {
    assert Indexes(q.edges, s.path) && Kids(q, s, 0) == [];
    hide StateOk, HeadSeen, Kids, Indexes;
    pq := rest;
    for e := 0 to |q.edges|
      invariant pq == rest + Kids(q, s, e)
    {
      KidsStep(q, s, e);
      if q.edges[e].src == s.vertex && !HeadSeen(q.edges, s.path, q.edges[e].dst) {
        pq := pq + [SearchState(q.edges[e].dst, s.path + [e], s.cost + EdgeCost(q.edges[e]))];
      }
    }
  }

  predicate CheapestAt(pq: seq<SearchState>, i: nat) {
    i < |pq| && forall j :: 0 <= j < |pq| ==> pq[i].cost <= pq[j].cost
  }

  lemma {:induction false} HasCheapest(pq: seq<SearchState>)
    requires pq != []
    ensures exists i: nat :: i < |pq| && CheapestAt(pq, i)
  {
    var n := |pq| - 1;
    if n == 0 {
      assert CheapestAt(pq, 0);
    } else {
      HasCheapest(pq[..n]);
      var i: nat :| i < n && CheapestAt(pq[..n], i);
      assert forall j :: 0 <= j < n ==> pq[..n][j] == pq[j];
      assert CheapestAt(pq, if pq[i].cost <= pq[n].cost then i else n);
    }
  }

  /** topology.cpp: pop a cheapest state each time, equal costs in any order. */
  method BestFirst(q: Query, k: nat) returns (res: seq<seq<nat>>)
    ensures KBest(q, k, ByCost, res)
  {
    var pq := [SearchState(q.src, [], 0.0)];
    res := [];
    StartOk(q, ByCost);
    while pq != [] && |res| < k
      invariant |res| <= k
      invariant SearchOk(q, ByCost, pq, res)
      decreases Load(q, pq)
    {
      HasCheapest(pq);
      var i: nat :| i < |pq| && CheapestAt(pq, i);
      var s := pq[i];
      assert StateOk(q, s);
      CheapestIsLightest(q, pq, res, i);
      hide SearchOk, StateOk;
      WithoutLoad(q, pq, i);
      var rest := pq[..i] + pq[i + 1..];
      if s.vertex == q.dst {
        FoundStep(q, ByCost, pq, res, i);
        res := res + [s.path];
        pq := rest;
        continue;
      }
      if |s.path| >= q.hops {
        DropStep(q, ByCost, pq, res, i);
        pq := rest;
        continue;
      }
      ExpandStep(q, ByCost, pq, res, i);
      ExpandLoad(q, pq, i);
      pq := PushKids(q, s, rest);
    }
    Finish(q, k, ByCost, pq, res);
  }

  lemma CheapestIsLightest(q: Query, pq: seq<SearchState>, res: seq<seq<nat>>, i: nat)
    requires FrontierOk(q, pq, res)
    requires CheapestAt(pq, i)
    ensures Indexes(q.edges, pq[i].path) && Lightest(q, ByCost, pq, i)
  {
    forall j | 0 <= j < |pq| ensures Indexes(q.edges, pq[j].path) && StateWeight(q, ByCost, pq[j]) == pq[j].cost {
      assert StateOk(q, pq[j]);
    }
  }

  /** The queue of a breadth-first search: lengths rise, by at most one. */
  ghost predicate Levels(pq: seq<SearchState>) {
    && (forall i, j :: 0 <= i < j < |pq| ==> |pq[i].path| <= |pq[j].path|)
    && (forall i :: 0 <= i < |pq| ==> |pq[i].path| <= |pq[0].path| + 1)
  }

  lemma ShortestIsLightest(q: Query, pq: seq<SearchState>, res: seq<seq<nat>>)
    requires FrontierOk(q, pq, res) && pq != [] && Levels(pq)
    ensures Indexes(q.edges, pq[0].path) && Lightest(q, ByHops, pq, 0)
  {
    forall j | 0 <= j < |pq|
      ensures Indexes(q.edges, pq[j].path) && StateWeight(q, ByHops, pq[j]) == |pq[j].path| as real
    {
      assert StateOk(q, pq[j]);
    }
  }

  lemma ExpandLevels(q: Query, pq: seq<SearchState>)
    requires pq != [] && Levels(pq) && StateOk(q, pq[0])
    ensures Levels(Without(pq, 0)) && Levels(Without(pq, 0) + Kids(q, pq[0], |q.edges|))
  {
    var s, kids := pq[0], Kids(q, pq[0], |q.edges|);
    KidsAre(q, s, |q.edges|);
    forall k | 0 <= k < |kids| ensures |kids[k].path| == |s.path| + 1 {
      assert SomeKid(q, s, |q.edges|, kids[k]);
    }
    hide *;
    PopLevel(pq, kids);
  }

  /** Popping the front and pushing states one level below it. */
  lemma PopLevel(pq: seq<SearchState>, kids: seq<SearchState>)
    requires pq != [] && Levels(pq)
    requires forall k :: 0 <= k < |kids| ==> |kids[k].path| == |pq[0].path| + 1
    ensures Levels(Without(pq, 0)) && Levels(Without(pq, 0) + kids)
  {
    WithoutAt(pq, 0);
    hide Without;
  }

  /** topology.rs: pop the oldest state each time, and look at k only after the pop. */
  method FirstInFirstOut(q: Query, k: nat) returns (res: seq<seq<nat>>)
    ensures KBest(q, k, ByHops, res)
  {
    var pq := [SearchState(q.src, [], 0.0)];
    res := [];
    StartOk(q, ByHops);
    while pq != []
      invariant |res| <= k
      invariant SearchOk(q, ByHops, pq, res) && Levels(pq)
      decreases Load(q, pq)
    {
      if |res| >= k { break; }
      var s := pq[0];
      assert StateOk(q, s);
      ShortestIsLightest(q, pq, res);
      ExpandLevels(q, pq);
      hide SearchOk, StateOk, Levels;
      WithoutLoad(q, pq, 0);
      var rest := pq[1..];
      assert rest == Without(pq, 0);
      if s.vertex == q.dst {
        FoundStep(q, ByHops, pq, res, 0);
        res := res + [s.path];
        pq := rest;
        continue;
      }
      if |s.path| >= q.hops {
        DropStep(q, ByHops, pq, res, 0);
        pq := rest;
        continue;
      }
      ExpandStep(q, ByHops, pq, res, 0);
      ExpandLoad(q, pq, 0);
      pq := PushKids(q, s, rest);
    }
    Finish(q, k, ByHops, pq, res);
  }

  // -------------------------------------------------------- C++ and Rust

  ghost function PathSet(res: seq<seq<nat>>): set<seq<nat>> { set p | p in res }

  lemma {:induction false} PathSetCard(res: seq<seq<nat>>)
    requires NoRepeats(res)
    ensures |PathSet(res)| == |res|
  {
    if res != [] {
      var n := |res| - 1;
      PathSetCard(res[..n]);
      assert PathSet(res) == PathSet(res[..n]) + {res[n]};
      assert res[n] !in PathSet(res[..n]);
    }
  }

  /** Both searches return equally many paths, and the very same ones unless k cut them off. */
  lemma SearchesAgree(q: Query, k: nat, best: seq<seq<nat>>, fifo: seq<seq<nat>>)
    requires KBest(q, k, ByCost, best) && KBest(q, k, ByHops, fifo)
    ensures |best| == |fifo|
    ensures |best| < k ==> PathSet(best) == PathSet(fifo)
  {
    hide KBest, NoRepeats, AllAdmissible, Physical, PathSet;
    KBestFacts(q, k, ByCost, best);
    KBestFacts(q, k, ByHops, fifo);
    PathSetCard(best);
    PathSetCard(fifo);
    if |best| < k { FewFindAll(q, k, ByCost, best, fifo); Subcard(PathSet(fifo), PathSet(best)); }
    if |fifo| < k { FewFindAll(q, k, ByHops, fifo, best); Subcard(PathSet(best), PathSet(fifo)); }
  }

  lemma KBestFacts(q: Query, k: nat, m: Measure, res: seq<seq<nat>>)
    requires KBest(q, k, m, res)
    ensures |res| <= k && NoRepeats(res) && AllAdmissible(q, res)
  {
  }

  lemma FewFindAll(q: Query, k: nat, m: Measure, few: seq<seq<nat>>, other: seq<seq<nat>>)
    requires KBest(q, k, m, few) && |few| < k && AllAdmissible(q, other)
    ensures PathSet(other) <= PathSet(few)
  {
    forall p | p in other ensures p in few {
      var i :| 0 <= i < |other| && other[i] == p;
      assert Admissible(q, other[i]);
    }
  }

  lemma {:induction false} Subcard<T>(a: set<T>, b: set<T>)
    requires a <= b
    ensures |a| <= |b|
    ensures |a| == |b| ==> a == b
  {
    var d := b - a;
    assert b == a + d;
    if d == {} { assert a == b; }
  }
}
