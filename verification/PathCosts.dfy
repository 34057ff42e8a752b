/** path_cost: what a path is expected to take, from its edges, their load and their predictions. */
module PathCosts {
  import opened Model
  import opened PathSearch
  import opened DualRail
  import opened Bandwidth
  import opened EngineScores

  const PREDICT_AHEAD_MS: real := 5.0

  /** effective_util: the longer the transfer the more the prediction counts, and a link is never
      taken to be cooler than it is. */
  function EffectiveUtil(predicted: real, current: real, ms: real): real {
    var weight := if ms / PREDICT_AHEAD_MS < 1.0 then ms / PREDICT_AHEAD_MS else 1.0;
    var blended := predicted * weight + current * (1.0 - weight);
    if blended > current then blended else current
  }

  /** Microseconds to move size bytes at gbps GB/s: without bandwidth that is infinite, for which
      DBL_MAX stands. */
  function MoveTime(gbps: real, size: nat): real {
    if gbps == 0.0 then DBL_MAX else size as real / 1000000000.0 / gbps * 1000000.0
  }

  /** edge_latency_us. */
  function EdgeLatency(edge: GraphEdge, size: nat, util: real, residual: Residual): real {
    edge.attrs.latency + MoveTime(Left(edge, util, residual), size)
  }

  /** What edge e adds to the cost of a path. */
  function EdgePart(edges: seq<GraphEdge>, cache: seq<real>, residual: Residual, utils: seq<real>, e: nat, size: nat,
                    ms: real): real
  {
    if e < |edges|
    then EdgeLatency(edges[e], size, EffectiveUtil(UtilAt(cache, e), UtilAt(utils, e), ms), residual)
    else 0.0
  }

  function LatencySum(edges: seq<GraphEdge>, cache: seq<real>, residual: Residual, utils: seq<real>, path: seq<nat>,
                      size: nat, ms: real): real
  {
    if path == [] then 0.0
    else
      LatencySum(edges, cache, residual, utils, path[..|path| - 1], size, ms)
      + EdgePart(edges, cache, residual, utils, path[|path| - 1], size, ms)
  }

  /** path_cost over a graph, a prediction cache and a contention law. */
  function PathCostOf(edges: seq<GraphEdge>, cache: seq<real>, residual: Residual): Scorer {
    (utils: seq<real>, path: seq<nat>, size: nat, ms: real) =>
      LatencySum(edges, cache, residual, utils, path, size, ms)
  }

  // ----------------------------------------------------------- real costs

  /** Every link moves at least 1 GB/s at its peak, takes at most a second and contends mildly. */
  predicate Wide(edges: seq<GraphEdge>) {
    forall e :: 0 <= e < |edges| ==> WideLink(edges[e].attrs)
  }

  predicate WideLink(attrs: EdgeAttributes) {
    attrs.bandwidth >= 1.0 && 0.0 <= attrs.latency <= 1000000.0 && 0.0 <= attrs.alpha <= 3.0
  }

  /** All that is asked of pow: between 0 and 1, an exponent up to 3 leaves at least the cube. */
  ghost predicate PowLike(residual: Residual) {
    forall x, a :: 0.0 < x <= 1.0 && 0.0 <= a <= 3.0 ==> residual(x, a) >= x * x * x
  }

  const MAX_HOPS: nat := 1000000
  const EDGE_CAP: real := 20000000000000000000000.0

  lemma EffectiveUtilUnit(predicted: real, current: real, ms: real)
    requires 0.0 <= predicted <= 1.0 && 0.0 <= current <= 1.0 && ms >= 0.0
    ensures current <= EffectiveUtil(predicted, current, ms) <= 1.0
  {
    var weight := if ms / PREDICT_AHEAD_MS < 1.0 then ms / PREDICT_AHEAD_MS else 1.0;
    AtMost(predicted, weight);
    AtMost(current, 1.0 - weight);
  }

  lemma AtMost(a: real, w: real)
    requires a <= 1.0 && w >= 0.0
    ensures a * w <= w
  {
    MulSign(1.0 - a, w);
    assert (1.0 - a) * w == w - a * w;
  }

  /** The cube of at least 1/100 is at least 1/1000000. */
  lemma CubeFloor(x: real)
    requires 0.01 <= x <= 1.0
    ensures x * x * x >= 0.000001
  {
    var d := x - 0.01;
    MulSign(d, d);
    assert x * x == 0.0001 + 0.02 * d + d * d;
    var y := x * x;
    MulSign(y - 0.0001, x);
    assert (y - 0.0001) * x == y * x - 0.0001 * x;
  }

  lemma DivAtMost(a: real, d: real)
    requires a >= 0.0 && d >= 0.000001
    ensures 0.0 <= a / d <= a * 1000000.0
  {
    var q := a / d;
    assert q * d == a;
    NotNegative(q, d);
    MulSign(q, d - 0.000001);
    assert q * (d - 0.000001) == a - q * 0.000001;
  }

  lemma NotNegative(q: real, d: real)
    requires d > 0.0 && q * d >= 0.0
    ensures q >= 0.0
  {
  }

  lemma MoveTimeBound(gbps: real, size: Size64)
    requires gbps >= 0.000001
    ensures 0.0 <= MoveTime(gbps, size) <= EDGE_CAP - 1000000.0
  {
    DivAtMost(size as real / 1000000000.0, gbps);
  }

  /** However hot, a wide link has a millionth of a GB/s left. */
  lemma LeftFloor(edge: GraphEdge, util: real, residual: Residual)
    requires WideLink(edge.attrs) && PowLike(residual)
    ensures Left(edge, util, residual) >= 0.000001
  {
    var r := residual(1.0 - Clamped(util), edge.attrs.alpha);
    CubeFloor(1.0 - Clamped(util));
    assert r >= 0.000001;
    hide PowLike;
    MulSign(edge.attrs.bandwidth - 1.0, r);
    assert (edge.attrs.bandwidth - 1.0) * r == edge.attrs.bandwidth * r - r;
  }

  lemma EdgeLatencyBound(edge: GraphEdge, size: Size64, util: real, residual: Residual)
    requires WideLink(edge.attrs) && PowLike(residual)
    ensures 0.0 <= EdgeLatency(edge, size, util, residual) <= EDGE_CAP
  {
    hide PowLike, Left, MoveTime;
    LeftFloor(edge, util, residual);
    MoveTimeBound(Left(edge, util, residual), size);
  }

  lemma {:induction false} LatencySumBound(edges: seq<GraphEdge>, cache: seq<real>, residual: Residual,
                                           utils: seq<real>, path: seq<nat>, size: Size64, ms: real)
    requires Wide(edges) && PowLike(residual)
    ensures 0.0 <= LatencySum(edges, cache, residual, utils, path, size, ms) <= |path| as real * EDGE_CAP
  {
    hide EdgeLatency, EffectiveUtil, PowLike, WideLink;
    if path != [] {
      var n := |path| - 1;
      LatencySumBound(edges, cache, residual, utils, path[..n], size, ms);
      var e := path[n];
      if e < |edges| {
        EdgeLatencyBound(edges[e], size, EffectiveUtil(UtilAt(cache, e), UtilAt(utils, e), ms), residual);
      }
      assert |path| as real * EDGE_CAP == n as real * EDGE_CAP + EDGE_CAP;
    }
  }

  /** The code's own path cost is tame: on wide links, for every 64-bit size, every path within the
      hop bound and every load. */
  lemma PathCostTame(edges: seq<GraphEdge>, cache: seq<real>, residual: Residual, hops: nat)
    requires Wide(edges) && PowLike(residual) && hops <= MAX_HOPS
    ensures Tame(PathCostOf(edges, cache, residual), edges, hops)
  {
    var cost := PathCostOf(edges, cache, residual);
    forall utils: seq<real>, path: seq<nat>, size: Size64, ms: real | |path| <= hops
      ensures 0.0 <= cost(utils, path, size, ms) < DBL_MAX / 2.0
    {
      LatencySumBound(edges, cache, residual, utils, path, size, ms);
      assert |path| as real * EDGE_CAP <= 1000000.0 * EDGE_CAP;
    }
  }

  /** Every link of a built cluster is wide. */
  lemma FabricWide(vertices: seq<EndpointId>, edges: seq<GraphEdge>)
    requires Sound(vertices, edges)
    ensures Wide(edges)
  {
    forall e | 0 <= e < |edges| ensures WideLink(edges[e].attrs) {
      assert Link(vertices[edges[e].src], vertices[edges[e].dst]) == Wired(edges[e].attrs);
    }
  }
}
