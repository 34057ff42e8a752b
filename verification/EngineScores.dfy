/** How the path engine scores candidates. The base cost of a path under given utilizations
    is left to the caller; the engine's own biases are what is modelled here. */
module EngineScores {
  import opened Model
  import opened PathSearch
  import opened TransferSpec
  import opened EngineSpec

  /** path_cost: utilizations, path, bytes and expected duration in ms to microseconds. */
  type Scorer = (seq<real>, seq<nat>, nat, real) -> real

  predicate UnitUtils(utils: seq<real>) { forall i :: 0 <= i < |utils| ==> 0.0 <= utils[i] <= 1.0 }

  /** For 64-bit sizes and paths within the hop bound, costs are non-negative and far from the
      "no path yet" value. */
  ghost predicate Tame(cost: Scorer, edges: seq<GraphEdge>, hops: nat) {
    forall utils: seq<real>, path: seq<nat>, size: Size64, ms: real ::
      UnitUtils(utils) && Indexes(edges, path) && |path| <= hops && ms >= 0.0
      ==> 0.0 <= cost(utils, path, size, ms) < DBL_MAX / 2.0
  }

  /** Milliseconds to move size bytes at 50 GB/s. */
  function EstMs(size: nat): real { size as real / 1000000000.0 / 50.0 * 1000.0 }

  // ------------------------------------------------------ mean utilization

  function UtilSum(path: seq<nat>, utils: seq<real>): real {
    if path == [] then 0.0
    else
      var e := path[|path| - 1];
      UtilSum(path[..|path| - 1], utils) + if e < |utils| then utils[e] else 0.0
  }

  function Measured(path: seq<nat>, utils: seq<real>): nat {
    if path == [] then 0
    else Measured(path[..|path| - 1], utils) + if path[|path| - 1] < |utils| then 1 else 0
  }

  /** path_mean_util: the mean over the measured edges, 1 on no edges, 0 on none measured. */
  function MeanUtil(path: seq<nat>, utils: seq<real>): real {
    if path == [] then 1.0
    else if Measured(path, utils) > 0 then UtilSum(path, utils) / Measured(path, utils) as real
    else 0.0
  }

  method MeanOf(path: seq<nat>, utils: seq<real>) returns (mean: real)
    ensures mean == MeanUtil(path, utils)
  {
    if path == [] { return 1.0; }
    var sum, n: nat := 0.0, 0;
    for k := 0 to |path|
      invariant sum == UtilSum(path[..k], utils) && n == Measured(path[..k], utils)
    {
      assert path[..k + 1][..k] == path[..k];
      if path[k] < |utils| {
        sum := sum + utils[path[k]];
        n := n + 1;
      }
    }
    assert path[..|path|] == path;
    mean := if n > 0 then sum / n as real else 0.0;
  }

  lemma {:induction false} SumBelowCount(path: seq<nat>, utils: seq<real>)
    requires UnitUtils(utils)
    ensures 0.0 <= UtilSum(path, utils) <= Measured(path, utils) as real
  {
    if path != [] { SumBelowCount(path[..|path| - 1], utils); }
  }

  /** The mean of utilizations is one. */
  lemma MeanIsUnit(path: seq<nat>, utils: seq<real>)
    requires UnitUtils(utils)
    ensures 0.0 <= MeanUtil(path, utils) <= 1.0
  {
    SumBelowCount(path, utils);
    if path != [] && Measured(path, utils) > 0 { RatioIsUnit(UtilSum(path, utils), Measured(path, utils) as real); }
  }

  lemma RatioIsUnit(a: real, b: real)
    requires 0.0 <= a <= b && b > 0.0
    ensures 0.0 <= a / b <= 1.0
  {
    var r := a / b;
    assert a == r * b;
    assert r > 1.0 ==> r * b > b;
  }

  // ----------------------------------------------------------- added load

  function Bump(utils: seq<real>, e: nat, more: real): (r: seq<real>)
    ensures |r| == |utils|
  {
    if e < |utils| then utils[e := if utils[e] + more < 0.99 then utils[e] + more else 0.99] else utils
  }

  function BumpAll(utils: seq<real>, path: seq<nat>, more: real): (r: seq<real>)
    ensures |r| == |utils|
  {
    if path == [] then utils else Bump(BumpAll(utils, path[..|path| - 1], more), path[|path| - 1], more)
  }

  method AddLoad(utils: seq<real>, path: seq<nat>, more: real) returns (r: seq<real>)
    ensures r == BumpAll(utils, path, more)
  {
    r := utils;
    for k := 0 to |path|
      invariant r == BumpAll(utils, path[..k], more)
    {
      assert path[..k + 1][..k] == path[..k];
      if path[k] < |r| { r := r[path[k] := if r[path[k]] + more < 0.99 then r[path[k]] + more else 0.99]; }
    }
    assert path[..|path|] == path;
  }

  lemma {:induction false} BumpAllUnit(utils: seq<real>, path: seq<nat>, more: real)
    requires UnitUtils(utils) && more >= 0.0
    ensures UnitUtils(BumpAll(utils, path, more))
  {
    if path != [] { BumpAllUnit(utils, path[..|path| - 1], more); }
  }

  /** The load a stripe expects once the given chunks are out. */
  function LoadAfter(utils: seq<real>, sent: seq<ChunkPath>): seq<real> {
    if sent == [] then utils
    else BumpAll(LoadAfter(utils, sent[..|sent| - 1]), sent[|sent| - 1].edges, 0.05)
  }

  lemma {:induction false} LoadAfterUnit(utils: seq<real>, sent: seq<ChunkPath>)
    requires UnitUtils(utils)
    ensures UnitUtils(LoadAfter(utils, sent))
  {
    if sent != [] {
      LoadAfterUnit(utils, sent[..|sent| - 1]);
      BumpAllUnit(LoadAfter(utils, sent[..|sent| - 1]), sent[|sent| - 1].edges, 0.05);
    }
  }

  // --------------------------------------------------------------- scores

  /** The telemetry bias: a cooler path counts for less. */
  function Warmth(path: seq<nat>, utils: seq<real>): real { 0.75 + 0.5 * MeanUtil(path, utils) }

  function SelectScore(cost: Scorer, utils: seq<real>, req: TransferRequest): seq<nat> -> real {
    (p: seq<nat>) =>
      if req.cls == KVMigration then cost(utils, p, req.size, EstMs(req.size)) * Warmth(p, utils)
      else cost(utils, p, req.size, EstMs(req.size))
  }

  /** The cost of a chunk under the load so far, with the telemetry bias. */
  function Warmed(cost: Scorer, load: seq<real>, utils: seq<real>, size: nat, quantum: nat): seq<nat> -> real {
    (p: seq<nat>) => cost(load, p, size, EstMs(quantum)) * Warmth(p, utils)
  }

  /** Chunk i prefers rail i mod 2 when costs are close. */
  function RailBiased(base: seq<nat> -> real, edges: seq<GraphEdge>, i: nat): seq<nat> -> real {
    (p: seq<nat>) =>
      if PathRail(edges, p) >= 0 && i % IB_RAIL_COUNT == PathRail(edges, p) then base(p) * 0.92 else base(p)
  }

  function StripeScore(cost: Scorer, load: seq<real>, utils: seq<real>, edges: seq<GraphEdge>, i: nat, size: nat,
                       quantum: nat): seq<nat> -> real
  {
    RailBiased(Warmed(cost, load, utils, size, quantum), edges, i)
  }

  /** A reroute prefers paths clear of the busy edges, and the other rail. */
  function DrainScore(cost: Scorer, utils: seq<real>, edges: seq<GraphEdge>, avoid: seq<nat>, remain: nat)
    : seq<nat> -> real
  {
    (p: seq<nat>) =>
      var c := cost(utils, p, remain, EstMs(remain));
      var d := if Shares(p, avoid) then c else c * 0.5;
      var busy, rail := PathRail(edges, avoid), PathRail(edges, p);
      (if busy >= 0 && rail >= 0 && rail != busy then d * 0.6 else d) * Warmth(p, utils)
  }

  lemma ScaledBound(c: real, w: real, bound: real)
    requires 0.0 <= c < bound && 0.0 <= w <= 1.25 && bound > 0.0
    ensures 0.0 <= c * w < 2.0 * bound
  {
    var d := 1.25 - w;
    MulSign(c, w);
    MulSign(c, d);
    assert c * w == c * 1.25 - c * d;
  }

  lemma MulSign(a: real, b: real)
    requires a >= 0.0 && b >= 0.0
    ensures a * b >= 0.0
  {
  }

  lemma WarmthBound(path: seq<nat>, utils: seq<real>)
    requires UnitUtils(utils)
    ensures 0.75 <= Warmth(path, utils) <= 1.25
  {
    MeanIsUnit(path, utils);
  }

  lemma DrainScoreFinite(cost: Scorer, hops: nat, utils: seq<real>, edges: seq<GraphEdge>, avoid: seq<nat>,
                         remain: Size64, cands: seq<seq<nat>>)
    requires Tame(cost, edges, hops) && UnitUtils(utils)
    requires forall i :: 0 <= i < |cands| ==> Indexes(edges, cands[i]) && |cands[i]| <= hops
    ensures FiniteCosts(cands, DrainScore(cost, utils, edges, avoid, remain))
  {
    forall i | 0 <= i < |cands| ensures DrainScore(cost, utils, edges, avoid, remain)(cands[i]) < DBL_MAX {
      var p := cands[i];
      var c := cost(utils, p, remain, EstMs(remain));
      assert 0.0 <= c < DBL_MAX / 2.0;
      hide Tame;
      WarmthBound(p, utils);
      var d := if Shares(p, avoid) then c else c * 0.5;
      ScaledBound(d, Warmth(p, utils), DBL_MAX / 2.0);
      ScaledBound(d * 0.6, Warmth(p, utils), DBL_MAX / 2.0);
    }
  }

  /** When all candidates cost the same before the rail bias, chunk i goes out on rail i mod 2,
      provided some candidate runs over that rail. */
  lemma EvenCostsAlternate(base: seq<nat> -> real, edges: seq<GraphEdge>, i: nat, cands: seq<seq<nat>>, k: nat,
                           even: real, best: PathCost)
    requires 0.0 < even < DBL_MAX && k < |cands| && PathRail(edges, cands[k]) == i % IB_RAIL_COUNT
    requires forall j :: 0 <= j < |cands| ==> base(cands[j]) == even
    requires BestOf(cands, RailBiased(base, edges, i), best)
    ensures PathRail(edges, best.edges) == i % IB_RAIL_COUNT
  {
    var score := RailBiased(base, edges, i);
    assert score(cands[k]) == even * 0.92;
    var b :| 0 <= b < |cands| && FirstBest(cands, score, best, b);
    assert score(cands[b]) <= even * 0.92 < even;
  }

  /** What a path would cost a reroute before the two biases. */
  function Unbiased(cost: Scorer, utils: seq<real>, remain: nat): seq<nat> -> real {
    (p: seq<nat>) => cost(utils, p, remain, EstMs(remain)) * Warmth(p, utils)
  }

  /** The path runs over a rail other than the busy one, clear of the busy edges. */
  predicate Leaves(edges: seq<GraphEdge>, avoid: seq<nat>, p: seq<nat>) {
    PathRail(edges, p) >= 0 && PathRail(edges, p) != PathRail(edges, avoid) && !Shares(p, avoid)
  }

  /** The biases of a reroute: 0.3 for a path that leaves, at least 0.5 for any other. */
  lemma DrainBias(cost: Scorer, utils: seq<real>, edges: seq<GraphEdge>, avoid: seq<nat>, remain: nat, p: seq<nat>)
    requires PathRail(edges, avoid) >= 0 && Unbiased(cost, utils, remain)(p) > 0.0
    ensures var u := Unbiased(cost, utils, remain)(p);
      var s := DrainScore(cost, utils, edges, avoid, remain)(p);
      if Leaves(edges, avoid, p) then s == 0.3 * u else s >= 0.5 * u
  {
    var c, w := cost(utils, p, remain, EstMs(remain)), Warmth(p, utils);
    assert c * 0.5 * 0.6 * w == 0.3 * (c * w) && c * 0.5 * w == 0.5 * (c * w) && c * 0.6 * w == 0.6 * (c * w);
  }

  /** A reroute leaves the busy rail and its edges, if some candidate does and costs less than 5/3
      of any other before the biases. */
  lemma RerouteLeaves(cost: Scorer, utils: seq<real>, edges: seq<GraphEdge>, avoid: seq<nat>, remain: nat,
                      cands: seq<seq<nat>>, k: nat, best: PathCost)
    requires BestOf(cands, DrainScore(cost, utils, edges, avoid, remain), best)
    requires PathRail(edges, avoid) >= 0 && k < |cands| && Leaves(edges, avoid, cands[k])
    requires Unbiased(cost, utils, remain)(cands[k]) < DBL_MAX
    requires forall j :: 0 <= j < |cands| ==>
      var u := Unbiased(cost, utils, remain)(cands[j]);
      u > 0.0 && 3.0 * Unbiased(cost, utils, remain)(cands[k]) < 5.0 * u
    ensures Leaves(edges, avoid, best.edges)
  {
    var score := DrainScore(cost, utils, edges, avoid, remain);
    hide Leaves, DrainScore, Unbiased;
    DrainBias(cost, utils, edges, avoid, remain, cands[k]);
    var b :| 0 <= b < |cands| && FirstBest(cands, score, best, b);
    DrainBias(cost, utils, edges, avoid, remain, cands[b]);
  }

  /** In particular when all base costs are the same, telemetry lies in [0, 1], and the candidate that
      leaves is not wholly hot. */
  lemma EvenReroutesLeave(cost: Scorer, utils: seq<real>, edges: seq<GraphEdge>, avoid: seq<nat>, remain: nat,
                          cands: seq<seq<nat>>, k: nat, even: real, best: PathCost)
    requires BestOf(cands, DrainScore(cost, utils, edges, avoid, remain), best) && UnitUtils(utils)
    requires PathRail(edges, avoid) >= 0 && k < |cands| && Leaves(edges, avoid, cands[k])
    requires 0.0 < even < DBL_MAX / 2.0 && MeanUtil(cands[k], utils) < 1.0
    requires forall j :: 0 <= j < |cands| ==> cost(utils, cands[j], remain, EstMs(remain)) == even
    ensures Leaves(edges, avoid, best.edges)
  {
    hide Leaves, DrainScore, BestOf, MeanUtil, Unbiased, UnitUtils;
    forall j | 0 <= j < |cands|
      ensures var u := Unbiased(cost, utils, remain)(cands[j]);
        u > 0.0 && 3.0 * Unbiased(cost, utils, remain)(cands[k]) < 5.0 * u
    {
      EvenPair(cost, utils, remain, cands[k], cands[j], even);
    }
    EvenPair(cost, utils, remain, cands[k], cands[k], even);
    RerouteLeaves(cost, utils, edges, avoid, remain, cands, k, best);
  }

  lemma EvenPair(cost: Scorer, utils: seq<real>, remain: nat, p: seq<nat>, r: seq<nat>, even: real)
    requires UnitUtils(utils) && 0.0 < even < DBL_MAX / 2.0 && MeanUtil(p, utils) < 1.0
    requires cost(utils, p, remain, EstMs(remain)) == even == cost(utils, r, remain, EstMs(remain))
    ensures var u, v := Unbiased(cost, utils, remain)(p), Unbiased(cost, utils, remain)(r);
      u < DBL_MAX && v > 0.0 && 3.0 * u < 5.0 * v
  {
    hide MeanUtil, UnitUtils;
    WarmthBound(p, utils);
    WarmthBound(r, utils);
    var w, v := Warmth(p, utils), Warmth(r, utils);
    var u, u' := Unbiased(cost, utils, remain)(p), Unbiased(cost, utils, remain)(r);
    assert w < 1.25 && u == even * w && u' == even * v;
    hide Unbiased, Warmth;
    ScaledBound(even, w, DBL_MAX / 2.0);
    EvenWarmth(even, w, v, u, u');
  }

  lemma EvenWarmth(even: real, w: real, v: real, a: real, b: real)
    requires even > 0.0 && w < 1.25 && v >= 0.75 && a == even * w && b == even * v
    ensures b > 0.0 && 3.0 * a < 5.0 * b
  {
    var d := 5.0 * v - 3.0 * w;
    assert even * d > 0.0;
    assert even * d == 5.0 * b - 3.0 * a;
    MulSign(even, v - 0.75);
    assert even * (v - 0.75) == b - 0.75 * even;
  }
}
