/** What the scores of the path engine prefer, and when an SLO miss preempts. */
module SelectionLaws {
  import opened Model
  import opened PathSearch
  import opened TransferSpec
  import opened EngineSpec
  import opened EngineScores
  import opened SystemRuns
  import opened PathEngine
  import opened ExecutorLaws
  import opened SystemSpec
  import opened SystemInvariant
  import opened TransferInvariant
  import opened LoadLaws
  import opened Arithmetic

  // ------------------------------------------------------- mean and warmth

  /** Measured utilizations of the path lie between lo and hi. */
  predicate Between(path: seq<nat>, utils: seq<real>, lo: real, hi: real) {
    forall i :: 0 <= i < |path| && path[i] < |utils| ==> lo <= utils[path[i]] <= hi
  }

  lemma {:induction false} SumBetween(path: seq<nat>, utils: seq<real>, lo: real, hi: real)
    requires Between(path, utils, lo, hi)
    ensures Weighed(lo, Measured(path, utils) as real) <= UtilSum(path, utils)
    ensures UtilSum(path, utils) <= Weighed(hi, Measured(path, utils) as real)
  {
    hide Weighed;
    if path == [] {
      NoWeight(lo);
      NoWeight(hi);
    } else {
      var n := |path| - 1;
      assert Between(path[..n], utils, lo, hi);
      SumBetween(path[..n], utils, lo, hi);
      MoreWeight(lo, Measured(path[..n], utils) as real);
      MoreWeight(hi, Measured(path[..n], utils) as real);
      assert path[n] < |utils| ==> lo <= utils[path[n]] <= hi;
      hide Between;
    }
  }

  /** A product, kept whole. */
  function Weighed(x: real, w: real): real { x * w }

  lemma NoWeight(x: real)
    ensures Weighed(x, 0.0) == 0.0
  {
  }

  lemma MoreWeight(x: real, w: real)
    ensures Weighed(x, w + 1.0) == Weighed(x, w) + x
  {
  }

  lemma WeighedOrder(x: real, v: real, w: real)
    requires x > 0.0 && Weighed(x, v) <= Weighed(x, w)
    ensures v <= w
  {
    assert v > w ==> x * (v - w) > 0.0;
    assert x * (v - w) == x * v - x * w;
  }

  /** The smaller of two positive numbers at the smaller of two weights. */
  lemma WeighedRises(x: real, y: real, v: real, w: real)
    requires 0.0 < x < y && 0.0 < v <= w
    ensures Weighed(x, v) < Weighed(y, w)
  {
    assert (y - x) * v > 0.0;
    MulSign(y, w - v);
    assert (y - x) * v == y * v - x * v;
    assert y * (w - v) == y * w - y * v;
  }

  /** The mean lies between the extremes of what was measured: of one value, it is that value. */
  lemma MeanBetween(path: seq<nat>, utils: seq<real>, lo: real, hi: real)
    requires Between(path, utils, lo, hi) && exists i :: 0 <= i < |path| && path[i] < |utils|
    ensures lo <= MeanUtil(path, utils) <= hi
  {
    var i :| 0 <= i < |path| && path[i] < |utils|;
    SomeMeasured(path, utils, i);
    SumBetween(path, utils, lo, hi);
    hide UtilSum, Measured, Between;
    RatioBetween(UtilSum(path, utils), Measured(path, utils) as real, lo, hi);
  }

  lemma RatioBetween(a: real, m: real, lo: real, hi: real)
    requires m > 0.0 && lo * m <= a <= hi * m
    ensures lo <= a / m <= hi
  {
    var r := a / m;
    assert r * m == a;
    assert r < lo ==> (lo - r) * m > 0.0;
    assert r > hi ==> (r - hi) * m > 0.0;
  }

  lemma {:induction false} SomeMeasured(path: seq<nat>, utils: seq<real>, i: nat)
    requires i < |path| && path[i] < |utils|
    ensures Measured(path, utils) > 0
  {
    if i < |path| - 1 { SomeMeasured(path[..|path| - 1], utils, i); }
  }

  /** The hotter a path on average, the more it counts. */
  lemma WarmthOrder(p: seq<nat>, r: seq<nat>, utils: seq<real>)
    ensures MeanUtil(p, utils) < MeanUtil(r, utils) <==> Warmth(p, utils) < Warmth(r, utils)
  {
  }

  /** Of candidates that cost the same before the telemetry bias, the best is a coolest. */
  lemma CoolestOf(cands: seq<seq<nat>>, score: seq<nat> -> real, base: seq<nat> -> real, utils: seq<real>,
                  best: PathCost, j: nat)
    requires forall i :: 0 <= i < |cands| ==> score(cands[i]) == Weighed(base(cands[i]), Warmth(cands[i], utils))
    requires BestOf(cands, score, best) && best.latency < DBL_MAX && j < |cands|
    requires base(best.edges) == base(cands[j]) > 0.0
    ensures best.edges in cands && MeanUtil(best.edges, utils) <= MeanUtil(cands[j], utils)
  {
    hide Weighed, MeanUtil, Warmth;
    var b :| 0 <= b < |cands| && FirstBest(cands, score, best, b);
    WeighedOrder(base(cands[j]), Warmth(cands[b], utils), Warmth(cands[j], utils));
    WarmthOrder(cands[j], cands[b], utils);
  }

  lemma SomeBelow(cands: seq<seq<nat>>, score: seq<nat> -> real, best: PathCost, i: nat)
    requires BestOf(cands, score, best) && i < |cands| && score(cands[i]) < DBL_MAX
    ensures best.latency < DBL_MAX
  {
  }

  // ------------------------------------------------------------ select_path

  /** What select_path compares before the telemetry bias. */
  function BaseCost(cost: Scorer, utils: seq<real>, req: TransferRequest): seq<nat> -> real {
    (p: seq<nat>) => cost(utils, p, req.size, EstMs(req.size))
  }

  lemma SelectScoreIs(cost: Scorer, utils: seq<real>, req: TransferRequest, p: seq<nat>)
    requires req.cls == KVMigration
    ensures SelectScore(cost, utils, req)(p) == Weighed(BaseCost(cost, utils, req)(p), Warmth(p, utils))
  {
    hide MeanUtil;
  }

  lemma EvenBelow(even: real, p: seq<nat>, utils: seq<real>)
    requires UnitUtils(utils) && 0.0 < even < DBL_MAX / 2.0
    ensures Weighed(even, Warmth(p, utils)) < DBL_MAX
  {
    hide MeanUtil, UnitUtils;
    WarmthBound(p, utils);
    ScaledBound(even, Warmth(p, utils), DBL_MAX / 2.0);
  }

  /** A KV migration takes a coolest of candidates that cost the same. */
  lemma KvTakesCoolest(cost: Scorer, utils: seq<real>, req: TransferRequest, cands: seq<seq<nat>>, even: real,
                       best: PathCost)
    requires req.cls == KVMigration && cands != [] && UnitUtils(utils) && 0.0 < even < DBL_MAX / 2.0
    requires forall i :: 0 <= i < |cands| ==> BaseCost(cost, utils, req)(cands[i]) == even
    requires BestOf(cands, SelectScore(cost, utils, req), best)
    ensures best.edges in cands
    ensures forall i :: 0 <= i < |cands| ==> MeanUtil(best.edges, utils) <= MeanUtil(cands[i], utils)
  {
    var score, base := SelectScore(cost, utils, req), BaseCost(cost, utils, req);
    hide SelectScore, MeanUtil, UnitUtils, Warmth, BaseCost, Weighed;
    forall i | 0 <= i < |cands| ensures score(cands[i]) == Weighed(base(cands[i]), Warmth(cands[i], utils)) {
      SelectScoreIs(cost, utils, req, cands[i]);
    }
    EvenBelow(even, cands[0], utils);
    SomeBelow(cands, score, best, 0);
    var b :| 0 <= b < |cands| && FirstBest(cands, score, best, b);
    forall i | 0 <= i < |cands| ensures MeanUtil(best.edges, utils) <= MeanUtil(cands[i], utils) {
      CoolestOf(cands, score, base, utils, best, i);
    }
  }

  /** A candidate that is cheaper before the bias than what a KV migration takes is hotter. */
  lemma KvTakesUndominated(cost: Scorer, utils: seq<real>, req: TransferRequest, cands: seq<seq<nat>>, best: PathCost,
                           i: nat)
    requires req.cls == KVMigration && UnitUtils(utils) && i < |cands|
    requires BestOf(cands, SelectScore(cost, utils, req), best) && best.latency < DBL_MAX
    requires 0.0 < BaseCost(cost, utils, req)(cands[i]) < BaseCost(cost, utils, req)(best.edges)
    ensures MeanUtil(cands[i], utils) > MeanUtil(best.edges, utils)
  {
    var score, base := SelectScore(cost, utils, req), BaseCost(cost, utils, req);
    hide SelectScore, MeanUtil, Warmth, BaseCost, Weighed, UnitUtils;
    var b :| 0 <= b < |cands| && FirstBest(cands, score, best, b);
    SelectScoreIs(cost, utils, req, cands[i]);
    SelectScoreIs(cost, utils, req, cands[b]);
    WarmthBound(cands[i], utils);
    WarmthOrder(cands[b], cands[i], utils);
    if Warmth(cands[i], utils) <= Warmth(cands[b], utils) {
      WeighedRises(base(cands[i]), base(cands[b]), Warmth(cands[i], utils), Warmth(cands[b], utils));
    }
  }

  /** Of two candidates a KV migration prefers the one with the lower cost times 3 + 2 * mean: a cold
      path may cost up to 5/3 of a hot one, and at a mean of one half the bias is none. */
  lemma KvPrefersIff(cost: Scorer, utils: seq<real>, req: TransferRequest, p: seq<nat>, r: seq<nat>)
    requires req.cls == KVMigration
    ensures var x, y := BaseCost(cost, utils, req)(p), BaseCost(cost, utils, req)(r);
      SelectScore(cost, utils, req)(p) < SelectScore(cost, utils, req)(r)
      <==> x * (3.0 + 2.0 * MeanUtil(p, utils)) < y * (3.0 + 2.0 * MeanUtil(r, utils))
    ensures MeanUtil(p, utils) == 0.5 ==> SelectScore(cost, utils, req)(p) == BaseCost(cost, utils, req)(p)
  {
    SelectScoreIs(cost, utils, req, p);
    SelectScoreIs(cost, utils, req, r);
    FourTimes(BaseCost(cost, utils, req)(p), MeanUtil(p, utils));
    FourTimes(BaseCost(cost, utils, req)(r), MeanUtil(r, utils));
    hide MeanUtil, SelectScore, BaseCost;
  }

  lemma FourTimes(x: real, mean: real)
    ensures 4.0 * Weighed(x, 0.75 + 0.5 * mean) == x * (3.0 + 2.0 * mean)
  {
    assert x * (0.75 + 0.5 * mean) == 0.75 * x + 0.5 * x * mean;
    assert x * (3.0 + 2.0 * mean) == 3.0 * x + 2.0 * x * mean;
  }

  /** Other classes take a cheapest candidate, whatever the telemetry says of it. */
  lemma OthersTakeCheapest(cost: Scorer, utils: seq<real>, req: TransferRequest, cands: seq<seq<nat>>, best: PathCost)
    requires req.cls != KVMigration && BestOf(cands, SelectScore(cost, utils, req), best) && best.latency < DBL_MAX
    ensures best.edges in cands && best.latency == BaseCost(cost, utils, req)(best.edges)
    ensures forall i :: 0 <= i < |cands| ==> best.latency <= BaseCost(cost, utils, req)(cands[i])
  {
    var score := SelectScore(cost, utils, req);
    var b :| 0 <= b < |cands| && FirstBest(cands, score, best, b);
  }

  /** A tensor-parallel request with a choice of paths preempts if and only if none of them meets its
      deadline. */
  lemma PreemptsIffHopeless(f: Fabric, cost: Scorer, utils: seq<real>, req: TransferRequest, cands: seq<seq<nat>>,
                            best: PathCost, miss: Miss)
    requires Selected(f, cost, utils, req, cands, best) && MissFor(req, cands, best, miss)
    requires req.cls == TensorParallel && |cands| >= 2 && req.deadline < DBL_MAX
    ensures miss.Miss? <==> forall i :: 0 <= i < |cands| ==> BaseCost(cost, utils, req)(cands[i]) > req.deadline
  {
    hide CandidatesOf;
    var score := SelectScore(cost, utils, req);
    assert BestOf(cands, score, best);
    assert forall i :: 0 <= i < |cands| ==> score(cands[i]) == BaseCost(cost, utils, req)(cands[i]);
    hide SelectScore, BaseCost, Selected;
    if best.latency < DBL_MAX {
      var b :| 0 <= b < |cands| && FirstBest(cands, score, best, b);
      assert score(cands[b]) == best.latency;
    } else {
      assert score(cands[0]) >= DBL_MAX;
    }
  }

  /** What a missed deadline suspends are migrations on the very path the request then takes, and if
      there are any, some are. */
  lemma PreemptsOnItsPath(f: Fabric, cost: Scorer, utils: seq<real>, req: TransferRequest, plan: Plan, miss: Miss,
                          s: ExecState, id: TransferId)
    requires Planned(f, cost, utils, req, plan, miss) && miss.Miss? && ExecOk(s)
    requires PreemptChoice(s, miss.busy, MAX_PREEMPT, miss.picked) && id in s.transfers
    ensures plan.Single?
    ensures id in miss.picked ==> OnTheWay(s.transfers[id], plan.path.edges)
    ensures OnTheWay(s.transfers[id], plan.path.edges) ==> id in miss.picked || |miss.picked| == 8
  {
    hide Selected, Striping;
    assert TransferOk(id, s.transfers[id]);
    CandidateShares(id, s.transfers[id], miss.busy);
    if id in miss.picked {
      SuspendsOnlySharing(s, miss.busy, MAX_PREEMPT, miss.picked, id);
      assert PreemptCandidate(s.transfers[id], miss.busy);
    } else if PreemptCandidate(s.transfers[id], miss.busy) {
      EightAreSuspended(s, miss.busy, miss.picked, id);
    }
  }

  /** A running KV migration whose path shares an edge with this one. */
  predicate OnTheWay(t: Transfer, path: seq<nat>) {
    t.preemptible && t.state == InFlight && exists e :: e in t.pathEdges && e in path
  }

  /** No other request preempts, nor one with a single path. */
  lemma NobodyElsePreempts(f: Fabric, cost: Scorer, utils: seq<real>, req: TransferRequest, cands: seq<seq<nat>>,
                           best: PathCost, miss: Miss)
    requires Selected(f, cost, utils, req, cands, best) && MissFor(req, cands, best, miss)
    requires req.cls != TensorParallel || |cands| < 2
    ensures miss == NoMiss
  {
  }

  /** A preemption that spares a transfer it could have suspended has suspended eight. */
  lemma EightAreSuspended(s: ExecState, busy: seq<nat>, picked: seq<TransferId>, id: TransferId)
    requires PreemptChoice(s, busy, MAX_PREEMPT, picked) && id !in picked
    requires id in s.transfers && PreemptCandidate(s.transfers[id], busy)
    ensures |picked| == 8
  {
    SparesOnlyUrgent(s, busy, MAX_PREEMPT, picked, id);
  }

  // ------------------------------------------------- striping and rerouting

  /** The cost of a chunk with its rail bias, before the telemetry bias. */
  function StripeBase(cost: Scorer, load: seq<real>, edges: seq<GraphEdge>, i: nat, size: nat, quantum: nat)
    : seq<nat> -> real
  {
    (p: seq<nat>) =>
      var c := cost(load, p, size, EstMs(quantum));
      if PathRail(edges, p) >= 0 && i % IB_RAIL_COUNT == PathRail(edges, p) then 0.92 * c else c
  }

  lemma StripeScoreIs(cost: Scorer, load: seq<real>, utils: seq<real>, edges: seq<GraphEdge>, i: nat, size: nat,
                      quantum: nat, p: seq<nat>)
    ensures StripeScore(cost, load, utils, edges, i, size, quantum)(p)
      == Weighed(StripeBase(cost, load, edges, i, size, quantum)(p), Warmth(p, utils))
  {
    var c, w := cost(load, p, size, EstMs(quantum)), Warmth(p, utils);
    assert Warmed(cost, load, utils, size, quantum)(p) == c * w;
    hide PathRail, MeanUtil, Warmth;
    assert c * w * 0.92 == 0.92 * c * w;
  }

  /** A chunk of a stripe takes a coolest of the candidates that cost the same over its rail. */
  lemma StripeTakesCoolest(cost: Scorer, load: seq<real>, utils: seq<real>, edges: seq<GraphEdge>, i: nat, size: nat,
                           quantum: nat, cands: seq<seq<nat>>, best: PathCost, j: nat)
    requires BestOf(cands, StripeScore(cost, load, utils, edges, i, size, quantum), best) && best.latency < DBL_MAX
    requires j < |cands| && PathRail(edges, cands[j]) == PathRail(edges, best.edges)
    requires cost(load, cands[j], size, EstMs(quantum)) == cost(load, best.edges, size, EstMs(quantum)) > 0.0
    ensures MeanUtil(best.edges, utils) <= MeanUtil(cands[j], utils)
  {
    var score := StripeScore(cost, load, utils, edges, i, size, quantum);
    var base := StripeBase(cost, load, edges, i, size, quantum);
    assert base(cands[j]) == base(best.edges) > 0.0;
    hide StripeScore, StripeBase, MeanUtil, Warmth, PathRail, Weighed;
    forall i' | 0 <= i' < |cands| ensures score(cands[i']) == Weighed(base(cands[i']), Warmth(cands[i'], utils)) {
      StripeScoreIs(cost, load, utils, edges, i, size, quantum, cands[i']);
    }
    CoolestOf(cands, score, base, utils, best, j);
  }

  /** The cost of a reroute with the biases for clear edges and the other rail. */
  function DrainBase(cost: Scorer, hot: seq<real>, edges: seq<GraphEdge>, avoid: seq<nat>, remain: nat)
    : seq<nat> -> real
  {
    (p: seq<nat>) =>
      var c := cost(hot, p, remain, EstMs(remain));
      var busy, rail := PathRail(edges, avoid), PathRail(edges, p);
      (if Shares(p, avoid) then c else 0.5 * c) * (if busy >= 0 && rail >= 0 && rail != busy then 0.6 else 1.0)
  }

  lemma DrainScoreIs(cost: Scorer, hot: seq<real>, edges: seq<GraphEdge>, avoid: seq<nat>, remain: nat, p: seq<nat>)
    ensures DrainScore(cost, hot, edges, avoid, remain)(p)
      == Weighed(DrainBase(cost, hot, edges, avoid, remain)(p), Warmth(p, hot))
  {
    hide PathRail, MeanUtil, Shares;
  }

  /** A reroute takes a coolest of the candidates that cost the same and are on one rail, clear of the
      busy edges or not. */
  lemma RerouteTakesCoolest(cost: Scorer, hot: seq<real>, edges: seq<GraphEdge>, avoid: seq<nat>, remain: nat,
                            cands: seq<seq<nat>>, best: PathCost, j: nat)
    requires BestOf(cands, DrainScore(cost, hot, edges, avoid, remain), best) && best.latency < DBL_MAX
    requires j < |cands| && PathRail(edges, cands[j]) == PathRail(edges, best.edges)
    requires Shares(cands[j], avoid) <==> Shares(best.edges, avoid)
    requires cost(hot, cands[j], remain, EstMs(remain)) == cost(hot, best.edges, remain, EstMs(remain)) > 0.0
    ensures MeanUtil(best.edges, hot) <= MeanUtil(cands[j], hot)
  {
    var score, base := DrainScore(cost, hot, edges, avoid, remain), DrainBase(cost, hot, edges, avoid, remain);
    hide PathRail, Shares, MeanUtil, Warmth, Weighed, DrainScore;
    assert base(cands[j]) == base(best.edges) > 0.0;
    hide DrainBase;
    forall i | 0 <= i < |cands| ensures score(cands[i]) == Weighed(base(cands[i]), Warmth(cands[i], hot)) {
      DrainScoreIs(cost, hot, edges, avoid, remain, cands[i]);
    }
    CoolestOf(cands, score, base, hot, best, j);
  }

  // ---------------------------------------------------------- chunks of a plan

  /** A planned KV migration goes out in chunks of 256 MiB, as many as it takes, or whole if there is
      no path for it. */
  lemma KvChunks(f: Fabric, cost: Scorer, utils: seq<real>, req: TransferRequest, plan: Plan, miss: Miss,
                 e: ExecState, bufs: Buffers)
    requires Planned(f, cost, utils, req, plan, miss) && req.cls == KVMigration && req.size > 0
    ensures e.nextId in PlanState(e, req, plan, bufs).transfers
    ensures var t := PlanState(e, req, plan, bufs).transfers[e.nextId];
      |t.chunks| == (if plan == Striped([]) then 1 else (req.size + 268435455) / 268435456)
  {
    hide Promote, UnionEdges, CandidatesOf, BestOf, SelectScore, StripePicks;
    if plan.Striped? {
      var cands :| Striping(f, cost, utils, req, KV_CHUNK_BYTES, cands, plan.paths);
      if cands != [] { StripeCount(req.size, KV_CHUNK_BYTES, plan.paths); }
    } else {
      DivIs(req.size + 268435455, 268435456, 1, req.size - 1);
    }
  }

  /** The load a stripe goes by: 0.05 on each edge for every chunk already sent over it, up to 0.99. */
  lemma {:induction false} LoadIs(utils: seq<real>, out: seq<ChunkPath>)
    ensures LoadAfter(utils, out) == BumpAll(utils, AllEdges(out), 0.05)
  {
    if out != [] {
      var n := |out| - 1;
      LoadIs(utils, out[..n]);
      BumpConcat(utils, AllEdges(out[..n]), out[n].edges, 0.05);
    }
  }

  lemma {:induction false} BumpConcat(utils: seq<real>, a: seq<nat>, b: seq<nat>, more: real)
    ensures BumpAll(utils, a + b, more) == BumpAll(BumpAll(utils, a, more), b, more)
  {
    if b == [] {
      assert a + b == a;
    } else {
      assert (a + b)[..|a + b| - 1] == a + b[..|b| - 1];
      BumpConcat(utils, a, b[..|b| - 1], more);
    }
  }

  lemma StripeLoadIs(utils: seq<real>, out: seq<ChunkPath>, e: nat)
    requires e < |utils|
    ensures |LoadAfter(utils, out)| == |utils|
    ensures var n, u := Times(AllEdges(out), e), utils[e] + Times(AllEdges(out), e) as real * 0.05;
      LoadAfter(utils, out)[e] == if n == 0 then utils[e] else if u < 0.99 then u else 0.99
  {
    hide LoadAfter, BumpAll, AllEdges, Times;
    LoadIs(utils, out);
    BumpAllIs(utils, AllEdges(out), 0.05, e);
  }
}
