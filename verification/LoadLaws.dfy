/** What load does: a hotter link moves less, takes longer and costs more, at every level from one
    link to a whole path. */
module LoadLaws {
  import opened Model
  import opened PathSearch
  import opened TransferSpec
  import opened Bandwidth
  import opened EngineScores
  import opened PathCosts

  /** What is asked of pow: positive, rising in its base, strictly so for a positive exponent. */
  ghost predicate Contends(residual: Residual) {
    && (forall x, y, a :: 0.0 < x <= y <= 1.0 && a >= 0.0 ==> 0.0 < residual(x, a) <= residual(y, a))
    && (forall x, y, a :: 0.0 < x < y <= 1.0 && a > 0.0 ==> residual(x, a) < residual(y, a))
  }

  predicate Sane(attrs: EdgeAttributes) { attrs.bandwidth > 0.0 && attrs.alpha >= 0.0 }

  predicate AllSane(edges: seq<GraphEdge>) { forall e :: 0 <= e < |edges| ==> Sane(edges[e].attrs) }

  // ------------------------------------------------------------- one link

  lemma Scaled(b: real, x: real, y: real)
    requires b > 0.0 && 0.0 < x <= y
    ensures 0.0 < b * x <= b * y && (x < y ==> b * x < b * y)
  {
    var d := y - x;
    assert b * y == b * x + b * d;
    assert b * x > 0.0;
    if d > 0.0 { assert b * d > 0.0; }
  }

  /** A hotter link has less left, strictly less as long as neither reading is out of range. */
  lemma HotterIsSlower(edge: GraphEdge, u: real, v: real, residual: Residual)
    requires Contends(residual) && Sane(edge.attrs) && u <= v
    ensures 0.0 < Left(edge, v, residual) <= Left(edge, u, residual)
    ensures 0.0 <= u < v <= 0.99 && edge.attrs.alpha > 0.0 ==> Left(edge, v, residual) < Left(edge, u, residual)
  {
    Scaled(edge.attrs.bandwidth, residual(1.0 - Clamped(v), edge.attrs.alpha),
           residual(1.0 - Clamped(u), edge.attrs.alpha));
  }

  /** With an exponent of 1 exactly the share that is not in use is left, down to a hundredth. */
  lemma LinearLeft(edge: GraphEdge, u: real, residual: Residual)
    requires edge.attrs.alpha == 1.0 && forall x :: 0.0 < x <= 1.0 ==> residual(x, 1.0) == x
    ensures 0.0 <= u <= 0.99 ==> Left(edge, u, residual) == edge.attrs.bandwidth * (1.0 - u)
    ensures u < 0.0 ==> Left(edge, u, residual) == edge.attrs.bandwidth
    ensures u > 0.99 ==> Left(edge, u, residual) == edge.attrs.bandwidth * 0.01
  {
  }

  /** Moving bytes takes as long as a tick must last to offer them: the two formulas agree. */
  lemma MoveTimeOffers(gbps: real, size: nat)
    requires gbps > 0.0
    ensures MoveTime(gbps, size) >= 0.0 && BytesForDt(gbps, MoveTime(gbps, size) / 1000.0) == size
  {
    var s := size as real / 1000000000.0;
    var q := s / gbps;
    assert q * gbps == s;
    NotNegative(q, gbps);
    assert gbps * 1000000000.0 * (q * 1000000.0 / 1000.0 / 1000.0) == 1000000000.0 * (q * gbps);
  }

  /** And the duration estimated for a transfer is what it takes at 50 GB/s. */
  lemma EstimateOffers(size: nat)
    ensures BytesForDt(50.0, EstMs(size)) == size
  {
  }

  /** The less is left, the longer it takes. */
  lemma SlowerTakesLonger(fast: real, slow: real, size: nat)
    requires 0.0 < slow <= fast
    ensures MoveTime(fast, size) <= MoveTime(slow, size)
    ensures size > 0 && slow < fast ==> MoveTime(fast, size) < MoveTime(slow, size)
  {
    var s := size as real / 1000000000.0;
    var p, q := s / fast, s / slow;
    assert p * fast == s && q * slow == s;
    NotNegative(p, fast);
    NotNegative(q, slow);
    if size > 0 {
      if q <= p { Products(q, slow, p, fast); }
    } else {
      assert p == 0.0 && q == 0.0;
    }
  }

  lemma Products(q: real, slow: real, p: real, fast: real)
    requires 0.0 <= q <= p && 0.0 < slow <= fast
    ensures q * slow <= p * fast
    ensures slow < fast && p > 0.0 ==> q * slow < p * fast
  {
    var a, b := p - q, fast - slow;
    assert p * fast == q * slow + a * slow + p * b;
    MulSign(a, slow);
    MulSign(p, b);
    if b > 0.0 && p > 0.0 { assert p * b > 0.0; }
  }

  lemma HotterTakesLonger(edge: GraphEdge, size: nat, u: real, v: real, residual: Residual)
    requires Contends(residual) && Sane(edge.attrs) && u <= v
    ensures EdgeLatency(edge, size, u, residual) <= EdgeLatency(edge, size, v, residual)
    ensures size > 0 && 0.0 <= u < v <= 0.99 && edge.attrs.alpha > 0.0 ==>
      EdgeLatency(edge, size, u, residual) < EdgeLatency(edge, size, v, residual)
  {
    hide Left, MoveTime, Contends;
    HotterIsSlower(edge, u, v, residual);
    SlowerTakesLonger(Left(edge, u, residual), Left(edge, v, residual), size);
  }

  // ----------------------------------------------- prediction and reading

  /** The prediction counts in proportion to the expected duration, fully from 5 ms on, and only if
      it is hotter than the reading. */
  lemma BlendIs(predicted: real, current: real, ms: real)
    requires ms >= 0.0
    ensures predicted <= current ==> EffectiveUtil(predicted, current, ms) == current
    ensures predicted >= current && ms <= 5.0 ==>
      EffectiveUtil(predicted, current, ms) == current + (predicted - current) * (ms / 5.0)
    ensures predicted >= current && ms >= 5.0 ==> EffectiveUtil(predicted, current, ms) == predicted
  {
    var w := if ms / PREDICT_AHEAD_MS < 1.0 then ms / PREDICT_AHEAD_MS else 1.0;
    var d := predicted - current;
    assert predicted * w + current * (1.0 - w) == current + d * w;
    if d >= 0.0 {
      MulSign(d, w);
    } else {
      MulSign(-d, w);
      assert (-d) * w == -(d * w);
    }
  }

  lemma BlendRises(p: real, c: real, p': real, c': real, ms: real)
    requires ms >= 0.0 && p <= p' && c <= c'
    ensures EffectiveUtil(p, c, ms) <= EffectiveUtil(p', c', ms)
  {
    var w := if ms / PREDICT_AHEAD_MS < 1.0 then ms / PREDICT_AHEAD_MS else 1.0;
    MulSign(p' - p, w);
    MulSign(c' - c, 1.0 - w);
    assert (p' - p) * w == p' * w - p * w;
    assert (c' - c) * (1.0 - w) == c' * (1.0 - w) - c * (1.0 - w);
  }

  // ------------------------------------------------------------ whole paths

  /** Every edge of the path is at least as hot in b as in a. */
  predicate NoCooler(path: seq<nat>, a: seq<real>, b: seq<real>) {
    forall i :: 0 <= i < |path| ==> UtilAt(a, path[i]) <= UtilAt(b, path[i])
  }

  lemma {:induction false} NarrowestFalls(edges: seq<GraphEdge>, path: seq<nat>, a: seq<real>, b: seq<real>,
                                          residual: Residual)
    requires Contends(residual) && AllSane(edges) && NoCooler(path, a, b)
    ensures Narrowest(edges, path, b, residual) <= Narrowest(edges, path, a, residual)
  {
    hide Left, Contends;
    if path != [] {
      var n := |path| - 1;
      NarrowestFalls(edges, path[..n], a, b, residual);
      var e := path[n];
      if e < |edges| { HotterIsSlower(edges[e], UtilAt(a, e), UtilAt(b, e), residual); }
    }
  }

  /** No path is offered more for being hotter. */
  lemma OfferFalls(edges: seq<GraphEdge>, path: seq<nat>, a: seq<real>, b: seq<real>, residual: Residual, dt: real)
    requires Contends(residual) && AllSane(edges) && NoCooler(path, a, b) && dt >= 0.0
    ensures Bottleneck(edges, path, b, residual) <= Bottleneck(edges, path, a, residual)
    ensures OfferOf(edges, residual)(dt, b)(path) <= OfferOf(edges, residual)(dt, a)(path)
  {
    NarrowestFalls(edges, path, a, b, residual);
    hide Narrowest, Contends;
    var d := Bottleneck(edges, path, a, residual) - Bottleneck(edges, path, b, residual);
    MulSign(d, dt);
    assert Bottleneck(edges, path, a, residual) * 1000000000.0 * (dt / 1000.0)
      == Bottleneck(edges, path, b, residual) * 1000000000.0 * (dt / 1000.0) + d * dt * 1000000.0;
  }

  /** The bottleneck is the narrowest edge itself, unless that has less than 0.1 GB/s left. */
  lemma {:induction false} NarrowestIs(edges: seq<GraphEdge>, path: seq<nat>, utils: seq<real>, residual: Residual)
    ensures forall i :: 0 <= i < |path| && path[i] < |edges| ==>
      Narrowest(edges, path, utils, residual) <= Left(edges[path[i]], UtilAt(utils, path[i]), residual)
    ensures Narrowest(edges, path, utils, residual) == 1000000000.0
      || exists i :: 0 <= i < |path| && path[i] < |edges|
           && Narrowest(edges, path, utils, residual) == Left(edges[path[i]], UtilAt(utils, path[i]), residual)
  {
    hide Left;
    if path != [] {
      var n := |path| - 1;
      NarrowestIs(edges, path[..n], utils, residual);
      assert forall i :: 0 <= i < n ==> path[..n][i] == path[i];
    }
  }

  /** One link by itself offers what it has left. */
  lemma OneLinkOffer(edge: GraphEdge, u: real, residual: Residual)
    requires 0.1 <= Left(edge, u, residual) <= 1000000000.0
    ensures Bottleneck([edge], [0], [u], residual) == Left(edge, u, residual)
  {
    hide Left;
    var path: seq<nat> := [0];
    assert path[..|path| - 1] == [] && UtilAt([u], 0) == u;
    assert Narrowest([edge], [], [u], residual) == 1000000000.0;
    assert Narrowest([edge], path, [u], residual) == Left(edge, u, residual);
  }

  /** A path costs at least as much for being hotter, or for being predicted to be. */
  lemma {:induction false} CostRises(edges: seq<GraphEdge>, cache: seq<real>, cache': seq<real>, a: seq<real>,
                                     b: seq<real>, residual: Residual, path: seq<nat>, size: nat, ms: real)
    requires Contends(residual) && AllSane(edges) && ms >= 0.0
    requires NoCooler(path, a, b) && NoCooler(path, cache, cache')
    ensures LatencySum(edges, cache, residual, a, path, size, ms)
      <= LatencySum(edges, cache', residual, b, path, size, ms)
  {
    hide EdgeLatency, EffectiveUtil, Contends;
    if path != [] {
      var n := |path| - 1;
      CostRises(edges, cache, cache', a, b, residual, path[..n], size, ms);
      var e := path[n];
      if e < |edges| {
        BlendRises(UtilAt(cache, e), UtilAt(a, e), UtilAt(cache', e), UtilAt(b, e), ms);
        HotterTakesLonger(edges[e], size, EffectiveUtil(UtilAt(cache, e), UtilAt(a, e), ms),
                          EffectiveUtil(UtilAt(cache', e), UtilAt(b, e), ms), residual);
      }
    }
  }

  /** One link of a path that gets strictly hotter, within range, makes the path strictly dearer. */
  lemma {:induction false} HotterCostsMore(edges: seq<GraphEdge>, cache: seq<real>, a: seq<real>, b: seq<real>,
                                           residual: Residual, path: seq<nat>, size: nat, ms: real, k: nat)
    requires Contends(residual) && AllSane(edges) && ms >= 0.0 && size > 0 && NoCooler(path, a, b)
    requires k < |path| && path[k] < |edges| && edges[path[k]].attrs.alpha > 0.0
    requires 0.0 <= EffectiveUtil(UtilAt(cache, path[k]), UtilAt(a, path[k]), ms)
      < EffectiveUtil(UtilAt(cache, path[k]), UtilAt(b, path[k]), ms) <= 0.99
    ensures LatencySum(edges, cache, residual, a, path, size, ms)
      < LatencySum(edges, cache, residual, b, path, size, ms)
  {
    hide EdgeLatency, EffectiveUtil, Contends;
    var n := |path| - 1;
    var e := path[n];
    if e < |edges| {
      BlendRises(UtilAt(cache, e), UtilAt(a, e), UtilAt(cache, e), UtilAt(b, e), ms);
      HotterTakesLonger(edges[e], size, EffectiveUtil(UtilAt(cache, e), UtilAt(a, e), ms),
                        EffectiveUtil(UtilAt(cache, e), UtilAt(b, e), ms), residual);
    }
    if k < n {
      HotterCostsMore(edges, cache, a, b, residual, path[..n], size, ms, k);
    } else {
      CostRises(edges, cache, cache, a, b, residual, path[..n], size, ms);
    }
  }

  /** What is expected to take no time is costed without its predictions. */
  lemma {:induction false} InstantCost(edges: seq<GraphEdge>, cache: seq<real>, cache': seq<real>, utils: seq<real>,
                                       residual: Residual, path: seq<nat>, size: nat)
    ensures LatencySum(edges, cache, residual, utils, path, size, 0.0)
      == LatencySum(edges, cache', residual, utils, path, size, 0.0)
  {
    hide EdgeLatency;
    if path != [] { InstantCost(edges, cache, cache', utils, residual, path[..|path| - 1], size); }
  }

  // ------------------------------------------------------------- added load

  function Times(path: seq<nat>, e: nat): nat {
    if path == [] then 0 else Times(path[..|path| - 1], e) + if path[|path| - 1] == e then 1 else 0
  }

  lemma {:induction false} TimesIn(path: seq<nat>, e: nat)
    ensures Times(path, e) > 0 <==> e in path
  {
    if path != [] {
      TimesIn(path[..|path| - 1], e);
      assert path == path[..|path| - 1] + [path[|path| - 1]];
    }
  }

  /** Adding load heats each edge once for every time it is on the path, up to 0.99, and no other. */
  lemma {:induction false} BumpAllIs(utils: seq<real>, path: seq<nat>, more: real, e: nat)
    requires more >= 0.0 && e < |utils|
    ensures var n, u := Times(path, e), utils[e] + Times(path, e) as real * more;
      BumpAll(utils, path, more)[e] == if n == 0 then utils[e] else if u < 0.99 then u else 0.99
  {
    if path != [] {
      BumpAllIs(utils, path[..|path| - 1], more, e);
      var m := Times(path[..|path| - 1], e);
      MulSign(m as real, more);
      assert (m + 1) as real * more == m as real * more + more;
    }
  }

  /** The heat on the busy edges of a reroute costs a path clear of them nothing. */
  lemma {:induction false} HeatSpares(edges: seq<GraphEdge>, cache: seq<real>, utils: seq<real>, residual: Residual,
                                      path: seq<nat>, avoid: seq<nat>, size: nat, ms: real)
    requires !Shares(path, avoid)
    ensures LatencySum(edges, cache, residual, BumpAll(utils, avoid, 0.5), path, size, ms)
      == LatencySum(edges, cache, residual, utils, path, size, ms)
  {
    hide EdgeLatency, EffectiveUtil, BumpAll;
    if path != [] {
      var n := |path| - 1;
      var e := path[n];
      assert e in path && forall i :: i in path[..n] ==> i in path;
      HeatSpares(edges, cache, utils, residual, path[..n], avoid, size, ms);
      TimesIn(avoid, e);
      if e < |utils| { BumpAllIs(utils, avoid, 0.5, e); }
    }
  }

  /** It heats every busy edge that is not at 0.99 already. */
  lemma HeatHeats(utils: seq<real>, avoid: seq<nat>, e: nat)
    requires e < |utils| && utils[e] <= 0.99
    ensures utils[e] <= BumpAll(utils, avoid, 0.5)[e] <= 0.99
    ensures e in avoid && utils[e] < 0.99 ==> utils[e] < BumpAll(utils, avoid, 0.5)[e]
  {
    TimesIn(avoid, e);
    BumpAllIs(utils, avoid, 0.5, e);
  }

  /** At 0.99 or above it makes no difference how hot. */
  lemma AllTheSameHot(edge: GraphEdge, size: nat, u: real, v: real, residual: Residual)
    requires u >= 0.99 && v >= 0.99
    ensures EdgeLatency(edge, size, u, residual) == EdgeLatency(edge, size, v, residual)
  {
  }

  /** And so a path over busy edges is costed no lower than before, whatever its predictions. */
  lemma {:induction false} HeatHurts(edges: seq<GraphEdge>, cache: seq<real>, utils: seq<real>, residual: Residual,
                                     path: seq<nat>, avoid: seq<nat>, size: nat, ms: real)
    requires Contends(residual) && AllSane(edges) && ms >= 0.0
    ensures LatencySum(edges, cache, residual, utils, path, size, ms)
      <= LatencySum(edges, cache, residual, BumpAll(utils, avoid, 0.5), path, size, ms)
  {
    hide EdgeLatency, EffectiveUtil, BumpAll, Contends;
    if path != [] {
      HeatHurts(edges, cache, utils, residual, path[..|path| - 1], avoid, size, ms);
      var e, hot := path[|path| - 1], BumpAll(utils, avoid, 0.5);
      if e < |edges| { HeatHurtsEdge(edges[e], e, size, UtilAt(cache, e), utils, avoid, residual, ms); }
    }
  }

  lemma HeatHurtsEdge(edge: GraphEdge, e: nat, size: nat, p: real, utils: seq<real>, avoid: seq<nat>,
                      residual: Residual, ms: real)
    requires Contends(residual) && Sane(edge.attrs) && ms >= 0.0
    ensures EdgeLatency(edge, size, EffectiveUtil(p, UtilAt(utils, e), ms), residual)
      <= EdgeLatency(edge, size, EffectiveUtil(p, UtilAt(BumpAll(utils, avoid, 0.5), e), ms), residual)
  {
    hide EdgeLatency, Contends, BumpAll;
    var u, v := UtilAt(utils, e), UtilAt(BumpAll(utils, avoid, 0.5), e);
    if e < |utils| && u > 0.99 {
      BumpAllIs(utils, avoid, 0.5, e);
      BlendIs(p, u, ms);
      BlendIs(p, v, ms);
      assert EffectiveUtil(p, u, ms) >= u && EffectiveUtil(p, v, ms) >= v;
      AllTheSameHot(edge, size, EffectiveUtil(p, u, ms), EffectiveUtil(p, v, ms), residual);
    } else {
      if e < |utils| { HeatHeats(utils, avoid, e); }
      BlendRises(p, u, p, v, ms);
      HotterTakesLonger(edge, size, EffectiveUtil(p, u, ms), EffectiveUtil(p, v, ms), residual);
    }
  }
}
