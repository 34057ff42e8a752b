/** refresh_predictions: every edge's history grows by one sample a call, eight edges' predictions
    are renewed, and a cursor walks round the edges. */
module PredictionRefresh {
  import opened Arithmetic
  import opened LstmWeights
  import opened LstmPredictor
  import opened Telemetry

  /** The batch that starts at the cursor covers the edge. */
  predicate InBatch(cursor: nat, n: nat, edge: nat)
    requires n > 0
  {
    exists i: nat :: i < BATCH && At(cursor, i, n) == edge
  }

  function At(cursor: nat, i: nat, n: nat): nat
    requires n > 0
  {
    (cursor + i) % n
  }

  /** The first i edges of the batch include this one. */
  predicate Covered(cursor: nat, n: nat, edge: nat, i: nat)
    requires n > 0
  {
    exists j: nat :: j < i && At(cursor, j, n) == edge
  }

  lemma CoverStep(cursor: nat, n: nat, i: nat)
    requires n > 0
    ensures forall e: nat :: Covered(cursor, n, e, i + 1) <==> Covered(cursor, n, e, i) || e == At(cursor, i, n)
  {
    hide At;
  }

  /** What a snapshot says of each edge. */
  function Readings(log: seq<Sample>, edges: nat): (r: seq<real>)
    ensures |r| == edges && forall e :: 0 <= e < edges ==> r[e] == ValueOf(Newest(Window(log), e))
  {
    seq(edges, e requires 0 <= e < edges => ValueOf(Newest(Window(log), e)))
  }

  /** An edge's samples once its reading has been pushed. */
  function Grown(samples: seq<real>, utils: seq<real>, edge: nat): seq<real> {
    if edge < |utils| then samples + [utils[edge]] else samples
  }

  /** The prediction from an edge's window as it is now. */
  ghost function Fresh(p: LSTMPredictor, edge: nat): real
    reads p
  {
    p.forward(p.Held(), WindowOf(p.SamplesOf(edge)))
  }

  function Repeated(x: real, k: nat): seq<real> { seq(k, _ => x) }

  lemma OneMore(before: seq<real>, x: real, k: nat)
    ensures before + Repeated(x, k) + [x] == before + Repeated(x, k + 1)
  {
  }

  function SamplesIn(samples: seq<seq<real>>, edge: nat): seq<real> { if edge < |samples| then samples[edge] else [] }

  /** The last of so many refreshes that predicts the edge, counted from 1; 0 when none does. */
  function LastRenewal(cursor: nat, n: nat, rounds: nat, edge: nat): nat
    requires n > 0
  {
    if rounds == 0 then 0
    else if InBatch(CursorAfter(cursor, n, rounds - 1), n, edge) then rounds
    else LastRenewal(cursor, n, rounds - 1, edge)
  }

  /** What the predictor holds of one edge. */
  datatype EdgeView = EdgeView(samples: seq<real>, cached: real, util: real)

  ghost function ViewOf(p: LSTMPredictor, edge: nat): EdgeView
    reads p
  {
    EdgeView(p.SamplesOf(edge), p.Cached(edge), p.CachedUtil(edge))
  }

  ghost function ViewsOf(p: LSTMPredictor, n: nat): (r: seq<EdgeView>)
    reads p
    ensures |r| == n && forall e :: 0 <= e < n ==> r[e] == ViewOf(p, e)
  {
    seq(n, e requires 0 <= e < n reads p => ViewOf(p, e))
  }

  /** The forward pass and the weights it runs on. */
  datatype Network = Network(forward: (Weights, seq<real>) -> real, weights: Weights)

  ghost function NetworkOf(p: LSTMPredictor): Network
    reads p
  {
    Network(p.forward, p.Held())
  }

  /** The prediction the last samples give. */
  function Predicts(net: Network, samples: seq<real>): real { net.forward(net.weights, WindowOf(samples)) }

  /** An edge after a profiling sweep at a constant reading: one sample, then one a refresh; its
      prediction is made from its window as it was at the edge's last turn. */
  predicate EdgeSwept(net: Network, v: EdgeView, before: seq<real>, reading: real, rounds: nat, last: nat) {
    && v.samples == before + Repeated(reading, rounds + 1) && v.util == reading
    && v.cached == Predicts(net, before + Repeated(reading, last + 1))
  }

  predicate AllSwept(net: Network, views: seq<EdgeView>, before: seq<seq<real>>, readings: seq<real>, cursor: nat,
                     rounds: nat)
  {
    && |views| == |readings|
    && forall e: nat :: e < |readings| ==>
      EdgeSwept(net, views[e], SamplesIn(before, e), readings[e], rounds,
                LastRenewal(cursor, |readings|, rounds, e))
  }

  class Refresher {
    const predictor: LSTMPredictor
    const ring: TelemetryRingBuffer
    /** The number of edges in the graph. */
    const edges: nat
    var cursor: nat

    constructor (predictor: LSTMPredictor, ring: TelemetryRingBuffer, edges: nat)
      ensures this.predictor == predictor && this.ring == ring && this.edges == edges && cursor == 0
    {
      this.predictor, this.ring, this.edges, cursor := predictor, ring, edges, 0;
    }

    ghost predicate Valid()
      reads this, predictor, predictor.histories, ring, ring.buffer
    {
      predictor.Valid() && ring.Valid()
    }

    method PushAll(utils: seq<real>)
      requires predictor.Valid()
      modifies predictor`histories, predictor`counts, predictor`samples, predictor.histories
      ensures predictor.Valid()
      ensures forall h :: h in predictor.histories ==> h in old(predictor.histories) || fresh(h)
      ensures forall e: nat :: predictor.SamplesOf(e) == Grown(old(predictor.SamplesOf(e)), utils, e)
    {
      hide LSTMPredictor.Valid, LSTMPredictor.SamplesOf;
      for k := 0 to |utils|
        invariant predictor.Valid()
        invariant forall h :: h in predictor.histories ==> h in old(predictor.histories) || fresh(h)
        invariant forall e: nat :: predictor.SamplesOf(e) == Grown(old(predictor.SamplesOf(e)), utils[..k], e)
      {
        assert forall i :: 0 <= i < |predictor.histories| ==>
          predictor.histories[i] in old(predictor.histories) || fresh(predictor.histories[i]);
        predictor.PushSample(k, utils[k]);
      }
      assert utils[..|utils|] == utils;
    }

    method PredictBatch(utils: seq<real>)
      requires predictor.Valid() && |utils| == edges && edges > 0
      modifies predictor`predictionCache, predictor`currentUtilCache
      ensures predictor.Valid() && predictor.Held() == old(predictor.Held())
      ensures |predictor.predictionCache| >= |old(predictor.predictionCache)|
      ensures forall e: nat :: predictor.SamplesOf(e) == old(predictor.SamplesOf(e))
      ensures forall e: nat :: InBatch(cursor, edges, e) ==> predictor.Cached(e) == Fresh(predictor, e)
      ensures forall e: nat :: !InBatch(cursor, edges, e) ==> predictor.Cached(e) == old(predictor.Cached(e))
      ensures forall e: nat :: InBatch(cursor, edges, e) ==> e < edges && predictor.CachedUtil(e) == utils[e]
      ensures forall e: nat :: !InBatch(cursor, edges, e) ==> predictor.CachedUtil(e) == old(predictor.CachedUtil(e))
    {
      hide LSTMPredictor.Cached, LSTMPredictor.CachedUtil, WindowOf;
      for i := 0 to BATCH
        invariant predictor.Valid() && |predictor.predictionCache| >= |old(predictor.predictionCache)|
        invariant forall e: nat :: Covered(cursor, edges, e, i) ==> predictor.Cached(e) == Fresh(predictor, e)
        invariant forall e: nat :: !Covered(cursor, edges, e, i) ==> predictor.Cached(e) == old(predictor.Cached(e))
        invariant forall e: nat :: Covered(cursor, edges, e, i) ==> e < edges && predictor.CachedUtil(e) == utils[e]
        invariant forall e: nat ::
          !Covered(cursor, edges, e, i) ==> predictor.CachedUtil(e) == old(predictor.CachedUtil(e))
      {
        var e := At(cursor, i, edges);
        var predicted := predictor.PredictEdge(e);
        CoverStep(cursor, edges, i);
        predictor.UpdateCache(e, utils[e], predicted);
      }
    }

    /** One call: every window takes its newest reading, and the cursor's batch is predicted
        from the windows as they are now. */
    method Refresh()
      requires Valid()
      modifies this`cursor, predictor, predictor.histories
      ensures Valid()
      ensures forall h :: h in predictor.histories ==> h in old(predictor.histories) || fresh(h)
      ensures forall e: nat ::
        predictor.SamplesOf(e) == Grown(old(predictor.SamplesOf(e)), Readings(ring.log, edges), e)
      ensures predictor.Held() == old(predictor.Held())
      ensures |predictor.predictionCache| >= |old(predictor.predictionCache)|
      ensures edges == 0 ==> cursor == old(cursor)
      ensures edges > 0 ==> cursor == At(old(cursor), BATCH, edges)
      ensures edges > 0 ==>
        forall e: nat :: InBatch(old(cursor), edges, e) ==> predictor.Cached(e) == Fresh(predictor, e)
      ensures edges > 0 ==>
        forall e: nat :: !InBatch(old(cursor), edges, e) ==> predictor.Cached(e) == old(predictor.Cached(e))
      ensures edges > 0 ==>
        forall e: nat :: InBatch(old(cursor), edges, e) ==>
          e < edges && predictor.CachedUtil(e) == Readings(ring.log, edges)[e]
      ensures edges > 0 ==>
        forall e: nat :: !InBatch(old(cursor), edges, e) ==> predictor.CachedUtil(e) == old(predictor.CachedUtil(e))
    {
      hide Newest, Window, LSTMPredictor.Valid, InBatch, WindowOf;
      var utils := ring.Snapshot(edges);
      assert utils == Readings(ring.log, edges);
      PushAll(utils);
      if edges == 0 { return; }
      PredictBatch(utils);
      cursor := (cursor + BATCH) % edges;
    }
  }

  // ------------------------------------------------------- profiling sweep

  /** What a refresh makes of one edge after a sweep of so many. */
  lemma RefreshSweeps(net: Network, v: EdgeView, w: EdgeView, before: seq<real>, reading: real, cursor: nat, n: nat,
                      rounds: nat, edge: nat)
    requires n > 0 && EdgeSwept(net, v, before, reading, rounds, LastRenewal(cursor, n, rounds, edge))
    requires w.samples == v.samples + [reading]
    requires if InBatch(CursorAfter(cursor, n, rounds), n, edge)
             then w.cached == Predicts(net, w.samples) && w.util == reading
             else w.cached == v.cached && w.util == v.util
    ensures EdgeSwept(net, w, before, reading, rounds + 1, LastRenewal(cursor, n, rounds + 1, edge))
  {
    hide WindowOf, InBatch, CursorAfter, Predicts;
    OneMore(before, reading, rounds + 1);
  }

  /** ... and of all of them. */
  lemma AllRefresh(net: Network, vs: seq<EdgeView>, ws: seq<EdgeView>, before: seq<seq<real>>, readings: seq<real>,
                   cursor: nat, rounds: nat)
    requires AllSwept(net, vs, before, readings, cursor, rounds) && |ws| == |vs|
    requires forall e :: 0 <= e < |vs| ==>
      && ws[e].samples == vs[e].samples + [readings[e]]
      && if InBatch(CursorAfter(cursor, |vs|, rounds), |vs|, e)
         then ws[e].cached == Predicts(net, ws[e].samples) && ws[e].util == readings[e]
         else ws[e].cached == vs[e].cached && ws[e].util == vs[e].util
    ensures AllSwept(net, ws, before, readings, cursor, rounds + 1)
  {
    hide InBatch, CursorAfter, Predicts, EdgeSwept, LastRenewal;
    forall e: nat | e < |vs|
      ensures EdgeSwept(net, ws[e], SamplesIn(before, e), readings[e], rounds + 1,
                        LastRenewal(cursor, |readings|, rounds + 1, e))
    {
      RefreshSweeps(net, vs[e], ws[e], SamplesIn(before, e), readings[e], cursor, |vs|, rounds, e);
    }
  }

  // ------------------------------------------------------ the walk of the cursor

  /** The cursor after t calls. */
  function CursorAfter(cursor: nat, n: nat, t: nat): nat
    requires n > 0
  {
    if t == 0 then cursor else At(CursorAfter(cursor, n, t - 1), BATCH, n)
  }

  /** Some call among the first t renews the edge. */
  predicate Renewed(cursor: nat, n: nat, t: nat, edge: nat)
    requires n > 0
  {
    exists k: nat :: k < t && InBatch(CursorAfter(cursor, n, k), n, edge)
  }

  lemma {:induction false} CursorWalks(cursor: nat, n: nat, t: nat, i: nat)
    requires n > 0 && cursor < n
    ensures At(CursorAfter(cursor, n, t), i, n) == (cursor + BATCH * t + i) % n
  {
    if t > 0 {
      CursorWalks(cursor, n, t - 1, BATCH);
      ModAdd(cursor + BATCH * t, i, n);
    }
  }

  /** Starting from any cursor, t consecutive calls renew the prediction of every edge if and
      only if they predict at least as many times as there are edges. */
  lemma AllRenewedIff(cursor: nat, n: nat, t: nat)
    requires n > 0 && cursor < n
    ensures (forall e: nat :: e < n ==> Renewed(cursor, n, t, e)) <==> 8 * t >= n
  {
    if BATCH * t >= n {
      forall e: nat | e < n ensures Renewed(cursor, n, t, e) { Reached(cursor, n, t, e); }
    } else {
      NotReached(cursor, n, t);
    }
  }

  lemma Reached(cursor: nat, n: nat, t: nat, e: nat)
    requires cursor < n && e < n && BATCH * t >= n
    ensures Renewed(cursor, n, t, e)
  {
    var j := if e >= cursor then e - cursor else e + n - cursor;
    ModIs(0, n, e);
    ModIs(1, n, e);
    CursorWalks(cursor, n, j / BATCH, j % BATCH);
    hide At, CursorAfter;
    assert BATCH * (j / BATCH) + j % BATCH == j && j / BATCH < t;
    assert At(CursorAfter(cursor, n, j / BATCH), j % BATCH, n) == e;
    assert InBatch(CursorAfter(cursor, n, j / BATCH), n, e);
  }

  lemma NotReached(cursor: nat, n: nat, t: nat)
    requires cursor < n && BATCH * t < n
    ensures !Renewed(cursor, n, t, (cursor + BATCH * t) % n)
  {
    var e := (cursor + BATCH * t) % n;
    forall k: nat, i: nat | k < t && i < BATCH ensures At(CursorAfter(cursor, n, k), i, n) != e {
      CursorWalks(cursor, n, k, i);
      ModApart(cursor + BATCH * k + i, cursor + BATCH * t, n);
    }
  }
}
