/** The predictor object: weights, sliding history windows, and the prediction cache that the
    shim refreshes a few edges at a time. */
module LstmPredictor {
  import opened LstmWeights

  /** Edges whose prediction one refresh call renews. */
  const BATCH: nat := 8

  /** What an edge's window holds after the given samples: the last 16 in order, zero-padded. */
  function WindowOf(samples: seq<real>): (r: seq<real>)
    ensures |r| == 16
  {
    if |samples| <= HISTORY_LEN then samples + seq(HISTORY_LEN - |samples|, _ => 0.0)
    else samples[|samples| - HISTORY_LEN..]
  }

  /** Shift a full window by one sample, in place. */
  method Slide(hist: array<real>, util: real)
    requires hist.Length == HISTORY_LEN
    modifies hist
    ensures hist[..] == old(hist[..])[1..] + [util]
  {
    for i := 1 to HISTORY_LEN
      invariant forall k :: 0 <= k < i - 1 ==> hist[k] == old(hist[k + 1])
      invariant forall k :: i - 1 <= k < HISTORY_LEN ==> hist[k] == old(hist[k])
    {
      hist[i - 1] := hist[i];
    }
    hist[HISTORY_LEN - 1] := util;
  }

  lemma WindowGrows(samples: seq<real>, util: real)
    ensures |samples| < HISTORY_LEN ==> WindowOf(samples + [util]) == WindowOf(samples)[|samples| := util]
    ensures |samples| >= HISTORY_LEN ==> WindowOf(samples + [util]) == WindowOf(samples)[1..] + [util]
  {
    var w, v := WindowOf(samples), WindowOf(samples + [util]);
    if |samples| < HISTORY_LEN {
      forall k | 0 <= k < HISTORY_LEN ensures v[k] == w[|samples| := util][k] {
      }
    }
  }

  lemma BlankWindow(blank: array<real>)
    requires blank.Length == HISTORY_LEN && forall k :: 0 <= k < HISTORY_LEN ==> blank[k] == 0.0
    ensures WindowAt(blank, 0, [])
  {
    assert blank[..] == WindowOf([]);
  }

  /** Put one sample into a window that holds n. */
  method Remember(hist: array<real>, n: nat, util: real, ghost samples: seq<real>)
    requires WindowAt(hist, n, samples)
    modifies hist
    ensures WindowAt(hist, if n < HISTORY_LEN then n + 1 else n, samples + [util])
  {
    WindowGrows(samples, util);
    if n < HISTORY_LEN { hist[n] := util; } else { Slide(hist, util); }
  }

  /** One layer of init_default_weights: both weight loops, and the forget gate's bias. */
  method InitLayer(k: nat) returns (layer: Layer)
    ensures layer == DefaultLayer(k)
  {
    hide DefaultWIh, DefaultWHh;
    var input: Word := if k == 0 then 1 else HIDDEN;
    var wIh, wHh, bIh: seq<Byte> := [], [], Zeros(4 * ROWS);
    for i := 0 to ROWS * input
      invariant wIh == DefaultLayer(k).wIh[..i]
    {
      wIh := wIh + [DefaultWIh(k, i)];
    }
    for i := 0 to ROWS * HIDDEN
      invariant wHh == DefaultLayer(k).wHh[..i]
    {
      wHh := wHh + [DefaultWHh(k, i)];
    }
    for h := 0 to HIDDEN
      invariant |bIh| == 4 * ROWS
      invariant forall i :: 0 <= i < 4 * ROWS ==> bIh[i] == if i < 4 * (HIDDEN + h) then DefaultBias(i) else 0
    {
      var at := 4 * (HIDDEN + h);
      bIh := bIh[..at] + ONE + bIh[at + 4..];
    }
    assert bIh == DefaultLayer(k).bIh;
    layer := Layer(input, wIh, wHh, bIh, Zeros(4 * ROWS), LAYER_SCALE, LAYER_SCALE);
  }

  class LSTMPredictor {
    var layers: seq<Layer>
    var headW: seq<Byte>
    var headScale: seq<Byte>
    var headB: seq<Byte>
    var weightsLoaded: bool
    /** predict, over one window. */
    const forward: (Weights, seq<real>) -> real
    var histories: seq<array<real>>
    var counts: seq<nat>
    var predictionCache: seq<real>
    var currentUtilCache: seq<real>
    /** Every sample ever pushed, edge by edge. */
    ghost var samples: seq<seq<real>>

    ghost function Held(): Weights
      reads this
    {
      Weights(layers, headW, headScale, headB)
    }

    ghost predicate Valid()
      reads this, histories
    {
      && |histories| == |counts| == |samples|
      && (forall i, j :: 0 <= i < j < |histories| ==> histories[i] != histories[j])
      && (forall e :: 0 <= e < |histories| ==> WindowAt(histories[e], counts[e], samples[e]))
      && |predictionCache| == |currentUtilCache|
    }

    /** The window the next prediction for the edge will see. */
    ghost function SamplesOf(edge: nat): seq<real>
      reads this
    {
      if edge < |samples| then samples[edge] else []
    }

    constructor (forward: (Weights, seq<real>) -> real)
      ensures Valid() && Held() == DefaultWeights() && !weightsLoaded && this.forward == forward
      ensures samples == [] && predictionCache == [] && histories == []
    {
      layers, headW, headScale, headB, weightsLoaded := [], [], [], [], false;
      this.forward := forward;
      histories, counts, samples, predictionCache, currentUtilCache := [], [], [], [], [];
      new;
      InitDefaultWeights();
    }

    /** init_default_weights. */
    method InitDefaultWeights()
      modifies this`layers, this`headW, this`headScale, this`headB
      ensures Held() == DefaultWeights()
    {
      hide DefaultLayer;
      layers := [];
      for k := 0 to LAYERS
        invariant |layers| == k && forall i :: 0 <= i < k ==> layers[i] == DefaultLayer(i)
      {
        var layer := InitLayer(k);
        layers := layers + [layer];
      }
      assert layers == DefaultWeights().layers;
      headW, headScale, headB := [], HEAD_SCALE, Zeros(4);
      for i := 0 to HIDDEN
        invariant layers == DefaultWeights().layers && headScale == HEAD_SCALE && headB == Zeros(4)
        invariant headW == DefaultWeights().headW[..i]
      {
        headW := headW + [Signed(i % 7 - 3)];
      }
      assert headW == DefaultWeights().headW;
    }

    // ------------------------------------------------------------- history

    /** One more edge, with a blank window. */
    method AddHistory()
      requires Valid()
      modifies this`histories, this`counts, this`samples
      ensures Valid() && |histories| == |old(histories)| + 1
      ensures forall h :: h in histories ==> h in old(histories) || fresh(h)
      ensures forall e: nat :: SamplesOf(e) == old(SamplesOf(e))
    {
      hide WindowOf;
      var blank := new real[HISTORY_LEN](_ => 0.0);
      BlankWindow(blank);
      histories, counts, samples := histories + [blank], counts + [0], samples + [[]];
    }

    method GrowHistories(edge: nat)
      requires Valid()
      modifies this`histories, this`counts, this`samples
      ensures Valid() && edge < |histories|
      ensures |histories| == if edge < |old(histories)| then |old(histories)| else edge + 1
      ensures forall h :: h in histories ==> h in old(histories) || fresh(h)
      ensures forall e: nat :: SamplesOf(e) == old(SamplesOf(e))
    {
      hide Valid, SamplesOf;
      while |histories| <= edge
        invariant Valid()
        invariant |histories| == |old(histories)| || |old(histories)| < |histories| <= edge + 1
        invariant forall h :: h in histories ==> h in old(histories) || fresh(h)
        invariant forall e: nat :: SamplesOf(e) == old(SamplesOf(e))
        decreases edge + 1 - |histories|
      {
        AddHistory();
      }
    }

    /** push_sample: any sequence of pushes leaves each edge's window with its last 16 samples in
        order, zero-padded while there are fewer; other edges keep theirs. */
    method PushSample(edge: nat, util: real)
      requires Valid()
      modifies this`histories, this`counts, this`samples, histories
      ensures Valid() && |samples| == |histories| && edge < |samples|
      ensures |histories| == if edge < |old(histories)| then |old(histories)| else edge + 1
      ensures forall h :: h in histories ==> h in old(histories) || fresh(h)
      ensures forall e: nat :: SamplesOf(e) == if e == edge then old(SamplesOf(e)) + [util] else old(SamplesOf(e))
    {
      hide WindowOf;
      GrowHistories(edge);
      var hist, n := histories[edge], counts[edge];
      assert hist in old(histories) || fresh(hist);
      Remember(hist, n, util, samples[edge]);
      if n < HISTORY_LEN { counts := counts[edge := n + 1]; }
      samples := samples[edge := samples[edge] + [util]];
    }

    /** predict_edge, over the edge's window or a blank one. */
    method PredictEdge(edge: nat) returns (p: real)
      requires Valid()
      ensures p == forward(Held(), WindowOf(SamplesOf(edge)))
    {
      if edge < |histories| {
        p := forward(Weights(layers, headW, headScale, headB), histories[edge][..]);
      } else {
        assert seq(HISTORY_LEN, _ => 0.0) == WindowOf([]);
        p := forward(Weights(layers, headW, headScale, headB), seq(HISTORY_LEN, _ => 0.0));
      }
    }

    // --------------------------------------------------------------- cache

    method UpdateCache(edge: nat, util: real, predicted: real)
      requires Valid()
      modifies this`predictionCache, this`currentUtilCache
      ensures Valid() && edge < |predictionCache|
      ensures |predictionCache| == if edge < |old(predictionCache)| then |old(predictionCache)| else edge + 1
      ensures forall e: nat :: Cached(e) == if e == edge then predicted else old(Cached(e))
      ensures forall e: nat :: CachedUtil(e) == if e == edge then util else old(CachedUtil(e))
    {
      if edge >= |predictionCache| {
        var more := edge + 1 - |predictionCache|;
        predictionCache := predictionCache + seq(more, _ => 0.0);
        currentUtilCache := currentUtilCache + seq(more, _ => 0.0);
      }
      predictionCache, currentUtilCache := predictionCache[edge := predicted], currentUtilCache[edge := util];
    }

    /** cached_prediction. */
    function Cached(edge: nat): real
      reads this
    {
      if edge < |predictionCache| then predictionCache[edge] else 0.0
    }

    /** The utilization the cached prediction was made at. */
    ghost function CachedUtil(edge: nat): real
      reads this
    {
      if edge < |currentUtilCache| then currentUtilCache[edge] else 0.0
    }

    // ------------------------------------------------------------- weights

    method SaveWeights() returns (bytes: seq<Byte>)
      ensures bytes == SaveBytes(Held())
    {
      hide LayerBytes, HeaderBytes;
      var body: seq<Byte> := [];
      for k := 0 to |layers|
        invariant body == LayersBytes(layers[..k])
      {
        assert layers[..k + 1][..k] == layers[..k];
        body := body + LayerBytes(layers[k]);
      }
      assert layers[..|layers|] == layers;
      bytes := MAGIC + (HeaderBytes() + (body + (WordBytes(HIDDEN) + (headW + (headScale + headB)))));
    }

    /** load_weights on a file's bytes. A rejected file never sets the loaded flag. */
    method LoadWeights(data: seq<Byte>) returns (ok: bool)
      requires layers != []
      modifies this`layers, this`headW, this`headScale, this`headB, this`weightsLoaded
      ensures Held() == Load(old(Held()), data).weights && ok == Load(old(Held()), data).ok
      ensures weightsLoaded == (old(weightsLoaded) || ok)
    {
      if |data| < 8 || data[..8] != MAGIC {
        ok := ReadLegacy(data);
      } else {
        ok := ReadV2(Stream(data[8..], true));
      }
      if ok { weightsLoaded := true; }
    }

    method ReadLegacy(data: seq<Byte>) returns (ok: bool)
      requires layers != []
      modifies this`layers
      ensures Held() == LoadLegacy(old(Held()), Stream(data, true)).weights
      ensures ok == LoadLegacy(old(Held()), Stream(data, true)).ok
    {
      hide Take;
      var l := layers[0];
      var g := Take(Stream(data, true), l.wIh);
      l := l.(wIh := g.bytes);
      g := Take(g.s, l.wHh);
      l := l.(wHh := g.bytes);
      var ih := Take(g.s, DEFAULT_SCALE);
      var hh := Take(ih.s, DEFAULT_SCALE);
      ok := hh.s.good;
      if ok { l := l.(scaleIh := ih.bytes, scaleHh := hh.bytes); }
      layers := layers[0 := l];
    }

    method ReadV2(s: Stream) returns (ok: bool)
      modifies this`layers, this`headW, this`headScale, this`headB
      ensures Held() == LoadV2(old(Held()), s).weights && ok == LoadV2(old(Held()), s).ok
    {
      hide TakeHeader, LoadHead, TakeLayers;
      var header := TakeHeader(s);
      if !header.accepted { return false; }
      HeaderGood(s);
      var stream := ReadLayers(header.s);
      if !stream.good { return false; }
      ok := ReadHead(stream);
    }

    /** The layer loop: it stops at the first layer that is cut short. */
    method ReadLayers(s: Stream) returns (r: Stream)
      requires s.good
      modifies this`layers
      ensures layers == TakeLayers(s, LAYERS).layers && r == TakeLayers(s, LAYERS).s
    {
      hide TakeLayer;
      layers, r := [FreshLayer(), FreshLayer()], s;
      for k := 0 to LAYERS
        invariant |layers| == LAYERS && (forall i :: k <= i < LAYERS ==> layers[i] == FreshLayer())
        invariant layers[..k] == TakeLayers(s, k).layers && r == TakeLayers(s, k).s && r.good
      {
        ghost var before := layers;
        var g := TakeLayer(r);
        layers, r := layers[k := g.layer], g.s;
        assert layers[..k + 1] == before[..k] + [g.layer];
        if !r.good {
          if k == 0 { assert layers == layers[..1] + [FreshLayer()]; } else { assert layers == layers[..2]; }
          return;
        }
      }
      assert layers[..LAYERS] == layers;
    }

    method ReadHead(s: Stream) returns (ok: bool)
      modifies this`headW, this`headScale, this`headB
      ensures Held() == LoadHead(old(Held()), s).weights && ok == LoadHead(old(Held()), s).ok
    {
      hide Take, Resized;
      var count := Take(s, Zeros(4));
      if !count.s.good || WordOf(count.bytes) != HIDDEN { return false; }
      var g := Take(count.s, Resized(headW, HIDDEN));
      headW := g.bytes;
      g := Take(g.s, headScale);
      headScale := g.bytes;
      if !g.s.good { return false; }
      g := Take(g.s, headB);
      headB := g.bytes;
      ok := g.s.good;
    }
  }

  ghost predicate WindowAt(hist: array<real>, count: nat, samples: seq<real>)
    reads hist
  {
    && hist.Length == HISTORY_LEN
    && hist[..] == WindowOf(samples)
    && count == if |samples| <= HISTORY_LEN then |samples| else HISTORY_LEN
  }
}
