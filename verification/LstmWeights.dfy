/** The predictor's weight file: what is written, and what reading makes of any bytes. */
module LstmWeights {

  type Byte = b: nat | b < 256
  type Word = w: nat | w < 0x1_0000_0000

  const HIDDEN: nat := 32
  const LAYERS: nat := 2
  const HISTORY_LEN: nat := 16
  const ROWS: nat := 128
  const VERSION: nat := 2

  /** "HICSLSTM". */
  const MAGIC: seq<Byte> := [72, 73, 67, 83, 76, 83, 84, 77]

  /** The bytes of the float 0.01. */
  const DEFAULT_SCALE: seq<Byte> := [0x0A, 0xD7, 0x23, 0x3C]

  /** Floats are kept as their four bytes, float arrays as four bytes an element. */
  datatype Layer = Layer(inputSize: Word, wIh: seq<Byte>, wHh: seq<Byte>, bIh: seq<Byte>, bHh: seq<Byte>,
                         scaleIh: seq<Byte>, scaleHh: seq<Byte>)

  datatype Weights = Weights(layers: seq<Layer>, headW: seq<Byte>, headScale: seq<Byte>, headB: seq<Byte>)

  function FreshLayer(): Layer { Layer(1, [], [], [], [], DEFAULT_SCALE, DEFAULT_SCALE) }

  function Zeros(n: nat): (r: seq<Byte>)
    ensures |r| == n && forall i :: 0 <= i < n ==> r[i] == 0
  {
    seq(n, _ => 0)
  }

  // ------------------------------------------------------------- defaults

  /** The bytes of the floats 0.02, 0.05 and 1. */
  const LAYER_SCALE: seq<Byte> := [0x0A, 0xD7, 0xA3, 0x3C]
  const HEAD_SCALE: seq<Byte> := [0xCD, 0xCC, 0x4C, 0x3D]
  const ONE: seq<Byte> := [0, 0, 0x80, 0x3F]

  /** A signed byte in two's complement. */
  function Signed(x: int): Byte
    requires -128 <= x < 128
  {
    if x < 0 then x + 256 else x
  }

  function DefaultWIh(layer: nat, i: nat): Byte { Signed((i * 17 + layer * 3) % 11 - 5) }

  function DefaultWHh(layer: nat, i: nat): Byte { Signed((i * 13 + layer * 7) % 9 - 4) }

  /** 1 for the forget gate, the second of the four, 0 for the others. */
  function DefaultBias(i: nat): Byte { if 4 * HIDDEN <= i < 8 * HIDDEN then ONE[i % 4] else 0 }

  function DefaultLayer(layer: nat): Layer {
    var input: Word := if layer == 0 then 1 else HIDDEN;
    Layer(input, seq(ROWS * input, (i: nat) => DefaultWIh(layer, i)),
          seq(ROWS * HIDDEN, (i: nat) => DefaultWHh(layer, i)),
          seq(4 * ROWS, (i: nat) => DefaultBias(i)), Zeros(4 * ROWS), LAYER_SCALE, LAYER_SCALE)
  }

  /** init_default_weights. */
  function DefaultWeights(): Weights {
    Weights([DefaultLayer(0), DefaultLayer(1)], seq(HIDDEN, (i: nat) => Signed(i % 7 - 3)), HEAD_SCALE, Zeros(4))
  }

  lemma DefaultsShaped()
    ensures Shaped(DefaultWeights())
  {
    hide DefaultWIh, DefaultWHh, DefaultBias;
  }

  // -------------------------------------------------------------- writing

  /** A 32-bit integer, least significant byte first. */
  function WordBytes(w: Word): (r: seq<Byte>)
    ensures |r| == 4
  {
    [w % 256, w / 256 % 256, w / 65536 % 256, w / 16777216]
  }

  function WordOf(b: seq<Byte>): Word
    requires |b| == 4
  {
    b[0] as nat + 256 * (b[1] as nat) + 65536 * (b[2] as nat) + 16777216 * (b[3] as nat)
  }

  lemma WordRoundTrip(w: Word)
    ensures WordOf(WordBytes(w)) == w
  {
    var q := w / 256;
    var r := q / 256;
    assert w / 65536 == r && w / 16777216 == r / 256;
  }

  predicate LayerShaped(l: Layer) {
    && |l.wIh| == ROWS * l.inputSize && |l.wHh| == ROWS * HIDDEN
    && |l.bIh| == 4 * ROWS && |l.bHh| == 4 * ROWS
    && |l.scaleIh| == 4 && |l.scaleHh| == 4
  }

  predicate Shaped(w: Weights) {
    && |w.layers| == LAYERS && (forall i :: 0 <= i < LAYERS ==> LayerShaped(w.layers[i]))
    && |w.headW| == HIDDEN && |w.headScale| == 4 && |w.headB| == 4
  }

  function LayerBytes(l: Layer): seq<Byte> {
    WordBytes(l.inputSize) + (WordBytes(ROWS) + (l.wIh + (l.scaleIh + (l.wHh + (l.scaleHh + (l.bIh + l.bHh))))))
  }

  function LayersBytes(ls: seq<Layer>): seq<Byte> {
    if ls == [] then [] else LayersBytes(ls[..|ls| - 1]) + LayerBytes(ls[|ls| - 1])
  }

  function HeaderBytes(): seq<Byte> {
    WordBytes(VERSION) + (WordBytes(HIDDEN) + (WordBytes(LAYERS) + WordBytes(HISTORY_LEN)))
  }

  function HeadBytes(w: Weights): seq<Byte> { WordBytes(HIDDEN) + (w.headW + (w.headScale + w.headB)) }

  /** save_weights. */
  function SaveBytes(w: Weights): seq<Byte> { MAGIC + (HeaderBytes() + (LayersBytes(w.layers) + HeadBytes(w))) }

  // -------------------------------------------------------------- reading

  /** An input stream: what is left, and whether every read so far was filled. */
  datatype Stream = Stream(rest: seq<Byte>, good: bool)

  datatype Got = Got(bytes: seq<Byte>, s: Stream)

  /** read(buf, |buf|): a short read overwrites the front of the buffer and fails the stream. */
  function Take(s: Stream, buf: seq<Byte>): (g: Got)
    ensures |g.bytes| == |buf|
    ensures g.s.good ==> s.good && |s.rest| >= |buf| && s.rest == g.bytes + g.s.rest
  {
    if !s.good then Got(buf, s)
    else if |s.rest| >= |buf| then Got(s.rest[..|buf|], Stream(s.rest[|buf|..], true))
    else Got(s.rest + buf[|s.rest|..], Stream([], false))
  }

  datatype GotLayer = GotLayer(layer: Layer, s: Stream)

  /** One layer; the stream stays good exactly when all of it was there. */
  function TakeLayer(s: Stream): GotLayer {
    var input := Take(s, Zeros(4));
    var rows := Take(input.s, Zeros(4));
    if !rows.s.good then GotLayer(FreshLayer(), rows.s)
    else
      var i, r := WordOf(input.bytes), WordOf(rows.bytes);
      var wIh := Take(rows.s, Zeros(r * i));
      var scaleIh := Take(wIh.s, DEFAULT_SCALE);
      if !scaleIh.s.good then
        GotLayer(Layer(i, wIh.bytes, Zeros(r * HIDDEN), Zeros(4 * r), Zeros(4 * r), scaleIh.bytes, DEFAULT_SCALE),
                 scaleIh.s)
      else
        var wHh := Take(scaleIh.s, Zeros(r * HIDDEN));
        var scaleHh := Take(wHh.s, DEFAULT_SCALE);
        if !scaleHh.s.good then
          GotLayer(Layer(i, wIh.bytes, wHh.bytes, Zeros(4 * r), Zeros(4 * r), scaleIh.bytes, scaleHh.bytes), scaleHh.s)
        else
          var bIh := Take(scaleHh.s, Zeros(4 * r));
          var bHh := Take(bIh.s, Zeros(4 * r));
          GotLayer(Layer(i, wIh.bytes, wHh.bytes, bIh.bytes, bHh.bytes, scaleIh.bytes, scaleHh.bytes), bHh.s)
  }

  datatype GotLayers = GotLayers(layers: seq<Layer>, s: Stream)

  /** Layers in order up to the first that fails; the rest stay fresh. */
  function TakeLayers(s: Stream, n: nat): (g: GotLayers)
    ensures |g.layers| == n
  {
    if n == 0 then GotLayers([], s)
    else
      var before := TakeLayers(s, n - 1);
      if !before.s.good then GotLayers(before.layers + [FreshLayer()], before.s)
      else
        var last := TakeLayer(before.s);
        GotLayers(before.layers + [last.layer], last.s)
  }

  datatype Loaded = Loaded(weights: Weights, ok: bool, s: Stream)

  function Resized(b: seq<Byte>, n: nat): (r: seq<Byte>)
    ensures |r| == n
  {
    if |b| >= n then b[..n] else b + Zeros(n - |b|)
  }

  function LoadHead(w: Weights, s: Stream): Loaded {
    var count := Take(s, Zeros(4));
    if !count.s.good || WordOf(count.bytes) != HIDDEN then Loaded(w, false, count.s)
    else
      var headW := Take(count.s, Resized(w.headW, HIDDEN));
      var scale := Take(headW.s, w.headScale);
      if !scale.s.good then Loaded(w.(headW := headW.bytes, headScale := scale.bytes), false, scale.s)
      else
        var b := Take(scale.s, w.headB);
        Loaded(w.(headW := headW.bytes, headScale := scale.bytes, headB := b.bytes), b.s.good, b.s)
  }

  datatype Header = Header(accepted: bool, s: Stream)

  /** The four words after the magic; the history length is read and not looked at. */
  function TakeHeader(s: Stream): Header {
    var version := Take(s, Zeros(4));
    var hidden := Take(version.s, Zeros(4));
    var layers := Take(hidden.s, Zeros(4));
    var history := Take(layers.s, Zeros(4));
    Header(history.s.good && WordOf(version.bytes) == VERSION && WordOf(hidden.bytes) == HIDDEN
           && WordOf(layers.bytes) == LAYERS, history.s)
  }

  function LoadV2(w: Weights, s: Stream): Loaded {
    var header := TakeHeader(s);
    if !header.accepted then Loaded(w, false, header.s)
    else
      var g := TakeLayers(header.s, LAYERS);
      if !g.s.good then Loaded(w.(layers := g.layers), false, g.s)
      else LoadHead(w.(layers := g.layers), g.s)
  }

  /** Without the magic: raw weights of layer 0, in the sizes it has now. */
  function LoadLegacy(w: Weights, s: Stream): Loaded
    requires w.layers != []
  {
    var l := w.layers[0];
    var wIh := Take(s, l.wIh);
    var wHh := Take(wIh.s, l.wHh);
    var scaleIh := Take(wHh.s, DEFAULT_SCALE);
    var scaleHh := Take(scaleIh.s, DEFAULT_SCALE);
    var read := l.(wIh := wIh.bytes, wHh := wHh.bytes);
    if !scaleHh.s.good then Loaded(w.(layers := w.layers[0 := read]), false, scaleHh.s)
    else Loaded(w.(layers := w.layers[0 := read.(scaleIh := scaleIh.bytes, scaleHh := scaleHh.bytes)]), true, scaleHh.s)
  }

  predicate HasMagic(data: seq<Byte>) { |data| >= 8 && data[..8] == MAGIC }

  /** load_weights. */
  function Load(w: Weights, data: seq<Byte>): Loaded
    requires w.layers != []
  {
    if HasMagic(data) then LoadV2(w, Stream(data[8..], true)) else LoadLegacy(w, Stream(data, true))
  }

  // ----------------------------------------------------------- round trip

  lemma TakeFront(front: seq<Byte>, rest: seq<Byte>, buf: seq<Byte>)
    requires |buf| == |front|
    ensures Take(Stream(front + rest, true), buf) == Got(front, Stream(rest, true))
  {
    assert (front + rest)[..|front|] == front && (front + rest)[|front|..] == rest;
  }

  lemma TakeWordFront(w: Word, rest: seq<Byte>)
    ensures Take(Stream(WordBytes(w) + rest, true), Zeros(4)) == Got(WordBytes(w), Stream(rest, true))
    ensures WordOf(WordBytes(w)) == w
  {
    hide WordBytes, WordOf, Take;
    WordRoundTrip(w);
    TakeFront(WordBytes(w), rest, Zeros(4));
  }

  lemma LayerRoundTrip(l: Layer, rest: seq<Byte>)
    requires LayerShaped(l)
    ensures TakeLayer(Stream(LayerBytes(l) + rest, true)) == GotLayer(l, Stream(rest, true))
  {
    var bs := l.bIh + (l.bHh + rest);
    var hh := l.wHh + (l.scaleHh + bs);
    var ih := l.wIh + (l.scaleIh + hh);
    assert LayerBytes(l) + rest == WordBytes(l.inputSize) + (WordBytes(ROWS) + ih);
    hide WordBytes, WordOf, Take;
    TakeWordFront(l.inputSize, WordBytes(ROWS) + ih);
    TakeWordFront(ROWS, ih);
    TakeFront(l.wIh, l.scaleIh + hh, Zeros(ROWS * l.inputSize));
    TakeFront(l.scaleIh, hh, DEFAULT_SCALE);
    TakeFront(l.wHh, l.scaleHh + bs, Zeros(ROWS * HIDDEN));
    TakeFront(l.scaleHh, bs, DEFAULT_SCALE);
    TakeFront(l.bIh, l.bHh + rest, Zeros(4 * ROWS));
    TakeFront(l.bHh, rest, Zeros(4 * ROWS));
  }

  lemma {:induction false} LayersRoundTrip(ls: seq<Layer>, rest: seq<Byte>)
    requires forall i :: 0 <= i < |ls| ==> LayerShaped(ls[i])
    ensures TakeLayers(Stream(LayersBytes(ls) + rest, true), |ls|) == GotLayers(ls, Stream(rest, true))
  {
    hide LayerShaped, LayerBytes, TakeLayer;
    if ls == [] {
      assert LayersBytes(ls) + rest == rest;
    } else {
      var n := |ls| - 1;
      assert LayersBytes(ls) + rest == LayersBytes(ls[..n]) + (LayerBytes(ls[n]) + rest);
      LayersRoundTrip(ls[..n], LayerBytes(ls[n]) + rest);
      LayerRoundTrip(ls[n], rest);
    }
  }

  lemma HeaderRoundTrip(rest: seq<Byte>)
    ensures TakeHeader(Stream(HeaderBytes() + rest, true)) == Header(true, Stream(rest, true))
  {
    var l3 := WordBytes(HISTORY_LEN) + rest;
    var l2 := WordBytes(LAYERS) + l3;
    var l1 := WordBytes(HIDDEN) + l2;
    assert HeaderBytes() + rest == WordBytes(VERSION) + l1;
    hide WordBytes, WordOf, Take;
    TakeWordFront(VERSION, l1);
    TakeWordFront(HIDDEN, l2);
    TakeWordFront(LAYERS, l3);
    TakeWordFront(HISTORY_LEN, rest);
  }

  lemma HeadRoundTrip(w: Weights, m: Weights, rest: seq<Byte>)
    requires Shaped(m) && |w.headScale| == 4 && |w.headB| == 4
    ensures LoadHead(w, Stream(HeadBytes(m) + rest, true))
      == Loaded(w.(headW := m.headW, headScale := m.headScale, headB := m.headB), true, Stream(rest, true))
  {
    var tail := m.headScale + (m.headB + rest);
    assert HeadBytes(m) + rest == WordBytes(HIDDEN) + (m.headW + tail);
    hide WordBytes, WordOf, Take, Resized;
    TakeWordFront(HIDDEN, m.headW + tail);
    TakeFront(m.headW, tail, Resized(w.headW, HIDDEN));
    TakeFront(m.headScale, m.headB + rest, w.headScale);
    TakeFront(m.headB, rest, w.headB);
  }

  /** Loading what save_weights wrote restores every layer, scale, bias and head field of any
      well-shaped model, whatever was loaded before and whatever follows in the file. */
  lemma SaveLoadRoundTrip(w: Weights, m: Weights, tail: seq<Byte>)
    requires Shaped(w) && Shaped(m)
    ensures Load(w, SaveBytes(m) + tail) == Loaded(m, true, Stream(tail, true))
  {
    var data := SaveBytes(m) + tail;
    var head := HeadBytes(m) + tail;
    var layers := LayersBytes(m.layers) + head;
    assert data == MAGIC + (HeaderBytes() + layers);
    assert data[..8] == MAGIC && data[8..] == HeaderBytes() + layers;
    hide TakeHeader, TakeLayers, LoadHead, HeaderBytes, HeadBytes, LayersBytes, SaveBytes;
    HeaderRoundTrip(layers);
    LayersRoundTrip(m.layers, head);
    HeadRoundTrip(w.(layers := m.layers), m, tail);
  }

  // ----------------------------------------------------------- truncation

  /** A read that succeeds gives the same with more bytes behind. */
  lemma TakeMore(s: Stream, buf: seq<Byte>, more: seq<Byte>)
    requires Take(s, buf).s.good
    ensures Take(Stream(s.rest + more, true), buf)
      == Got(Take(s, buf).bytes, Stream(Take(s, buf).s.rest + more, true))
    ensures s.good
  {
    var g := Take(s, buf);
    assert s.rest + more == g.bytes + (g.s.rest + more);
    TakeFront(g.bytes, g.s.rest + more, buf);
  }

  lemma LayerMore(s: Stream, more: seq<Byte>)
    requires TakeLayer(s).s.good
    ensures s.good
    ensures TakeLayer(Stream(s.rest + more, true))
      == GotLayer(TakeLayer(s).layer, Stream(TakeLayer(s).s.rest + more, true))
  {
    var input := Take(s, Zeros(4));
    var rows := Take(input.s, Zeros(4));
    var i, r := WordOf(input.bytes), WordOf(rows.bytes);
    var wIh := Take(rows.s, Zeros(r * i));
    var scaleIh := Take(wIh.s, DEFAULT_SCALE);
    var wHh := Take(scaleIh.s, Zeros(r * HIDDEN));
    var scaleHh := Take(wHh.s, DEFAULT_SCALE);
    var bIh := Take(scaleHh.s, Zeros(4 * r));
    hide WordOf, Take;
    TakeMore(bIh.s, Zeros(4 * r), more);
    TakeMore(scaleHh.s, Zeros(4 * r), more);
    TakeMore(wHh.s, DEFAULT_SCALE, more);
    TakeMore(scaleIh.s, Zeros(r * HIDDEN), more);
    TakeMore(wIh.s, DEFAULT_SCALE, more);
    TakeMore(rows.s, Zeros(r * i), more);
    TakeMore(input.s, Zeros(4), more);
    TakeMore(s, Zeros(4), more);
  }

  lemma {:induction false} LayersMore(s: Stream, n: nat, more: seq<Byte>)
    requires TakeLayers(s, n).s.good
    ensures s.good
    ensures TakeLayers(Stream(s.rest + more, true), n)
      == GotLayers(TakeLayers(s, n).layers, Stream(TakeLayers(s, n).s.rest + more, true))
  {
    hide TakeLayer;
    if n > 0 {
      var before := TakeLayers(s, n - 1);
      LayersMore(s, n - 1, more);
      LayerMore(before.s, more);
    }
  }

  lemma HeaderMore(s: Stream, more: seq<Byte>)
    requires TakeHeader(s).s.good
    ensures s.good
    ensures TakeHeader(Stream(s.rest + more, true))
      == Header(TakeHeader(s).accepted, Stream(TakeHeader(s).s.rest + more, true))
  {
    var version := Take(s, Zeros(4));
    var hidden := Take(version.s, Zeros(4));
    var layers := Take(hidden.s, Zeros(4));
    hide WordOf, Take;
    TakeMore(layers.s, Zeros(4), more);
    TakeMore(hidden.s, Zeros(4), more);
    TakeMore(version.s, Zeros(4), more);
    TakeMore(s, Zeros(4), more);
  }

  lemma HeadMore(w: Weights, s: Stream, more: seq<Byte>)
    requires LoadHead(w, s).ok
    ensures s.good
    ensures var l := LoadHead(w, s);
      LoadHead(w, Stream(s.rest + more, true)) == Loaded(l.weights, true, Stream(l.s.rest + more, true))
  {
    var count := Take(s, Zeros(4));
    var headW := Take(count.s, Resized(w.headW, HIDDEN));
    var scale := Take(headW.s, w.headScale);
    hide WordOf, Take, Resized;
    TakeMore(scale.s, w.headB, more);
    TakeMore(headW.s, w.headScale, more);
    TakeMore(count.s, Resized(w.headW, HIDDEN), more);
    TakeMore(s, Zeros(4), more);
  }

  lemma V2More(w: Weights, s: Stream, more: seq<Byte>)
    requires LoadV2(w, s).ok
    ensures var l := LoadV2(w, s);
      LoadV2(w, Stream(s.rest + more, true)) == Loaded(l.weights, true, Stream(l.s.rest + more, true))
  {
    HeaderGood(s);
    hide TakeHeader, TakeLayers, LoadHead;
    var header := TakeHeader(s);
    var g := TakeLayers(header.s, LAYERS);
    HeadMore(w.(layers := g.layers), g.s, more);
    LayersMore(header.s, LAYERS, more);
    HeaderMore(s, more);
  }

  lemma HeaderGood(s: Stream)
    ensures TakeHeader(s).accepted ==> TakeHeader(s).s.good
  {
  }

  lemma SavedMagic(m: Weights)
    ensures HasMagic(SaveBytes(m))
  {
    assert SaveBytes(m)[..8] == MAGIC;
  }

  /** If all of a v2 file is read, no proper part of it is enough. */
  lemma PartRejected(w: Weights, full: seq<Byte>, n: nat)
    requires w.layers != [] && HasMagic(full) && 8 <= n < |full|
    requires Load(w, full).ok && Load(w, full).s.rest == []
    ensures !Load(w, full[..n]).ok
  {
    hide LoadV2, LoadLegacy;
    var s, more := Stream(full[8..n], true), full[n..];
    assert full[..n][..8] == full[..8] && full[..n][8..] == s.rest;
    assert s.rest + more == full[8..];
    if LoadV2(w, s).ok { V2More(w, s, more); }
  }

  /** A weight file cut short anywhere is rejected. */
  lemma TruncatedRejected(w: Weights, m: Weights, n: nat)
    requires Shaped(w) && Shaped(m) && n < |SaveBytes(m)|
    ensures !Load(w, SaveBytes(m)[..n]).ok
  {
    var full := SaveBytes(m);
    SavedMagic(m);
    SaveLoadRoundTrip(w, m, []);
    assert w.layers != [];
    hide Load, SaveBytes, Shaped;
    assert full + [] == full;
    if n < 8 { LegacyAcceptedIff(w, full[..n]); } else { PartRejected(w, full, n); }
  }

  // ------------------------------------------------------------ rejection

  predicate HeaderAccepted(data: seq<Byte>) { HasMagic(data) && TakeHeader(Stream(data[8..], true)).accepted }

  /** What a rejected v2 file leaves in the layers does not depend on what was there. */
  lemma RejectedLayers(w: Weights, data: seq<Byte>)
    requires w.layers != [] && HasMagic(data) && !Load(w, data).ok
    ensures Load(w, data).weights.layers
      == if HeaderAccepted(data) then TakeLayers(TakeHeader(Stream(data[8..], true)).s, LAYERS).layers else w.layers
  {
    hide TakeHeader, TakeLayers, Take, WordOf, Resized;
  }

  function PlainLayer(scale: seq<Byte>): Layer {
    Layer(1, Zeros(ROWS), Zeros(ROWS * HIDDEN), Zeros(4 * ROWS), Zeros(4 * ROWS), scale, DEFAULT_SCALE)
  }

  /** A well-shaped model whose first scale is the given one. */
  function Plain(scale: seq<Byte>): Weights {
    Weights([PlainLayer(scale), PlainLayer(scale)], Zeros(HIDDEN), DEFAULT_SCALE, DEFAULT_SCALE)
  }

  /** "Failed to load, using defaults" is not what a rejected v2 file gives: the weights held
      before are sure to survive a rejection exactly when the header was not accepted. */
  lemma RejectionKeepsIff(data: seq<Byte>, any: Weights)
    requires HasMagic(data) && Shaped(any) && !Load(any, data).ok
    ensures (forall w :: Shaped(w) ==> Load(w, data).weights == w) <==> !HeaderAccepted(data)
  {
    hide TakeHeader, TakeLayers, Shaped;
    if HeaderAccepted(data) {
      var left := TakeLayers(TakeHeader(Stream(data[8..], true)).s, LAYERS).layers;
      var scale := if left[0].scaleIh == DEFAULT_SCALE then Zeros(4) else DEFAULT_SCALE;
      var w := Plain(scale);
      PlainShaped(scale);
      RejectedAlways(any, w, data);
      RejectedLayers(w, data);
      assert Load(w, data).weights != w;
    }
  }

  /** Every saved file cut short after its header is such a file: rejected, and there are weights
      that do not survive it. */
  lemma CutAfterHeader(w: Weights, m: Weights, n: nat)
    requires Shaped(w) && Shaped(m) && 24 <= n < |SaveBytes(m)|
    ensures HeaderAccepted(SaveBytes(m)[..n]) && !Load(w, SaveBytes(m)[..n]).ok
    ensures exists v :: Shaped(v) && Load(v, SaveBytes(m)[..n]).weights != v
  {
    CutHeader(m, n);
    TruncatedRejected(w, m, n);
    RejectionKeepsIff(SaveBytes(m)[..n], w);
  }

  lemma CutHeader(m: Weights, n: nat)
    requires 24 <= n < |SaveBytes(m)|
    ensures HeaderAccepted(SaveBytes(m)[..n])
    ensures SaveBytes(m)[..n][8..] == HeaderBytes() + SaveBytes(m)[24..n]
  {
    var full := SaveBytes(m);
    SavedMagic(m);
    assert |HeaderBytes()| == 16;
    assert full[8..24] == HeaderBytes() by {
      assert full[8..] == HeaderBytes() + (LayersBytes(m.layers) + HeadBytes(m));
    }
    assert full[..n][..8] == full[..8] && full[..n][8..] == HeaderBytes() + full[24..n];
    hide SaveBytes, TakeHeader, HeaderBytes;
    HeaderRoundTrip(full[24..n]);
  }

  /** With nothing after the header, what is left of any model has empty layers. */
  lemma HeaderAlone(w: Weights, m: Weights)
    requires Shaped(w) && Shaped(m)
    ensures |SaveBytes(m)| > 24 && !Load(w, SaveBytes(m)[..24]).ok
    ensures Load(w, SaveBytes(m)[..24]).weights == w.(layers := [FreshLayer(), FreshLayer()])
  {
    assert |HeaderBytes()| == 16 && |HeadBytes(m)| > 0;
    CutHeader(m, 24);
    hide SaveBytes, TakeHeader, HeaderBytes;
    assert SaveBytes(m)[24..24] == [];
    HeaderRoundTrip([]);
    assert TakeLayers(Stream([], true), 0) == GotLayers([], Stream([], true));
    assert TakeLayers(Stream([], true), 1) == GotLayers([FreshLayer()], Stream([], false));
    assert TakeLayers(Stream([], true), LAYERS) == GotLayers([FreshLayer(), FreshLayer()], Stream([], false));
  }

  lemma PlainShaped(scale: seq<Byte>)
    requires |scale| == 4
    ensures Shaped(Plain(scale)) && Plain(scale).layers[0].scaleIh == scale
  {
  }

  /** Whether a v2 file is accepted does not depend on the weights held before. */
  lemma RejectedAlways(a: Weights, b: Weights, data: seq<Byte>)
    requires Shaped(a) && Shaped(b) && HasMagic(data)
    ensures Load(a, data).ok <==> Load(b, data).ok
  {
    var header := TakeHeader(Stream(data[8..], true));
    hide TakeHeader;
    if header.accepted {
      var g := TakeLayers(header.s, LAYERS);
      hide TakeLayers;
      if g.s.good { HeadSame(a.(layers := g.layers), b.(layers := g.layers), g.s); }
    }
  }

  lemma HeadSame(a: Weights, b: Weights, s: Stream)
    requires |a.headScale| == |b.headScale| == 4 && |a.headB| == |b.headB| == 4
    ensures LoadHead(a, s).ok <==> LoadHead(b, s).ok
  {
    hide WordOf, Resized;
  }

  /** A legacy file needs every byte of layer 0 in its present sizes, and the two scales. */
  lemma LegacyAcceptedIff(w: Weights, data: seq<Byte>)
    requires w.layers != [] && !HasMagic(data)
    ensures Load(w, data).ok <==> |data| >= |w.layers[0].wIh| + |w.layers[0].wHh| + 8
    ensures Load(w, data).weights == w.(layers := [Load(w, data).weights.layers[0]] + w.layers[1..])
  {
    assert w.layers == [w.layers[0]] + w.layers[1..];
  }

  /** A legacy file of layer 0's weights and scales in their order puts each back in its place, and
      changes nothing else. */
  lemma LegacyRoundTrip(w: Weights, l: Layer, tail: seq<Byte>)
    requires w.layers != [] && |l.wIh| == |w.layers[0].wIh| && |l.wHh| == |w.layers[0].wHh|
    requires |l.scaleIh| == 4 && |l.scaleHh| == 4
    requires !HasMagic(l.wIh + (l.wHh + (l.scaleIh + (l.scaleHh + tail))))
    ensures var loaded := Load(w, l.wIh + (l.wHh + (l.scaleIh + (l.scaleHh + tail))));
      && loaded.ok
      && loaded.weights.layers[1..] == w.layers[1..]
      && loaded.weights.layers[0]
           == w.layers[0].(wIh := l.wIh, wHh := l.wHh, scaleIh := l.scaleIh, scaleHh := l.scaleHh)
      && loaded.weights.(layers := w.layers) == w
  {
    hide Take;
    TakeFront(l.wIh, l.wHh + (l.scaleIh + (l.scaleHh + tail)), w.layers[0].wIh);
    TakeFront(l.wHh, l.scaleIh + (l.scaleHh + tail), w.layers[0].wHh);
    TakeFront(l.scaleIh, l.scaleHh + tail, DEFAULT_SCALE);
    TakeFront(l.scaleHh, tail, DEFAULT_SCALE);
  }
}
