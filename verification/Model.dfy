/** The shared domain model: endpoints, fabrics, requests and path costs. */
module Model {

  /** Default striping and suspension quantum of a KV migration. */
  const KV_CHUNK_BYTES: nat := 256 * 1024 * 1024
  const IB_RAIL_COUNT: nat := 2

  /** x, doubled once for each element of the list. */
  function Doubled(x: real, times: seq<()>): (r: real)
    ensures x >= 0.0 ==> r >= x
    decreases |times|
  {
    if times == [] then x else Doubled(x + x, times[1..])
  }

  /** The largest double: 2^53 - 1, times 2^71, times 2^900. Solvers do not do well on its 309 digits,
      so the last power is not multiplied out. */
  function LargestDouble(): (r: real)
    ensures r >= 9007199254740991.0 * 2361183241434822606848.0
  {
    Doubled(9007199254740991.0 * 2361183241434822606848.0, seq(900, _ => ()))
  }

  /** The "no path yet" cost, std::numeric_limits<double>::max(). */
  const DBL_MAX: real := LargestDouble()

  /** vertex_of's answer for an endpoint the graph does not have. */
  const NO_VERTEX: nat := 0xFFFF_FFFF

  /** A byte count in the source's 64-bit unsigned width. */
  type Size64 = n: nat | n < 0x1_0000_0000_0000_0000

  datatype FabricType = NVLink | PCIe | CXL | InfiniBand

  datatype TrafficClass = TensorParallel | PipelineParallel | KVMigration

  datatype EndpointType = GPU | CPU | CXLController | IBPort

  datatype EndpointId = EndpointId(node: nat, local: nat, kind: EndpointType)

  /** Bandwidth in GB/s, latency in microseconds; rail is 0 or 1 on a rail, -1 elsewhere. */
  datatype EdgeAttributes =
    EdgeAttributes(fabric: FabricType, bandwidth: real, latency: real, alpha: real, rail: int)

  datatype GraphEdge = GraphEdge(src: nat, dst: nat, attrs: EdgeAttributes)

  datatype TransferRequest =
    TransferRequest(source: EndpointId, dest: EndpointId, size: Size64, cls: TrafficClass, deadline: real)

  datatype PathCost = PathCost(edges: seq<nat>, latency: real)

  function DefaultFabricAttrs(fabric: FabricType, rail: int): EdgeAttributes {
    match fabric
    case NVLink => EdgeAttributes(NVLink, 900.0, 1.0, 1.4, -1)
    case PCIe => EdgeAttributes(PCIe, 64.0, 3.0, 2.1, -1)
    case CXL => EdgeAttributes(CXL, 50.0, 5.0, 2.1, -1)
    case InfiniBand => EdgeAttributes(InfiniBand, 50.0, 5.0, 1.8, rail)
  }

  function Min(a: nat, b: nat): nat { if a <= b then a else b }
}

/** Sums over sequences and over maps keyed 1..n, with the facts every counter proof needs. */
module Sums {

  function SumBy<T>(s: seq<T>, f: T -> nat): nat {
    if s == [] then 0 else SumBy(s[..|s| - 1], f) + f(s[|s| - 1])
  }

  lemma SumByAppend<T>(s: seq<T>, x: T, f: T -> nat)
    ensures SumBy(s + [x], f) == SumBy(s, f) + f(x)
  {
    assert (s + [x])[..|s|] == s;
  }

  lemma {:induction false} SumByConcat<T>(s: seq<T>, t: seq<T>, f: T -> nat)
    ensures SumBy(s + t, f) == SumBy(s, f) + SumBy(t, f)
  {
    if t == [] {
      assert s + t == s;
    } else {
      var init, x := t[..|t| - 1], t[|t| - 1];
      assert s + t == (s + init) + [x];
      SumByAppend(s + init, x, f);
      SumByConcat(s, init, f);
    }
  }

  /** Pointwise `f(s[i]) + d(s[i]) == f(t[i])` lifts to the sums. */
  lemma {:induction false} SumByShift<T>(s: seq<T>, t: seq<T>, f: T -> nat, d: T -> nat)
    requires |s| == |t|
    requires forall i :: 0 <= i < |s| ==> f(t[i]) == f(s[i]) + d(s[i])
    ensures SumBy(t, f) == SumBy(s, f) + SumBy(s, d)
  {
    if s != [] {
      var n := |s| - 1;
      SumByShift(s[..n], t[..n], f, d);
    }
  }

  lemma {:induction false} SumByLe<T>(s: seq<T>, t: seq<T>, f: T -> nat, g: T -> nat)
    requires |s| == |t|
    requires forall i :: 0 <= i < |s| ==> f(s[i]) <= g(t[i])
    ensures SumBy(s, f) <= SumBy(t, g)
  {
    if s != [] {
      var n := |s| - 1;
      SumByLe(s[..n], t[..n], f, g);
    }
  }

  lemma {:induction false} SumByEq<T>(s: seq<T>, t: seq<T>, f: T -> nat, g: T -> nat)
    requires |s| == |t|
    requires forall i :: 0 <= i < |s| ==> f(s[i]) == g(t[i])
    ensures SumBy(s, f) == SumBy(t, g)
  {
    SumByLe(s, t, f, g);
    SumByLe(t, s, g, f);
  }

  /** Equal sums of pointwise ordered terms are equal term by term. */
  lemma {:induction false} SumByTight<T>(s: seq<T>, f: T -> nat, g: T -> nat)
    requires forall i :: 0 <= i < |s| ==> f(s[i]) <= g(s[i])
    requires SumBy(s, f) >= SumBy(s, g)
    ensures forall i :: 0 <= i < |s| ==> f(s[i]) == g(s[i])
  {
    if s != [] {
      var n := |s| - 1;
      SumByLe(s[..n], s[..n], f, g);
      SumByTight(s[..n], f, g);
      forall i | 0 <= i < |s| ensures f(s[i]) == g(s[i]) {
        if i < n { assert s[..n][i] == s[i]; }
      }
    }
  }

  /** One term strictly smaller makes the sum strictly smaller. */
  lemma {:induction false} SumByLt<T>(s: seq<T>, t: seq<T>, f: T -> nat, k: nat)
    requires |s| == |t| && k < |s|
    requires forall i :: 0 <= i < |s| ==> f(s[i]) <= f(t[i])
    requires f(s[k]) < f(t[k])
    ensures SumBy(s, f) < SumBy(t, f)
  {
    var n := |s| - 1;
    if k == n {
      SumByLe(s[..n], t[..n], f, f);
    } else {
      SumByLt(s[..n], t[..n], f, k);
    }
  }

  /** The sum of f over the values m holds at keys 1..n. */
  ghost function Total<V>(m: map<nat, V>, n: nat, f: V -> nat): nat {
    if n == 0 then 0 else Total(m, n - 1, f) + if n in m then f(m[n]) else 0
  }

  lemma {:induction false} TotalOutside<V>(m: map<nat, V>, n: nat, f: V -> nat, k: nat, v: V)
    requires k == 0 || k > n
    ensures Total(m[k := v], n, f) == Total(m, n, f)
  {
    if n > 0 { TotalOutside(m, n - 1, f, k, v); }
  }

  lemma {:induction false} TotalPut<V>(m: map<nat, V>, n: nat, f: V -> nat, k: nat, v: V)
    requires 1 <= k <= n && k in m
    ensures Total(m[k := v], n, f) + f(m[k]) == Total(m, n, f) + f(v)
    ensures f(m[k]) <= Total(m, n, f)
  {
    if k == n {
      TotalOutside(m, n - 1, f, k, v);
    } else {
      TotalPut(m, n - 1, f, k, v);
    }
  }

  lemma {:induction false} TotalZero<V>(m: map<nat, V>, n: nat, f: V -> nat)
    requires forall k :: 1 <= k <= n && k in m ==> f(m[k]) == 0
    ensures Total(m, n, f) == 0
  {
    if n > 0 { TotalZero(m, n - 1, f); }
  }
}
