/** How many bytes a tick offers a path, and the floor under it that completion rests on. */
module Bandwidth {
  import opened Model
  import opened TransferSpec
  import opened SystemRuns

  /** pow(1 - u, alpha): the share of its peak an edge has left. */
  type Residual = (real, real) -> real

  function Clamped(u: real): real { if u < 0.0 then 0.0 else if u > 0.99 then 0.99 else u }

  /** What is left of an edge's bandwidth, in GB/s. */
  function Left(edge: GraphEdge, u: real, residual: Residual): real {
    edge.attrs.bandwidth * residual(1.0 - Clamped(u), edge.attrs.alpha)
  }

  function UtilAt(utils: seq<real>, e: nat): real { if e < |utils| then utils[e] else 0.0 }

  /** bottleneck_gbps: the narrowest edge of the path, never below 0.1; 1 on an empty path. */
  function Bottleneck(edges: seq<GraphEdge>, path: seq<nat>, utils: seq<real>, residual: Residual): real {
    if path == [] then 1.0
    else if Narrowest(edges, path, utils, residual) < 0.1 then 0.1 else Narrowest(edges, path, utils, residual)
  }

  function Narrowest(edges: seq<GraphEdge>, path: seq<nat>, utils: seq<real>, residual: Residual): real {
    if path == [] then 1000000000.0
    else
      var e, rest := path[|path| - 1], Narrowest(edges, path[..|path| - 1], utils, residual);
      if e < |edges| && Left(edges[e], UtilAt(utils, e), residual) < rest
      then Left(edges[e], UtilAt(utils, e), residual)
      else rest
  }

  method BottleneckGbps(edges: seq<GraphEdge>, path: seq<nat>, utils: seq<real>, residual: Residual)
    returns (gbps: real)
    ensures gbps == Bottleneck(edges, path, utils, residual) && gbps >= 0.1
    ensures forall i :: 0 <= i < |path| && path[i] < |edges| ==>
      gbps == 0.1 || gbps <= Left(edges[path[i]], UtilAt(utils, path[i]), residual)
  {
    if path == [] { return 1.0; }
    gbps := 1000000000.0;
    for k := 0 to |path|
      invariant gbps == Narrowest(edges, path[..k], utils, residual)
      invariant forall i :: 0 <= i < k && path[i] < |edges| ==>
        gbps <= Left(edges[path[i]], UtilAt(utils, path[i]), residual)
    {
      assert path[..k + 1][..k] == path[..k];
      if path[k] < |edges| {
        var left := Left(edges[path[k]], UtilAt(utils, path[k]), residual);
        if left < gbps { gbps := left; }
      }
    }
    assert path[..|path|] == path;
    if gbps < 0.1 { gbps := 0.1; }
  }

  /** bytes_for_dt: a positive number of bytes is cut off to a whole one. */
  function BytesForDt(gbps: real, dt: real): nat {
    var bytes := gbps * 1000000000.0 * (dt / 1000.0);
    if bytes < 0.0 then 0 else bytes.Floor
  }

  /** The offer of a tick of dt milliseconds. */
  function OfferOf(edges: seq<GraphEdge>, residual: Residual): (real, seq<real>) -> Offer {
    (dt: real, utils: seq<real>) => (path: seq<nat>) => BytesForDt(Bottleneck(edges, path, utils, residual), dt)
  }

  lemma ByteRate(gbps: real, dt: real, q: nat)
    requires gbps >= 0.1 && dt >= 0.0 && dt * 100000.0 >= q as real
    ensures BytesForDt(gbps, dt) >= q
  {
    var bytes := gbps * 1000000000.0 * (dt / 1000.0);
    assert bytes == gbps * (dt * 1000000.0);
    var extra := gbps - 0.1;
    assert extra * (dt * 1000000.0) >= 0.0;
    assert bytes == dt * 100000.0 + extra * (dt * 1000000.0);
  }

  /** A tick offers every path of every graph, however congested, at least q bytes if and only if it
      is long enough for q bytes at the floor of 0.1 GB/s. */
  lemma OfferFloorIff(residual: Residual, dt: real, q: nat)
    requires q > 0
    ensures (forall edges: seq<GraphEdge>, utils: seq<real>, path: seq<nat> ::
               OfferOf(edges, residual)(dt, utils)(path) >= q)
      <==> dt * 100000.0 >= q as real
  {
    if dt * 100000.0 >= q as real {
      forall edges: seq<GraphEdge>, utils: seq<real>, path: seq<nat>
        ensures OfferOf(edges, residual)(dt, utils)(path) >= q
      {
        ByteRate(Bottleneck(edges, path, utils, residual), dt, q);
      }
    } else {
      var dead := [GraphEdge(0, 1, EdgeAttributes(NVLink, 0.0, 0.0, 0.0, -1))];
      DeadLink(dead[0], residual);
      assert 0.1 * 1000000000.0 * (dt / 1000.0) == dt * 100000.0;
      assert OfferOf(dead, residual)(dt, [])([0]) < q;
    }
  }

  /** A path over a link without bandwidth is at the floor. */
  lemma DeadLink(edge: GraphEdge, residual: Residual)
    requires edge.attrs.bandwidth == 0.0
    ensures Bottleneck([edge], [0], [], residual) == 0.1
  {
    assert Left(edge, 0.0, residual) == 0.0;
    assert [0][..0] == [];
  }

  /** The shim's own ticks are long enough: 0.05 ms of a submission offers 5000 bytes, and so does
      any poll at least as long. */
  lemma ShimOffers(edges: seq<GraphEdge>, residual: Residual, dt: real, utils: seq<real>, call: Call)
    requires dt >= 0.05 && call.tick.offer == OfferOf(edges, residual)(dt, utils)
    ensures Offers(call, 5000)
  {
    forall path: seq<nat> ensures call.tick.offer(path) >= 5000 {
      ByteRate(Bottleneck(edges, path, utils, residual), dt, 5000);
    }
  }
}
