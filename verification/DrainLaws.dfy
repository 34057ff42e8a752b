/** Where a drain puts the transfers it reroutes: off the busy rail and its edges. */
module DrainLaws {
  import opened Model
  import opened PathSearch
  import opened TransferSpec
  import opened TransferInvariant
  import opened TransferRuns
  import opened EngineSpec
  import opened EngineScores
  import opened DualRail
  import opened KvRails
  import opened SystemSpec
  import opened SystemInvariant
  import opened SystemRuns
  import opened PathEngine

  /** An entry finds its transfer as it was before the drain. */
  lemma EntryFinds(f: Fabric, s: Sys, picks: seq<PathCost>, i: nat)
    requires SysOk(f, s) && PicksOk(f, s, picks) && i < |s.pending|
    ensures s.pending[i].id in s.exec.transfers && s.pending[i].id in DrainN(s, picks, i).exec.transfers
    ensures DrainN(s, picks, i).exec.transfers[s.pending[i].id] == s.exec.transfers[s.pending[i].id]
  {
    DrainNKeeps(f, s, picks, i);
    assert Ids(s.pending)[i] in Ids(s.pending);
    var d := DrainN(s, picks, i);
    hide ExecOk, TransfersOk, CountsOk, StillFor, DrainN, DrainedTransfers, FlowsFor, PickOk;
    DrainedKeys(s.exec.transfers, d.exec.transfers, s.pending, picks, s.exec.rails, i);
    DrainStepTransfers(s.exec.transfers, d.exec.transfers, s.pending, picks, s.exec.rails, i);
  }

  /** A drain gives every paused transfer the best candidate for what it has left. */
  lemma DrainRoutes(f: Fabric, cost: Scorer, utils: seq<real>, s: Sys, picks: seq<PathCost>, i: nat)
    requires SysOk(f, s) && PicksOk(f, s, picks) && DrainChoices(f, cost, utils, s, picks) && i < |s.pending|
    requires s.pending[i].id in s.exec.transfers && s.exec.transfers[s.pending[i].id].state == TransferState.Paused
    ensures var id := s.pending[i].id;
      var t := s.exec.transfers[id];
      && RerouteChoice(f, cost, utils, s.pending[i].avoid, t, picks[i])
      && id in SysDrain(s, picks).exec.transfers
      && SysDrain(s, picks).exec.transfers[id] == RerouteTransfer(t, picks[i], s.exec.rails)
  {
    var id, n := s.pending[i].id, |s.pending|;
    EntryFinds(f, s, picks, i);
    DrainNKeeps(f, s, picks, n);
    assert TransferOk(id, s.exec.transfers[id]);
    assert EntryChoice(f, cost, utils, DrainN(s, picks, i).exec, s.pending[i], picks[i]);
    assert DrainedTransfers(s.exec.transfers, DrainN(s, picks, n).exec.transfers, s.pending, picks, s.exec.rails, n);
    hide SysOk, PicksOk, DrainN, RerouteTransfer, RerouteChoice, ChoicesSoFar;
  }

  /** Candidate k leaves the busy rail and costs less than 5/3 of any candidate, before the biases. */
  ghost predicate WayOut(f: Fabric, cost: Scorer, hot: seq<real>, avoid: seq<nat>, remain: nat, cands: seq<seq<nat>>,
                         k: nat)
  {
    && k < |cands| && Leaves(f.edges, avoid, cands[k]) && Unbiased(cost, hot, remain)(cands[k]) < DBL_MAX
    && forall j :: 0 <= j < |cands| ==>
      var u := Unbiased(cost, hot, remain)(cands[j]);
      u > 0.0 && 3.0 * Unbiased(cost, hot, remain)(cands[k]) < 5.0 * u
  }

  ghost predicate HasWayOut(f: Fabric, cost: Scorer, hot: seq<real>, avoid: seq<nat>, t: Transfer) {
    forall cands :: CandidatesOf(f, t.request, cands) ==>
      exists k: nat :: WayOut(f, cost, hot, avoid, t.remaining, cands, k)
  }

  lemma ChoiceLeaves(f: Fabric, cost: Scorer, utils: seq<real>, avoid: seq<nat>, t: Transfer, pick: PathCost)
    requires RerouteChoice(f, cost, utils, avoid, t, pick) && PathRail(f.edges, avoid) >= 0
    requires HasWayOut(f, cost, BumpAll(utils, avoid, 0.5), avoid, t)
    ensures Leaves(f.edges, avoid, pick.edges)
  {
    var hot := BumpAll(utils, avoid, 0.5);
    hide CandidatesOf, BestOf, DrainScore, Leaves, Unbiased, BumpAll, PathRail;
    var cands :| CandidatesOf(f, t.request, cands)
      && BestOf(cands, DrainScore(cost, hot, f.edges, avoid, t.remaining), pick);
    var k: nat :| WayOut(f, cost, hot, avoid, t.remaining, cands, k);
    RerouteLeaves(cost, hot, f.edges, avoid, t.remaining, cands, k, pick);
  }

  /** All that is left of the transfer goes over paths that leave the busy rail. */
  predicate HasLeft(f: Fabric, avoid: seq<nat>, t: Transfer) {
    && t.state == InFlight && Leaves(f.edges, avoid, t.pathEdges)
    && forall i :: 0 <= i < |t.chunks| && t.chunks[i].state != Completed ==> Leaves(f.edges, avoid, t.chunks[i].edges)
  }

  lemma RerouteHasLeft(f: Fabric, avoid: seq<nat>, t: Transfer, pick: PathCost, rails: seq<int>)
    requires t.state == TransferState.Paused && FitsAll(t.state, t.chunks) && Leaves(f.edges, avoid, pick.edges)
    ensures HasLeft(f, avoid, RerouteTransfer(t, pick, rails))
  {
    hide Leaves;
    var u := RerouteTransfer(t, pick, rails);
    forall i | 0 <= i < |u.chunks| && u.chunks[i].state != Completed ensures u.chunks[i].edges == pick.edges {
      RedirectAt(t, pick, rails, i);
    }
  }

  /** After the drain a paused transfer that has a way out is off the busy rail and its edges. */
  lemma DrainLeaves(f: Fabric, cost: Scorer, utils: seq<real>, s: Sys, picks: seq<PathCost>, i: nat)
    requires SysOk(f, s) && PicksOk(f, s, picks) && DrainChoices(f, cost, utils, s, picks) && i < |s.pending|
    requires s.pending[i].id in s.exec.transfers && s.exec.transfers[s.pending[i].id].state == TransferState.Paused
    requires PathRail(f.edges, s.pending[i].avoid) >= 0
    requires HasWayOut(f, cost, BumpAll(utils, s.pending[i].avoid, 0.5), s.pending[i].avoid,
                       s.exec.transfers[s.pending[i].id])
    ensures s.pending[i].id in SysDrain(s, picks).exec.transfers
    ensures HasLeft(f, s.pending[i].avoid, SysDrain(s, picks).exec.transfers[s.pending[i].id])
  {
    var id := s.pending[i].id;
    var t := s.exec.transfers[id];
    DrainRoutes(f, cost, utils, s, picks, i);
    assert TransferOk(id, t);
    hide *;
    FlagFrom(id, t);
    ChoiceLeaves(f, cost, utils, s.pending[i].avoid, t, picks[i]);
    RerouteHasLeft(f, s.pending[i].avoid, t, picks[i], s.exec.rails);
  }

  /** The same of a whole shim call: what its tick leaves paused its drain puts elsewhere. */
  lemma CallLeaves(f: Fabric, cost: Scorer, utils: seq<real>, s: Sys, call: Call, i: nat)
    requires SysOk(f, s) && CallOk(f, s, call) && DrainChoices(f, cost, utils, Ticked(s, call), call.picks)
    requires i < |Ticked(s, call).pending|
    requires var r := Ticked(s, call);
      && r.pending[i].id in r.exec.transfers && r.exec.transfers[r.pending[i].id].state == TransferState.Paused
      && PathRail(f.edges, r.pending[i].avoid) >= 0
      && HasWayOut(f, cost, BumpAll(utils, r.pending[i].avoid, 0.5), r.pending[i].avoid,
                   r.exec.transfers[r.pending[i].id])
    ensures var r := Ticked(s, call);
      r.pending[i].id in AfterCall(s, call).exec.transfers
      && HasLeft(f, r.pending[i].avoid, AfterCall(s, call).exec.transfers[r.pending[i].id])
  {
    TickedKeeps(f, s, call);
    hide SysOk, DrainChoices, HasWayOut, HasLeft, PathRail, BumpAll, PicksOk, Ticked, SysDrain;
    DrainLeaves(f, cost, utils, Ticked(s, call), call.picks, i);
  }

  // ------------------------------------------------------- on a built cluster

  /** The busy edges are InfiniBand of one rail. */
  predicate OneRailBusy(edges: seq<GraphEdge>, avoid: seq<nat>, x: nat) {
    avoid != [] && forall i :: 0 <= i < |avoid| ==> avoid[i] < |edges| && edges[avoid[i]].attrs.rail == x
  }

  /** The other rail's path is a way out, so long as it costs less than 5/3 of any path. */
  lemma OtherRailIsWayOut(f: Fabric, cost: Scorer, hot: seq<real>, avoid: seq<nat>, t: Transfer, nodes: nat,
                          gpus: nat, x: nat)
    requires BuiltCluster(f, nodes, gpus) && t.request.source.node != t.request.dest.node && x < 2
    requires GpuOf(t.request.source, nodes, gpus) && GpuOf(t.request.dest, nodes, gpus)
    requires OneRailBusy(f.edges, avoid, x)
    requires forall p, r ::
      (Admissible(QueryOf(f, t.request), p) && Admissible(QueryOf(f, t.request), r) && PathRail(f.edges, r) == 1 - x)
      ==>
      && 0.0 < Unbiased(cost, hot, t.remaining)(p) && Unbiased(cost, hot, t.remaining)(r) < DBL_MAX
      && 3.0 * Unbiased(cost, hot, t.remaining)(r) < 5.0 * Unbiased(cost, hot, t.remaining)(p)
    ensures PathRail(f.edges, avoid) == x && HasWayOut(f, cost, hot, avoid, t)
  {
    forall cands | CandidatesOf(f, t.request, cands)
      ensures exists k: nat :: WayOut(f, cost, hot, avoid, t.remaining, cands, k)
    {
      var r := RailIsCandidate(f, t.request, cands, nodes, gpus, 1 - x);
      var k: nat :| k < |cands| && cands[k] == r;
      RailClear(f, t.request, avoid, x, r);
      forall j | 0 <= j < |cands| ensures Admissible(QueryOf(f, t.request), cands[j]) {
        CandidateAdmissible(f, t.request, cands, cands[j]);
      }
      hide CandidatesOf, Admissible, Unbiased, BuiltCluster, Leaves, QueryOf;
      assert WayOut(f, cost, hot, avoid, t.remaining, cands, k);
    }
  }

  lemma RailClear(f: Fabric, req: TransferRequest, avoid: seq<nat>, x: nat, r: seq<nat>)
    requires IsFabric(f.vertices, f.edges) && TwoNodes(req.source, req.dest) && x < 2
    requires OneRailBusy(f.edges, avoid, x) && OverRail(f, req, 1 - x, r) && PathRail(f.edges, r) == 1 - x
    ensures Leaves(f.edges, avoid, r)
  {
    FabricSound(f.vertices, f.edges);
    hide IsFabric;
    RailPathCosts(f.vertices, f.edges, req.source, req.dest, 1 - x, r);
    hide Sound;
    RailsDiffer(f.edges, r, avoid, x);
  }

  lemma RailsDiffer(edges: seq<GraphEdge>, r: seq<nat>, avoid: seq<nat>, x: nat)
    requires OneRailBusy(edges, avoid, x) && x < 2 && PathRail(edges, r) == 1 - x
    requires forall i :: 0 <= i < |r| ==> r[i] < |edges| && edges[r[i]].attrs.rail == 1 - x
    ensures Leaves(edges, avoid, r)
  {
    assert forall e :: e in r ==> e < |edges| && edges[e].attrs.rail == 1 - x;
    assert forall e :: e in avoid ==> e < |edges| && edges[e].attrs.rail == x;
  }
}
