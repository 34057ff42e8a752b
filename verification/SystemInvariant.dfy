/** Every step of the composed system keeps it in order, and after each drain it is quiet. */
module SystemInvariant {
  import opened Model
  import opened Sums
  import opened TransferSpec
  import opened TransferInvariant
  import opened TransferDelivery
  import opened TransferRuns
  import opened EngineSpec
  import opened ComposedTransfer
  import opened SystemSpec

  // ----------------------------------------------------------------- books

  /** How one transfer's step moves the two counts. */
  lemma CountsPut(e: ExecState, e': ExecState, id: TransferId, u: Transfer)
    requires e.nextId >= 1 && id in e.transfers && 1 <= id < e.nextId
    requires e'.transfers == e.transfers[id := u] && e'.nextId == e.nextId
    ensures PausedCount(e') + PausedOne(e.transfers[id]) == PausedCount(e) + PausedOne(u)
    ensures SuspendingCount(e') + SuspendingOne(e.transfers[id]) == SuspendingCount(e) + SuspendingOne(u)
  {
    TotalPut(e.transfers, e.nextId - 1, PausedOne, id, u);
    TotalPut(e.transfers, e.nextId - 1, SuspendingOne, id, u);
  }

  lemma CountsAdd(e: ExecState, t: Transfer, ended: nat)
    requires CountsOk(e, ended) && t.state == InFlight
    ensures CountsOk(AddTransfer(e, t), ended)
  {
    TotalOutside(e.transfers, e.nextId - 1, PausedOne, e.nextId, t);
    TotalOutside(e.transfers, e.nextId - 1, SuspendingOne, e.nextId, t);
  }

  ghost predicate IdsOk(e: ExecState) { e.nextId >= 1 && forall id :: id in e.transfers <==> 1 <= id < e.nextId }

  lemma {:induction false} SuspendCounts(e: ExecState, picked: seq<TransferId>, ended: nat)
    requires IdsOk(e) && CountsOk(e, ended) && Distinct(picked)
    requires forall i :: 0 <= i < |picked| ==> picked[i] in e.transfers && e.transfers[picked[i]].state == InFlight
    ensures CountsOk(SuspendAll(e, picked), ended)
  {
    hide PausedCount, SuspendingCount;
    if picked != [] {
      var n := |picked| - 1;
      var r := SuspendAll(e, picked[..n]);
      DistinctLast(picked);
      SuspendCounts(e, picked[..n], ended);
      SuspendAllAt(e, picked[..n]);
      CountsPut(r, SuspendOne(r, picked[n]), picked[n], SuspendTransfer(r.transfers[picked[n]]));
    }
  }

  lemma TickOneCounts(e: ExecState, id: TransferId, offer: Offer, elapsed: real, ended: nat)
    requires ExecOk(e) && CountsOk(e, ended)
    ensures CountsOk(TickOne(e, id, offer, elapsed),
                     ended + if Finishes(e, id, offer, elapsed) && e.transfers[id].state == SuspendPending then 1
                             else 0)
  {
    hide PausedCount, SuspendingCount;
    if id in e.transfers && Active(e.transfers[id]) {
      var t := e.transfers[id];
      assert TransferOk(id, t);
      hide ExecOk, TransferOk;
      TickStates(id, t, offer, elapsed);
      hide TickTransfer;
      CountsPut(e, TickOne(e, id, offer, elapsed), id, TickTransfer(t, offer, elapsed));
    }
  }

  lemma {:induction false} TickCounts(e: ExecState, order: seq<TransferId>, offer: Offer, elapsed: Clock, ended: nat)
    requires ExecOk(e) && CountsOk(e, ended)
    ensures CountsOk(Tick(e, order, offer, elapsed), ended + Ended(e, order, offer, elapsed))
  {
    hide ExecOk, CountsOk, Finishes, TickOne;
    if order != [] {
      var n := |order| - 1;
      TickKeepsOk(e, order[..n], offer, elapsed);
      TickCounts(e, order[..n], offer, elapsed, ended);
      TickOneCounts(Tick(e, order[..n], offer, elapsed), order[n], offer, elapsed(order[n]),
                    ended + Ended(e, order[..n], offer, elapsed));
    }
  }

  lemma RerouteCounts(e: ExecState, id: TransferId, path: PathCost, ended: nat)
    requires IdsOk(e) && CountsOk(e, ended) && id in e.transfers && e.transfers[id].state == TransferState.Paused
    ensures CountsOk(Reroute(e, id, path), ended)
  {
    hide PausedCount, SuspendingCount;
    CountsPut(e, Reroute(e, id, path), id, RerouteTransfer(e.transfers[id], path, e.rails));
  }

  // --------------------------------------------------------------- preempt

  /** path_edges covers every unfinished chunk, so the per-chunk check finds nothing new. */
  lemma CandidateShares(id: TransferId, t: Transfer, busy: seq<nat>)
    requires TransferOk(id, t)
    ensures PreemptCandidate(t, busy) <==> t.preemptible && t.state == InFlight && Shares(t.pathEdges, busy)
  {
    if exists c :: c in t.chunks && c.state == InFlight && Shares(c.edges, busy) {
      var c :| c in t.chunks && c.state == InFlight && Shares(c.edges, busy);
      var i :| 0 <= i < |t.chunks| && t.chunks[i] == c;
      var e :| e in c.edges && e in busy;
      assert Unfinished(t.chunks[i]) && e in t.pathEdges;
    }
  }

  lemma PreemptOne(f: Fabric, id: TransferId, t: Transfer, busy: seq<nat>)
    requires TransferOk(id, t) && ComposedOk(t) && PreemptCandidate(t, busy)
    ensures ComposedOk(SuspendTransfer(t))
  {
    hide TransferOk, ComposedOk;
    CandidateShares(id, t, busy);
    var e :| e in t.pathEdges && e in busy;
    SuspendComposed(t);
  }

  lemma PreemptTransfers(f: Fabric, s: Sys, busy: seq<nat>, max: nat, picked: seq<TransferId>)
    requires ExecOk(s.exec) && TransfersOk(f, s.exec.transfers) && PreemptChoice(s.exec, busy, max, picked)
    ensures TransfersOk(f, SuspendAll(s.exec, picked).transfers)
  {
    hide PreemptChoice, PreemptCandidate, SuspendAll;
    ChoiceFacts(s.exec, busy, max, picked);
    SuspendAllAt(s.exec, picked);
    var r := SuspendAll(s.exec, picked);
    forall id | id in s.exec.transfers
      ensures ComposedOk(r.transfers[id]) && (r.transfers[id].pathEdges != [] ==> Routable(f, r.transfers[id].request))
    {
      assert ComposedOk(s.exec.transfers[id]) && TransferOk(id, s.exec.transfers[id]);
      hide ExecOk, TransferOk, ComposedOk, Routable;
      if id in picked { PreemptOne(f, id, s.exec.transfers[id], busy); }
    }
  }

  lemma PendingSuspends(ts: map<TransferId, Transfer>, us: map<TransferId, Transfer>, ids: seq<TransferId>,
                        picked: seq<TransferId>)
    requires PendingFor(ts, ids) && Distinct(picked) && us.Keys == ts.Keys
    requires forall id :: id in picked ==> id in ts && ts[id].state == InFlight
    requires forall id :: id in ts && id in picked ==> us[id].state == SuspendPending
    requires forall id :: id in ts && id !in picked ==> us[id] == ts[id]
    ensures PendingFor(us, ids + picked)
  {
    DistinctConcat(ids, picked);
    hide Distinct;
  }

  /** The registry follows when no transfer completes, appears or changes class. */
  lemma FlowsSame(ts: map<TransferId, Transfer>, us: map<TransferId, Transfer>, ids: seq<TransferId>)
    requires FlowsFor(ts, ids) && us.Keys == ts.Keys
    requires forall id :: id in ts ==>
      us[id].preemptible == ts[id].preemptible && (us[id].state == Completed <==> ts[id].state == Completed)
    ensures FlowsFor(us, ids)
  {
    hide Distinct;
  }

  /** The chosen transfers, as the rest of the books need them. */
  lemma ChoiceFacts(e: ExecState, busy: seq<nat>, max: nat, picked: seq<TransferId>)
    requires PreemptChoice(e, busy, max, picked)
    ensures Distinct(picked)
    ensures forall i :: 0 <= i < |picked| ==> picked[i] in e.transfers && e.transfers[picked[i]].state == InFlight
    ensures forall id :: id in picked ==>
      id in e.transfers && e.transfers[id].state == InFlight && PreemptCandidate(e.transfers[id], busy)
  {
  }

  lemma PreemptKeeps(f: Fabric, s: Sys, busy: seq<nat>, max: nat, picked: seq<TransferId>)
    requires SysOk(f, s) && PreemptChoice(s.exec, busy, max, picked)
    ensures SysOk(f, SysPreempt(s, busy, picked))
  {
    hide ExecOk, TransfersOk, CountsOk, PendingFor, FlowsFor, PreemptChoice, SuspendAll;
    var r := SysPreempt(s, busy, picked);
    ChoiceFacts(s.exec, busy, max, picked);
    ExecIds(s.exec);
    PreemptTransfers(f, s, busy, max, picked);
    SuspendAllKeepsOk(s.exec, picked);
    SuspendAllAt(s.exec, picked);
    SuspendCounts(s.exec, picked, s.ended);
    assert Ids(r.pending) == Ids(s.pending) + picked;
    PendingSuspends(s.exec.transfers, r.exec.transfers, Ids(s.pending), picked);
    FlowsSame(s.exec.transfers, r.exec.transfers, FlowIds(s.flows));
  }

  lemma ExecIds(e: ExecState)
    requires ExecOk(e)
    ensures IdsOk(e) && e.nextId !in e.transfers
    ensures forall id :: id in e.transfers ==> FlagOk(e.transfers[id])
    ensures forall id :: id in e.transfers ==>
      (e.transfers[id].preemptible <==> e.transfers[id].request.cls == KVMigration)
  {
    forall id | id in e.transfers
      ensures FlagOk(e.transfers[id])
      ensures e.transfers[id].preemptible <==> e.transfers[id].request.cls == KVMigration
    {
      assert TransferOk(id, e.transfers[id]);
    }
  }

  // ---------------------------------------------------------------- submit

  lemma PlanTransfer(f: Fabric, s: Sys, req: TransferRequest, plan: Plan, bufs: Buffers)
    requires ExecOk(s.exec) && PlanOk(f, req, plan)
    ensures var r := PlanState(s.exec, req, plan, bufs);
      && s.exec.nextId in r.transfers && r == AddTransfer(s.exec, r.transfers[s.exec.nextId])
      && ComposedOk(r.transfers[s.exec.nextId])
      && (r.transfers[s.exec.nextId].pathEdges != [] ==> Routable(f, req))
      && r.transfers[s.exec.nextId].state == InFlight && r.transfers[s.exec.nextId].request == req
      && r.transfers[s.exec.nextId].preemptible == (req.cls == KVMigration)
    ensures ExecOk(PlanState(s.exec, req, plan, bufs))
  {
    match plan
    case Single(path) =>
      SubmitKeepsOk(s.exec, req, path, bufs);
      SubmittedComposed(s.exec.nextId, req, path, s.exec.rails, bufs);
    case Striped(paths) =>
      SubmitStripedKeepsOk(s.exec, req, paths, bufs);
      if paths == [] {
        SubmittedComposed(s.exec.nextId, req, PathCost([], 0.0), s.exec.rails, bufs);
      } else {
        StripedComposed(s.exec.nextId, req, paths, s.exec.rails, bufs, KV_CHUNK_BYTES);
        StripedRoutes(f, req, paths);
      }
  }

  lemma StripedRoutes(f: Fabric, req: TransferRequest, paths: seq<ChunkPath>)
    requires PlanOk(f, req, Striped(paths))
    ensures UnionEdges([], paths) != [] ==> Routable(f, req)
  {
    if UnionEdges([], paths) != [] {
      var e := UnionEdges([], paths)[0];
      UnionEdgesHas([], paths, e);
      var i :| 0 <= i < |paths| && e in paths[i].edges;
      assert paths[i].edges != [];
    }
  }

  lemma SubmitKeeps(f: Fabric, s: Sys, req: TransferRequest, plan: Plan, bufs: Buffers, flow: Flow)
    requires SysOk(f, s) && PlanOk(f, req, plan)
    ensures SysOk(f, SysSubmit(s, req, plan, bufs, flow))
  {
    hide ExecOk, PlanOk, PlanState, CountsOk, TransfersOk, PendingFor, FlowsFor, ComposedOk, Routable;
    PlanTransfer(f, s, req, plan, bufs);
    var r := SysSubmit(s, req, plan, bufs, flow);
    var t := r.exec.transfers[s.exec.nextId];
    ExecIds(s.exec);
    CountsAdd(s.exec, t, s.ended);
    SubmitBooks(f, s.exec, t, Ids(s.pending), FlowIds(s.flows));
    assert t.preemptible ==> FlowIds(r.flows) == FlowIds(s.flows) + [s.exec.nextId];
  }

  /** A new transfer joins the books. */
  lemma SubmitBooks(f: Fabric, e: ExecState, t: Transfer, pending: seq<TransferId>, flows: seq<TransferId>)
    requires TransfersOk(f, e.transfers) && PendingFor(e.transfers, pending) && FlowsFor(e.transfers, flows)
    requires e.nextId !in e.transfers && t.state == InFlight
    requires ComposedOk(t) && (t.pathEdges != [] ==> Routable(f, t.request))
    ensures var us := AddTransfer(e, t).transfers;
      TransfersOk(f, us) && PendingFor(us, pending)
      && FlowsFor(us, if t.preemptible then flows + [e.nextId] else flows)
  {
    hide ComposedOk, Routable;
    if t.preemptible { DistinctSnoc(flows, e.nextId); }
    hide Distinct;
  }

  // ------------------------------------------------------------------ tick

  lemma TickOneComposed(id: TransferId, t: Transfer, offer: Offer, elapsed: real)
    requires TransferOk(id, t) && ComposedOk(t) && Active(t)
    ensures var u := TickTransfer(t, offer, elapsed);
      ComposedOk(u) && u.pathEdges == t.pathEdges && u.request == t.request
  {
    TickComposed(id, t, offer, elapsed);
    TickStates(id, t, offer, elapsed);
    hide *;
  }

  lemma TickTransfers(f: Fabric, e: ExecState, order: seq<TransferId>, offer: Offer, elapsed: Clock)
    requires ExecOk(e) && TransfersOk(f, e.transfers) && IsOrder(order, e.transfers)
    ensures TransfersOk(f, Tick(e, order, offer, elapsed).transfers)
  {
    TickAt(e, order, offer, elapsed);
    var us := Tick(e, order, offer, elapsed).transfers;
    forall id | id in e.transfers
      ensures ComposedOk(us[id]) && us[id].pathEdges == e.transfers[id].pathEdges
              && us[id].request == e.transfers[id].request
    {
      assert ComposedOk(e.transfers[id]) && TransferOk(id, e.transfers[id]);
      hide ExecOk, TransferOk, ComposedOk, TickTransfer;
      if Active(e.transfers[id]) { TickOneComposed(id, e.transfers[id], offer, elapsed(id)); }
    }
  }

  /** What a tick may do to one transfer, as far as the engine's books care. */
  predicate TickStep(t: Transfer, u: Transfer, done: bool) {
    && u.preemptible == t.preemptible && u.request == t.request
    && (t.state == InFlight ==> u.state in {InFlight, Completed})
    && (t.state == SuspendPending ==> u.state in {SuspendPending, TransferState.Paused, Completed})
    && (!Active(t) ==> u == t)
    && (done <==> Active(t) && u.state == Completed)
  }

  lemma TickSteps(e: ExecState, order: seq<TransferId>, offer: Offer, elapsed: Clock)
    requires ExecOk(e) && IsOrder(order, e.transfers)
    ensures Tick(e, order, offer, elapsed).transfers.Keys == e.transfers.Keys
    ensures forall id :: id in e.transfers ==>
      TickStep(e.transfers[id], Tick(e, order, offer, elapsed).transfers[id], id in TickDone(e, order, offer, elapsed))
  {
    TickAt(e, order, offer, elapsed);
    TickDoneAt(e, order, offer, elapsed);
    ExecIds(e);
    hide ExecOk;
    forall id | id in e.transfers
      ensures TickStep(e.transfers[id], Tick(e, order, offer, elapsed).transfers[id],
                       id in TickDone(e, order, offer, elapsed))
    {
      if Active(e.transfers[id]) { TickStates(id, e.transfers[id], offer, elapsed(id)); }
      hide TickTransfer, FlagOk;
    }
  }

  lemma PendingTicks(ts: map<TransferId, Transfer>, us: map<TransferId, Transfer>, ids: seq<TransferId>,
                     done: seq<TransferId>)
    requires PendingFor(ts, ids) && us.Keys == ts.Keys
    requires forall id :: id in ts ==> TickStep(ts[id], us[id], id in done)
    ensures PendingFor(us, ids)
  {
    hide Distinct;
  }

  lemma {:induction false} UnregisterIs(flows: seq<Flow>, id: TransferId)
    requires Distinct(FlowIds(flows))
    ensures Distinct(FlowIds(Unregister(flows, id)))
    ensures forall jd :: jd in FlowIds(Unregister(flows, id)) <==> jd in FlowIds(flows) && jd != id
  {
    if flows != [] {
      var n := |flows| - 1;
      assert FlowIds(flows[..n]) == FlowIds(flows)[..n];
      DistinctLast(FlowIds(flows));
      UnregisterIs(flows[..n], id);
      if flows[n].id != id {
        assert FlowIds(Unregister(flows, id)) == FlowIds(Unregister(flows[..n], id)) + [flows[n].id];
        DistinctSnoc(FlowIds(Unregister(flows[..n], id)), flows[n].id);
      } else {
        assert Unregister(flows, id) == Unregister(flows[..n], id);
      }
    }
  }

  lemma {:induction false} UnregisterAllIs(flows: seq<Flow>, ts: map<TransferId, Transfer>, done: seq<TransferId>)
    requires Distinct(FlowIds(flows))
    ensures Distinct(FlowIds(UnregisterAll(flows, ts, done)))
    ensures forall jd :: jd in FlowIds(UnregisterAll(flows, ts, done)) <==>
      jd in FlowIds(flows) && !(jd in done && jd in ts && ts[jd].request.cls == KVMigration)
  {
    if done != [] {
      var n := |done| - 1;
      UnregisterAllIs(flows, ts, done[..n]);
      UnregisterIs(UnregisterAll(flows, ts, done[..n]), done[n]);
      assert done == done[..n] + [done[n]];
      hide Distinct;
    }
  }

  lemma FlowsTick(ts: map<TransferId, Transfer>, us: map<TransferId, Transfer>, flows: seq<Flow>, done: seq<TransferId>)
    requires FlowsFor(ts, FlowIds(flows)) && us.Keys == ts.Keys
    requires forall id :: id in ts ==> (ts[id].preemptible <==> ts[id].request.cls == KVMigration)
    requires forall id :: id in ts ==> TickStep(ts[id], us[id], id in done)
    ensures FlowsFor(us, FlowIds(UnregisterAll(flows, ts, done)))
  {
    UnregisterAllIs(flows, ts, done);
    hide Distinct, UnregisterAll;
  }

  lemma TickKeeps(f: Fabric, s: Sys, order: seq<TransferId>, offer: Offer, elapsed: Clock)
    requires SysOk(f, s) && IsOrder(order, s.exec.transfers)
    ensures SysOk(f, SysTick(s, order, offer, elapsed))
  {
    hide ExecOk, TransfersOk, CountsOk, PendingFor, FlowsFor, Tick, TickDone, TickStep, IsOrder, FlagOk, IdsOk,
         Ids, FlowIds, UnregisterAll, Ended;
    var r := SysTick(s, order, offer, elapsed);
    TickFrame(s.exec, order, offer, elapsed);
    TickKeepsOk(s.exec, order, offer, elapsed);
    TickTransfers(f, s.exec, order, offer, elapsed);
    TickCounts(s.exec, order, offer, elapsed, s.ended);
    TickSteps(s.exec, order, offer, elapsed);
    ExecIds(s.exec);
    PendingTicks(s.exec.transfers, r.exec.transfers, Ids(s.pending), TickDone(s.exec, order, offer, elapsed));
    FlowsTick(s.exec.transfers, r.exec.transfers, s.flows, TickDone(s.exec, order, offer, elapsed));
  }

  // ----------------------------------------------------------------- drain

  /** After n entries: paused entries are rerouted, everything else is as it was. */
  ghost predicate DrainedTransfers(ts: map<TransferId, Transfer>, us: map<TransferId, Transfer>,
                                   pending: seq<PendingReroute>, picks: seq<PathCost>, rails: seq<int>, n: nat)
    requires n <= |pending| == |picks|
  {
    && us.Keys == ts.Keys
    && (forall i :: 0 <= i < n && pending[i].id in ts && ts[pending[i].id].state == TransferState.Paused ==>
          us[pending[i].id] == RerouteTransfer(ts[pending[i].id], picks[i], rails))
    && (forall id :: id in ts && !(ts[id].state == TransferState.Paused && id in Ids(pending)[..n]) ==>
          us[id] == ts[id])
  }

  /** The entries kept are those still draining. */
  ghost predicate StillFor(ts: map<TransferId, Transfer>, ids: seq<TransferId>, still: seq<TransferId>) {
    && Distinct(still)
    && forall id :: id in still <==> id in ids && id in ts && ts[id].state == SuspendPending
  }

  /** What one drained entry does, given what the books say of its transfer. */
  lemma DrainEntryEffect(d: Drained, pr: PendingReroute, best: PathCost)
    requires pr.id in d.exec.transfers && FlagOk(d.exec.transfers[pr.id])
    requires Suspended(d.exec.transfers[pr.id]) || d.exec.transfers[pr.id].state == Completed
    requires d.exec.transfers[pr.id].state == TransferState.Paused ==> best.edges != []
    ensures var t, r := d.exec.transfers[pr.id], DrainEntry(d, pr, best);
      if t.state == TransferState.Paused then
        r == d.(exec := Reroute(d.exec, pr.id, best), events := d.events + 1,
                flows := FlowsRerouted(d.flows, pr.id, best, t.remaining, t.request.deadline))
      else r == d.(still := if t.state == SuspendPending then d.still + [pr] else d.still)
  {
    hide Reroute;
  }

  lemma NotBefore(ids: seq<TransferId>, n: nat)
    requires Distinct(ids) && n < |ids|
    ensures ids[..n + 1] == ids[..n] + [ids[n]] && ids[n] !in ids[..n]
  {
  }

  lemma DrainStepTransfers(ts: map<TransferId, Transfer>, us: map<TransferId, Transfer>, pending: seq<PendingReroute>,
                           picks: seq<PathCost>, rails: seq<int>, n: nat)
    requires n < |pending| == |picks| && Distinct(Ids(pending)) && pending[n].id in ts
    requires DrainedTransfers(ts, us, pending, picks, rails, n)
    ensures us[pending[n].id] == ts[pending[n].id]
    ensures var id := pending[n].id;
      DrainedTransfers(ts, if ts[id].state == TransferState.Paused
                           then us[id := RerouteTransfer(ts[id], picks[n], rails)] else us,
                       pending, picks, rails, n + 1)
  {
    hide RerouteTransfer, Distinct;
    var ids, id := Ids(pending), pending[n].id;
    NotBefore(ids, n);
    assert forall i :: 0 <= i < n ==> pending[i].id == ids[..n][i];
  }

  lemma DrainStepStill(ts: map<TransferId, Transfer>, ids: seq<TransferId>, n: nat, still: seq<TransferId>)
    requires n < |ids| && Distinct(ids) && ids[n] in ts && StillFor(ts, ids[..n], still)
    ensures StillFor(ts, ids[..n + 1], if ts[ids[n]].state == SuspendPending then still + [ids[n]] else still)
  {
    NotBefore(ids, n);
    if ts[ids[n]].state == SuspendPending { DistinctSnoc(still, ids[n]); }
    hide Distinct;
  }

  /** The drain's progress after n entries. */
  ghost predicate DrainInv(f: Fabric, s: Sys, picks: seq<PathCost>, n: nat, d: Drained)
    requires n <= |s.pending| == |picks|
  {
    && ExecOk(d.exec)
    && TransfersOk(f, d.exec.transfers)
    && CountsOk(d.exec, s.ended)
    && DrainedTransfers(s.exec.transfers, d.exec.transfers, s.pending, picks, s.exec.rails, n)
    && StillFor(s.exec.transfers, Ids(s.pending)[..n], Ids(d.still))
    && FlowIds(d.flows) == FlowIds(s.flows)
    && d.exec == s.exec.(transfers := d.exec.transfers, reroutes := d.exec.reroutes)
    && d.exec.reroutes == s.exec.reroutes + d.events
  }

  lemma DrainStart(f: Fabric, s: Sys, picks: seq<PathCost>)
    requires SysOk(f, s) && |s.pending| == |picks|
    ensures DrainInv(f, s, picks, 0, Drained(s.exec, [], s.flows, 0))
  {
    hide ExecOk, TransfersOk, CountsOk, PendingFor, FlowsFor;
    assert Distinct(Ids([]));
  }

  lemma RerouteTransfersOk(f: Fabric, e: ExecState, id: TransferId, path: PathCost)
    requires ExecOk(e) && TransfersOk(f, e.transfers) && id in e.transfers
    requires e.transfers[id].state == TransferState.Paused
    ensures TransfersOk(f, Reroute(e, id, path).transfers)
  {
    var t := e.transfers[id];
    assert TransferOk(id, t) && ComposedOk(t);
    RerouteComposed(id, t, path, e.rails);
    assert t.pathEdges != [];
    hide ComposedOk, TransferOk, ExecOk, Routable;
  }

  /** A pick for a paused flow has edges: the flow shared an edge when it was suspended, so its
      request can be routed. */
  lemma PausedPick(f: Fabric, s: Sys, picks: seq<PathCost>, n: nat)
    requires SysOk(f, s) && PicksOk(f, s, picks) && n < |s.pending|
    ensures |picks| == |s.pending| && Distinct(Ids(s.pending)) && s.pending[n].id in s.exec.transfers
    ensures var t := s.exec.transfers[s.pending[n].id];
      && FlagOk(t) && (Suspended(t) || t.state == Completed)
      && (t.state == TransferState.Paused ==> picks[n].edges != [])
  {
    var id := s.pending[n].id;
    assert Ids(s.pending)[n] in Ids(s.pending);
    ExecIds(s.exec);
    assert ComposedOk(s.exec.transfers[id]);
    hide ExecOk, CountsOk, FlowsFor, Routable;
    assert PickOk(f, s, n, picks[n]);
  }

  lemma DrainStep(f: Fabric, s: Sys, picks: seq<PathCost>, n: nat, d: Drained)
    requires SysOk(f, s) && PicksOk(f, s, picks) && n < |s.pending| && DrainInv(f, s, picks, n, d)
    ensures DrainInv(f, s, picks, n + 1, DrainEntry(d, s.pending[n], picks[n]))
  {
    hide ExecOk, TransfersOk, CountsOk, DrainedTransfers, StillFor, SysOk, PicksOk, Distinct, FlagOk, DrainEntry,
         RerouteTransfer;
    var ts, id := s.exec.transfers, s.pending[n].id;
    PausedPick(f, s, picks, n);
    DrainStepTransfers(ts, d.exec.transfers, s.pending, picks, s.exec.rails, n);
    DrainStepStill(ts, Ids(s.pending), n, Ids(d.still));
    DrainedKeys(ts, d.exec.transfers, s.pending, picks, s.exec.rails, n);
    DrainEntryEffect(d, s.pending[n], picks[n]);
    if ts[id].state == TransferState.Paused {
      ExecIds(d.exec);
      RerouteKeepsOk(d.exec, id, picks[n]);
      RerouteTransfersOk(f, d.exec, id, picks[n]);
      RerouteCounts(d.exec, id, picks[n], s.ended);
    } else {
      assert Ids(d.still + [s.pending[n]]) == Ids(d.still) + [id];
    }
  }

  lemma DrainedKeys(ts: map<TransferId, Transfer>, us: map<TransferId, Transfer>, pending: seq<PendingReroute>,
                    picks: seq<PathCost>, rails: seq<int>, n: nat)
    requires n <= |pending| == |picks| && DrainedTransfers(ts, us, pending, picks, rails, n)
    ensures us.Keys == ts.Keys
  {
  }

  lemma {:induction false} DrainNKeeps(f: Fabric, s: Sys, picks: seq<PathCost>, n: nat)
    requires SysOk(f, s) && PicksOk(f, s, picks) && n <= |s.pending|
    ensures DrainInv(f, s, picks, n, DrainN(s, picks, n))
  {
    hide SysOk, DrainInv, DrainEntry;
    if n == 0 {
      DrainStart(f, s, picks);
    } else {
      DrainNKeeps(f, s, picks, n - 1);
      DrainStep(f, s, picks, n - 1, DrainN(s, picks, n - 1));
    }
  }

  /** After a whole drain the books of the pending reroutes balance exactly. */
  lemma DrainedQuiet(ts: map<TransferId, Transfer>, us: map<TransferId, Transfer>, pending: seq<PendingReroute>,
                     picks: seq<PathCost>, rails: seq<int>, still: seq<TransferId>)
    requires |pending| == |picks| && PendingFor(ts, Ids(pending))
    requires DrainedTransfers(ts, us, pending, picks, rails, |pending|) && us.Keys == ts.Keys
    requires StillFor(ts, Ids(pending), still)
    ensures QuietFor(us, still) && PendingFor(us, still)
    ensures forall id :: id in ts ==> us[id].preemptible == ts[id].preemptible
    ensures forall id :: id in ts ==> (us[id].state == Completed <==> ts[id].state == Completed)
  {
    forall id | id in ts
      ensures (if ts[id].state == TransferState.Paused
               then us[id].state == InFlight && us[id].preemptible == ts[id].preemptible
               else us[id] == ts[id])
    {
      DrainedAt(ts, us, pending, picks, rails, id);
    }
    hide Distinct, DrainedTransfers;
  }

  /** A whole drain, as one transfer sees it. */
  lemma DrainedAt(ts: map<TransferId, Transfer>, us: map<TransferId, Transfer>, pending: seq<PendingReroute>,
                  picks: seq<PathCost>, rails: seq<int>, id: TransferId)
    requires |pending| == |picks| && PendingFor(ts, Ids(pending)) && id in ts
    requires DrainedTransfers(ts, us, pending, picks, rails, |pending|)
    ensures us.Keys == ts.Keys
    ensures (if ts[id].state == TransferState.Paused
             then us[id].state == InFlight && us[id].preemptible == ts[id].preemptible
             else us[id] == ts[id])
  {
    assert Ids(pending)[..|pending|] == Ids(pending);
    if ts[id].state == TransferState.Paused {
      var i :| 0 <= i < |pending| && Ids(pending)[i] == id;
      assert us[pending[i].id] == RerouteTransfer(ts[pending[i].id], picks[i], rails);
    }
  }

  /** No lost suspension: a drain keeps the system in order and leaves it quiet. */
  lemma DrainKeeps(f: Fabric, s: Sys, picks: seq<PathCost>)
    requires SysOk(f, s) && PicksOk(f, s, picks)
    ensures SysOk(f, SysDrain(s, picks)) && Quiet(SysDrain(s, picks))
  {
    hide ExecOk, TransfersOk, CountsOk, DrainedTransfers, StillFor, PendingFor, FlowsFor, QuietFor, DrainN, PickOk;
    var n := |s.pending|;
    DrainNKeeps(f, s, picks, n);
    var d := DrainN(s, picks, n);
    assert Ids(s.pending)[..n] == Ids(s.pending);
    DrainedKeys(s.exec.transfers, d.exec.transfers, s.pending, picks, s.exec.rails, n);
    DrainedQuiet(s.exec.transfers, d.exec.transfers, s.pending, picks, s.exec.rails, Ids(d.still));
    FlowsSame(s.exec.transfers, d.exec.transfers, FlowIds(s.flows));
  }
}
