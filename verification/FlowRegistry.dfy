/** The engine's flow registry over whole runs: each record mirrors its transfer in the executor. */
module FlowRegistry {
  import opened Model
  import opened Topology
  import opened TransferSpec
  import opened TransferInvariant
  import opened TransferRuns
  import opened EngineSpec
  import opened SystemSpec
  import opened SystemInvariant
  import opened SystemRuns
  import opened PathEngine

  /** Same edges, same endpoints, not marked paused; the bytes are those left at the last reroute,
      the whole request before any. */
  ghost predicate Mirrors(f: Fabric, w: Flow, t: Transfer) {
    && (forall e :: e in w.edges <==> e in t.pathEdges)
    && w.src == FindVertex(f.vertices, t.request.source) && w.dst == FindVertex(f.vertices, t.request.dest)
    && !w.paused
    && t.remaining <= w.bytes <= t.total && (t.rerouteCount == 0 ==> w.bytes == t.total)
  }

  ghost predicate AllMirror(f: Fabric, flows: seq<Flow>, ts: map<TransferId, Transfer>) {
    forall w :: w in flows ==> w.id in ts && Mirrors(f, w, ts[w.id])
  }

  ghost predicate RegistryOk(f: Fabric, s: Sys) { AllMirror(f, s.flows, s.exec.transfers) }

  /** What a record does not see of a transfer. */
  predicate SameToRegistry(t: Transfer, u: Transfer) {
    u.pathEdges == t.pathEdges && u.request == t.request && u.total == t.total && u.rerouteCount == t.rerouteCount
    && u.remaining <= t.remaining
  }

  lemma MirrorsStill(f: Fabric, flows: seq<Flow>, fewer: seq<Flow>, ts: map<TransferId, Transfer>,
                     us: map<TransferId, Transfer>)
    requires AllMirror(f, flows, ts) && forall w :: w in fewer ==> w in flows
    requires forall id :: id in ts ==> id in us && SameToRegistry(ts[id], us[id])
    ensures AllMirror(f, fewer, us)
  {
    forall w | w in fewer ensures w.id in us && Mirrors(f, w, us[w.id]) {
      assert SameToRegistry(ts[w.id], us[w.id]);
    }
  }

  // ------------------------------------------------------------- scheduling

  lemma MissMirrors(f: Fabric, s: Sys, miss: Miss)
    requires RegistryOk(f, s)
    requires miss.Miss? ==> PreemptChoice(s.exec, miss.busy, MAX_PREEMPT, miss.picked)
    ensures RegistryOk(f, AfterMiss(s, miss))
  {
    hide Mirrors, SuspendAll;
    if miss.Miss? {
      PickedInFlight(s.exec, miss.busy, MAX_PREEMPT, miss.picked);
      assert forall i, j :: 0 <= i < j < |miss.picked| ==> miss.picked[i] != miss.picked[j];
      hide PreemptChoice;
      SuspendAllAt(s.exec, miss.picked);
      MirrorsStill(f, s.flows, s.flows, s.exec.transfers, SuspendAll(s.exec, miss.picked).transfers);
    }
  }

  lemma {:induction false} AllEdgesHas(paths: seq<ChunkPath>, e: nat)
    ensures e in AllEdges(paths) <==> exists i :: 0 <= i < |paths| && e in paths[i].edges
  {
    if paths != [] {
      var n := |paths| - 1;
      AllEdgesHas(paths[..n], e);
      assert forall i :: 0 <= i < n ==> paths[..n][i] == paths[i];
    }
  }

  /** The record made for a plan mirrors the transfer the executor makes of it, slack included. */
  lemma NewMirrors(f: Fabric, e: ExecState, req: TransferRequest, plan: Plan, bufs: Buffers)
    ensures e.nextId in PlanState(e, req, plan, bufs).transfers
    ensures var w, t := FlowOf(f, req, plan).(id := e.nextId), PlanState(e, req, plan, bufs).transfers[e.nextId];
      Mirrors(f, w, t) && w.slack == t.slack
  {
    hide Promote, LaidOut, UnionEdges, FindVertex;
    if plan.Striped? && plan.paths != [] {
      forall x ensures x in AllEdges(plan.paths) <==> x in UnionEdges([], plan.paths) {
        AllEdgesHas(plan.paths, x);
        UnionEdgesHas([], plan.paths, x);
      }
    }
  }

  lemma SubmitMirrors(f: Fabric, s: Sys, req: TransferRequest, plan: Plan, bufs: Buffers)
    requires RegistryOk(f, s) && s.exec.nextId !in s.exec.transfers
    ensures RegistryOk(f, SysSubmit(s, req, plan, bufs, FlowOf(f, req, plan)))
  {
    NewMirrors(f, s.exec, req, plan, bufs);
    var r := SysSubmit(s, req, plan, bufs, FlowOf(f, req, plan));
    assert forall id :: id in s.exec.transfers ==>
      id in r.exec.transfers && r.exec.transfers[id] == s.exec.transfers[id];
    hide Mirrors, FlowOf, StripedTransfer, SubmittedTransfer;
    forall w | w in r.flows ensures w.id in r.exec.transfers && Mirrors(f, w, r.exec.transfers[w.id]) {
      if w !in s.flows { assert w == FlowOf(f, req, plan).(id := s.exec.nextId); }
    }
  }

  // ------------------------------------------------------------------- tick

  lemma {:induction false} UnregisterKeeps(flows: seq<Flow>, id: TransferId)
    ensures forall w :: w in Unregister(flows, id) ==> w in flows
  {
    if flows != [] {
      UnregisterKeeps(flows[..|flows| - 1], id);
      assert flows == flows[..|flows| - 1] + [flows[|flows| - 1]];
    }
  }

  lemma {:induction false} UnregisterAllKeeps(flows: seq<Flow>, ts: map<TransferId, Transfer>, done: seq<TransferId>)
    ensures forall w :: w in UnregisterAll(flows, ts, done) ==> w in flows
  {
    if done != [] {
      UnregisterAllKeeps(flows, ts, done[..|done| - 1]);
      UnregisterKeeps(UnregisterAll(flows, ts, done[..|done| - 1]), done[|done| - 1]);
    }
  }

  lemma TickSame(id: TransferId, t: Transfer, offer: Offer, elapsed: real)
    requires TransferOk(id, t) && Active(t)
    ensures SameToRegistry(t, TickTransfer(t, offer, elapsed))
  {
    AdvancedBytes(t, offer);
    hide Advanced, TickBytes, Shape, FitsAll;
  }

  lemma TickMirrors(f: Fabric, s: Sys, order: seq<TransferId>, offer: Offer, elapsed: Clock)
    requires RegistryOk(f, s) && ExecOk(s.exec) && IsOrder(order, s.exec.transfers)
    ensures RegistryOk(f, SysTick(s, order, offer, elapsed))
  {
    hide Mirrors, TickTransfer, Tick, TickDone, Ended;
    var done := TickDone(s.exec, order, offer, elapsed);
    UnregisterAllKeeps(s.flows, s.exec.transfers, done);
    TickAt(s.exec, order, offer, elapsed);
    forall id | id in s.exec.transfers
      ensures SameToRegistry(s.exec.transfers[id], Tick(s.exec, order, offer, elapsed).transfers[id])
    {
      assert TransferOk(id, s.exec.transfers[id]);
      hide ExecOk, TransferOk;
      if Active(s.exec.transfers[id]) { TickSame(id, s.exec.transfers[id], offer, elapsed(id)); }
    }
    hide ExecOk, UnregisterAll, SameToRegistry;
    MirrorsStill(f, s.flows, UnregisterAll(s.flows, s.exec.transfers, done), s.exec.transfers,
                 Tick(s.exec, order, offer, elapsed).transfers);
  }

  // ------------------------------------------------------------------ drain

  /** A reroute moves the record along with the transfer; with a positive latency its slack too. */
  lemma RerouteMirrors(f: Fabric, w: Flow, t: Transfer, best: PathCost, rails: seq<int>)
    requires Mirrors(f, w, t)
    ensures var v, u := FlowRerouted(w, w.id, best, t.remaining, t.request.deadline), RerouteTransfer(t, best, rails);
      && Mirrors(f, v, u) && v.id == w.id && v.bytes == u.remaining
      && (best.latency > 0.0 ==> v.slack == u.slack)
  {
    hide Promote;
  }

  lemma EntryMirrors(f: Fabric, d: Drained, pr: PendingReroute, best: PathCost)
    requires AllMirror(f, d.flows, d.exec.transfers)
    ensures var r := DrainEntry(d, pr, best);
      AllMirror(f, r.flows, r.exec.transfers)
  {
    hide Mirrors, RerouteTransfer;
    var r := DrainEntry(d, pr, best);
    if r.events != d.events {
      var t := d.exec.transfers[pr.id];
      forall v | v in r.flows ensures v.id in r.exec.transfers && Mirrors(f, v, r.exec.transfers[v.id]) {
        var i :| 0 <= i < |r.flows| && r.flows[i] == v;
        var w := d.flows[i];
        assert v == FlowRerouted(w, pr.id, best, t.remaining, t.request.deadline) && w in d.flows;
        if w.id == pr.id { RerouteMirrors(f, w, t, best, d.exec.rails); }
      }
    }
  }

  lemma {:induction false} DrainMirrors(f: Fabric, s: Sys, picks: seq<PathCost>, n: nat)
    requires RegistryOk(f, s) && n <= |s.pending| == |picks|
    ensures AllMirror(f, DrainN(s, picks, n).flows, DrainN(s, picks, n).exec.transfers)
  {
    hide AllMirror, DrainEntry;
    if n > 0 {
      DrainMirrors(f, s, picks, n - 1);
      EntryMirrors(f, DrainN(s, picks, n - 1), s.pending[n - 1], picks[n - 1]);
    }
  }

  // -------------------------------------------------------------- whole runs

  predicate FlowGiven(f: Fabric, call: Call) { call.SubmitTransfer? ==> call.flow == FlowOf(f, call.req, call.plan) }

  lemma CallMirrors(f: Fabric, s: Sys, call: Call)
    requires SysOk(f, s) && CallOk(f, s, call) && FlowGiven(f, call) && RegistryOk(f, s)
    ensures RegistryOk(f, AfterCall(s, call))
  {
    ScheduledMirrors(f, s, call);
    ScheduledKeeps(f, s, call);
    hide CallOk, SysOk, Scheduled, SysTick, RegistryOk, DrainN;
    TickedMirrors(f, s, call);
    DrainMirrors(f, Ticked(s, call), call.picks, |call.picks|);
    DrainedRegistry(f, Ticked(s, call), call.picks);
  }

  lemma ScheduledMirrors(f: Fabric, s: Sys, call: Call)
    requires SysOk(f, s) && CallOk(f, s, call) && FlowGiven(f, call) && RegistryOk(f, s)
    ensures RegistryOk(f, Scheduled(s, call))
  {
    ExecIds(s.exec);
    hide SysOk, PlanOk, PicksOk, IsOrder, PreemptChoice, Mirrors, FlowOf, SysSubmit;
    if call.SubmitTransfer? {
      var h := Hosted(s, call.host);
      MissMirrors(f, h, call.miss);
      MissFresh(h, call.miss);
      SubmitMirrors(f, AfterMiss(h, call.miss), call.req, call.plan, call.bufs);
    }
  }

  lemma MissFresh(s: Sys, miss: Miss)
    requires s.exec.nextId !in s.exec.transfers
    requires miss.Miss? ==> PreemptChoice(s.exec, miss.busy, MAX_PREEMPT, miss.picked)
    ensures AfterMiss(s, miss).exec.nextId !in AfterMiss(s, miss).exec.transfers
  {
    if miss.Miss? {
      PickedInFlight(s.exec, miss.busy, MAX_PREEMPT, miss.picked);
      assert Distinct(miss.picked);
      hide PreemptChoice, SuspendAll;
      SuspendAllAt(s.exec, miss.picked);
      SuspendFrame(s.exec, miss.picked);
    }
  }

  lemma TickedMirrors(f: Fabric, s: Sys, call: Call)
    requires SysOk(f, Scheduled(s, call)) && RegistryOk(f, Scheduled(s, call)) && CallOk(f, s, call)
    ensures RegistryOk(f, Ticked(s, call)) && |call.picks| == |Ticked(s, call).pending|
  {
    hide Scheduled, RegistryOk, SysTick, PreemptChoice, PlanOk;
    TickMirrors(f, Scheduled(s, call), call.tick.order, call.tick.offer, call.tick.elapsed);
  }

  lemma DrainedRegistry(f: Fabric, s: Sys, picks: seq<PathCost>)
    requires |picks| == |s.pending|
    requires AllMirror(f, DrainN(s, picks, |picks|).flows, DrainN(s, picks, |picks|).exec.transfers)
    ensures RegistryOk(f, SysDrain(s, picks))
  {
    hide DrainN, AllMirror;
  }

  lemma {:induction false} RunMirrors(f: Fabric, s: Sys, calls: seq<Call>)
    requires SysOk(f, s) && Quiet(s) && RegistryOk(f, s) && CallsOk(f, s, calls)
    requires forall i :: 0 <= i < |calls| ==> FlowGiven(f, calls[i])
    ensures RegistryOk(f, SysRun(f, s, calls))
  {
    hide SysOk, Quiet, RegistryOk, CallOk, FlowGiven;
    if calls != [] {
      var before, call := calls[..|calls| - 1], calls[|calls| - 1];
      assert forall i :: 0 <= i < |before| ==> before[i] == calls[i];
      RunMirrors(f, s, before);
      NoLostSuspension(f, s, before);
      CallMirrors(f, SysRun(f, s, before), call);
    }
  }

  /** In every run from the start the registry holds exactly the unfinished KV transfers, and each
      record mirrors its transfer through every preemption and reroute. */
  lemma RegistryFromStart(f: Fabric, rails: seq<int>, mem: Memory, calls: seq<Call>)
    requires CallsOk(f, InitSys(rails, mem), calls) && forall i :: 0 <= i < |calls| ==> FlowGiven(f, calls[i])
    ensures FlowsOk(SysRun(f, InitSys(rails, mem), calls)) && RegistryOk(f, SysRun(f, InitSys(rails, mem), calls))
  {
    StartKeeps(f, rails, mem);
    assert RegistryOk(f, InitSys(rails, mem));
    RunMirrors(f, InitSys(rails, mem), calls);
    NoLostSuspension(f, InitSys(rails, mem), calls);
    hide ExecOk, TransfersOk, PendingOk, FlowsOk, CountsOk, RegistryOk, Quiet;
  }
}
