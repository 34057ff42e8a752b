/** Executor, path engine and shim together: what one shim call is made of. */
module SystemSpec {
  import opened Model
  import opened Sums
  import opened TransferSpec
  import opened TransferInvariant
  import opened TransferRuns
  import opened EngineSpec
  import opened ComposedTransfer

  datatype Flow = Flow(id: TransferId, src: nat, dst: nat, bytes: nat, slack: real, paused: bool, edges: seq<nat>)

  datatype PendingReroute = PendingReroute(id: TransferId, avoid: seq<nat>)

  /** The executor's state, the engine's fields, and (for the books only) how many
      suspensions have ended in completion. */
  datatype Sys = Sys(exec: ExecState, flows: seq<Flow>, pending: seq<PendingReroute>,
                     preemptEvents: nat, rerouteEvents: nat, ended: nat)

  function InitSys(rails: seq<int>, mem: Memory): Sys { Sys(InitExec(rails, mem), [], [], 0, 0, 0) }

  // ----------------------------------------------------------- micro-steps

  function PendAll(picked: seq<TransferId>, busy: seq<nat>): (r: seq<PendingReroute>)
    ensures |r| == |picked| && forall i :: 0 <= i < |r| ==> r[i] == PendingReroute(picked[i], busy)
  {
    seq(|picked|, i requires 0 <= i < |picked| => PendingReroute(picked[i], busy))
  }

  /** preempt_kv_migrations with an executor. */
  function SysPreempt(s: Sys, busy: seq<nat>, picked: seq<TransferId>): Sys {
    s.(exec := SuspendAll(s.exec, picked), pending := s.pending + PendAll(picked, busy),
       preemptEvents := s.preemptEvents + |picked|)
  }

  /** What schedule_and_execute hands to the executor. */
  datatype Plan = Single(path: PathCost) | Striped(paths: seq<ChunkPath>)

  function PlanState(s: ExecState, req: TransferRequest, plan: Plan, bufs: Buffers): ExecState {
    match plan
    case Single(path) => Submit(s, req, path, bufs)
    case Striped(paths) => SubmitStriped(s, req, paths, bufs)
  }

  /** Submission, and registration of a KV flow. */
  function SysSubmit(s: Sys, req: TransferRequest, plan: Plan, bufs: Buffers, flow: Flow): Sys {
    s.(exec := PlanState(s.exec, req, plan, bufs),
       flows := if req.cls == KVMigration then s.flows + [flow.(id := s.exec.nextId)] else s.flows)
  }

  function Unregister(flows: seq<Flow>, id: TransferId): seq<Flow> {
    if flows == [] then []
    else Unregister(flows[..|flows| - 1], id) + if flows[|flows| - 1].id == id then [] else [flows[|flows| - 1]]
  }

  /** The completion callback for every id of `done`. */
  function UnregisterAll(flows: seq<Flow>, ts: map<TransferId, Transfer>, done: seq<TransferId>): seq<Flow> {
    if done == [] then flows
    else
      var id := done[|done| - 1];
      var r := UnregisterAll(flows, ts, done[..|done| - 1]);
      if id in ts && ts[id].request.cls == KVMigration then Unregister(r, id) else r
  }

  /** How many of a tick's completions were suspended transfers. */
  function Ended(s: ExecState, order: seq<TransferId>, offer: Offer, elapsed: Clock): nat {
    if order == [] then 0
    else
      var id := order[|order| - 1];
      var prefix := order[..|order| - 1];
      var r := Tick(s, prefix, offer, elapsed);
      Ended(s, prefix, offer, elapsed)
      + if Finishes(r, id, offer, elapsed(id)) && r.transfers[id].state == SuspendPending then 1 else 0
  }

  function SysTick(s: Sys, order: seq<TransferId>, offer: Offer, elapsed: Clock): Sys {
    var done := TickDone(s.exec, order, offer, elapsed);
    s.(exec := Tick(s.exec, order, offer, elapsed),
       flows := UnregisterAll(s.flows, s.exec.transfers, done),
       ended := s.ended + Ended(s.exec, order, offer, elapsed))
  }

  datatype Drained = Drained(exec: ExecState, still: seq<PendingReroute>, flows: seq<Flow>, events: nat)

  function FlowRerouted(f: Flow, id: TransferId, best: PathCost, remain: nat, deadline: real): Flow {
    if f.id != id then f
    else f.(paused := false, edges := best.edges, bytes := remain,
            slack := if best.latency > 0.0 then deadline - best.latency else f.slack)
  }

  function FlowsRerouted(flows: seq<Flow>, id: TransferId, best: PathCost, remain: nat, deadline: real): (r: seq<Flow>)
    ensures |r| == |flows| && forall i :: 0 <= i < |flows| ==> r[i].id == flows[i].id
  {
    seq(|flows|, i requires 0 <= i < |flows| => FlowRerouted(flows[i], id, best, remain, deadline))
  }

  /** The body of drain_boundary_reroutes for one entry, `best` being the path it selects. */
  function DrainEntry(d: Drained, pr: PendingReroute, best: PathCost): Drained {
    if pr.id !in d.exec.transfers then d.(still := d.still + [pr])
    else
      var t := d.exec.transfers[pr.id];
      if Terminal(t) then d
      else if t.state != TransferState.Paused then d.(still := d.still + [pr])
      else if t.remaining == 0 then d
      else if best.edges != [] && CanReroute(d.exec, pr.id) then
        d.(exec := Reroute(d.exec, pr.id, best), events := d.events + 1,
           flows := FlowsRerouted(d.flows, pr.id, best, t.remaining, t.request.deadline))
      else d.(still := d.still + [pr])
  }

  function DrainN(s: Sys, picks: seq<PathCost>, n: nat): Drained
    requires n <= |s.pending| && |picks| == |s.pending|
  {
    if n == 0 then Drained(s.exec, [], s.flows, 0)
    else DrainEntry(DrainN(s, picks, n - 1), s.pending[n - 1], picks[n - 1])
  }

  function SysDrain(s: Sys, picks: seq<PathCost>): Sys
    requires |picks| == |s.pending|
  {
    var d := DrainN(s, picks, |s.pending|);
    s.(exec := d.exec, pending := d.still, flows := d.flows, rerouteEvents := s.rerouteEvents + d.events)
  }

  // ------------------------------------------------------------ invariants

  function Ids(pending: seq<PendingReroute>): (r: seq<TransferId>)
    ensures |r| == |pending| && forall i :: 0 <= i < |r| ==> r[i] == pending[i].id
  {
    seq(|pending|, i requires 0 <= i < |pending| => pending[i].id)
  }

  predicate Suspended(t: Transfer) { t.state == SuspendPending || t.state == TransferState.Paused }

  /** Every suspended transfer is waiting for its reroute, once; entries may also be
      left over from transfers that completed meanwhile. */
  ghost predicate PendingFor(ts: map<TransferId, Transfer>, ids: seq<TransferId>) {
    && Distinct(ids)
    && (forall id :: id in ids ==> id in ts && (Suspended(ts[id]) || ts[id].state == Completed))
    && (forall id :: id in ts && Suspended(ts[id]) ==> id in ids)
  }

  ghost predicate PendingOk(s: Sys) { PendingFor(s.exec.transfers, Ids(s.pending)) }

  /** No transfer is paused, and pending_reroutes_ holds exactly the SuspendPending ids. */
  ghost predicate QuietFor(ts: map<TransferId, Transfer>, ids: seq<TransferId>) {
    && (forall id :: id in ts ==> ts[id].state != TransferState.Paused)
    && Distinct(ids)
    && (forall id :: id in ids <==> id in ts && ts[id].state == SuspendPending)
  }

  ghost predicate Quiet(s: Sys) { QuietFor(s.exec.transfers, Ids(s.pending)) }

  ghost predicate TransfersOk(f: Fabric, ts: map<TransferId, Transfer>) {
    forall id :: id in ts ==> ComposedOk(ts[id]) && (ts[id].pathEdges != [] ==> Routable(f, ts[id].request))
  }

  function FlowIds(flows: seq<Flow>): (r: seq<TransferId>)
    ensures |r| == |flows| && forall i :: 0 <= i < |r| ==> r[i] == flows[i].id
  {
    seq(|flows|, i requires 0 <= i < |flows| => flows[i].id)
  }

  /** kv_flows_ holds exactly the KV transfers that have not completed, each once. */
  ghost predicate FlowsFor(ts: map<TransferId, Transfer>, ids: seq<TransferId>) {
    && Distinct(ids)
    && forall id :: id in ids <==> id in ts && ts[id].preemptible && ts[id].state != Completed
  }

  ghost predicate FlowsOk(s: Sys) { FlowsFor(s.exec.transfers, FlowIds(s.flows)) }

  function PausedOne(t: Transfer): nat { if t.state == TransferState.Paused then 1 else 0 }

  function SuspendingOne(t: Transfer): nat { if t.state == SuspendPending then 1 else 0 }

  ghost function PausedCount(e: ExecState): nat
    requires e.nextId >= 1
  {
    Total(e.transfers, e.nextId - 1, PausedOne)
  }

  ghost function SuspendingCount(e: ExecState): nat
    requires e.nextId >= 1
  {
    Total(e.transfers, e.nextId - 1, SuspendingOne)
  }

  /** Reroutes lag suspends by the paused transfers; suspends lag preempts by the transfers
      still draining and the suspensions that ended in completion. */
  ghost predicate CountsOk(e: ExecState, ended: nat) {
    && e.nextId >= 1
    && e.suspends == e.reroutes + PausedCount(e)
    && e.preempts == e.suspends + SuspendingCount(e) + ended
  }

  ghost predicate SysOk(f: Fabric, s: Sys) {
    && ExecOk(s.exec)
    && TransfersOk(f, s.exec.transfers)
    && PendingOk(s)
    && FlowsOk(s)
    && CountsOk(s.exec, s.ended)
    && s.preemptEvents == s.exec.preempts
    && s.rerouteEvents == s.exec.reroutes
  }

  // -------------------------------------------------- what a step may assume

  /** A plan the engine can produce: a selected path, or a stripe of the request; either has
      edges only when the request can be routed. */
  ghost predicate PlanOk(f: Fabric, req: TransferRequest, plan: Plan) {
    match plan
    case Single(path) => path.edges != [] ==> Routable(f, req)
    case Striped(paths) =>
      && (paths != [] ==> Layout(req.size, KV_CHUNK_BYTES, paths))
      && ((exists i :: 0 <= i < |paths| && paths[i].edges != []) ==> Routable(f, req))
  }

  /** A drain's selections: a paused flow that can be routed gets a path with edges. */
  ghost predicate PicksOk(f: Fabric, s: Sys, picks: seq<PathCost>) {
    && |picks| == |s.pending|
    && forall i :: 0 <= i < |picks| ==> PickOk(f, s, i, picks[i])
  }

  ghost predicate PickOk(f: Fabric, s: Sys, i: nat, pick: PathCost)
    requires i < |s.pending|
  {
    var id := s.pending[i].id;
    id in s.exec.transfers && s.exec.transfers[id].state == TransferState.Paused
      && Routable(f, s.exec.transfers[id].request) && s.exec.transfers[id].request.cls == KVMigration
    ==> pick.edges != []
  }
}
