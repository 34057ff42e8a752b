/** Whole runs of submit_transfer and poll_transfers. */
module SystemRuns {
  import opened Model
  import opened Sums
  import opened TransferSpec
  import opened TransferInvariant
  import opened TransferDelivery
  import opened TransferRuns
  import opened TransferPayload
  import opened EngineSpec
  import opened ComposedTransfer
  import opened BoundedCompletion
  import opened SystemSpec
  import opened SystemInvariant

  datatype TickArgs = TickArgs(order: seq<TransferId>, offer: Offer, elapsed: Clock)

  /** An SLO miss while selecting a path: the edges to free and the transfers suspended for it. */
  datatype Miss = NoMiss | Miss(busy: seq<nat>, picked: seq<TransferId>)

  /** One shim call. `host` is the memory as the host has left it when the call begins. Both calls
      end in a tick and a drain; a submission first selects, perhaps preempts, and submits. */
  datatype Call =
    | SubmitTransfer(host: Memory, miss: Miss, req: TransferRequest, plan: Plan, bufs: Buffers, flow: Flow,
                     tick: TickArgs, picks: seq<PathCost>)
    | PollTransfers(host: Memory, tick: TickArgs, picks: seq<PathCost>)

  const MAX_PREEMPT: nat := 8

  function AfterMiss(s: Sys, miss: Miss): Sys {
    match miss
    case NoMiss => s
    case Miss(busy, picked) => SysPreempt(s, busy, picked)
  }

  function Hosted(s: Sys, mem: Memory): Sys { s.(exec := s.exec.(mem := mem)) }

  function Scheduled(s: Sys, call: Call): Sys {
    match call
    case PollTransfers(host, _, _) => Hosted(s, host)
    case SubmitTransfer(host, miss, req, plan, bufs, flow, _, _) =>
      SysSubmit(AfterMiss(Hosted(s, host), miss), req, plan, bufs, flow)
  }

  function Ticked(s: Sys, call: Call): Sys {
    SysTick(Scheduled(s, call), call.tick.order, call.tick.offer, call.tick.elapsed)
  }

  ghost predicate CallOk(f: Fabric, s: Sys, call: Call) {
    && (call.SubmitTransfer? ==> PlanOk(f, call.req, call.plan))
    && (call.SubmitTransfer? && call.miss.Miss? ==>
          PreemptChoice(Hosted(s, call.host).exec, call.miss.busy, MAX_PREEMPT, call.miss.picked))
    && IsOrder(call.tick.order, Scheduled(s, call).exec.transfers)
    && PicksOk(f, Ticked(s, call), call.picks)
  }

  function AfterCall(s: Sys, call: Call): Sys
    requires |call.picks| == |Ticked(s, call).pending|
  {
    SysDrain(Ticked(s, call), call.picks)
  }

  ghost predicate CallsOk(f: Fabric, s: Sys, calls: seq<Call>)
    decreases |calls|, 0
  {
    calls != [] ==>
      CallsOk(f, s, calls[..|calls| - 1]) && CallOk(f, SysRun(f, s, calls[..|calls| - 1]), calls[|calls| - 1])
  }

  ghost function SysRun(f: Fabric, s: Sys, calls: seq<Call>): Sys
    requires CallsOk(f, s, calls)
    decreases |calls|, 1
  {
    if calls == [] then s else AfterCall(SysRun(f, s, calls[..|calls| - 1]), calls[|calls| - 1])
  }

  // ---------------------------------------------------- no lost suspension

  /** What the host writes is no business of the books. */
  lemma HostKeeps(f: Fabric, s: Sys, mem: Memory)
    requires SysOk(f, s)
    ensures SysOk(f, Hosted(s, mem))
  {
    hide TransfersOk, PendingFor, FlowsFor;
    MemoryKeepsOk(s.exec, mem);
    hide ExecOk;
  }

  lemma ScheduledKeeps(f: Fabric, s: Sys, call: Call)
    requires SysOk(f, s) && CallOk(f, s, call)
    ensures SysOk(f, Scheduled(s, call))
  {
    hide SysOk, PlanOk, PreemptChoice, PicksOk, IsOrder;
    HostKeeps(f, s, call.host);
    if call.SubmitTransfer? {
      var h := Hosted(s, call.host);
      if call.miss.Miss? { PreemptKeeps(f, h, call.miss.busy, MAX_PREEMPT, call.miss.picked); }
      SubmitKeeps(f, AfterMiss(h, call.miss), call.req, call.plan, call.bufs, call.flow);
    }
  }

  /** In the middle of a call, after its tick, the system is in order too: this is where
      transfers are seen paused. */
  lemma TickedKeeps(f: Fabric, s: Sys, call: Call)
    requires SysOk(f, s) && CallOk(f, s, call)
    ensures SysOk(f, Ticked(s, call))
  {
    ScheduledKeeps(f, s, call);
    hide SysOk, PicksOk;
    TickKeeps(f, Scheduled(s, call), call.tick.order, call.tick.offer, call.tick.elapsed);
  }

  lemma CallKeeps(f: Fabric, s: Sys, call: Call)
    requires SysOk(f, s) && CallOk(f, s, call)
    ensures SysOk(f, AfterCall(s, call)) && Quiet(AfterCall(s, call))
  {
    TickedKeeps(f, s, call);
    hide SysOk;
    DrainKeeps(f, Ticked(s, call), call.picks);
  }

  /** No lost suspension: over every run, whenever a call returns no transfer is paused and the
      pending reroutes are exactly the transfers still draining, each once. */
  lemma {:induction false} NoLostSuspension(f: Fabric, s: Sys, calls: seq<Call>)
    requires SysOk(f, s) && Quiet(s) && CallsOk(f, s, calls)
    ensures SysOk(f, SysRun(f, s, calls)) && Quiet(SysRun(f, s, calls))
  {
    hide SysOk, Quiet, CallOk;
    if calls != [] {
      NoLostSuspension(f, s, calls[..|calls| - 1]);
      CallKeeps(f, SysRun(f, s, calls[..|calls| - 1]), calls[|calls| - 1]);
    }
  }

  /** The start is in order and quiet, whatever the fabric. */
  lemma StartKeeps(f: Fabric, rails: seq<int>, mem: Memory)
    ensures SysOk(f, InitSys(rails, mem)) && Quiet(InitSys(rails, mem))
  {
    var s := InitSys(rails, mem);
    assert Distinct(Ids([])) && Distinct(FlowIds([]));
  }

  // ------------------------------------------------------------- the books

  lemma {:induction false} CountMembers(ts: map<TransferId, Transfer>, n: nat, ids: set<TransferId>)
    requires forall id :: id in ids <==> 1 <= id <= n && id in ts && ts[id].state == SuspendPending
    ensures Total(ts, n, SuspendingOne) == |ids|
  {
    if n == 0 {
      assert ids == {};
    } else {
      var fewer := ids - {n};
      CountMembers(ts, n - 1, fewer);
      if n in ids { assert ids == fewer + {n}; } else { assert ids == fewer; }
    }
  }

  /** When a call returns: as many reroutes as boundary suspends, and the preemptions beyond them
      are the pending reroutes and the suspensions that ended in completion. */
  lemma BooksBalance(f: Fabric, s: Sys)
    requires SysOk(f, s) && Quiet(s)
    ensures s.exec.reroutes == s.exec.suspends
    ensures s.exec.preempts == s.exec.suspends + |s.pending| + s.ended
    ensures s.rerouteEvents == s.exec.reroutes && s.preemptEvents == s.exec.preempts
  {
    hide ExecOk, TransfersOk, FlowsFor, PendingFor, QuietFor, FlagOk;
    ExecIds(s.exec);
    QuietCounts(s.exec.transfers, s.exec.nextId - 1, Ids(s.pending));
  }

  lemma QuietCounts(ts: map<TransferId, Transfer>, n: nat, ids: seq<TransferId>)
    requires QuietFor(ts, ids) && forall id :: id in ts <==> 1 <= id <= n
    ensures Total(ts, n, PausedOne) == 0 && Total(ts, n, SuspendingOne) == |ids|
  {
    TotalZero(ts, n, PausedOne);
    DistinctCard(ids);
    CountMembers(ts, n, IdSet(ids));
  }

  predicate WireActive(t: Transfer) {
    forall i :: 0 <= i < |t.chunks| && 0 < t.chunks[i].sent < t.chunks[i].size ==> t.chunks[i].state == InFlight
  }

  /** Nothing is paused and exactly the transfers still draining wait for a reroute; exactly the
      unfinished KV transfers are in the flow registry; every sent byte, reroute and preemption is
      accounted for; a partly sent chunk of an unfinished transfer is on the wire. */
  ghost predicate InOrder(s: Sys) {
    && QuietFor(s.exec.transfers, Ids(s.pending))
    && FlowsFor(s.exec.transfers, FlowIds(s.flows))
    && s.exec.nextId >= 1 && s.exec.bytes == Total(s.exec.transfers, s.exec.nextId - 1, BytesOf)
    && s.exec.reroutes == s.exec.suspends
    && s.exec.preempts == s.exec.suspends + |s.pending| + s.ended
    && forall id :: id in s.exec.transfers && !Terminal(s.exec.transfers[id]) ==> WireActive(s.exec.transfers[id])
  }

  lemma WiresActive(f: Fabric, s: Sys, id: TransferId)
    requires SysOk(f, s) && id in s.exec.transfers && !Terminal(s.exec.transfers[id])
    ensures WireActive(s.exec.transfers[id])
  {
    var t := s.exec.transfers[id];
    assert TransferOk(id, t) && ComposedOk(t);
    hide SysOk, TransferOk, ComposedOk;
    forall i | 0 <= i < |t.chunks| && 0 < t.chunks[i].sent < t.chunks[i].size ensures t.chunks[i].state == InFlight {
      PartlySentIsInFlight(id, t, i);
    }
  }

  lemma BytesBalance(f: Fabric, s: Sys)
    requires SysOk(f, s)
    ensures s.exec.nextId >= 1 && s.exec.bytes == Total(s.exec.transfers, s.exec.nextId - 1, BytesOf)
    ensures FlowsFor(s.exec.transfers, FlowIds(s.flows))
  {
    hide TransferOk, TransfersOk, PendingFor, FlowsFor;
  }

  lemma QuietInOrder(f: Fabric, s: Sys)
    requires SysOk(f, s) && Quiet(s)
    ensures InOrder(s)
  {
    hide SysOk, WireActive, QuietFor, FlowsFor;
    BooksBalance(f, s);
    BytesBalance(f, s);
    forall id | id in s.exec.transfers && !Terminal(s.exec.transfers[id]) ensures WireActive(s.exec.transfers[id]) {
      WiresActive(f, s, id);
    }
  }

  /** When a call returns, in every run from the start, the system is in order. */
  lemma FromStart(f: Fabric, rails: seq<int>, mem: Memory, calls: seq<Call>)
    requires CallsOk(f, InitSys(rails, mem), calls)
    ensures InOrder(SysRun(f, InitSys(rails, mem), calls))
  {
    hide SysOk, SysRun, CallsOk, InitSys, InOrder, Quiet;
    StartKeeps(f, rails, mem);
    NoLostSuspension(f, InitSys(rails, mem), calls);
    QuietInOrder(f, SysRun(f, InitSys(rails, mem), calls));
  }

  // ---------------------------------------------------- bounded completion

  /** How often a run preempts transfer id. */
  function PreemptsOf(calls: seq<Call>, id: TransferId): nat {
    if calls == [] then 0
    else PreemptsOf(calls[..|calls| - 1], id) + PreemptedIn(calls[|calls| - 1], id)
  }

  function PreemptedIn(call: Call, id: TransferId): nat {
    if call.SubmitTransfer? && call.miss.Miss? && id in call.miss.picked then 1 else 0
  }

  ghost predicate Offers(call: Call, q: nat) { forall path :: call.tick.offer(path) >= q }

  /** What scheduling does to a transfer that is there already: nothing but a suspension. */
  lemma ScheduledTransfer(f: Fabric, s: Sys, call: Call, id: TransferId)
    requires SysOk(f, s) && CallOk(f, s, call) && id in s.exec.transfers
    ensures id in Scheduled(s, call).exec.transfers
    ensures Scheduled(s, call).exec.transfers[id] ==
      (if PreemptedIn(call, id) == 1 then SuspendTransfer(s.exec.transfers[id]) else s.exec.transfers[id])
    ensures PreemptedIn(call, id) == 1 ==> s.exec.transfers[id].state == InFlight
  {
    hide SysOk, PlanOk, PicksOk, IsOrder, PreemptChoice, SysPreempt, SysSubmit;
    HostKeeps(f, s, call.host);
    if call.SubmitTransfer? {
      MissTransfer(f, Hosted(s, call.host), call.miss, id);
      SubmitFrame(AfterMiss(Hosted(s, call.host), call.miss), call, id);
    }
  }

  lemma MissTransfer(f: Fabric, s: Sys, miss: Miss, id: TransferId)
    requires SysOk(f, s) && id in s.exec.transfers
    requires miss.Miss? ==> PreemptChoice(s.exec, miss.busy, MAX_PREEMPT, miss.picked)
    ensures var e := AfterMiss(s, miss).exec;
      && id in e.transfers && e.nextId !in e.transfers
      && e.transfers[id] == (if miss.Miss? && id in miss.picked then SuspendTransfer(s.exec.transfers[id])
                             else s.exec.transfers[id])
    ensures miss.Miss? && id in miss.picked ==> s.exec.transfers[id].state == InFlight
  {
    ExecIds(s.exec);
    hide SysOk, ExecOk, PreemptChoice;
    if miss.Miss? {
      ChoiceFacts(s.exec, miss.busy, MAX_PREEMPT, miss.picked);
      SuspendAllAt(s.exec, miss.picked);
    }
  }

  lemma SubmitFrame(s: Sys, call: Call, id: TransferId)
    requires call.SubmitTransfer? && id in s.exec.transfers && s.exec.nextId !in s.exec.transfers
    ensures var e := SysSubmit(s, call.req, call.plan, call.bufs, call.flow).exec;
      id in e.transfers && e.transfers[id] == s.exec.transfers[id]
  {
  }

  /** Scheduling leaves an unfinished transfer active, at the price of at most one tick. */
  lemma ScheduledWork(f: Fabric, s: Sys, call: Call, id: TransferId, q: nat)
    requires SysOk(f, s) && CallOk(f, s, call) && q > 0
    requires id in s.exec.transfers && Active(s.exec.transfers[id])
    ensures id in Scheduled(s, call).exec.transfers
    ensures var u := Scheduled(s, call).exec.transfers[id];
      Active(u) && Work(u, q) <= Work(s.exec.transfers[id], q) + PreemptedIn(call, id)
  {
    hide SysOk, CallOk, Work;
    ScheduledTransfer(f, s, call, id);
    if PreemptedIn(call, id) == 1 { SuspendWork(s.exec.transfers[id], q); }
  }

  lemma TickedWork(f: Fabric, s: Sys, args: TickArgs, id: TransferId, q: nat)
    requires SysOk(f, s) && IsOrder(args.order, s.exec.transfers) && q > 0
    requires forall path :: args.offer(path) >= q
    requires id in s.exec.transfers && Active(s.exec.transfers[id])
    ensures id in SysTick(s, args.order, args.offer, args.elapsed).exec.transfers
    ensures var u := SysTick(s, args.order, args.offer, args.elapsed).exec.transfers[id];
      u.state == Completed || (Work(u, q) < Work(s.exec.transfers[id], q) && u.remaining > 0 && !Terminal(u))
  {
    TickAt(s.exec, args.order, args.offer, args.elapsed);
    var t := s.exec.transfers[id];
    assert TransferOk(id, t) && ComposedOk(t);
    hide SysOk, TransferOk, ComposedOk, Work;
    TickWork(id, t, args.offer, args.elapsed(id), q);
    assert FlagOk(t) by { FlagFrom(id, t); }
    TickStates(id, t, args.offer, args.elapsed(id));
    hide TickTransfer;
  }

  lemma FlagFrom(id: TransferId, t: Transfer)
    requires TransferOk(id, t)
    ensures FlagOk(t) && FitsAll(t.state, t.chunks)
  {
  }

  lemma DrainedWork(f: Fabric, s: Sys, picks: seq<PathCost>, id: TransferId, q: nat)
    requires SysOk(f, s) && PicksOk(f, s, picks) && id in s.exec.transfers && q > 0
    ensures id in SysDrain(s, picks).exec.transfers
    ensures var t, u := s.exec.transfers[id], SysDrain(s, picks).exec.transfers[id];
      Work(u, q) == Work(t, q) && u.remaining == t.remaining && (u.state == Completed <==> t.state == Completed)
      && (t.state == TransferState.Paused ==> Active(u)) && (t.state != TransferState.Paused ==> u.state == t.state)
  {
    DrainNKeeps(f, s, picks, |s.pending|);
    var d := DrainN(s, picks, |s.pending|);
    DrainedAt(s.exec.transfers, d.exec.transfers, s.pending, picks, s.exec.rails, id);
    var t := s.exec.transfers[id];
    assert TransferOk(id, t);
    FlagFrom(id, t);
    if t.state == TransferState.Paused {
      assert id in Ids(s.pending);
      var i :| 0 <= i < |s.pending| && Ids(s.pending)[i] == id;
      assert s.pending[i].id == id;
      assert d.exec.transfers[id] == RerouteTransfer(t, picks[i], s.exec.rails);
      hide Work;
      RerouteWork(t, picks[i], s.exec.rails, q);
    }
  }

  /** One call brings an unfinished transfer a tick closer, or costs it one preemption. */
  lemma CallWork(f: Fabric, s: Sys, call: Call, id: TransferId, q: nat)
    requires SysOk(f, s) && CallOk(f, s, call) && q > 0 && Offers(call, q)
    requires id in s.exec.transfers && Active(s.exec.transfers[id])
    ensures id in AfterCall(s, call).exec.transfers
    ensures var u := AfterCall(s, call).exec.transfers[id];
      u.state == Completed
      || (Active(u) && u.remaining > 0 && Work(u, q) + 1 <= Work(s.exec.transfers[id], q) + PreemptedIn(call, id))
  {
    hide SysOk, Work, PicksOk, IsOrder, PlanOk, PreemptChoice, PreemptedIn, SysTick, SysDrain, Scheduled;
    ScheduledWork(f, s, call, id, q);
    ScheduledKeeps(f, s, call);
    TickedWork(f, Scheduled(s, call), call.tick, id, q);
    TickedKeeps(f, s, call);
    DrainedWork(f, Ticked(s, call), call.picks, id, q);
    assert !Active(Ticked(s, call).exec.transfers[id]) && !Terminal(Ticked(s, call).exec.transfers[id])
      ==> Ticked(s, call).exec.transfers[id].state == TransferState.Paused by {
      KnownStates(f, Ticked(s, call), id);
    }
  }

  lemma KnownStates(f: Fabric, s: Sys, id: TransferId)
    requires SysOk(f, s) && id in s.exec.transfers
    ensures s.exec.transfers[id].state in {InFlight, SuspendPending, TransferState.Paused, Completed}
  {
    assert TransferOk(id, s.exec.transfers[id]) && ComposedOk(s.exec.transfers[id]);
  }

  lemma {:induction false} RunWork(f: Fabric, s: Sys, calls: seq<Call>, id: TransferId, q: nat)
    requires SysOk(f, s) && Quiet(s) && CallsOk(f, s, calls) && q > 0
    requires forall i :: 0 <= i < |calls| ==> Offers(calls[i], q)
    requires id in s.exec.transfers && Active(s.exec.transfers[id])
    ensures id in SysRun(f, s, calls).exec.transfers
    ensures var u := SysRun(f, s, calls).exec.transfers[id];
      u.state == Completed
      || (Active(u) && (calls != [] ==> u.remaining > 0)
          && Work(u, q) + |calls| <= Work(s.exec.transfers[id], q) + PreemptsOf(calls, id))
  {
    hide SysOk, Work, CallOk, Quiet, PreemptedIn, Offers;
    if calls != [] {
      var before, call := calls[..|calls| - 1], calls[|calls| - 1];
      assert forall i :: 0 <= i < |before| ==> before[i] == calls[i];
      RunWork(f, s, before, id, q);
      NoLostSuspension(f, s, before);
      var r := SysRun(f, s, before);
      if r.exec.transfers[id].state == Completed {
        CompletedStays(f, r, call, id);
      } else {
        CallWork(f, r, call, id, q);
      }
    }
  }

  lemma CompletedStays(f: Fabric, s: Sys, call: Call, id: TransferId)
    requires SysOk(f, s) && CallOk(f, s, call) && id in s.exec.transfers && s.exec.transfers[id].state == Completed
    ensures id in AfterCall(s, call).exec.transfers && AfterCall(s, call).exec.transfers[id].state == Completed
  {
    hide SysOk, PicksOk, PlanOk, PreemptedIn;
    ScheduledTransfer(f, s, call, id);
    ScheduledKeeps(f, s, call);
    TickAt(Scheduled(s, call).exec, call.tick.order, call.tick.offer, call.tick.elapsed);
    TickedKeeps(f, s, call);
    DrainedWork(f, Ticked(s, call), call.picks, id, 1);
  }

  /** Bounded completion under interference: with q bytes offered per tick, an active transfer is
      complete after Work(t, q) calls plus one for every preemption it suffers. */
  lemma CompletesWithin(f: Fabric, s: Sys, calls: seq<Call>, id: TransferId, q: nat)
    requires SysOk(f, s) && Quiet(s) && CallsOk(f, s, calls) && q > 0
    requires forall i :: 0 <= i < |calls| ==> Offers(calls[i], q)
    requires id in s.exec.transfers && Active(s.exec.transfers[id])
    requires calls != [] && |calls| >= Work(s.exec.transfers[id], q) + PreemptsOf(calls, id)
    ensures id in SysRun(f, s, calls).exec.transfers && SysRun(f, s, calls).exec.transfers[id].state == Completed
  {
    RunWork(f, s, calls, id, q);
    NoLostSuspension(f, s, calls);
    var u := SysRun(f, s, calls).exec.transfers[id];
    hide CallsOk, SysRun, Work, Quiet;
    if u.state != Completed {
      assert TransferOk(id, u) && ComposedOk(u);
      UnfinishedWork(id, u, q);
    }
  }

  // ------------------------------------------------- delivery, end to end

  /** The host's writes, then selecting, preempting and submitting. */
  function ScheduleOps(call: Call): seq<Op> {
    match call
    case PollTransfers(host, _, _) => [HostWrite(host)]
    case SubmitTransfer(host, miss, req, plan, bufs, _, _, _) =>
      [HostWrite(host)] + (if miss.Miss? then [DoPreempt(miss.busy, MAX_PREEMPT, miss.picked)] else [])
      + [SubmitOp(req, plan, bufs)]
  }

  function SubmitOp(req: TransferRequest, plan: Plan, bufs: Buffers): Op {
    match plan
    case Single(path) => DoSubmit(req, path, bufs)
    case Striped(paths) => DoSubmitStriped(req, paths, bufs)
  }

  function TickOp(call: Call): Op { DoTick(call.tick.order, call.tick.offer, call.tick.elapsed) }

  function DrainOps(s: Sys, picks: seq<PathCost>, n: nat): seq<Op>
    requires n <= |s.pending| && |picks| == |s.pending|
  {
    if n == 0 then []
    else
      var d, pr := DrainN(s, picks, n - 1), s.pending[n - 1];
      DrainOps(s, picks, n - 1)
      + if DrainEntry(d, pr, picks[n - 1]).events != d.events then [DoReroute(pr.id, picks[n - 1])] else []
  }

  lemma {:induction false} RunConcat(e: ExecState, a: seq<Op>, b: seq<Op>)
    requires RunEnabled(e, a) && RunEnabled(Run(e, a), b)
    ensures RunEnabled(e, a + b) && Run(e, a + b) == Run(Run(e, a), b)
    ensures RunContract(e, a) && RunContract(Run(e, a), b) ==> RunContract(e, a + b)
  {
    hide Enabled, Contract, Apply;
    if b == [] {
      assert a + b == a;
    } else {
      var n := |b| - 1;
      RunConcat(e, a, b[..n]);
      assert (a + b)[..|a + b| - 1] == a + b[..n];
    }
  }

  lemma RunSingle(e: ExecState, op: Op)
    requires Enabled(e, op)
    ensures RunEnabled(e, [op]) && Run(e, [op]) == Apply(e, op)
    ensures Contract(e, op) ==> RunContract(e, [op])
  {
    assert [op][..0] == [];
  }

  /** Selecting, preempting and submitting are executor calls. */
  lemma ScheduleIsRun(s: Sys, call: Call)
    requires call.SubmitTransfer? && call.miss.Miss? ==>
      PreemptChoice(Hosted(s, call.host).exec, call.miss.busy, MAX_PREEMPT, call.miss.picked)
    ensures RunEnabled(s.exec, ScheduleOps(call)) && Run(s.exec, ScheduleOps(call)) == Scheduled(s, call).exec
  {
    hide PreemptChoice, Run, RunEnabled, RunContract, Contract, Reports, SuspendAll, SubmitStriped, Submit;
    var host := HostWrite(call.host);
    RunSingle(s.exec, host);
    if call.SubmitTransfer? {
      var op := SubmitOp(call.req, call.plan, call.bufs);
      if call.miss.Miss? {
        var pre := DoPreempt(call.miss.busy, MAX_PREEMPT, call.miss.picked);
        RunSnoc(s.exec, [host], pre);
        RunSnoc(s.exec, [host] + [pre], op);
      } else {
        RunSnoc(s.exec, [host], op);
        assert [host] + [] + [op] == [host] + [op];
      }
    }
  }

  lemma DrainEntryExec(d: Drained, pr: PendingReroute, best: PathCost)
    ensures var r := DrainEntry(d, pr, best);
      if r.events == d.events then r.exec == d.exec else r.exec == Reroute(d.exec, pr.id, best)
  {
    hide Reroute;
  }

  /** So is a drain, a series of reroutes. */
  lemma {:induction false} DrainIsRun(s: Sys, picks: seq<PathCost>, n: nat)
    requires n <= |s.pending| && |picks| == |s.pending|
    ensures RunEnabled(s.exec, DrainOps(s, picks, n)) && RunContract(s.exec, DrainOps(s, picks, n))
    ensures Run(s.exec, DrainOps(s, picks, n)) == DrainN(s, picks, n).exec
  {
    hide DrainEntry, Reroute;
    if n > 0 {
      DrainIsRun(s, picks, n - 1);
      var d, pr, best := DrainN(s, picks, n - 1), s.pending[n - 1], picks[n - 1];
      hide Run, RunEnabled, RunContract;
      DrainEntryExec(d, pr, best);
      if DrainEntry(d, pr, best).events != d.events {
        RunSnoc(s.exec, DrainOps(s, picks, n - 1), DoReroute(pr.id, best));
      } else {
        assert DrainOps(s, picks, n) == DrainOps(s, picks, n - 1);
      }
    }
  }

  /** What a call does after scheduling. */
  function RestOps(s: Sys, call: Call): seq<Op>
    requires |call.picks| == |Ticked(s, call).pending|
  {
    [TickOp(call)] + DrainOps(Ticked(s, call), call.picks, |call.picks|)
  }

  lemma RestIsRun(f: Fabric, s: Sys, call: Call)
    requires CallOk(f, s, call)
    ensures |call.picks| == |Ticked(s, call).pending|
    ensures var e := Scheduled(s, call).exec;
      RunEnabled(e, RestOps(s, call)) && RunContract(e, RestOps(s, call))
      && Run(e, RestOps(s, call)) == AfterCall(s, call).exec
  {
    assert |call.picks| == |Ticked(s, call).pending|;
    hide PlanOk, PreemptChoice, PicksOk, Run, RunEnabled, RunContract, DrainOps, Tick, Reports, TickDone, Ended,
         UnregisterAll, Scheduled;
    RunSingle(Scheduled(s, call).exec, TickOp(call));
    DrainIsRun(Ticked(s, call), call.picks, |call.picks|);
    RunConcat(Scheduled(s, call).exec, [TickOp(call)], DrainOps(Ticked(s, call), call.picks, |call.picks|));
  }

  /** The executor calls one shim call makes, in order. */
  function CallOps(s: Sys, call: Call): seq<Op>
    requires |call.picks| == |Ticked(s, call).pending|
  {
    ScheduleOps(call) + RestOps(s, call)
  }

  lemma CallIsRun(f: Fabric, s: Sys, call: Call)
    requires CallOk(f, s, call)
    ensures |call.picks| == |Ticked(s, call).pending|
    ensures RunEnabled(s.exec, CallOps(s, call)) && Run(s.exec, CallOps(s, call)) == AfterCall(s, call).exec
    ensures RunContract(s.exec, ScheduleOps(call)) ==> RunContract(s.exec, CallOps(s, call))
  {
    hide CallOk, ScheduleOps, RestOps, Run, RunEnabled, RunContract, AfterCall, Scheduled, Ticked;
    CallChoice(f, s, call);
    ScheduleIsRun(s, call);
    RestIsRun(f, s, call);
    RunConcat(s.exec, ScheduleOps(call), RestOps(s, call));
  }

  ghost function SysOps(f: Fabric, s: Sys, calls: seq<Call>): seq<Op>
    requires CallsOk(f, s, calls)
  {
    if calls == [] then []
    else
      var before := calls[..|calls| - 1];
      SysOps(f, s, before) + CallOps(SysRun(f, s, before), calls[|calls| - 1])
  }

  /** The callers of a run keep the buffer contract at every submission. */
  ghost predicate CallersKeep(f: Fabric, s: Sys, calls: seq<Call>)
    requires CallsOk(f, s, calls)
  {
    calls != [] ==>
      var before := calls[..|calls| - 1];
      CallersKeep(f, s, before)
      && RunContract(SysRun(f, s, before).exec, ScheduleOps(calls[|calls| - 1]))
  }

  lemma {:induction false} SysIsRun(f: Fabric, s: Sys, calls: seq<Call>)
    requires CallsOk(f, s, calls)
    ensures RunEnabled(s.exec, SysOps(f, s, calls)) && Run(s.exec, SysOps(f, s, calls)) == SysRun(f, s, calls).exec
    ensures CallersKeep(f, s, calls) ==> RunContract(s.exec, SysOps(f, s, calls))
  {
    hide CallOk, CallOps, AfterCall;
    if calls != [] {
      var before, call := calls[..|calls| - 1], calls[|calls| - 1];
      SysIsRun(f, s, before);
      CallIsRun(f, SysRun(f, s, before), call);
      hide Run, RunEnabled, RunContract;
      RunConcat(s.exec, SysOps(f, s, before), CallOps(SysRun(f, s, before), call));
    }
  }

  /** The state before call n of a run. */
  ghost function StateAt(f: Fabric, s: Sys, calls: seq<Call>, n: nat): Sys
    requires CallsOk(f, s, calls) && n <= |calls|
  {
    CallsPrefix(f, s, calls, n);
    SysRun(f, s, calls[..n])
  }

  lemma {:induction false} CallsPrefix(f: Fabric, s: Sys, calls: seq<Call>, n: nat)
    requires CallsOk(f, s, calls) && n <= |calls|
    ensures CallsOk(f, s, calls[..n])
    ensures CallersKeep(f, s, calls) ==> CallersKeep(f, s, calls[..n])
  {
    hide CallOk, RunContract;
    if n == |calls| {
      assert calls[..n] == calls;
    } else {
      CallsPrefix(f, s, calls[..|calls| - 1], n);
      assert calls[..|calls| - 1][..n] == calls[..n];
    }
  }

  /** Call n of a run, seen from the state before it. */
  lemma CallAt(f: Fabric, s: Sys, calls: seq<Call>, n: nat)
    requires CallsOk(f, s, calls) && n < |calls|
    ensures var r := StateAt(f, s, calls, n);
      CallOk(f, r, calls[n]) && StateAt(f, s, calls, n + 1) == AfterCall(r, calls[n])
    ensures CallersKeep(f, s, calls) ==> RunContract(StateAt(f, s, calls, n).exec, ScheduleOps(calls[n]))
  {
    hide CallOk, RunContract, AfterCall;
    CallsPrefix(f, s, calls, n + 1);
    assert calls[..n + 1][..n] == calls[..n];
  }

  /** The executor steps from the end of call i's scheduling to the end of call j's. */
  ghost function OpsBetween(f: Fabric, s: Sys, calls: seq<Call>, i: nat, j: nat): seq<Op>
    requires CallsOk(f, s, calls) && i <= j < |calls|
  {
    if i == j then []
    else
      CallAt(f, s, calls, j - 1);
      OpsBetween(f, s, calls, i, j - 1) + RestOps(StateAt(f, s, calls, j - 1), calls[j - 1]) + ScheduleOps(calls[j])
  }

  lemma {:induction false} BetweenIsRun(f: Fabric, s: Sys, calls: seq<Call>, i: nat, j: nat)
    requires CallsOk(f, s, calls) && CallersKeep(f, s, calls) && i <= j < |calls|
    ensures var e := Scheduled(StateAt(f, s, calls, i), calls[i]).exec;
      && RunEnabled(e, OpsBetween(f, s, calls, i, j)) && RunContract(e, OpsBetween(f, s, calls, i, j))
      && Run(e, OpsBetween(f, s, calls, i, j)) == Scheduled(StateAt(f, s, calls, j), calls[j]).exec
  {
    hide CallOk, RestOps, ScheduleOps, AfterCall, Scheduled, CallsOk, CallersKeep, StateAt, Run, RunEnabled,
         RunContract;
    if i == j {
      EmptyRun(Scheduled(StateAt(f, s, calls, i), calls[i]).exec);
    } else {
      BetweenIsRun(f, s, calls, i, j - 1);
      CallAt(f, s, calls, j - 1);
      CallAt(f, s, calls, j);
      var e, r := Scheduled(StateAt(f, s, calls, i), calls[i]).exec, StateAt(f, s, calls, j - 1);
      RestIsRun(f, r, calls[j - 1]);
      CallChoice(f, StateAt(f, s, calls, j), calls[j]);
      ScheduleIsRun(StateAt(f, s, calls, j), calls[j]);
      RunConcat(e, OpsBetween(f, s, calls, i, j - 1), RestOps(r, calls[j - 1]));
      RunConcat(e, OpsBetween(f, s, calls, i, j - 1) + RestOps(r, calls[j - 1]), ScheduleOps(calls[j]));
    }
  }

  lemma CallChoice(f: Fabric, s: Sys, call: Call)
    requires CallOk(f, s, call)
    ensures call.SubmitTransfer? && call.miss.Miss? ==>
      PreemptChoice(Hosted(s, call.host).exec, call.miss.busy, MAX_PREEMPT, call.miss.picked)
    ensures call.SubmitTransfer? ==> PlanOk(f, call.req, call.plan)
  {
  }

  /** What a submission leaves behind its scheduling: the transfer it returns the id of, laid out
      over the whole request, bound to the caller's buffers, nothing sent. */
  lemma SubmissionTiles(f: Fabric, s: Sys, call: Call)
    requires SysOk(f, s) && CallOk(f, s, call) && call.SubmitTransfer?
    ensures var e := Scheduled(s, call).exec;
      && s.exec.nextId in e.transfers && e.mem == call.host
      && var t := e.transfers[s.exec.nextId];
         Tiles(t) && t.src == call.bufs.src && t.dst == call.bufs.dst && t.total == call.req.size
  {
    hide SysOk, PlanOk, PreemptChoice, PicksOk, IsOrder, PlanState, Tiles;
    var h := AfterMiss(Hosted(s, call.host), call.miss);
    CallChoice(f, s, call);
    MissFrame(Hosted(s, call.host), call.miss);
    PlansTile(f, h.exec, call.req, call.plan, call.bufs);
    PlanFrame(h.exec, call.req, call.plan, call.bufs);
  }

  lemma MissFrame(s: Sys, miss: Miss)
    ensures AfterMiss(s, miss).exec.nextId == s.exec.nextId && AfterMiss(s, miss).exec.mem == s.exec.mem
  {
    if miss.Miss? { SuspendFrame(s.exec, miss.picked); }
  }

  lemma {:induction false} SuspendFrame(e: ExecState, picked: seq<TransferId>)
    ensures SuspendAll(e, picked).nextId == e.nextId && SuspendAll(e, picked).mem == e.mem
  {
    if picked != [] { SuspendFrame(e, picked[..|picked| - 1]); }
  }

  lemma PlanFrame(e: ExecState, req: TransferRequest, plan: Plan, bufs: Buffers)
    ensures PlanState(e, req, plan, bufs).mem == e.mem
  {
  }

  /** A run keeps the executor deliverable. */
  lemma RunStaysDeliverable(f: Fabric, s: Sys, calls: seq<Call>, n: nat)
    requires SysOk(f, s) && Quiet(s) && DeliveryOk(s.exec)
    requires CallsOk(f, s, calls) && CallersKeep(f, s, calls) && n < |calls|
    ensures SysOk(f, StateAt(f, s, calls, n)) && DeliveryOk(Scheduled(StateAt(f, s, calls, n), calls[n]).exec)
    ensures ExecOk(Scheduled(StateAt(f, s, calls, n), calls[n]).exec)
  {
    var r := StateAt(f, s, calls, n);
    CallsPrefix(f, s, calls, n);
    CallAt(f, s, calls, n);
    NoLostSuspension(f, s, calls[..n]);
    SysIsRun(f, s, calls[..n]);
    assert ExecOk(s.exec) && ExecOk(r.exec);
    hide SysOk, CallsOk, CallersKeep, Quiet, CallOk, Run, RunEnabled, RunContract, SysOps, ScheduleOps, Scheduled,
         DeliveryOk, ExecOk;
    RunDelivers(s.exec, SysOps(f, s, calls[..n]));
    CallChoice(f, r, calls[n]);
    ScheduleIsRun(r, calls[n]);
    RunDelivers(r.exec, ScheduleOps(calls[n]));
    RunOk(r.exec, ScheduleOps(calls[n]));
  }

  /** End-to-end delivery. In any run of shim calls from the start whose callers keep the buffer
      contract: if call i submits a bound transfer and the id it returns is done in the tick of call
      j, its own or any later one, then after that tick dst holds, over the whole request, what src
      held at the submission, whatever preemptions, reroutes and other transfers came between. */
  lemma ScheduledDelivers(f: Fabric, rails: seq<int>, mem: Memory, calls: seq<Call>, i: nat, j: nat)
    requires CallsOk(f, InitSys(rails, mem), calls) && CallersKeep(f, InitSys(rails, mem), calls)
    requires i <= j < |calls| && calls[i].SubmitTransfer? && calls[i].bufs.src != 0 && calls[i].bufs.dst != 0
    requires StateAt(f, InitSys(rails, mem), calls, i).exec.nextId
      in Done(Scheduled(StateAt(f, InitSys(rails, mem), calls, j), calls[j]).exec, TickOp(calls[j]))
    ensures var m := Ticked(StateAt(f, InitSys(rails, mem), calls, j), calls[j]).exec.mem;
      forall x: nat :: x < calls[i].req.size ==>
        Copied(m, calls[i].host, calls[i].bufs.src, calls[i].bufs.dst, x)
  {
    var s := InitSys(rails, mem);
    StartKeeps(f, rails, mem);
    StartDelivers(rails, mem);
    hide InitSys, SysOk, Quiet, DeliveryOk, ExecOk;
    DeliversBetween(f, s, calls, i, j);
  }

  lemma StartDelivers(rails: seq<int>, mem: Memory)
    ensures DeliveryOk(InitSys(rails, mem).exec)
  {
  }

  /** The same from any state in order. */
  lemma DeliversBetween(f: Fabric, s: Sys, calls: seq<Call>, i: nat, j: nat)
    requires SysOk(f, s) && Quiet(s) && DeliveryOk(s.exec)
    requires CallsOk(f, s, calls) && CallersKeep(f, s, calls)
    requires i <= j < |calls| && calls[i].SubmitTransfer? && calls[i].bufs.src != 0 && calls[i].bufs.dst != 0
    requires StateAt(f, s, calls, i).exec.nextId
      in Done(Scheduled(StateAt(f, s, calls, j), calls[j]).exec, TickOp(calls[j]))
    ensures var m := Ticked(StateAt(f, s, calls, j), calls[j]).exec.mem;
      forall x: nat :: x < calls[i].req.size ==>
        Copied(m, calls[i].host, calls[i].bufs.src, calls[i].bufs.dst, x)
  {
    hide SysOk, Quiet, DeliveryOk, CallsOk, CallersKeep, StateAt, CallOk, Scheduled, OpsBetween, Tick, TickDone, Tiles,
         ExecOk, Run, RunEnabled, RunContract, IsOrder;
    var r, e := StateAt(f, s, calls, i), Scheduled(StateAt(f, s, calls, i), calls[i]).exec;
    RunStaysDeliverable(f, s, calls, i);
    CallAt(f, s, calls, i);
    SubmissionTiles(f, r, calls[i]);
    BetweenIsRun(f, s, calls, i, j);
    CallAt(f, s, calls, j);
    TickEnabled(f, StateAt(f, s, calls, j), calls[j]);
    PayloadDelivered(e, OpsBetween(f, s, calls, i, j), TickOp(calls[j]), r.exec.nextId);
  }

  lemma TickEnabled(f: Fabric, s: Sys, call: Call)
    requires CallOk(f, s, call)
    ensures Enabled(Scheduled(s, call).exec, TickOp(call))
  {
  }

  /** What schedule_and_execute submits tiles its request and stays inside it. */
  lemma PlansTile(f: Fabric, e: ExecState, req: TransferRequest, plan: Plan, bufs: Buffers)
    requires PlanOk(f, req, plan)
    ensures e.nextId in PlanState(e, req, plan, bufs).transfers
    ensures var t := PlanState(e, req, plan, bufs).transfers[e.nextId];
      Tiles(t) && InBounds(t.chunks, t.total) && t.src == bufs.src && t.dst == bufs.dst && t.total == req.size
  {
    match plan
    case Single(path) => SubmittedComposed(e.nextId, req, path, e.rails, bufs);
    case Striped(paths) =>
      if paths == [] {
        SubmittedComposed(e.nextId, req, PathCost([], 0.0), e.rails, bufs);
      } else {
        StripedComposed(e.nextId, req, paths, e.rails, bufs, KV_CHUNK_BYTES);
      }
  }
}
