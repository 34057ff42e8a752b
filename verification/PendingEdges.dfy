/** What a waiting transfer is to avoid is on its path, over whole runs. */
module PendingEdges {
  import opened Model
  import opened TransferSpec
  import opened TransferInvariant
  import opened TransferRuns
  import opened EngineSpec
  import opened ComposedTransfer
  import opened SystemSpec
  import opened SystemInvariant
  import opened SystemRuns

  /** An entry whose transfer is still suspended avoids an edge of that transfer's path. */
  ghost predicate EntryOnPath(pr: PendingReroute, ts: map<TransferId, Transfer>) {
    pr.id in ts && Suspended(ts[pr.id]) ==> Shares(ts[pr.id].pathEdges, pr.avoid)
  }

  ghost predicate AllOnPath(pending: seq<PendingReroute>, ts: map<TransferId, Transfer>) {
    forall pr :: pr in pending ==> EntryOnPath(pr, ts)
  }

  ghost predicate WaitsOnPath(s: Sys) { AllOnPath(s.pending, s.exec.transfers) }

  /** The transfer has not moved, and is suspended only if it was. */
  predicate NoNewWait(t: Transfer, u: Transfer) {
    Suspended(u) ==> Suspended(t) && u.pathEdges == t.pathEdges
  }

  lemma StillOnPath(pending: seq<PendingReroute>, fewer: seq<PendingReroute>, ts: map<TransferId, Transfer>,
                    us: map<TransferId, Transfer>)
    requires AllOnPath(pending, ts) && forall pr :: pr in fewer ==> pr in pending
    requires us.Keys == ts.Keys && forall pr :: pr in fewer && pr.id in ts ==> NoNewWait(ts[pr.id], us[pr.id])
    ensures AllOnPath(fewer, us)
  {
    forall pr | pr in fewer ensures EntryOnPath(pr, us) {
      assert EntryOnPath(pr, ts);
      assert pr.id in us ==> NoNewWait(ts[pr.id], us[pr.id]);
    }
  }

  lemma JoinOnPath(a: seq<PendingReroute>, b: seq<PendingReroute>, ts: map<TransferId, Transfer>)
    requires AllOnPath(a, ts) && AllOnPath(b, ts)
    ensures AllOnPath(a + b, ts)
  {
    hide EntryOnPath;
  }

  // ------------------------------------------------------------- preemption

  lemma PickedShares(f: Fabric, s: Sys, busy: seq<nat>, picked: seq<TransferId>, id: TransferId)
    requires SysOk(f, s) && PreemptChoice(s.exec, busy, MAX_PREEMPT, picked) && id in picked
    ensures id in s.exec.transfers && Shares(s.exec.transfers[id].pathEdges, busy)
  {
    ChoiceFacts(s.exec, busy, MAX_PREEMPT, picked);
    assert TransferOk(id, s.exec.transfers[id]);
    hide *;
    CandidateShares(id, s.exec.transfers[id], busy);
  }

  /** A preemption's entries avoid edges their transfers are on. */
  lemma PickedOnPath(f: Fabric, s: Sys, busy: seq<nat>, picked: seq<TransferId>)
    requires SysOk(f, s) && PreemptChoice(s.exec, busy, MAX_PREEMPT, picked)
    ensures AllOnPath(PendAll(picked, busy), SuspendAll(s.exec, picked).transfers)
  {
    forall id | id in picked ensures id in s.exec.transfers && Shares(s.exec.transfers[id].pathEdges, busy) {
      PickedShares(f, s, busy, picked, id);
    }
    hide SysOk, PreemptChoice, SuspendAll, Shares;
    SuspendAllAt(s.exec, picked);
    forall pr | pr in PendAll(picked, busy) ensures EntryOnPath(pr, SuspendAll(s.exec, picked).transfers) {
      var i :| 0 <= i < |picked| && PendAll(picked, busy)[i] == pr;
      assert picked[i] in picked;
    }
  }

  /** Who waits already is not suspended again. */
  lemma WaitersNotPicked(f: Fabric, s: Sys, busy: seq<nat>, picked: seq<TransferId>)
    requires SysOk(f, s) && PreemptChoice(s.exec, busy, MAX_PREEMPT, picked)
    ensures forall pr :: pr in s.pending ==> pr.id in s.exec.transfers && pr.id !in picked
  {
    ChoiceFacts(s.exec, busy, MAX_PREEMPT, picked);
    hide ExecOk, TransfersOk, PreemptChoice, FlowsFor, CountsOk;
    forall pr | pr in s.pending ensures pr.id in s.exec.transfers && pr.id !in picked {
      var i :| 0 <= i < |s.pending| && s.pending[i] == pr;
      assert Ids(s.pending)[i] in Ids(s.pending);
    }
  }

  lemma PreemptOnPath(f: Fabric, s: Sys, busy: seq<nat>, picked: seq<TransferId>)
    requires SysOk(f, s) && WaitsOnPath(s) && PreemptChoice(s.exec, busy, MAX_PREEMPT, picked)
    ensures WaitsOnPath(SysPreempt(s, busy, picked))
  {
    PickedOnPath(f, s, busy, picked);
    WaitersNotPicked(f, s, busy, picked);
    ChoiceFacts(s.exec, busy, MAX_PREEMPT, picked);
    hide SysOk, PreemptChoice, SuspendAll, AllOnPath, SuspendTransfer;
    SuspendAllAt(s.exec, picked);
    StillOnPath(s.pending, s.pending, s.exec.transfers, SuspendAll(s.exec, picked).transfers);
    JoinOnPath(s.pending, PendAll(picked, busy), SuspendAll(s.exec, picked).transfers);
  }

  lemma ScheduledOnPath(f: Fabric, s: Sys, call: Call)
    requires SysOk(f, s) && CallOk(f, s, call) && WaitsOnPath(s)
    ensures WaitsOnPath(Scheduled(s, call))
  {
    HostKeeps(f, s, call.host);
    hide SysOk, PlanOk, PicksOk, IsOrder, PreemptChoice, EntryOnPath, SysPreempt, PlanState;
    if call.SubmitTransfer? {
      var h := Hosted(s, call.host);
      if call.miss.Miss? {
        PreemptOnPath(f, h, call.miss.busy, call.miss.picked);
        PreemptKeeps(f, h, call.miss.busy, MAX_PREEMPT, call.miss.picked);
      }
      SubmitOnPath(f, AfterMiss(h, call.miss), call);
    }
  }

  lemma NewIsRunning(e: ExecState, req: TransferRequest, plan: Plan, bufs: Buffers)
    ensures var r := PlanState(e, req, plan, bufs);
      && r.transfers.Keys == e.transfers.Keys + {e.nextId} && !Suspended(r.transfers[e.nextId])
      && forall id :: id in e.transfers && id != e.nextId ==> r.transfers[id] == e.transfers[id]
  {
    hide Promote, LaidOut, UnionEdges;
  }

  lemma SubmitOnPath(f: Fabric, s: Sys, call: Call)
    requires SysOk(f, s) && WaitsOnPath(s) && call.SubmitTransfer?
    ensures WaitsOnPath(SysSubmit(s, call.req, call.plan, call.bufs, call.flow))
  {
    ExecIds(s.exec);
    hide SysOk, PlanState, Shares;
    NewIsRunning(s.exec, call.req, call.plan, call.bufs);
    var r := SysSubmit(s, call.req, call.plan, call.bufs, call.flow);
    forall pr | pr in r.pending ensures EntryOnPath(pr, r.exec.transfers) { assert EntryOnPath(pr, s.exec.transfers); }
  }

  // --------------------------------------------------------- tick and drain

  lemma TickedOnPath(s: Sys, args: TickArgs)
    requires WaitsOnPath(s) && ExecOk(s.exec) && IsOrder(args.order, s.exec.transfers)
    ensures WaitsOnPath(SysTick(s, args.order, args.offer, args.elapsed))
  {
    hide AllOnPath, TickTransfer, Tick, TickDone, Ended, UnregisterAll;
    TickAt(s.exec, args.order, args.offer, args.elapsed);
    forall id | id in s.exec.transfers
      ensures NoNewWait(s.exec.transfers[id], Tick(s.exec, args.order, args.offer, args.elapsed).transfers[id])
    {
      var t := s.exec.transfers[id];
      assert TransferOk(id, t);
      hide ExecOk, TransferOk;
      if Active(t) {
        FlagFrom(id, t);
        TickStates(id, t, args.offer, args.elapsed(id));
      }
    }
    StillOnPath(s.pending, s.pending, s.exec.transfers,
                Tick(s.exec, args.order, args.offer, args.elapsed).transfers);
  }

  lemma EntryStill(d: Drained, pr: PendingReroute, best: PathCost, pending: seq<PendingReroute>)
    requires AllOnPath(pending, d.exec.transfers)
    ensures AllOnPath(pending, DrainEntry(d, pr, best).exec.transfers)
    ensures forall x :: x in DrainEntry(d, pr, best).still ==> x in d.still || x == pr
  {
    var r := DrainEntry(d, pr, best);
    assert pr.id in d.exec.transfers && r.events != d.events ==> r.exec.transfers[pr.id].state == InFlight;
    hide RerouteTransfer, AllOnPath;
    StillOnPath(pending, pending, d.exec.transfers, r.exec.transfers);
  }

  lemma {:induction false} DrainOnPath(s: Sys, picks: seq<PathCost>, n: nat)
    requires WaitsOnPath(s) && n <= |s.pending| == |picks|
    ensures AllOnPath(s.pending, DrainN(s, picks, n).exec.transfers)
    ensures forall pr :: pr in DrainN(s, picks, n).still ==> pr in s.pending
  {
    hide AllOnPath, DrainEntry;
    if n > 0 {
      DrainOnPath(s, picks, n - 1);
      EntryStill(DrainN(s, picks, n - 1), s.pending[n - 1], picks[n - 1], s.pending);
    }
  }

  lemma DrainedOnPath(s: Sys, picks: seq<PathCost>)
    requires WaitsOnPath(s) && |s.pending| == |picks|
    ensures WaitsOnPath(SysDrain(s, picks))
  {
    DrainOnPath(s, picks, |s.pending|);
    hide DrainN, EntryOnPath;
  }

  // ------------------------------------------------------------- whole runs

  lemma CallOnPath(f: Fabric, s: Sys, call: Call)
    requires SysOk(f, s) && CallOk(f, s, call) && WaitsOnPath(s)
    ensures WaitsOnPath(AfterCall(s, call))
  {
    ScheduledOnPath(f, s, call);
    ScheduledKeeps(f, s, call);
    assert ExecOk(Scheduled(s, call).exec);
    hide SysOk, Scheduled, WaitsOnPath, SysTick, SysDrain, PreemptChoice, PlanOk, ExecOk;
    TickedOnPath(Scheduled(s, call), call.tick);
    DrainedOnPath(Ticked(s, call), call.picks);
  }

  lemma {:induction false} RunOnPath(f: Fabric, s: Sys, calls: seq<Call>)
    requires SysOk(f, s) && Quiet(s) && WaitsOnPath(s) && CallsOk(f, s, calls)
    ensures WaitsOnPath(SysRun(f, s, calls))
  {
    hide SysOk, Quiet, WaitsOnPath, CallOk;
    if calls != [] {
      var before, call := calls[..|calls| - 1], calls[|calls| - 1];
      RunOnPath(f, s, before);
      NoLostSuspension(f, s, before);
      CallOnPath(f, SysRun(f, s, before), call);
    }
  }

  /** In every run from the start a transfer that waits for a reroute is on one of the edges it is to
      be moved off. */
  lemma WaitersOnPath(f: Fabric, rails: seq<int>, mem: Memory, calls: seq<Call>)
    requires CallsOk(f, InitSys(rails, mem), calls)
    ensures WaitsOnPath(SysRun(f, InitSys(rails, mem), calls))
  {
    StartKeeps(f, rails, mem);
    hide SysOk, Quiet, SysRun, CallsOk;
    RunOnPath(f, InitSys(rails, mem), calls);
  }
}
