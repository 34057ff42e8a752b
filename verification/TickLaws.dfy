/** What one tick can and cannot move, and which of its numbers mean what. */
module TickLaws {
  import opened Model
  import opened Arithmetic
  import opened Sums
  import opened PathSearch
  import opened TransferSpec
  import opened TransferInvariant
  import opened TransferRuns
  import opened TransferPayload
  import opened EngineSpec
  import opened ComposedTransfer
  import opened BoundedCompletion
  import opened SystemSpec
  import opened SystemInvariant
  import opened SystemRuns
  import opened Bandwidth

  // ---------------------------------------------------------- one chunk

  /** Of a tick a chunk on the wire takes all it is offered, or all it still needs; any other chunk
      takes nothing. */
  lemma ChunkTakes(id: TransferId, t: Transfer, offer: Offer, elapsed: real, i: nat)
    requires TransferOk(id, t) && Active(t) && i < |t.chunks|
    ensures var c, u := t.chunks[i], TickTransfer(t, offer, elapsed);
      && |u.chunks| == |t.chunks| && |Staged(t)| == |t.chunks|
      && u.chunks[i].sent <= c.sent + offer(c.edges)
      && (Staged(t)[i].state == InFlight ==>
            u.chunks[i].sent == u.chunks[i].size || u.chunks[i].sent == c.sent + offer(c.edges))
      && (Staged(t)[i].state != InFlight ==> u.chunks[i].sent == c.sent)
  {
    StagedAt(t, i);
    AdvancedAt(t, offer, i);
    assert Within(t.chunks[i]);
    hide Staged, SumBy, Advanced, TransferOk, AdvanceChunk;
    AdvanceTakes(Staged(t)[i], offer(t.chunks[i].edges));
    TickChunks(t, offer, elapsed, i);
  }

  lemma AdvanceTakes(c: Chunk, n: nat)
    requires Within(c)
    ensures var d := AdvanceChunk(c, n);
      && d.size == c.size && d.sent <= c.sent + n
      && (c.state == InFlight ==> d.sent == d.size || d.sent == c.sent + n)
      && (c.state != InFlight ==> d.sent == c.sent)
  {
  }

  /** Settling changes no chunk's bytes. */
  lemma TickChunks(t: Transfer, offer: Offer, elapsed: real, i: nat)
    requires i < |Advanced(t, offer)|
    ensures var u := TickTransfer(t, offer, elapsed);
      && |u.chunks| == |Advanced(t, offer)| && u.chunks[i].sent == Advanced(t, offer)[i].sent
      && u.chunks[i].size == Advanced(t, offer)[i].size
  {
    hide SumBy, Advanced;
  }

  // --------------------------------------------------- the last chunk's tick

  /** Chunk k is on the wire and all the others are finished. */
  predicate LastChunk(t: Transfer, k: nat) {
    && k < |t.chunks| && t.chunks[k].state == InFlight
    && forall i :: 0 <= i < |t.chunks| && i != k ==> t.chunks[i].state == Completed
  }

  /** A tick completes a transfer down to its last chunk if and only if it offers what that chunk
      still needs. */
  lemma LastChunkCompletes(id: TransferId, t: Transfer, offer: Offer, elapsed: real, k: nat)
    requires TransferOk(id, t) && ComposedOk(t) && Active(t) && LastChunk(t, k)
    ensures TickTransfer(t, offer, elapsed).state == Completed <==> Remain(t.chunks[k]) <= offer(t.chunks[k].edges)
  {
    if Remain(t.chunks[k]) <= offer(t.chunks[k].edges) {
      FullCompletes(id, t, offer, elapsed, k);
    } else if TickTransfer(t, offer, elapsed).state == Completed {
      TickCompletesFull(id, t, offer, elapsed);
      ChunkTakes(id, t, offer, elapsed, k);
      SameSize(t, offer, elapsed, k);
    }
  }

  lemma FullCompletes(id: TransferId, t: Transfer, offer: Offer, elapsed: real, k: nat)
    requires TransferOk(id, t) && ComposedOk(t) && Active(t) && LastChunk(t, k)
    requires Remain(t.chunks[k]) <= offer(t.chunks[k].edges)
    ensures TickTransfer(t, offer, elapsed).state == Completed
  {
    var cs := Advanced(t, offer);
    forall i | 0 <= i < |cs| ensures cs[i].sent == cs[i].size { AdvancedFull(id, t, offer, k, i); }
    AllCompletedFull(cs);
    AdvancedBytes(t, offer);
    hide Advanced, TransferOk;
  }

  lemma SameSize(t: Transfer, offer: Offer, elapsed: real, i: nat)
    requires i < |t.chunks|
    ensures |TickTransfer(t, offer, elapsed).chunks| == |t.chunks|
    ensures TickTransfer(t, offer, elapsed).chunks[i].size == t.chunks[i].size
  {
    StagedAt(t, i);
    AdvancedAt(t, offer, i);
    hide Staged, SumBy, Advanced;
  }

  lemma AdvancedFull(id: TransferId, t: Transfer, offer: Offer, k: nat, i: nat)
    requires TransferOk(id, t) && Active(t) && LastChunk(t, k)
    requires Remain(t.chunks[k]) <= offer(t.chunks[k].edges) && i < |Advanced(t, offer)|
    ensures Advanced(t, offer)[i].sent == Advanced(t, offer)[i].size
  {
    assert |Staged(t)| == |t.chunks| by { StagedAt(t, k); }
    StagedAt(t, i);
    AdvancedAt(t, offer, i);
    assert Within(t.chunks[i]) && Fits(t.state, t.chunks[i]);
    hide Staged, Advanced;
  }

  /** So a poll reports a transfer down to its last chunk as done if and only if that chunk needs no
      more than dt milliseconds move over its path under the telemetry of the moment. */
  lemma PollCompletesIff(f: Fabric, s: Sys, call: Call, residual: Residual, dt: real, utils: seq<real>, id: TransferId,
                         k: nat)
    requires SysOk(f, s) && CallOk(f, s, call) && call.PollTransfers?
    requires call.tick.offer == OfferOf(f.edges, residual)(dt, utils)
    requires id in s.exec.transfers && Active(s.exec.transfers[id]) && LastChunk(s.exec.transfers[id], k)
    ensures var c := s.exec.transfers[id].chunks[k];
      (id in Done(Hosted(s, call.host).exec, TickOp(call))
       <==> Remain(c) <= BytesForDt(Bottleneck(f.edges, c.edges, utils, residual), dt))
      && (id in Done(Hosted(s, call.host).exec, TickOp(call)) ==>
            id in Ticked(s, call).exec.transfers && Ticked(s, call).exec.transfers[id].state == Completed)
  {
    hide SysOk, CallOk, LastChunk, TransferOk, ComposedOk, TickTransfer, Bottleneck, BytesForDt, Hosted, Done, Ticked,
         Remain;
    PollFacts(f, s, call, id);
    LastChunkCompletes(id, s.exec.transfers[id], call.tick.offer, call.tick.elapsed(id), k);
    PollReports(s, call, id);
    assert |s.exec.transfers[id].chunks| > k by { LastThere(s.exec.transfers[id], k); }
  }

  lemma LastThere(t: Transfer, k: nat)
    requires LastChunk(t, k)
    ensures k < |t.chunks|
  {
  }

  /** A poll reports an active transfer exactly when its own step completes it. */
  lemma PollReports(s: Sys, call: Call, id: TransferId)
    requires call.PollTransfers? && IsOrder(call.tick.order, Hosted(s, call.host).exec.transfers)
    requires id in s.exec.transfers && Active(s.exec.transfers[id])
    ensures var u := TickTransfer(s.exec.transfers[id], call.tick.offer, call.tick.elapsed(id));
      && (id in Done(Hosted(s, call.host).exec, TickOp(call)) <==> u.state == Completed)
      && id in Ticked(s, call).exec.transfers && Ticked(s, call).exec.transfers[id] == u
  {
    hide TickTransfer, Tick, TickDone, IsOrder, Ended, UnregisterAll;
    TickReports(Hosted(s, call.host).exec, call.tick.order, call.tick.offer, call.tick.elapsed, id);
  }

  /** A tick reports an active transfer exactly when its own step completes it. */
  lemma TickReports(e: ExecState, order: seq<TransferId>, offer: Offer, elapsed: Clock, id: TransferId)
    requires IsOrder(order, e.transfers) && id in e.transfers && Active(e.transfers[id])
    ensures id in TickDone(e, order, offer, elapsed)
      <==> TickTransfer(e.transfers[id], offer, elapsed(id)).state == Completed
    ensures id in Tick(e, order, offer, elapsed).transfers
    ensures Tick(e, order, offer, elapsed).transfers[id] == TickTransfer(e.transfers[id], offer, elapsed(id))
  {
    hide TickTransfer, Tick, TickDone;
    TickAt(e, order, offer, elapsed);
    TickDoneAt(e, order, offer, elapsed);
  }

  lemma PollFacts(f: Fabric, s: Sys, call: Call, id: TransferId)
    requires SysOk(f, s) && CallOk(f, s, call) && call.PollTransfers? && id in s.exec.transfers
    ensures TransferOk(id, s.exec.transfers[id]) && ComposedOk(s.exec.transfers[id])
    ensures IsOrder(call.tick.order, Hosted(s, call.host).exec.transfers)
  {
  }

  // ------------------------------------------------------------- throughput

  lemma SlotsAreTwo(cs: seq<Chunk>)
    ensures |BusySlots(cs)| <= 2
  {
    assert BusySlots(cs) <= {0, 1};
    Subcard(BusySlots(cs), {0, 1});
  }

  lemma SlotsSnoc(cs: seq<Chunk>, c: Chunk)
    requires RailExclusive(cs + [c])
    ensures RailExclusive(cs)
    ensures |BusySlots(cs + [c])| == |BusySlots(cs)| + if c.state == InFlight then 1 else 0
  {
    var all := cs + [c];
    assert forall i :: 0 <= i < |cs| ==> all[i] == cs[i];
    assert all[|cs|] == c;
    if c.state == InFlight {
      assert BusySlots(all) == BusySlots(cs) + {Slot(c.rail)};
      assert Slot(c.rail) !in BusySlots(cs);
    } else {
      assert BusySlots(all) == BusySlots(cs);
    }
  }

  /** Chunks on distinct slots move at most one offer a slot. */
  lemma {:induction false} SlotBytes(cs: seq<Chunk>, step: Chunk -> nat, q: nat)
    requires RailExclusive(cs)
    requires forall i :: 0 <= i < |cs| ==> step(cs[i]) <= if cs[i].state == InFlight then q else 0
    ensures SumBy(cs, step) <= |BusySlots(cs)| * q
  {
    hide RailExclusive, BusySlots;
    if cs != [] {
      var n := |cs| - 1;
      assert cs == cs[..n] + [cs[n]];
      SlotsSnoc(cs[..n], cs[n]);
      SlotBytes(cs[..n], step, q);
      MulSucc(|BusySlots(cs[..n])|, q);
    }
  }

  /** A tick moves at most two offers for one transfer: one for each rail. */
  lemma TickAtMost(id: TransferId, t: Transfer, offer: Offer, elapsed: real, q: nat)
    requires TransferOk(id, t) && Active(t) && forall path :: offer(path) <= q
    ensures TickBytes(t, offer) <= 2 * q
    ensures TickTransfer(t, offer, elapsed).remaining + 2 * q >= t.remaining
  {
    StagedExclusive(t);
    var step := (c: Chunk) => StepBytes(c, offer(c.edges));
    SlotsAreTwo(Staged(t));
    SlotBytes(Staged(t), step, q);
    AdvancedBytes(t, offer);
    AtMostTwo(|BusySlots(Staged(t))|, q);
    hide Advanced, Staged, Shape, FitsAll;
  }

  lemma AtMostTwo(n: nat, q: nat)
    requires n <= 2
    ensures n * q <= 2 * q
  {
  }

  /** No tick of the call offers any path more than q bytes. */
  ghost predicate OffersAtMost(call: Call, q: nat) { forall path :: call.tick.offer(path) <= q }

  lemma TickedAtMost(e: ExecState, args: TickArgs, id: TransferId, q: nat)
    requires ExecOk(e) && IsOrder(args.order, e.transfers) && id in e.transfers
    requires forall path :: args.offer(path) <= q
    ensures id in Tick(e, args.order, args.offer, args.elapsed).transfers
    ensures Tick(e, args.order, args.offer, args.elapsed).transfers[id].remaining + 2 * q >= e.transfers[id].remaining
  {
    assert TransferOk(id, e.transfers[id]);
    hide ExecOk, TransferOk, TickTransfer, Tick;
    TickAt(e, args.order, args.offer, args.elapsed);
    if Active(e.transfers[id]) { TickAtMost(id, e.transfers[id], args.offer, args.elapsed(id), q); }
  }

  lemma CallAtMost(f: Fabric, s: Sys, call: Call, id: TransferId, q: nat)
    requires SysOk(f, s) && CallOk(f, s, call) && OffersAtMost(call, q) && id in s.exec.transfers
    ensures id in AfterCall(s, call).exec.transfers
    ensures AfterCall(s, call).exec.transfers[id].remaining + 2 * q >= s.exec.transfers[id].remaining
  {
    ScheduledTransfer(f, s, call, id);
    ScheduledKeeps(f, s, call);
    TickedKeeps(f, s, call);
    assert ExecOk(Scheduled(s, call).exec);
    hide SysOk, PicksOk, IsOrder, PlanOk, PreemptChoice, ExecOk, Scheduled, PreemptedIn, Tick, TickDone, SysDrain;
    TickedAtMost(Scheduled(s, call).exec, call.tick, id, q);
    DrainedWork(f, Ticked(s, call), call.picks, id, 1);
  }

  /** Bounded speed: whatever else happens, n calls that offer a path at most q bytes take at most
      2 * q * n off what a transfer has left, so that it is not complete any sooner. */
  lemma {:induction false} TakesAtLeast(f: Fabric, s: Sys, calls: seq<Call>, id: TransferId, q: nat)
    requires SysOk(f, s) && Quiet(s) && CallsOk(f, s, calls) && id in s.exec.transfers
    requires forall i :: 0 <= i < |calls| ==> OffersAtMost(calls[i], q)
    ensures id in SysRun(f, s, calls).exec.transfers
    ensures SysRun(f, s, calls).exec.transfers[id].remaining + |calls| * (2 * q) >= s.exec.transfers[id].remaining
    ensures s.exec.transfers[id].remaining > |calls| * (2 * q) ==>
      SysRun(f, s, calls).exec.transfers[id].state != Completed
  {
    hide SysOk, CallOk, Quiet, OffersAtMost;
    NoLostSuspension(f, s, calls);
    if calls != [] {
      var before, call := calls[..|calls| - 1], calls[|calls| - 1];
      assert forall i :: 0 <= i < |before| ==> before[i] == calls[i];
      TakesAtLeast(f, s, before, id, q);
      NoLostSuspension(f, s, before);
      CallAtMost(f, SysRun(f, s, before), call, id, q);
      MulSucc(|before|, 2 * q);
    }
    if SysRun(f, s, calls).exec.transfers[id].state == Completed {
      CompletedIsEmpty(f, SysRun(f, s, calls), id);
    }
  }

  lemma CompletedIsEmpty(f: Fabric, s: Sys, id: TransferId)
    requires SysOk(f, s) && id in s.exec.transfers && s.exec.transfers[id].state == Completed
    ensures s.exec.transfers[id].remaining == 0
  {
    assert TransferOk(id, s.exec.transfers[id]);
  }
}
