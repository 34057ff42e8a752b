/** End to end: a transfer that completes through a tick leaves the destination holding
    the bytes the source held when it was submitted, and nothing else was written. */
module TransferPayload {
  import opened Model
  import opened Sums
  import opened TransferSpec
  import opened TransferInvariant
  import opened TransferDelivery
  import opened TransferRuns

  /** The chunk ranges cover the request, and no byte is counted twice. */
  ghost predicate Tiles(t: Transfer) {
    && SumBy(t.chunks, SizeOf) == t.total
    && forall x: nat :: x < t.total ==> Reached(t.chunks, x)
  }

  ghost predicate Reached(cs: seq<Chunk>, x: nat) { exists i :: 0 <= i < |cs| && Holds(cs[i], x) }

  predicate Holds(c: Chunk, x: nat) { c.offset <= x < c.offset + c.size }

  /** A transfer whose chunk sizes add up to its request completes by a tick only full. */
  lemma TickCompletesFull(id: TransferId, t: Transfer, offer: Offer, elapsed: real)
    requires TransferOk(id, t) && Active(t) && SumBy(t.chunks, SizeOf) == t.total
    requires TickTransfer(t, offer, elapsed).state == Completed
    ensures var u := TickTransfer(t, offer, elapsed);
      forall i :: 0 <= i < |u.chunks| ==> u.chunks[i].sent == u.chunks[i].size
  {
    var u, cs := TickTransfer(t, offer, elapsed), Advanced(t, offer);
    AdvancedBytes(t, offer);
    AdvancedOk(id, t, offer);
    FinishSums(cs);
    assert SumBy(cs, SentOf) >= t.total;
    forall i | 0 <= i < |cs| ensures SentOf(cs[i]) <= SizeOf(cs[i]) { assert Within(cs[i]); }
    SumByTight(cs, SentOf, SizeOf);
    assert u.chunks == MapChunks(cs, FinishChunk);
    forall i | 0 <= i < |u.chunks| ensures u.chunks[i].sent == u.chunks[i].size {
      assert SentOf(cs[i]) == SizeOf(cs[i]);
    }
  }

  /** Address a belongs to no destination buffer of the group. */
  ghost predicate Outside(ts: map<TransferId, Transfer>, ids: set<TransferId>, a: nat) {
    forall id :: id in ids && id in ts && Bound(ts[id]) ==> !(ts[id].dst <= a < ts[id].dst + ts[id].total)
  }

  lemma {:induction false} TickWrites(s: ExecState, ids: set<TransferId>, order: seq<TransferId>,
                                      offer: Offer, elapsed: Clock, a: nat)
    requires ExecOk(s) && Distinct(order) && GroupOk(s.mem, s.transfers, ids)
    requires forall id :: id in s.transfers && Active(s.transfers[id]) ==> id in ids
    requires Outside(s.transfers, ids, a)
    ensures Tick(s, order, offer, elapsed).mem(a) == s.mem(a)
  {
    hide ExecOk, GroupOk;
    if order != [] {
      var n := |order| - 1;
      var r, id := Tick(s, order[..n], offer, elapsed), order[n];
      DistinctLast(order);
      TickKeepsOk(s, order[..n], offer, elapsed);
      TickAt(s, order[..n], offer, elapsed);
      TickDelivers(s, ids, order[..n], offer, elapsed);
      TickOneDelivers(r, ids, id, offer, elapsed(id));
      TickWrites(s, ids, order[..n], offer, elapsed, a);
      if id in s.transfers && Active(s.transfers[id]) {
        assert Kept(TickOne(r, id, offer, elapsed(id)).mem, r.mem, a);
      }
    }
  }

  lemma {:induction false} ForceWrites(s: ExecState, ids: set<TransferId>, order: seq<TransferId>, a: nat)
    requires ExecOk(s) && Distinct(order) && GroupOk(s.mem, s.transfers, ids)
    requires forall id :: id in s.transfers && Active(s.transfers[id]) ==> id in ids
    requires Outside(s.transfers, ids, a)
    ensures Force(s, order).mem(a) == s.mem(a)
  {
    hide ExecOk, GroupOk;
    if order != [] {
      var n := |order| - 1;
      var r, id := Force(s, order[..n]), order[n];
      DistinctLast(order);
      ForceKeepsOk(s, order[..n]);
      ForceAt(s, order[..n]);
      ForceDelivers(s, ids, order[..n]);
      ForceOneDelivers(r, ids, id);
      ForceWrites(s, ids, order[..n], a);
      if id in s.transfers && Active(s.transfers[id]) {
        assert Kept(ForceOne(r, id).mem, r.mem, a);
      }
    }
  }

  /** The executor writes destination buffers of live transfers and nothing else. */
  lemma StepWrites(s: ExecState, op: Op, a: nat)
    requires ExecOk(s) && DeliveryOk(s) && Enabled(s, op) && !op.HostWrite?
    requires Outside(s.transfers, LiveIds(s), a)
    ensures Apply(s, op).mem(a) == s.mem(a)
  {
    match op
    case DoTick(order, offer, elapsed) => TickWrites(s, LiveIds(s), order, offer, elapsed, a);
    case DoForce(order) => ForceWrites(s, LiveIds(s), order, a);
    case DoPreempt(_, _, picked) => SuspendAllAt(s, picked);
    case _ =>
  }

  /** The source of a live transfer is never written by the executor, and the host keeps off it. */
  lemma StepKeepsSource(s: ExecState, op: Op, id: TransferId, x: nat)
    requires ExecOk(s) && DeliveryOk(s) && Enabled(s, op) && Contract(s, op)
    requires id in LiveIds(s) && Bound(s.transfers[id]) && x < s.transfers[id].total
    ensures Apply(s, op).mem(s.transfers[id].src + x) == s.mem(s.transfers[id].src + x)
  {
    var t := s.transfers[id];
    if op.HostWrite? {
      assert InBuffers(t, t.src + x);
      assert Kept(op.mem, s.mem, t.src + x);
    } else {
      StepWrites(s, op, t.src + x);
    }
  }

  lemma LiveBefore(s: ExecState, op: Op, id: TransferId)
    requires ExecOk(s) && Enabled(s, op) && id in s.transfers && id in LiveIds(Apply(s, op))
    ensures id in LiveIds(s)
  {
    StepMoves(s, op, id);
    assert TransferOk(id, s.transfers[id]);
    hide Apply, Enabled, Done, SameLayout;
  }

  /** The state before the last step of a run, for a transfer still live after it. */
  lemma LastStep(s: ExecState, ops: seq<Op>, id: TransferId)
    requires ExecOk(s) && DeliveryOk(s) && RunEnabled(s, ops) && RunContract(s, ops) && ops != []
    requires id in s.transfers && id in LiveIds(Run(s, ops))
    ensures var r := Run(s, ops[..|ops| - 1]);
      && ExecOk(r) && DeliveryOk(r) && Enabled(r, ops[|ops| - 1]) && Contract(r, ops[|ops| - 1])
      && id in LiveIds(r) && id in r.transfers && SameLayout(s.transfers[id], r.transfers[id])
      && RunEnabled(s, ops[..|ops| - 1]) && RunContract(s, ops[..|ops| - 1])
      && Run(s, ops) == Apply(r, ops[|ops| - 1])
  {
    hide ExecOk, DeliveryOk, Enabled, Contract, Apply, LiveIds;
    var before := ops[..|ops| - 1];
    RunOk(s, before);
    RunDelivers(s, before);
    RunMoves(s, before, id);
    LiveBefore(Run(s, before), ops[|ops| - 1], id);
  }

  lemma {:induction false} RunKeepsSource(s: ExecState, ops: seq<Op>, id: TransferId, x: nat)
    requires ExecOk(s) && DeliveryOk(s) && RunEnabled(s, ops) && RunContract(s, ops)
    requires id in s.transfers && Bound(s.transfers[id]) && x < s.transfers[id].total
    requires id in LiveIds(Run(s, ops))
    ensures Run(s, ops).mem(s.transfers[id].src + x) == s.mem(s.transfers[id].src + x)
  {
    hide ExecOk, DeliveryOk, Enabled, Contract, Apply, LiveIds, RunEnabled, RunContract;
    if ops != [] {
      LastStep(s, ops, id);
      RunKeepsSource(s, ops[..|ops| - 1], id, x);
      StepKeepsSource(Run(s, ops[..|ops| - 1]), ops[|ops| - 1], id, x);
    }
  }

  /** Between calls nobody's memory outside the destination buffers ever handed over changes. */
  lemma {:induction false} RunWrites(s: ExecState, ops: seq<Op>, a: nat)
    requires ExecOk(s) && DeliveryOk(s) && RunEnabled(s, ops) && RunContract(s, ops)
    requires forall i :: 0 <= i < |ops| ==> !ops[i].HostWrite?
    requires Outside(Run(s, ops).transfers, Run(s, ops).transfers.Keys, a)
    ensures Run(s, ops).mem(a) == s.mem(a)
  {
    if ops != [] {
      var before, op := ops[..|ops| - 1], ops[|ops| - 1];
      var r := Run(s, before);
      hide ExecOk, DeliveryOk, Enabled, Contract, Apply, Outside;
      RunOk(s, before);
      RunDelivers(s, before);
      OutsideBefore(r, op, a);
      assert forall i :: 0 <= i < |before| ==> before[i] == ops[i];
      RunWrites(s, before, a);
      StepWrites(r, op, a);
    }
  }

  /** Buffers do not move: an address outside all of them was outside before. */
  lemma OutsideBefore(r: ExecState, op: Op, a: nat)
    requires ExecOk(r) && Enabled(r, op) && Outside(Apply(r, op).transfers, Apply(r, op).transfers.Keys, a)
    ensures Outside(r.transfers, r.transfers.Keys, a)
  {
    hide ExecOk, Enabled, Apply, Done;
    forall id | id in r.transfers
      ensures id in Apply(r, op).transfers && SameLayout(r.transfers[id], Apply(r, op).transfers[id])
    {
      StepMoves(r, op, id);
    }
  }

  /** Delivery: after any run under the buffer contract, a tick that completes a transfer whose
      chunks tile the request leaves dst[x] equal to the src[x] of the starting state, for every x. */
  lemma PayloadDelivered(s: ExecState, ops: seq<Op>, tick: Op, id: TransferId)
    requires ExecOk(s) && DeliveryOk(s) && RunEnabled(s, ops) && RunContract(s, ops)
    requires tick.DoTick? && Enabled(Run(s, ops), tick)
    requires id in s.transfers && Bound(s.transfers[id]) && Tiles(s.transfers[id])
    requires id in Done(Run(s, ops), tick)
    ensures var t, m := s.transfers[id], Apply(Run(s, ops), tick).mem;
      forall x: nat :: x < t.total ==> Copied(m, s.mem, t.src, t.dst, x)
  {
    hide *;
    var t, r := s.transfers[id], Run(s, ops);
    AtCompletion(s, ops, tick, id);
    var m := Apply(r, tick).mem;
    forall x: nat | x < t.total ensures Copied(m, s.mem, t.src, t.dst, x) {
      RunKeepsSource(s, ops, id, x);
      StepKeepsSource(r, tick, id, x);
      CopiedFrom(m, s.mem, t, x);
    }
  }

  lemma AtCompletion(s: ExecState, ops: seq<Op>, tick: Op, id: TransferId)
    requires ExecOk(s) && DeliveryOk(s) && RunEnabled(s, ops) && RunContract(s, ops)
    requires tick.DoTick? && Enabled(Run(s, ops), tick)
    requires id in s.transfers && Bound(s.transfers[id]) && Tiles(s.transfers[id])
    requires id in Done(Run(s, ops), tick)
    ensures var t, r := s.transfers[id], Run(s, ops);
      && ExecOk(r) && DeliveryOk(r) && Contract(r, tick)
      && id in LiveIds(r) && id in r.transfers && Bound(r.transfers[id])
      && r.transfers[id].src == t.src && r.transfers[id].dst == t.dst && r.transfers[id].total == t.total
    ensures var t, m := s.transfers[id], Apply(Run(s, ops), tick).mem;
      forall x: nat :: x < t.total ==> Copied(m, m, t.src, t.dst, x)
  {
    hide ExecOk, DeliveryOk, Enabled, Apply, LiveIds, RunEnabled, RunContract, Run, Done, Tiles;
    RunOk(s, ops);
    RunDelivers(s, ops);
    RunMoves(s, ops, id);
    DoneWasActive(Run(s, ops), tick, id);
    SameTiles(s.transfers[id], Run(s, ops).transfers[id]);
    CompletedTickDelivers(Run(s, ops), tick, id);
  }

  lemma CopiedFrom(now: Memory, then_: Memory, t: Transfer, x: nat)
    requires Copied(now, now, t.src, t.dst, x) && now(t.src + x) == then_(t.src + x)
    ensures Copied(now, then_, t.src, t.dst, x)
  {
  }

  lemma DoneWasActive(s: ExecState, tick: Op, id: TransferId)
    requires ExecOk(s) && tick.DoTick? && Enabled(s, tick) && id in Done(s, tick)
    ensures id in s.transfers && Active(s.transfers[id]) && id in LiveIds(s)
    ensures TickTransfer(s.transfers[id], tick.offer, tick.elapsed(id)).state == Completed
    ensures id in Apply(s, tick).transfers
    ensures Apply(s, tick).transfers[id] == TickTransfer(s.transfers[id], tick.offer, tick.elapsed(id))
  {
    TickDoneAt(s, tick.order, tick.offer, tick.elapsed);
    TickAt(s, tick.order, tick.offer, tick.elapsed);
  }

  lemma SameTiles(t: Transfer, u: Transfer)
    requires SameLayout(t, u) && Tiles(t)
    ensures Tiles(u)
  {
    SumByEq(u.chunks, t.chunks, SizeOf, SizeOf);
    forall x: nat | x < u.total ensures Reached(u.chunks, x) {
      assert Reached(t.chunks, x);
      var i :| 0 <= i < |t.chunks| && Holds(t.chunks[i], x);
      assert Holds(u.chunks[i], x);
    }
  }

  lemma FullDelivered(mem: Memory, u: Transfer)
    requires Tiles(u) && Delivered(mem, u)
    requires forall i :: 0 <= i < |u.chunks| ==> u.chunks[i].sent == u.chunks[i].size
    ensures forall x: nat :: x < u.total ==> Copied(mem, mem, u.src, u.dst, x)
  {
    forall x: nat | x < u.total ensures Copied(mem, mem, u.src, u.dst, x) {
      assert Reached(u.chunks, x);
      var i :| 0 <= i < |u.chunks| && Holds(u.chunks[i], x);
      assert ChunkDelivered(mem, u.src, u.dst, u.chunks[i]);
    }
  }

  lemma CompletedTickDelivers(s: ExecState, tick: Op, id: TransferId)
    requires ExecOk(s) && DeliveryOk(s) && tick.DoTick? && Enabled(s, tick) && id in Done(s, tick)
    requires id in s.transfers && Bound(s.transfers[id]) && Tiles(s.transfers[id])
    ensures var t, m := s.transfers[id], Apply(s, tick).mem;
      forall x: nat :: x < t.total ==> Copied(m, m, t.src, t.dst, x)
  {
    var t, r := s.transfers[id], Apply(s, tick);
    DoneWasActive(s, tick, id);
    var u := r.transfers[id];
    TickDelivers(s, LiveIds(s), tick.order, tick.offer, tick.elapsed);
    assert TransferOk(id, t) && SumBy(t.chunks, SizeOf) == t.total;
    assert r.mem == Tick(s, tick.order, tick.offer, tick.elapsed).mem;
    hide ExecOk, Tiles, Apply, Done;
    TickLayout(t, tick.offer, tick.elapsed(id));
    TickCompletesFull(id, t, tick.offer, tick.elapsed(id));
    SameTiles(t, u);
    FullDelivered(r.mem, u);
  }
}
