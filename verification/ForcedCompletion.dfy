/** What drain_ready's forced end means for the bytes a transfer still had to send. */
module ForcedCompletion {
  import opened Model
  import opened Sums
  import opened TransferSpec
  import opened TransferInvariant
  import opened TransferRuns

  predicate AllSent(t: Transfer) { forall i :: 0 <= i < |t.chunks| ==> t.chunks[i].sent == t.chunks[i].size }

  /** A chunk without a rail slot that still has bytes to send. */
  predicate LeftWaiting(c: Chunk) { c.state != InFlight && c.state != Completed && c.sent < c.size }

  predicate WaitsLeft(t: Transfer) { exists i :: 0 <= i < |t.chunks| && LeftWaiting(t.chunks[i]) }

  lemma ForcedChunks(id: TransferId, t: Transfer)
    requires TransferOk(id, t) && Active(t)
    ensures ForceTransfer(t).state == Completed
    ensures AllSent(ForceTransfer(t)) <==> !WaitsLeft(t)
  {
    var u := ForceTransfer(t);
    forall i | 0 <= i < |t.chunks|
      ensures |u.chunks| == |t.chunks| && (u.chunks[i].sent == u.chunks[i].size <==> !LeftWaiting(t.chunks[i]))
    {
      assert Fits(t.state, t.chunks[i]) && Within(t.chunks[i]);
      assert u.chunks[i] == ForceChunk(t.chunks[i]);
    }
    hide ForceTransfer, TransferOk, LeftWaiting;
  }

  /** A forced drain completes a transfer with every byte sent exactly when, before it, no chunk
      with bytes left was waiting for a rail slot. */
  lemma ForcedIsFull(s: ExecState, order: seq<TransferId>, id: TransferId)
    requires ExecOk(s) && IsOrder(order, s.transfers)
    requires id in s.transfers && Active(s.transfers[id])
    ensures id in Force(s, order).transfers && Force(s, order).transfers[id].state == Completed
    ensures AllSent(Force(s, order).transfers[id]) <==> !WaitsLeft(s.transfers[id])
  {
    assert TransferOk(id, s.transfers[id]);
    hide ExecOk, TransferOk, AllSent, WaitsLeft, ForceTransfer, Force;
    ForceAt(s, order);
    ForcedChunks(id, s.transfers[id]);
  }

  // --------------------------------------------------- the whole call

  lemma {:induction false} DrainingEnabled(s: ExecState, ops: seq<Op>, offer: Offer, clocks: nat -> Clock)
    requires Draining(s, ops, offer, clocks)
    ensures RunEnabled(s, ops)
    ensures ops != [] ==> DrainTick(s, ops[0], offer, clocks, 0) && Done(s, ops[0]) != []
  {
    hide Run, Enabled, Done, SomeActive;
    if ops != [] {
      var before := ops[..|ops| - 1];
      DrainingEnabled(s, before, offer, clocks);
      if before == [] { assert Run(s, before) == s by { EmptyRun(s); } }
    }
  }

  /** The end of a drain that did not use up its ticks, after the ticks it went on from. */
  lemma EndRuns(s: ExecState, before: seq<Op>, end: seq<Op>, offer: Offer, clocks: nat -> Clock, n: nat)
    requires RunEnabled(s, before) && DrainEnd(Run(s, before), end, offer, clocks, n)
    ensures RunEnabled(s, before + [end[0]]) && Run(s, before + [end[0]]) == Apply(Run(s, before), end[0])
    ensures |end| == 1 ==> !SomeActive(Run(s, before + end))
    ensures |end| == 2 ==>
      var r := Run(s, before + [end[0]]);
      end[1].DoForce? && Enabled(r, end[1]) && Run(s, before + end) == Apply(r, end[1])
  {
    hide Run, RunEnabled, RunContract, Reports, Apply, SomeActive, Done, Enabled, Contract;
    RunSnoc(s, before, end[0]);
    if |end| == 1 {
      assert end == [end[0]];
    } else {
      RunSnoc(s, before + [end[0]], end[1]);
      assert before + end == before + [end[0]] + [end[1]];
    }
  }

  /** The forced end of a drain, from the state r it is forced in to the state e it leaves. */
  ghost predicate ForcedEnd(r: ExecState, e: ExecState) {
    forall id :: id in r.transfers && Active(r.transfers[id]) ==>
      && id in e.transfers && e.transfers[id].state == Completed
      && (AllSent(e.transfers[id]) <==> !WaitsLeft(r.transfers[id]))
  }

  lemma ForceIsEnd(r: ExecState, op: Op)
    requires ExecOk(r) && op.DoForce? && Enabled(r, op)
    ensures ForcedEnd(r, Apply(r, op)) && !SomeActive(Apply(r, op))
  {
    hide AllSent, WaitsLeft, ExecOk, Force, ForceTransfer;
    forall id | id in r.transfers && Active(r.transfers[id])
      ensures id in Apply(r, op).transfers && Apply(r, op).transfers[id].state == Completed
      ensures AllSent(Apply(r, op).transfers[id]) <==> !WaitsLeft(r.transfers[id])
    {
      ForcedIsFull(r, op.order, id);
    }
    ForceAt(r, op.order);
  }

  /** What drain_ready returns with, unless it used up its ticks: nothing active; and when it forced
      the end, every transfer then active is completed, with all its bytes sent if and only if none
      of its chunks with bytes left was waiting for a rail slot. */
  lemma DrainOutcome(s: ExecState, ops: seq<Op>, offer: Offer, clocks: nat -> Clock, n: nat)
    requires ExecOk(s) && DrainRun(s, ops, offer, clocks, n) && n < MAX_DRAIN_TICKS
    ensures n < |ops| <= n + 2 && !SomeActive(Run(s, ops))
    ensures |ops| == n + 2 ==> ForcedEnd(Run(s, ops[..n] + [ops[n]]), Run(s, ops))
  {
    hide DrainRun, DrainEnd, Draining, Run, RunEnabled, Apply, SomeActive, ForcedEnd, ExecOk, Enabled;
    DrainParts(s, ops, offer, clocks, n);
    var before, end := ops[..n], ops[n..];
    DrainingEnabled(s, before, offer, clocks);
    EndRuns(s, before, end, offer, clocks, n);
    assert before + end == ops;
    if |end| == 2 {
      RunOk(s, before + [end[0]]);
      ForceIsEnd(Run(s, before + [end[0]]), end[1]);
    }
  }

  lemma DrainParts(s: ExecState, ops: seq<Op>, offer: Offer, clocks: nat -> Clock, n: nat)
    requires DrainRun(s, ops, offer, clocks, n) && n < MAX_DRAIN_TICKS
    ensures n < |ops| <= n + 2 && Draining(s, ops[..n], offer, clocks)
    ensures DrainEnd(Run(s, ops[..n]), ops[n..], offer, clocks, n)
  {
    hide Draining, Run, Apply, SomeActive, Done, DrainTick;
  }

  // ----------------------------------------- a call that loses nothing

  lemma {:induction false} PromoteKeeps(cs: seq<Chunk>, busy: set<nat>)
    ensures forall i :: 0 <= i < |cs| ==> LeftWaiting(Promote(cs, busy)[i]) ==> LeftWaiting(cs[i])
  {
    if cs != [] {
      var started := cs[0].state == Pending && Slot(cs[0].rail) !in busy;
      PromoteKeeps(cs[1..], if started then busy + {Slot(cs[0].rail)} else busy);
    }
  }

  /** A tick puts no chunk with bytes left back in waiting. */
  lemma TickWaits(t: Transfer, offer: Offer, elapsed: real)
    requires WaitsLeft(TickTransfer(t, offer, elapsed))
    ensures WaitsLeft(t)
  {
    PromoteKeeps(t.chunks, BusySlots(t.chunks));
    var staged, u := Staged(t), TickTransfer(t, offer, elapsed);
    assert |staged| == |t.chunks|;
    assert forall i :: 0 <= i < |staged| && LeftWaiting(staged[i]) ==> LeftWaiting(t.chunks[i]);
    hide Staged, SumBy, LeftWaiting;
    var i :| 0 <= i < |u.chunks| && LeftWaiting(u.chunks[i]);
    AdvanceWaits(staged[i], offer(staged[i].edges));
  }

  lemma AdvanceWaits(c: Chunk, n: nat)
    ensures LeftWaiting(AdvanceChunk(c, n)) ==> LeftWaiting(c)
    ensures !LeftWaiting(FinishChunk(AdvanceChunk(c, n)))
  {
  }

  /** What is active after ticks was so before them, and waits with bytes left only if it did. */
  lemma {:induction false} DrainingWaits(s: ExecState, ops: seq<Op>, offer: Offer, clocks: nat -> Clock,
                                         id: TransferId)
    requires Draining(s, ops, offer, clocks)
    requires id in Run(s, ops).transfers && Active(Run(s, ops).transfers[id])
    ensures id in s.transfers && Active(s.transfers[id])
    ensures WaitsLeft(Run(s, ops).transfers[id]) ==> WaitsLeft(s.transfers[id])
  {
    hide WaitsLeft, DrainTick, Apply, Done, SomeActive, Active;
    if ops != [] {
      var before, last := ops[..|ops| - 1], ops[|ops| - 1];
      TickOpWaits(Run(s, before), last, offer, clocks, |before|, id);
      DrainingWaits(s, before, offer, clocks, id);
    }
  }

  lemma TickOpWaits(s: ExecState, op: Op, offer: Offer, clocks: nat -> Clock, n: nat, id: TransferId)
    requires DrainTick(s, op, offer, clocks, n)
    requires id in Apply(s, op).transfers && Active(Apply(s, op).transfers[id])
    ensures id in s.transfers && Active(s.transfers[id])
    ensures WaitsLeft(Apply(s, op).transfers[id]) ==> WaitsLeft(s.transfers[id])
  {
    hide WaitsLeft, TickTransfer, Tick;
    TickAt(s, op.order, offer, clocks(n));
    if WaitsLeft(Apply(s, op).transfers[id]) { TickWaits(s.transfers[id], offer, clocks(n)(id)); }
  }

  /** What a caller can look at before the call: a transfer none of whose chunks with bytes left is
      waiting loses nothing when drain_ready forces its end. */
  lemma DrainKeepsBytes(s: ExecState, ops: seq<Op>, offer: Offer, clocks: nat -> Clock, n: nat, id: TransferId)
    requires ExecOk(s) && DrainRun(s, ops, offer, clocks, n) && |ops| == n + 2
    requires id in Run(s, ops[..n] + [ops[n]]).transfers && Active(Run(s, ops[..n] + [ops[n]]).transfers[id])
    ensures id in s.transfers && Active(s.transfers[id])
    ensures id in Run(s, ops).transfers && Run(s, ops).transfers[id].state == Completed
    ensures !WaitsLeft(s.transfers[id]) ==> AllSent(Run(s, ops).transfers[id])
  {
    DrainOutcome(s, ops, offer, clocks, n);
    DrainParts(s, ops, offer, clocks, n);
    DrainingEnabled(s, ops[..n], offer, clocks);
    EndRuns(s, ops[..n], ops[n..], offer, clocks, n);
    hide DrainRun, Draining, Run, RunEnabled, Apply, SomeActive, ExecOk, Enabled, AllSent, WaitsLeft, Active;
    TickOpWaits(Run(s, ops[..n]), ops[n], offer, clocks, n, id);
    DrainingWaits(s, ops[..n], offer, clocks, id);
  }

  // ------------------------------------------------- a call that loses bytes

  /** Two chunks of n bytes on one rail. */
  function TwoChunks(n: nat): seq<ChunkPath> { [ChunkPath(0, [], n, 0, 0), ChunkPath(1, [], n, n, 0)] }

  /** The transfer when its first chunk has sent m of its n bytes; its second still waits. */
  function HalfWay(req: TransferRequest, bufs: Buffers, n: nat, m: nat, slack: real): Transfer
    requires m <= n && req.size == 2 * n
  {
    Transfer(1, InFlight, req, [], req.size, m, req.size - m, slack, 0, req.cls == KVMigration, bufs.src, bufs.dst, n,
             [Chunk(0, [], 0, n, m, 0, if m == n then Completed else InFlight), Chunk(1, [], n, n, 0, 0, Pending)],
             false)
  }

  function Ended(req: TransferRequest, bufs: Buffers, n: nat, slack: real): Transfer
    requires req.size == 2 * n
  {
    HalfWay(req, bufs, n, n, slack).(state := Completed, remaining := 0)
  }

  lemma SubmittedIs(req: TransferRequest, bufs: Buffers, n: nat)
    requires n > 0 && req.size == 2 * n
    ensures StripedTransfer(1, req, TwoChunks(n), [], bufs) == HalfWay(req, bufs, n, 0, req.deadline)
  {
    var p0, p1 := TwoChunks(n)[0], TwoChunks(n)[1];
    var c0, c1 := LaidChunk(p0, 0, []), LaidChunk(p1, n, []);
    assert TwoChunks(n)[1..] == [p1] && [p1][1..] == [];
    assert LaidOut([p1], n, []) == [c1] && LaidOut(TwoChunks(n), 0, []) == [c0, c1];
    assert UnionEdges([], [p1]) == [] && UnionEdges([], TwoChunks(n)) == [];
    assert [c0, c1][1..] == [c1] && [c1][1..] == [];
    assert Promote([c1], {0}) == [c1] && Promote([c0, c1], {}) == [c0.(state := InFlight), c1];
  }

  lemma SentOfTwo(c: Chunk, d: Chunk)
    ensures SumBy([c, d], SentOf) == c.sent + d.sent
  {
    SumByAppend([c], d, SentOf);
    assert [c] + [d] == [c, d] && [c][..0] == [];
  }

  lemma StagedIs(req: TransferRequest, bufs: Buffers, n: nat, slack: real)
    requires n > 0 && req.size == 2 * n
    ensures Staged(HalfWay(req, bufs, n, 0, slack)) == HalfWay(req, bufs, n, 0, slack).chunks
  {
    var cs := HalfWay(req, bufs, n, 0, slack).chunks;
    assert BusySlots(cs) == {0} by { assert cs[0] in cs; }
    assert cs[1..] == [cs[1]] && [cs[1]][1..] == [];
    assert Promote([cs[1]], {0}) == [cs[1]] && Promote(cs, {0}) == cs;
  }

  lemma TickedIs(req: TransferRequest, bufs: Buffers, n: nat, offer: Offer, elapsed: real)
    requires n > 0 && req.size == 2 * n
    ensures TickTransfer(HalfWay(req, bufs, n, 0, req.deadline), offer, elapsed)
      == HalfWay(req, bufs, n, Min(offer([]), n), req.deadline - elapsed)
  {
    var t := HalfWay(req, bufs, n, 0, req.deadline);
    var cs := HalfWay(req, bufs, n, Min(offer([]), n), req.deadline).chunks;
    StagedIs(req, bufs, n, req.deadline);
    hide Staged;
    assert Advanced(t, offer) == cs;
    SentOfTwo(cs[0], cs[1]);
  }

  lemma ForcedIs(req: TransferRequest, bufs: Buffers, n: nat, m: nat, slack: real)
    requires m <= n && req.size == 2 * n
    ensures ForceTransfer(HalfWay(req, bufs, n, m, slack)) == Ended(req, bufs, n, slack)
  {
    var cs := HalfWay(req, bufs, n, m, slack).chunks;
    assert MapChunks(cs, ForceChunk) == Ended(req, bufs, n, slack).chunks;
    SentOfTwo(ForceChunk(cs[0]), ForceChunk(cs[1]));
  }

  /** One transfer, visited alone. */
  lemma VisitOne(s: ExecState, t: Transfer, order: seq<TransferId>, offer: Offer, elapsed: Clock)
    requires s.transfers == map[1 := t] && IsOrder(order, s.transfers)
    ensures order == [1]
    ensures Tick(s, order, offer, elapsed) == TickOne(s, 1, offer, elapsed(1))
    ensures TickDone(s, order, offer, elapsed) == (if Finishes(s, 1, offer, elapsed(1)) then [1] else [])
    ensures Force(s, order) == ForceOne(s, 1)
    ensures ForceDone(s, order) == (if Active(t) then [1] else [])
  {
    DistinctCard(order);
    assert IdSet(order) == {1} && order[0] in order;
    hide TickOne, ForceOne, Finishes;
    assert [1][..0] == [];
  }

  lemma ShortTick(s: ExecState, req: TransferRequest, bufs: Buffers, n: nat, order: seq<TransferId>, offer: Offer,
                  elapsed: Clock)
    requires n > 0 && req.size == 2 * n && s.transfers == map[1 := HalfWay(req, bufs, n, 0, req.deadline)]
    requires IsOrder(order, s.transfers)
    ensures var u := HalfWay(req, bufs, n, Min(offer([]), n), req.deadline - elapsed(1));
      Apply(s, DoTick(order, offer, elapsed)).transfers == map[1 := u]
    ensures Done(s, DoTick(order, offer, elapsed)) == []
  {
    hide Tick, TickDone, TickTransfer, WireChunks, TickBytes, Staged, StepBytes, IsOrder;
    TickedIs(req, bufs, n, offer, elapsed(1));
    VisitOne(s, HalfWay(req, bufs, n, 0, req.deadline), order, offer, elapsed);
  }

  lemma ShortForce(s: ExecState, req: TransferRequest, bufs: Buffers, n: nat, m: nat, slack: real,
                   order: seq<TransferId>, offer: Offer, elapsed: Clock)
    requires m <= n && req.size == 2 * n
    requires s.transfers == map[1 := HalfWay(req, bufs, n, m, slack)] && IsOrder(order, s.transfers)
    ensures Apply(s, DoForce(order)).transfers == map[1 := Ended(req, bufs, n, slack)]
    ensures Done(s, DoForce(order)) == [1]
  {
    hide Force, ForceDone, ForceTransfer, WireChunks, ForceBytes, IsOrder;
    ForcedIs(req, bufs, n, m, slack);
    VisitOne(s, HalfWay(req, bufs, n, m, slack), order, offer, elapsed);
  }

  /** A drain whose first tick completes nothing and leaves something active is that tick and the
      force. */
  lemma DrainOfTwo(s: ExecState, ops: seq<Op>, offer: Offer, clocks: nat -> Clock, k: nat)
    requires DrainRun(s, ops, offer, clocks, k)
    requires forall op :: DrainTick(s, op, offer, clocks, 0) ==> QuietTick(s, op)
    ensures k == 0 && |ops| == 2 && DrainTick(s, ops[0], offer, clocks, 0) && ops[1].DoForce?
    ensures Enabled(Apply(s, ops[0]), ops[1])
    ensures Run(s, ops) == Apply(Apply(s, ops[0]), ops[1])
    ensures Reports(s, ops) == Done(s, ops[0]) + Done(Apply(s, ops[0]), ops[1])
  {
    hide Run, Reports, Draining, Apply, Done, SomeActive, Enabled, DrainTick;
    DrainingEnabled(s, ops[..k], offer, clocks);
    EmptyRun(s);
    assert ops[..k] == [] && k == 0;
    assert ops[0..] == ops;
    RunOfTwo(s, ops[0], ops[1]);
    assert ops == [ops[0], ops[1]];
  }

  lemma SomeoneActive(s: ExecState, req: TransferRequest, bufs: Buffers, n: nat, m: nat, slack: real)
    requires m <= n && req.size == 2 * n && s.transfers == map[1 := HalfWay(req, bufs, n, m, slack)]
    ensures SomeActive(s)
  {
    assert 1 in s.transfers;
  }

  ghost predicate QuietTick(s: ExecState, op: Op) { Done(s, op) == [] && SomeActive(Apply(s, op)) }

  lemma RunOfTwo(s: ExecState, a: Op, b: Op)
    ensures Run(s, [a, b]) == Apply(Apply(s, a), b)
    ensures Reports(s, [a, b]) == Done(s, a) + Done(Apply(s, a), b)
  {
    hide Apply, Done;
    assert [a, b][..1] == [a] && [a][..0] == [];
    assert Run(s, [a]) == Apply(s, a) && Reports(s, [a]) == Done(s, a);
  }

  /** drain_ready can report a transfer as done with half of its bytes never sent: whatever its ticks
      offer and however long they take, a drain called on two striped chunks of n bytes that share a
      rail does. */
  lemma DrainLosesBytes(req: TransferRequest, bufs: Buffers, mem: Memory, n: nat, offer: Offer, clocks: nat -> Clock,
                        ops: seq<Op>, k: nat)
    requires n > 0 && req.size == 2 * n
    requires DrainRun(SubmitStriped(InitExec([], mem), req, TwoChunks(n), bufs), ops, offer, clocks, k)
    ensures var s := SubmitStriped(InitExec([], mem), req, TwoChunks(n), bufs);
      && Reports(s, ops) == [1]
      && Run(s, ops).transfers == map[1 := Ended(req, bufs, n, req.deadline - clocks(0)(1))]
  {
    SubmittedIs(req, bufs, n);
    hide StripedTransfer, HalfWay, DrainRun, Run, Reports;
    var s := SubmitStriped(InitExec([], mem), req, TwoChunks(n), bufs);
    assert s.transfers == map[1 := HalfWay(req, bufs, n, 0, req.deadline)];
    DrainLosesFrom(s, req, bufs, n, offer, clocks, ops, k);
  }

  lemma DrainLosesFrom(s: ExecState, req: TransferRequest, bufs: Buffers, n: nat, offer: Offer, clocks: nat -> Clock,
                       ops: seq<Op>, k: nat)
    requires n > 0 && req.size == 2 * n && s.transfers == map[1 := HalfWay(req, bufs, n, 0, req.deadline)]
    requires DrainRun(s, ops, offer, clocks, k)
    ensures Reports(s, ops) == [1]
    ensures Run(s, ops).transfers == map[1 := Ended(req, bufs, n, req.deadline - clocks(0)(1))]
  {
    hide DrainRun, Run, Reports, Apply, Done, HalfWay, IsOrder, SomeActive;
    var m, slack := Min(offer([]), n), req.deadline - clocks(0)(1);
    forall op | DrainTick(s, op, offer, clocks, 0) ensures QuietTick(s, op) {
      ShortTick(s, req, bufs, n, op.order, offer, clocks(0));
      SomeoneActive(Apply(s, op), req, bufs, n, m, slack);
    }
    DrainOfTwo(s, ops, offer, clocks, k);
    ShortTick(s, req, bufs, n, ops[0].order, offer, clocks(0));
    ShortForce(Apply(s, ops[0]), req, bufs, n, m, slack, ops[1].order, offer, clocks(0));
  }
}
