/** Whole runs of the executor: any interleaving of its operations. */
module TransferRuns {
  import opened Model
  import opened Sums
  import opened TransferSpec
  import opened TransferInvariant
  import opened TransferDelivery

  /** One atomic call. HostWrite is the host changing memory between calls. */
  datatype Op =
    | DoSubmit(req: TransferRequest, path: PathCost, bufs: Buffers)
    | DoSubmitStriped(req: TransferRequest, paths: seq<ChunkPath>, bufs: Buffers)
    | DoPause(id: TransferId)
    | DoCancel(id: TransferId)
    | DoPreempt(busy: seq<nat>, max: nat, picked: seq<TransferId>)
    | DoReroute(id: TransferId, path: PathCost)
    | DoTick(order: seq<TransferId>, offer: Offer, elapsed: Clock)
    | DoForce(order: seq<TransferId>)
    | HostWrite(mem: Memory)

  predicate Distinct(ids: seq<TransferId>) { forall i, j :: 0 <= i < j < |ids| ==> ids[i] != ids[j] }

  /** An iteration order of the transfers map. */
  ghost predicate IsOrder(order: seq<TransferId>, ts: map<TransferId, Transfer>) {
    Distinct(order) && forall id :: id in order <==> id in ts
  }

  ghost predicate Enabled(s: ExecState, op: Op) {
    match op
    case DoPreempt(busy, max, picked) => PreemptChoice(s, busy, max, picked)
    case DoTick(order, _, _) => IsOrder(order, s.transfers)
    case DoForce(order) => IsOrder(order, s.transfers)
    case _ => true
  }

  function Apply(s: ExecState, op: Op): ExecState {
    match op
    case DoSubmit(req, path, bufs) => Submit(s, req, path, bufs)
    case DoSubmitStriped(req, paths, bufs) => SubmitStriped(s, req, paths, bufs)
    case DoPause(id) => Pause(s, id)
    case DoCancel(id) => Cancel(s, id)
    case DoPreempt(_, _, picked) => SuspendAll(s, picked)
    case DoReroute(id, path) => Reroute(s, id, path)
    case DoTick(order, offer, elapsed) => Tick(s, order, offer, elapsed)
    case DoForce(order) => Force(s, order)
    case HostWrite(mem) => s.(mem := mem)
  }

  /** The ids a call reports as done. */
  function Done(s: ExecState, op: Op): seq<TransferId> {
    match op
    case DoTick(order, offer, elapsed) => TickDone(s, order, offer, elapsed)
    case DoForce(order) => ForceDone(s, order)
    case _ => []
  }

  function Run(s: ExecState, ops: seq<Op>): ExecState {
    if ops == [] then s else Apply(Run(s, ops[..|ops| - 1]), ops[|ops| - 1])
  }

  ghost predicate RunEnabled(s: ExecState, ops: seq<Op>) {
    ops != [] ==> RunEnabled(s, ops[..|ops| - 1]) && Enabled(Run(s, ops[..|ops| - 1]), ops[|ops| - 1])
  }

  /** Everything reported as done over a run, in order. */
  function Reports(s: ExecState, ops: seq<Op>): seq<TransferId> {
    if ops == [] then []
    else Reports(s, ops[..|ops| - 1]) + Done(Run(s, ops[..|ops| - 1]), ops[|ops| - 1])
  }

  // --------------------------------------------------------- drain_ready

  const MAX_DRAIN_TICKS: nat := 10000

  ghost predicate SomeActive(s: ExecState) { exists id :: id in s.transfers && Active(s.transfers[id]) }

  /** The n-th tick of a drain, taken in state s. */
  ghost predicate DrainTick(s: ExecState, op: Op, offer: Offer, clocks: nat -> Clock, n: nat) {
    op.DoTick? && op == DoTick(op.order, offer, clocks(n)) && Enabled(s, op)
  }

  /** Ticks after each of which the drain goes on: something completed, something is still active. */
  ghost predicate Draining(s: ExecState, ops: seq<Op>, offer: Offer, clocks: nat -> Clock) {
    ops != [] ==>
      var before, last := ops[..|ops| - 1], ops[|ops| - 1];
      && Draining(s, before, offer, clocks)
      && DrainTick(Run(s, before), last, offer, clocks, |before|)
      && Done(Run(s, before), last) != []
      && SomeActive(Run(s, ops))
  }

  /** A tick that leaves nothing active, or one that completes nothing and is followed by the force. */
  ghost predicate DrainEnd(s: ExecState, end: seq<Op>, offer: Offer, clocks: nat -> Clock, n: nat) {
    && 1 <= |end| <= 2
    && DrainTick(s, end[0], offer, clocks, n)
    && (|end| == 1 ==> !SomeActive(Apply(s, end[0])))
    && (|end| == 2 ==>
          && Done(s, end[0]) == [] && SomeActive(Apply(s, end[0]))
          && end[1].DoForce? && Enabled(Apply(s, end[0]), end[1]))
  }

  /** The executor steps of one drain_ready call, n of them ticks after which it went on. */
  ghost predicate DrainRun(s: ExecState, ops: seq<Op>, offer: Offer, clocks: nat -> Clock, n: nat) {
    && n <= |ops| && n <= MAX_DRAIN_TICKS
    && Draining(s, ops[..n], offer, clocks)
    && (n == MAX_DRAIN_TICKS ==> |ops| == n)
    && (n < MAX_DRAIN_TICKS ==> DrainEnd(Run(s, ops[..n]), ops[n..], offer, clocks, n))
  }

  // --------------------------------------------------------- conservation

  lemma StepOk(s: ExecState, op: Op)
    requires ExecOk(s) && Enabled(s, op)
    ensures ExecOk(Apply(s, op))
  {
    hide ExecOk;
    match op
    case DoSubmit(req, path, bufs) => SubmitKeepsOk(s, req, path, bufs);
    case DoSubmitStriped(req, paths, bufs) => SubmitStripedKeepsOk(s, req, paths, bufs);
    case DoPause(id) => if CanPause(s, id) { SuspendOneKeepsOk(s, id); }
    case DoCancel(id) => CancelKeepsOk(s, id);
    case DoPreempt(_, _, picked) => SuspendAllKeepsOk(s, picked);
    case DoReroute(id, path) => RerouteKeepsOk(s, id, path);
    case DoTick(order, offer, elapsed) => TickKeepsOk(s, order, offer, elapsed);
    case DoForce(order) => ForceKeepsOk(s, order);
    case HostWrite(mem) => MemoryKeepsOk(s, mem);
  }

  lemma MemoryKeepsOk(s: ExecState, mem: Memory)
    requires ExecOk(s)
    ensures ExecOk(s.(mem := mem))
  {
  }

  /** Byte conservation, rail exclusivity and edge cover over every run, forced drains included. */
  lemma {:induction false} RunOk(s: ExecState, ops: seq<Op>)
    requires ExecOk(s) && RunEnabled(s, ops)
    ensures ExecOk(Run(s, ops))
  {
    if ops != [] {
      RunOk(s, ops[..|ops| - 1]);
      StepOk(Run(s, ops[..|ops| - 1]), ops[|ops| - 1]);
    }
  }

  // ------------------------------------------------------------ lifecycle

  lemma DistinctLast(order: seq<TransferId>)
    requires Distinct(order) && order != []
    ensures var n := |order| - 1;
      && Distinct(order[..n]) && order[n] !in order[..n]
      && forall id :: id in order <==> id in order[..n] || id == order[n]
  {
    assert order == order[..|order| - 1] + [order[|order| - 1]];
  }

  lemma DistinctSnoc(ids: seq<TransferId>, id: TransferId)
    requires Distinct(ids) && id !in ids
    ensures Distinct(ids + [id])
  {
  }

  lemma DistinctConcat(ids: seq<TransferId>, more: seq<TransferId>)
    requires Distinct(ids) && Distinct(more) && forall id :: id in ids ==> id !in more
    ensures Distinct(ids + more)
  {
    var all := ids + more;
    forall i, j | 0 <= i < j < |all| ensures all[i] != all[j] {
      if i < |ids| <= j { assert all[i] in ids && all[j] in more; }
    }
  }

  function IdSet(ids: seq<TransferId>): set<TransferId> { set id | id in ids }

  lemma {:induction false} DistinctCard(ids: seq<TransferId>)
    requires Distinct(ids)
    ensures |IdSet(ids)| == |ids|
  {
    if ids != [] {
      var n := |ids| - 1;
      DistinctLast(ids);
      DistinctCard(ids[..n]);
      assert IdSet(ids) == IdSet(ids[..n]) + {ids[n]};
    }
  }

  /** A tick gives every transfer of the order exactly its own step, whatever the order. */
  lemma {:induction false} TickAt(s: ExecState, order: seq<TransferId>, offer: Offer, elapsed: Clock)
    requires Distinct(order)
    ensures Tick(s, order, offer, elapsed).transfers.Keys == s.transfers.Keys
    ensures forall id :: id in s.transfers ==>
      (if id in order && Active(s.transfers[id])
       then Tick(s, order, offer, elapsed).transfers[id] == TickTransfer(s.transfers[id], offer, elapsed(id))
       else Tick(s, order, offer, elapsed).transfers[id] == s.transfers[id])
  {
    hide TickTransfer;
    if order != [] {
      var n := |order| - 1;
      DistinctLast(order);
      TickAt(s, order[..n], offer, elapsed);
    }
  }

  lemma {:induction false} TickFrame(s: ExecState, order: seq<TransferId>, offer: Offer, elapsed: Clock)
    ensures var r := Tick(s, order, offer, elapsed);
      r == s.(transfers := r.transfers, mem := r.mem, bytes := r.bytes, completed := r.completed,
              suspends := r.suspends)
  {
    hide TickTransfer;
    if order != [] { TickFrame(s, order[..|order| - 1], offer, elapsed); }
  }

  /** It reports exactly those whose step completes, each once, and counts them. */
  lemma {:induction false} TickDoneAt(s: ExecState, order: seq<TransferId>, offer: Offer, elapsed: Clock)
    requires Distinct(order)
    ensures forall id :: id in TickDone(s, order, offer, elapsed) <==>
      id in order && Finishes(s, id, offer, elapsed(id))
    ensures Distinct(TickDone(s, order, offer, elapsed))
    ensures Tick(s, order, offer, elapsed).completed == s.completed + |TickDone(s, order, offer, elapsed)|
  {
    hide TickTransfer;
    if order != [] {
      var n := |order| - 1;
      DistinctLast(order);
      TickAt(s, order[..n], offer, elapsed);
      TickDoneAt(s, order[..n], offer, elapsed);
      DistinctSnoc(TickDone(s, order[..n], offer, elapsed), order[n]);
    } else {
      assert Distinct([]);
    }
  }

  lemma {:induction false} ForceAt(s: ExecState, order: seq<TransferId>)
    requires Distinct(order)
    ensures Force(s, order).transfers.Keys == s.transfers.Keys
    ensures forall id :: id in s.transfers ==>
      (if id in order && Active(s.transfers[id])
       then Force(s, order).transfers[id] == ForceTransfer(s.transfers[id])
       else Force(s, order).transfers[id] == s.transfers[id])
  {
    hide ForceTransfer;
    if order != [] {
      var n := |order| - 1;
      DistinctLast(order);
      ForceAt(s, order[..n]);
    }
  }

  lemma {:induction false} ForceFrame(s: ExecState, order: seq<TransferId>)
    ensures var r := Force(s, order);
      r == s.(transfers := r.transfers, mem := r.mem, bytes := r.bytes, completed := r.completed)
  {
    hide ForceTransfer;
    if order != [] { ForceFrame(s, order[..|order| - 1]); }
  }

  lemma {:induction false} ForceDoneAt(s: ExecState, order: seq<TransferId>)
    requires Distinct(order)
    ensures forall id :: id in ForceDone(s, order) <==> id in order && id in s.transfers && Active(s.transfers[id])
    ensures Distinct(ForceDone(s, order))
    ensures Force(s, order).completed == s.completed + |ForceDone(s, order)|
  {
    hide ForceTransfer;
    if order != [] {
      var n := |order| - 1;
      DistinctLast(order);
      ForceAt(s, order[..n]);
      ForceDoneAt(s, order[..n]);
      DistinctSnoc(ForceDone(s, order[..n]), order[n]);
    } else {
      assert Distinct([]);
    }
  }

  /** What any step may do to a transfer: terminal stays terminal, done is reported exactly
      on becoming Completed, and the request, buffers and chunk ranges never change. */
  predicate Moved(t: Transfer, u: Transfer, done: bool) {
    && (Terminal(t) ==> Terminal(u))
    && (done <==> !Terminal(t) && u.state == Completed)
    && SameLayout(t, u)
  }

  lemma TickMoves(s: ExecState, order: seq<TransferId>, offer: Offer, elapsed: Clock, id: TransferId)
    requires IsOrder(order, s.transfers) && id in s.transfers
    ensures id in Tick(s, order, offer, elapsed).transfers
    ensures Moved(s.transfers[id], Tick(s, order, offer, elapsed).transfers[id],
                  id in TickDone(s, order, offer, elapsed))
  {
    TickAt(s, order, offer, elapsed);
    TickDoneAt(s, order, offer, elapsed);
    TickLayout(s.transfers[id], offer, elapsed(id));
    hide TickTransfer;
  }

  lemma ForceMoves(s: ExecState, order: seq<TransferId>, id: TransferId)
    requires IsOrder(order, s.transfers) && id in s.transfers && WithinAll(s.transfers[id].chunks)
    ensures id in Force(s, order).transfers
    ensures Moved(s.transfers[id], Force(s, order).transfers[id], id in ForceDone(s, order))
  {
    ForceAt(s, order);
    ForceDoneAt(s, order);
    ForceLayout(s.transfers[id]);
    assert ForceTransfer(s.transfers[id]).state == Completed;
    hide ForceTransfer;
  }

  lemma RerouteMoves(s: ExecState, jd: TransferId, path: PathCost, id: TransferId)
    requires id in s.transfers && TransferOk(id, s.transfers[id])
    ensures id in Reroute(s, jd, path).transfers
    ensures Moved(s.transfers[id], Reroute(s, jd, path).transfers[id], false)
  {
    if jd == id && CanReroute(s, id) { RerouteLayout(s.transfers[id], path, s.rails); }
  }

  lemma PreemptMoves(s: ExecState, picked: seq<TransferId>, id: TransferId)
    requires forall i :: 0 <= i < |picked| ==> picked[i] in s.transfers && Active(s.transfers[picked[i]])
    requires id in s.transfers
    ensures id in SuspendAll(s, picked).transfers
    ensures Moved(s.transfers[id], SuspendAll(s, picked).transfers[id], false)
  {
    SuspendAllAt(s, picked);
  }

  lemma CancelMoves(s: ExecState, jd: TransferId, id: TransferId)
    requires id in s.transfers
    ensures id in Cancel(s, jd).transfers
    ensures Moved(s.transfers[id], Cancel(s, jd).transfers[id], false)
  {
    CancelLayout(s.transfers[id]);
  }

  lemma SubmitMoves(s: ExecState, req: TransferRequest, paths: seq<ChunkPath>, path: PathCost, bufs: Buffers,
                    id: TransferId)
    requires id in s.transfers && s.nextId !in s.transfers
    ensures id in Submit(s, req, path, bufs).transfers && id in SubmitStriped(s, req, paths, bufs).transfers
    ensures Moved(s.transfers[id], Submit(s, req, path, bufs).transfers[id], false)
    ensures Moved(s.transfers[id], SubmitStriped(s, req, paths, bufs).transfers[id], false)
  {
  }

  lemma PauseMoves(s: ExecState, jd: TransferId, id: TransferId)
    requires id in s.transfers
    ensures id in Pause(s, jd).transfers
    ensures Moved(s.transfers[id], Pause(s, jd).transfers[id], false)
    ensures Moved(s.transfers[id], s.transfers[id], false)
  {
  }

  /** The step as one transfer sees it. */
  lemma StepMoves(s: ExecState, op: Op, id: TransferId)
    requires ExecOk(s) && Enabled(s, op) && id in s.transfers
    ensures id in Apply(s, op).transfers
    ensures Moved(s.transfers[id], Apply(s, op).transfers[id], id in Done(s, op))
  {
    assert TransferOk(id, s.transfers[id]) && s.nextId !in s.transfers;
    assert WithinAll(s.transfers[id].chunks);
    hide ExecOk, TransferOk, Submit, SubmitStriped, Cancel, Reroute, WithinAll, Tick, TickDone, Force, ForceDone, Pause,
         Moved;
    match op
    case DoTick(order, offer, elapsed) => TickMoves(s, order, offer, elapsed, id);
    case DoForce(order) =>
      ForceMoves(s, order, id);
    case DoPreempt(_, _, picked) => PreemptMoves(s, picked, id);
    case DoReroute(jd, path) => RerouteMoves(s, jd, path, id);
    case DoCancel(jd) => CancelMoves(s, jd, id);
    case DoSubmit(req, path, bufs) => SubmitMoves(s, req, [], path, bufs, id);
    case DoSubmitStriped(req, paths, bufs) => SubmitMoves(s, req, paths, PathCost([], 0.0), bufs, id);
    case DoPause(jd) => PauseMoves(s, jd, id);
    case HostWrite(_) => PauseMoves(s, id, id);
  }

  lemma {:induction false} RunMoves(s: ExecState, ops: seq<Op>, id: TransferId)
    requires ExecOk(s) && RunEnabled(s, ops) && id in s.transfers
    ensures id in Run(s, ops).transfers
    ensures Terminal(s.transfers[id]) ==> Terminal(Run(s, ops).transfers[id])
    ensures SameLayout(s.transfers[id], Run(s, ops).transfers[id])
  {
    if ops != [] {
      var before := ops[..|ops| - 1];
      RunOk(s, before);
      RunMoves(s, before, id);
      StepMoves(Run(s, before), ops[|ops| - 1], id);
    }
  }

  predicate Cancels(op: Op, id: TransferId) { op.DoCancel? && op.id == id }

  /** A finished transfer keeps its state through every call but its own cancellation, which has no
      state check and turns Completed into Cancelled. */
  lemma StepTerminal(s: ExecState, op: Op, id: TransferId)
    requires Enabled(s, op) && id in s.transfers && s.nextId !in s.transfers && Terminal(s.transfers[id])
    ensures id in Apply(s, op).transfers
    ensures Apply(s, op).transfers[id].state == if Cancels(op, id) then Cancelled else s.transfers[id].state
  {
    hide Tick, Force, SuspendAll, PreemptChoice, TickTransfer, ForceTransfer, RerouteTransfer, StripedTransfer,
         SubmittedTransfer;
    match op
    case DoTick(order, offer, elapsed) => TickAt(s, order, offer, elapsed);
    case DoForce(order) => ForceAt(s, order);
    case DoPreempt(busy, max, picked) =>
      PickedInFlight(s, busy, max, picked);
      SuspendAllAt(s, picked);
    case _ =>
  }

  lemma PickedInFlight(s: ExecState, busy: seq<nat>, max: nat, picked: seq<TransferId>)
    requires PreemptChoice(s, busy, max, picked)
    ensures forall i :: 0 <= i < |picked| ==> picked[i] in s.transfers
    ensures forall id :: id in picked ==> id in s.transfers && s.transfers[id].state == InFlight
  {
  }

  /** So over a run a completed transfer is still completed at the end if and only if no call of the
      run cancelled it. */
  lemma {:induction false} CompletedUnlessCancelled(s: ExecState, ops: seq<Op>, id: TransferId)
    requires ExecOk(s) && RunEnabled(s, ops) && id in s.transfers && Terminal(s.transfers[id])
    ensures id in Run(s, ops).transfers
    ensures Run(s, ops).transfers[id].state
      == if exists i :: 0 <= i < |ops| && Cancels(ops[i], id) then Cancelled else s.transfers[id].state
    ensures s.transfers[id].state == Completed ==>
      (Run(s, ops).transfers[id].state == Completed <==> forall i :: 0 <= i < |ops| ==> !Cancels(ops[i], id))
  {
    hide ExecOk, Enabled, Apply;
    if ops != [] {
      var before, op := ops[..|ops| - 1], ops[|ops| - 1];
      CompletedUnlessCancelled(s, before, id);
      RunOk(s, before);
      NextIsNew(Run(s, before));
      StepTerminal(Run(s, before), op, id);
      assert forall i :: 0 <= i < |before| ==> before[i] == ops[i];
      hide Run, RunEnabled, Cancels;
    }
  }

  lemma NextIsNew(s: ExecState)
    requires ExecOk(s)
    ensures s.nextId !in s.transfers
  {
  }

  lemma StepReports(s: ExecState, op: Op)
    requires ExecOk(s) && Enabled(s, op)
    ensures Distinct(Done(s, op))
    ensures forall id :: id in Done(s, op) ==> id in s.transfers
    ensures Apply(s, op).completed == s.completed + |Done(s, op)|
  {
    match op
    case DoTick(order, offer, elapsed) => TickDoneAt(s, order, offer, elapsed);
    case DoForce(order) => ForceDoneAt(s, order);
    case DoPreempt(_, _, picked) => SuspendAllAt(s, picked);
    case _ => assert Distinct([]);
  }

  predicate AllTerminal(s: ExecState, ids: seq<TransferId>) {
    forall id :: id in ids ==> id in s.transfers && Terminal(s.transfers[id])
  }

  /** What was reported stays terminal and is not reported again. */
  lemma StepKeepsTerminal(s: ExecState, op: Op, ids: seq<TransferId>)
    requires ExecOk(s) && Enabled(s, op) && AllTerminal(s, ids)
    ensures AllTerminal(Apply(s, op), ids + Done(s, op))
    ensures forall id :: id in ids ==> id !in Done(s, op)
  {
    StepReports(s, op);
    forall id | id in ids || id in Done(s, op)
      ensures id in Apply(s, op).transfers && Terminal(Apply(s, op).transfers[id])
      ensures id in ids ==> id !in Done(s, op)
    {
      StepMoves(s, op, id);
      hide ExecOk, Enabled, Apply, Done, SameLayout;
    }
  }

  /** Every id is reported done at most once, it is terminal ever after, and completed_count
      is the number of reports. */
  lemma {:induction false} ReportedOnce(s: ExecState, ops: seq<Op>)
    requires ExecOk(s) && RunEnabled(s, ops)
    ensures Distinct(Reports(s, ops))
    ensures AllTerminal(Run(s, ops), Reports(s, ops))
    ensures Run(s, ops).completed == s.completed + |Reports(s, ops)|
  {
    hide ExecOk, Enabled, Apply, Done, AllTerminal;
    if ops == [] {
      assert Distinct([]);
      NoneTerminal(s);
    } else {
      var before, op := ops[..|ops| - 1], ops[|ops| - 1];
      ReportedOnce(s, before);
      RunOk(s, before);
      StepReports(Run(s, before), op);
      StepKeepsTerminal(Run(s, before), op, Reports(s, before));
      DistinctConcat(Reports(s, before), Done(Run(s, before), op));
    }
  }

  lemma NoneTerminal(s: ExecState)
    ensures AllTerminal(s, [])
  {
  }

  // ------------------------------------------------------------- delivery

  /** The caller's side of a call: buffers handed over are apart from each other and from
      those of unfinished transfers, and the host leaves unfinished buffers alone. */
  ghost predicate Contract(s: ExecState, op: Op) {
    match op
    case DoSubmit(_, _, _) => NewcomerOk(s, Apply(s, op).transfers[s.nextId])
    case DoSubmitStriped(_, _, _) => NewcomerOk(s, Apply(s, op).transfers[s.nextId])
    case HostWrite(mem) => HostLeaves(s, mem, LiveIds(s))
    case _ => true
  }

  ghost predicate HostLeaves(s: ExecState, mem: Memory, ids: set<TransferId>) {
    forall id, a: nat ::
      id in ids && id in s.transfers && Bound(s.transfers[id]) && InBuffers(s.transfers[id], a) ==> Kept(mem, s.mem, a)
  }

  predicate InBuffers(t: Transfer, a: nat) {
    t.src <= a < t.src + t.total || t.dst <= a < t.dst + t.total
  }

  ghost predicate NewcomerOk(s: ExecState, t: Transfer) {
    Bound(t) ==>
      (BuffersOk(t) && forall id :: id in LiveIds(s) && Bound(s.transfers[id]) ==> Separate(t, s.transfers[id]))
  }

  ghost predicate RunContract(s: ExecState, ops: seq<Op>) {
    ops != [] ==> RunContract(s, ops[..|ops| - 1]) && Contract(Run(s, ops[..|ops| - 1]), ops[|ops| - 1])
  }

  lemma EmptyRun(s: ExecState)
    ensures RunEnabled(s, []) && RunContract(s, []) && Run(s, []) == s && Reports(s, []) == []
  {
  }

  /** One more step of a run. */
  lemma RunSnoc(s: ExecState, ops: seq<Op>, op: Op)
    requires RunEnabled(s, ops) && Enabled(Run(s, ops), op)
    ensures RunEnabled(s, ops + [op]) && Run(s, ops + [op]) == Apply(Run(s, ops), op)
    ensures Reports(s, ops + [op]) == Reports(s, ops) + Done(Run(s, ops), op)
    ensures RunContract(s, ops) && Contract(Run(s, ops), op) ==> RunContract(s, ops + [op])
  {
    assert (ops + [op])[..|ops|] == ops;
  }

  lemma {:induction false} TickDelivers(s: ExecState, ids: set<TransferId>, order: seq<TransferId>,
                                        offer: Offer, elapsed: Clock)
    requires ExecOk(s) && Distinct(order) && GroupOk(s.mem, s.transfers, ids)
    requires forall id :: id in s.transfers && Active(s.transfers[id]) ==> id in ids
    ensures GroupOk(Tick(s, order, offer, elapsed).mem, Tick(s, order, offer, elapsed).transfers, ids)
  {
    hide ExecOk, GroupOk;
    if order != [] {
      var n := |order| - 1;
      DistinctLast(order);
      TickKeepsOk(s, order[..n], offer, elapsed);
      TickAt(s, order[..n], offer, elapsed);
      TickDelivers(s, ids, order[..n], offer, elapsed);
      TickOneDelivers(Tick(s, order[..n], offer, elapsed), ids, order[n], offer, elapsed(order[n]));
    }
  }

  lemma {:induction false} ForceDelivers(s: ExecState, ids: set<TransferId>, order: seq<TransferId>)
    requires ExecOk(s) && Distinct(order) && GroupOk(s.mem, s.transfers, ids)
    requires forall id :: id in s.transfers && Active(s.transfers[id]) ==> id in ids
    ensures GroupOk(Force(s, order).mem, Force(s, order).transfers, ids)
  {
    hide ExecOk, GroupOk;
    if order != [] {
      var n := |order| - 1;
      DistinctLast(order);
      ForceKeepsOk(s, order[..n]);
      ForceAt(s, order[..n]);
      ForceDelivers(s, ids, order[..n]);
      ForceOneDelivers(Force(s, order[..n]), ids, order[n]);
    }
  }

  lemma GroupShrinks(mem: Memory, ts: map<TransferId, Transfer>, ids: set<TransferId>, few: set<TransferId>)
    requires GroupOk(mem, ts, ids) && few <= ids
    ensures GroupOk(mem, ts, few)
  {
  }

  lemma NewcomerJoins(s: ExecState, t: Transfer)
    requires ExecOk(s) && DeliveryOk(s) && NewcomerOk(s, t) && Live(t) && BytesZero(t)
    ensures DeliveryOk(AddTransfer(s, t))
  {
    var r := AddTransfer(s, t);
    assert LiveIds(r) == LiveIds(s) + {s.nextId};
    assert s.nextId !in LiveIds(s);
    forall id | id in LiveIds(r) && Bound(r.transfers[id])
      ensures BuffersOk(r.transfers[id]) && Delivered(r.mem, r.transfers[id])
    {
      if id == s.nextId {
        forall i | 0 <= i < |t.chunks| ensures ChunkDelivered(r.mem, t.src, t.dst, t.chunks[i]) {
        }
      }
    }
  }

  predicate BytesZero(t: Transfer) { forall i :: 0 <= i < |t.chunks| ==> t.chunks[i].sent == 0 }

  lemma StripedBytesZero(id: TransferId, req: TransferRequest, paths: seq<ChunkPath>, rails: seq<int>, bufs: Buffers)
    requires paths != []
    ensures BytesZero(StripedTransfer(id, req, paths, rails, bufs))
  {
    var t, laid := StripedTransfer(id, req, paths, rails, bufs), LaidOut(paths, 0, rails);
    forall i | 0 <= i < |t.chunks| ensures t.chunks[i].sent == 0 {
      LaidOutAt(paths, 0, rails, i);
      PromoteAt(laid, {}, i);
    }
  }

  lemma StepKeys(s: ExecState, op: Op)
    requires Enabled(s, op) && !op.DoSubmit? && !op.DoSubmitStriped?
    ensures Apply(s, op).transfers.Keys == s.transfers.Keys
  {
    match op
    case DoTick(order, offer, elapsed) => TickAt(s, order, offer, elapsed);
    case DoForce(order) => ForceAt(s, order);
    case DoPreempt(_, _, picked) => SuspendAllAt(s, picked);
    case _ =>
  }

  /** Transfers live after a step were live before, unless just submitted. */
  lemma LiveShrinks(s: ExecState, op: Op)
    requires ExecOk(s) && Enabled(s, op) && !op.DoSubmit? && !op.DoSubmitStriped?
    ensures LiveIds(Apply(s, op)) <= LiveIds(s)
  {
    hide ExecOk, Enabled, Apply, Done, SameLayout;
    StepKeys(s, op);
    forall id | id in LiveIds(Apply(s, op)) ensures id in LiveIds(s) {
      StepMoves(s, op, id);
      LiveOrTerminal(s, id);
    }
  }

  lemma LiveOrTerminal(s: ExecState, id: TransferId)
    requires ExecOk(s) && id in s.transfers
    ensures Live(s.transfers[id]) || Terminal(s.transfers[id])
  {
    assert TransferOk(id, s.transfers[id]);
  }

  lemma HostKeepsGroup(s: ExecState, mem: Memory, ids: set<TransferId>)
    requires ExecOk(s) && GroupOk(s.mem, s.transfers, ids)
    requires HostLeaves(s, mem, ids)
    ensures GroupOk(mem, s.transfers, ids)
  {
    forall id | id in ids && Bound(s.transfers[id]) ensures Delivered(mem, s.transfers[id]) {
      var t := s.transfers[id];
      assert TransferOk(id, t) && InBounds(t.chunks, t.total);
      forall i | 0 <= i < |t.chunks| ensures ChunkDelivered(mem, t.src, t.dst, t.chunks[i]) {
        var c := t.chunks[i];
        assert ChunkDelivered(s.mem, t.src, t.dst, c) && Within(c);
        forall x: nat | c.offset <= x < c.offset + c.sent ensures Copied(mem, mem, t.src, t.dst, x) {
          assert Copied(s.mem, s.mem, t.src, t.dst, x);
          assert InBuffers(t, t.src + x) && InBuffers(t, t.dst + x);
          assert Kept(mem, s.mem, t.src + x) && Kept(mem, s.mem, t.dst + x);
        }
      }
    }
  }

  lemma SuspendAllGroup(s: ExecState, picked: seq<TransferId>, ids: set<TransferId>)
    requires GroupOk(s.mem, s.transfers, ids)
    requires forall i :: 0 <= i < |picked| ==> picked[i] in s.transfers
    ensures GroupOk(SuspendAll(s, picked).mem, SuspendAll(s, picked).transfers, ids)
  {
    SuspendAllAt(s, picked);
    var r := SuspendAll(s, picked);
    forall id | id in ids && Bound(r.transfers[id]) ensures Delivered(s.mem, r.transfers[id]) {
      assert Delivered(s.mem, s.transfers[id]);
      assert r.transfers[id].chunks == s.transfers[id].chunks;
    }
  }

  lemma SuspendGroup(s: ExecState, id: TransferId, ids: set<TransferId>)
    requires GroupOk(s.mem, s.transfers, ids) && id in s.transfers
    ensures GroupOk(s.mem, SuspendOne(s, id).transfers, ids)
  {
    GroupSame(s.mem, s.transfers, ids, id, SuspendTransfer(s.transfers[id]));
  }

  lemma CancelGroup(s: ExecState, id: TransferId, ids: set<TransferId>)
    requires GroupOk(s.mem, s.transfers, ids)
    ensures GroupOk(Cancel(s, id).mem, Cancel(s, id).transfers, ids)
  {
    if id in s.transfers {
      CancelLayout(s.transfers[id]);
      GroupSame(s.mem, s.transfers, ids, id, CancelTransfer(s.transfers[id]));
    }
  }

  lemma RerouteGroup(s: ExecState, id: TransferId, path: PathCost, ids: set<TransferId>)
    requires GroupOk(s.mem, s.transfers, ids)
    requires forall jd :: jd in s.transfers ==> TransferOk(jd, s.transfers[jd])
    ensures GroupOk(Reroute(s, id, path).mem, Reroute(s, id, path).transfers, ids)
  {
    if CanReroute(s, id) {
      var t := s.transfers[id];
      assert TransferOk(id, t);
      RerouteLayout(t, path, s.rails);
      hide TransferOk, GroupOk, RerouteTransfer;
      GroupSame(s.mem, s.transfers, ids, id, RerouteTransfer(t, path, s.rails));
    }
  }

  lemma SingleGroup(s: ExecState, op: Op, ids: set<TransferId>)
    requires GroupOk(s.mem, s.transfers, ids) && (op.DoPause? || op.DoCancel? || op.DoReroute?)
    requires forall jd :: jd in s.transfers ==> TransferOk(jd, s.transfers[jd])
    ensures GroupOk(Apply(s, op).mem, Apply(s, op).transfers, ids)
  {
    hide GroupOk, TransferOk, Cancel, Reroute;
    match op
    case DoPause(id) => if CanPause(s, id) { SuspendGroup(s, id, ids); }
    case DoCancel(id) =>
      CancelGroup(s, id, ids);
    case DoReroute(id, path) =>
      RerouteGroup(s, id, path, ids);
  }

  /** A step keeps the group of so-far-live transfers delivering. */
  lemma StepGroup(s: ExecState, op: Op)
    requires ExecOk(s) && DeliveryOk(s) && Enabled(s, op) && Contract(s, op)
    requires !op.DoSubmit? && !op.DoSubmitStriped?
    ensures GroupOk(Apply(s, op).mem, Apply(s, op).transfers, LiveIds(s))
  {
    var ids := LiveIds(s);
    assert forall id :: id in s.transfers ==> TransferOk(id, s.transfers[id]);
    assert forall id :: id in s.transfers && Active(s.transfers[id]) ==> id in ids;
    hide ExecOk, GroupOk, TransferOk, Cancel, Reroute, LiveIds, SuspendTransfer;
    match op
    case DoTick(order, offer, elapsed) => TickDelivers(s, ids, order, offer, elapsed);
    case DoForce(order) => ForceDelivers(s, ids, order);
    case DoPreempt(_, _, picked) => SuspendAllGroup(s, picked, ids);
    case HostWrite(mem) => HostKeepsGroup(s, mem, ids);
    case _ => SingleGroup(s, op, ids);
  }

  lemma StepDelivers(s: ExecState, op: Op)
    requires ExecOk(s) && DeliveryOk(s) && Enabled(s, op) && Contract(s, op)
    ensures DeliveryOk(Apply(s, op))
  {
    match op
    case DoSubmit(req, path, bufs) => NewcomerJoins(s, SubmittedTransfer(s.nextId, req, path, s.rails, bufs));
    case DoSubmitStriped(req, paths, bufs) =>
      if paths == [] {
        NewcomerJoins(s, SubmittedTransfer(s.nextId, req, PathCost([], 0.0), s.rails, bufs));
      } else {
        StripedBytesZero(s.nextId, req, paths, s.rails, bufs);
        NewcomerJoins(s, StripedTransfer(s.nextId, req, paths, s.rails, bufs));
      }
    case _ =>
      var r := Apply(s, op);
      StepGroup(s, op);
      LiveShrinks(s, op);
      GroupShrinks(r.mem, r.transfers, LiveIds(s), LiveIds(r));
  }

  /** Under any interleaving, every unfinished transfer has delivered what it says it sent. */
  lemma {:induction false} RunDelivers(s: ExecState, ops: seq<Op>)
    requires ExecOk(s) && DeliveryOk(s) && RunEnabled(s, ops) && RunContract(s, ops)
    ensures DeliveryOk(Run(s, ops))
  {
    if ops != [] {
      var before := ops[..|ops| - 1];
      RunOk(s, before);
      RunDelivers(s, before);
      StepDelivers(Run(s, before), ops[|ops| - 1]);
    }
  }
}
