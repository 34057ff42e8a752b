/** What each operation of the transfer executor does to one transfer and to the whole state. */
module TransferSpec {
  import opened Model
  import opened Sums

  type TransferId = nat

  datatype TransferState =
    Pending | InFlight | Paused | Rerouting | Completed | Cancelled | SuspendPending

  datatype ChunkPath = ChunkPath(chunkSeq: nat, edges: seq<nat>, size: nat, offset: nat, rail: int)

  datatype Chunk = Chunk(chunkSeq: nat, edges: seq<nat>, offset: nat, size: nat, sent: nat,
                         rail: int, state: TransferState)

  /** `src` and `dst` are buffer addresses; 0 stands for none. */
  datatype Transfer = Transfer(
    id: TransferId, state: TransferState, request: TransferRequest, pathEdges: seq<nat>,
    total: Size64, sent: nat, remaining: Size64, slack: real, rerouteCount: nat, preemptible: bool,
    src: nat, dst: nat, quantum: nat, chunks: seq<Chunk>, suspend: bool)

  datatype Buffers = Buffers(src: nat, dst: nat)

  /** Host memory: the byte at every address. */
  type Memory = nat -> bv8

  /** The executor's fields; `rails` is the rail of each edge of the attached graph
      (empty while no graph is attached). */
  datatype ExecState = ExecState(
    rails: seq<int>, transfers: map<TransferId, Transfer>, nextId: TransferId, completed: nat,
    preempts: nat, reroutes: nat, bytes: nat, suspends: nat, mem: Memory)

  // ---------------------------------------------------------------- chunks

  function Slot(rail: int): nat { if rail >= 0 then rail % IB_RAIL_COUNT else 0 }

  /** The first rail found along the path, 0 when there is none. */
  function RailOfPath(rails: seq<int>, path: seq<nat>): int {
    if path == [] then 0
    else if path[0] < |rails| && rails[path[0]] >= 0 then rails[path[0]]
    else RailOfPath(rails, path[1..])
  }

  function SentOf(c: Chunk): nat { c.sent }

  function SizeOf(c: Chunk): nat { c.size }

  function Remain(c: Chunk): nat { if c.sent <= c.size then c.size - c.sent else 0 }

  /** Bytes one tick moves for this chunk when its path offers n. */
  function StepBytes(c: Chunk, n: nat): nat {
    if c.state == InFlight then Min(n, Remain(c)) else 0
  }

  function AdvanceChunk(c: Chunk, n: nat): Chunk {
    if c.state != InFlight then c
    else if Remain(c) == 0 then c.(state := Completed)
    else
      var sent := c.sent + Min(n, Remain(c));
      c.(sent := sent, state := if sent >= c.size then Completed else InFlight)
  }

  function ParkChunk(c: Chunk): Chunk { if c.state == Pending then c.(state := Paused) else c }

  function FinishChunk(c: Chunk): Chunk { c.(state := Completed) }

  function CancelChunk(c: Chunk): Chunk {
    if c.state == Completed then c else c.(state := Cancelled)
  }

  /** Unfinished chunks take the new path and wait for a slot on it. */
  function RedirectChunk(c: Chunk, path: seq<nat>, rail: int): Chunk {
    if c.state == Completed then c
    else c.(edges := path, rail := rail,
            state := if c.state in {Paused, Pending, InFlight} then Pending else c.state)
  }

  /** drain_ready's forced end of a chunk: only what is in flight is sent. */
  function ForceChunk(c: Chunk): Chunk {
    if c.state == InFlight then c.(sent := c.size, state := Completed) else c
  }

  function ForceBytes(c: Chunk): nat { if c.state == InFlight then Remain(c) else 0 }

  function MapChunks(cs: seq<Chunk>, f: Chunk -> Chunk): (r: seq<Chunk>)
    ensures |r| == |cs| && forall i :: 0 <= i < |cs| ==> r[i] == f(cs[i])
  {
    seq(|cs|, i requires 0 <= i < |cs| => f(cs[i]))
  }

  function BusySlots(cs: seq<Chunk>): set<nat> {
    set c | c in cs && c.state == InFlight :: Slot(c.rail)
  }

  /** Start Pending chunks in order, one per slot that is not busy. */
  function Promote(cs: seq<Chunk>, busy: set<nat>): (r: seq<Chunk>)
    ensures |r| == |cs|
  {
    if cs == [] then []
    else if cs[0].state == Pending && Slot(cs[0].rail) !in busy then
      [cs[0].(state := InFlight)] + Promote(cs[1..], busy + {Slot(cs[0].rail)})
    else
      [cs[0]] + Promote(cs[1..], busy)
  }

  // ------------------------------------------------------------- transfers

  predicate Active(t: Transfer) { t.state in {InFlight, SuspendPending} }

  predicate Terminal(t: Transfer) { t.state in {Completed, Cancelled} }

  predicate Bound(t: Transfer) { t.src != 0 && t.dst != 0 }

  predicate Shares(path: seq<nat>, busy: seq<nat>) { exists e :: e in path && e in busy }

  /** refresh_aggregate_locked. */
  function Refresh(t: Transfer): Transfer {
    var sent := SumBy(t.chunks, SentOf);
    t.(sent := sent, remaining := if t.total > sent then t.total - sent else 0)
  }

  /** The chunks a tick is about to advance: parked on suspend, promoted otherwise. */
  function Staged(t: Transfer): seq<Chunk> {
    if t.suspend then MapChunks(t.chunks, ParkChunk) else Promote(t.chunks, BusySlots(t.chunks))
  }

  type Offer = seq<nat> -> nat

  function Advanced(t: Transfer, offer: Offer): seq<Chunk> {
    MapChunks(Staged(t), (c: Chunk) => AdvanceChunk(c, offer(c.edges)))
  }

  function TickBytes(t: Transfer, offer: Offer): nat {
    SumBy(Staged(t), (c: Chunk) => StepBytes(c, offer(c.edges)))
  }

  /** What follows the wire work of a tick: complete, pause at the boundary, or go on. */
  function Settle(t: Transfer, elapsed: real): Transfer {
    var r := Refresh(t).(slack := t.request.deadline - elapsed);
    if r.remaining == 0 then
      r.(chunks := MapChunks(r.chunks, FinishChunk), suspend := false, state := Completed)
    else if r.suspend then
      if exists c :: c in r.chunks && c.state == InFlight then r.(state := SuspendPending)
      else r.(state := Paused, suspend := false)
    else r
  }

  function TickTransfer(t: Transfer, offer: Offer, elapsed: real): Transfer {
    Settle(t.(chunks := Advanced(t, offer)), elapsed)
  }

  function SuspendTransfer(t: Transfer): Transfer { t.(suspend := true, state := SuspendPending) }

  function CancelTransfer(t: Transfer): Transfer {
    t.(state := Cancelled, remaining := 0, chunks := MapChunks(t.chunks, CancelChunk))
  }

  function RerouteTransfer(t: Transfer, path: PathCost, rails: seq<int>): Transfer {
    var rail := RailOfPath(rails, path.edges);
    var redirected := MapChunks(t.chunks, (c: Chunk) => RedirectChunk(c, path.edges, rail));
    t.(chunks := Promote(redirected, {}), pathEdges := path.edges,
       slack := t.request.deadline - path.latency, rerouteCount := t.rerouteCount + 1,
       suspend := false, state := InFlight)
  }

  function ForceTransfer(t: Transfer): Transfer {
    Refresh(t.(chunks := MapChunks(t.chunks, ForceChunk))).(state := Completed, remaining := 0)
  }

  function SubmittedTransfer(id: TransferId, req: TransferRequest, path: PathCost, rails: seq<int>,
                             bufs: Buffers): Transfer
  {
    var chunk := Chunk(0, path.edges, 0, req.size, 0, RailOfPath(rails, path.edges), InFlight);
    Transfer(id, InFlight, req, path.edges, req.size, 0, req.size, req.deadline - path.latency, 0,
             req.cls == KVMigration, bufs.src, bufs.dst, KV_CHUNK_BYTES, [chunk], false)
  }

  /** The offset rule of submit_striped: a positive offset is kept, zero means "after the last". */
  function LaidChunk(p: ChunkPath, offset: nat, rails: seq<int>): Chunk {
    Chunk(p.chunkSeq, p.edges, if p.offset > 0 then p.offset else offset, p.size, 0,
          if p.rail >= 0 then p.rail else RailOfPath(rails, p.edges), Pending)
  }

  function LaidOut(paths: seq<ChunkPath>, offset: nat, rails: seq<int>): (r: seq<Chunk>)
    ensures |r| == |paths|
  {
    if paths == [] then []
    else [LaidChunk(paths[0], offset, rails)] + LaidOut(paths[1..], offset + paths[0].size, rails)
  }

  function AddEdges(acc: seq<nat>, path: seq<nat>): seq<nat>
    decreases path
  {
    if path == [] then acc
    else AddEdges(if path[0] in acc then acc else acc + [path[0]], path[1..])
  }

  /** Every edge of every chunk path, once, in order of first use. */
  function UnionEdges(acc: seq<nat>, paths: seq<ChunkPath>): seq<nat>
    decreases paths
  {
    if paths == [] then acc else UnionEdges(AddEdges(acc, paths[0].edges), paths[1..])
  }

  function StripedTransfer(id: TransferId, req: TransferRequest, paths: seq<ChunkPath>,
                           rails: seq<int>, bufs: Buffers): Transfer
    requires paths != []
  {
    Transfer(id, InFlight, req, UnionEdges([], paths), req.size, 0, req.size, req.deadline, 0,
             req.cls == KVMigration, bufs.src, bufs.dst,
             if paths[0].size > 0 then paths[0].size else KV_CHUNK_BYTES,
             Promote(LaidOut(paths, 0, rails), {}), false)
  }

  // ---------------------------------------------------------------- memory

  function Copy(mem: Memory, from: nat, to: nat, n: nat): Memory {
    (a: nat) => if to <= a < to + n then mem(a - to + from) else mem(a)
  }

  /** maybe_wire_chunk: copy the next `step` bytes when both buffers are bound. */
  function Wire(mem: Memory, t: Transfer, c: Chunk, step: nat): Memory {
    if step == 0 || !Bound(t) then mem
    else Copy(mem, t.src + c.offset + c.sent, t.dst + c.offset + c.sent, step)
  }

  /** Memory after the first k staged chunks of a tick have been wired. */
  function WireChunks(mem: Memory, t: Transfer, cs: seq<Chunk>, k: nat, step: Chunk -> nat): Memory
    requires k <= |cs|
  {
    if k == 0 then mem
    else Wire(WireChunks(mem, t, cs, k - 1, step), t, cs[k - 1], step(cs[k - 1]))
  }

  // ----------------------------------------------------------- whole state

  function InitExec(rails: seq<int>, mem: Memory): ExecState {
    ExecState(rails, map[], 1, 0, 0, 0, 0, 0, mem)
  }

  function AddTransfer(s: ExecState, t: Transfer): ExecState {
    s.(transfers := s.transfers[s.nextId := t], nextId := s.nextId + 1)
  }

  function Submit(s: ExecState, req: TransferRequest, path: PathCost, bufs: Buffers): ExecState {
    AddTransfer(s, SubmittedTransfer(s.nextId, req, path, s.rails, bufs))
  }

  function SubmitStriped(s: ExecState, req: TransferRequest, paths: seq<ChunkPath>,
                         bufs: Buffers): ExecState
  {
    if paths == [] then Submit(s, req, PathCost([], 0.0), bufs)
    else AddTransfer(s, StripedTransfer(s.nextId, req, paths, s.rails, bufs))
  }

  predicate CanPause(s: ExecState, id: TransferId) {
    id in s.transfers && s.transfers[id].preemptible && Active(s.transfers[id])
  }

  function SuspendOne(s: ExecState, id: TransferId): ExecState
    requires id in s.transfers
  {
    s.(transfers := s.transfers[id := SuspendTransfer(s.transfers[id])], preempts := s.preempts + 1)
  }

  function Pause(s: ExecState, id: TransferId): ExecState {
    if CanPause(s, id) then SuspendOne(s, id) else s
  }

  function Cancel(s: ExecState, id: TransferId): ExecState {
    if id in s.transfers
    then s.(transfers := s.transfers[id := CancelTransfer(s.transfers[id])])
    else s
  }

  predicate PreemptCandidate(t: Transfer, busy: seq<nat>) {
    && t.preemptible
    && t.state == InFlight
    && (Shares(t.pathEdges, busy)
        || exists c :: c in t.chunks && c.state == InFlight && Shares(c.edges, busy))
  }

  ghost function Candidates(s: ExecState, busy: seq<nat>): set<TransferId> {
    set id | id in s.transfers && PreemptCandidate(s.transfers[id], busy)
  }

  /** What preempt_sharing may pick: most slack first, at most `max`, ties in any order. */
  ghost predicate PreemptChoice(s: ExecState, busy: seq<nat>, max: nat, picked: seq<TransferId>) {
    && (forall i :: 0 <= i < |picked| ==>
          picked[i] in s.transfers && PreemptCandidate(s.transfers[picked[i]], busy))
    && (forall i, j :: 0 <= i < j < |picked| ==> picked[i] != picked[j])
    && |picked| == Min(max, |Candidates(s, busy)|)
    && (forall i, id :: 0 <= i < |picked| && id in s.transfers && id !in picked
          && PreemptCandidate(s.transfers[id], busy)
          ==> s.transfers[id].slack <= s.transfers[picked[i]].slack)
  }

  function SuspendAll(s: ExecState, picked: seq<TransferId>): ExecState {
    if picked == [] then s
    else
      var id := picked[|picked| - 1];
      var r := SuspendAll(s, picked[..|picked| - 1]);
      if id in r.transfers then SuspendOne(r, id) else r
  }

  predicate CanReroute(s: ExecState, id: TransferId) {
    id in s.transfers && s.transfers[id].state in {Paused, Rerouting, InFlight, SuspendPending}
  }

  function Reroute(s: ExecState, id: TransferId, path: PathCost): ExecState {
    if CanReroute(s, id) then
      s.(transfers := s.transfers[id := RerouteTransfer(s.transfers[id], path, s.rails)],
         reroutes := s.reroutes + 1)
    else s
  }

  type Clock = TransferId -> real

  /** The part of a tick that handles one transfer. */
  function TickOne(s: ExecState, id: TransferId, offer: Offer, elapsed: real): ExecState {
    if id !in s.transfers || !Active(s.transfers[id]) then s
    else
      var t := s.transfers[id];
      var t' := TickTransfer(t, offer, elapsed);
      s.(transfers := s.transfers[id := t'],
         mem := WireChunks(s.mem, t, Staged(t), |Staged(t)|,
                           (c: Chunk) => StepBytes(c, offer(c.edges))),
         bytes := s.bytes + TickBytes(t, offer),
         completed := s.completed + if t'.state == Completed then 1 else 0,
         suspends := s.suspends + if t'.state == Paused then 1 else 0)
  }

  /** A tick visits the transfers in the map's iteration order, which is a parameter. */
  function Tick(s: ExecState, order: seq<TransferId>, offer: Offer, elapsed: Clock): ExecState {
    if order == [] then s
    else
      var id := order[|order| - 1];
      TickOne(Tick(s, order[..|order| - 1], offer, elapsed), id, offer, elapsed(id))
  }

  function Finishes(s: ExecState, id: TransferId, offer: Offer, elapsed: real): bool {
    && id in s.transfers
    && Active(s.transfers[id])
    && TickTransfer(s.transfers[id], offer, elapsed).state == Completed
  }

  /** The ids a tick reports as done. */
  function TickDone(s: ExecState, order: seq<TransferId>, offer: Offer, elapsed: Clock)
    : seq<TransferId>
  {
    if order == [] then []
    else
      var id := order[|order| - 1];
      var prefix := order[..|order| - 1];
      TickDone(s, prefix, offer, elapsed)
      + if Finishes(Tick(s, prefix, offer, elapsed), id, offer, elapsed(id)) then [id] else []
  }

  function ForceOne(s: ExecState, id: TransferId): ExecState {
    if id !in s.transfers || !Active(s.transfers[id]) then s
    else
      var t := s.transfers[id];
      s.(transfers := s.transfers[id := ForceTransfer(t)],
         mem := WireChunks(s.mem, t, t.chunks, |t.chunks|, ForceBytes),
         bytes := s.bytes + SumBy(t.chunks, ForceBytes),
         completed := s.completed + 1)
  }

  /** drain_ready's forced completion of every active transfer. */
  function Force(s: ExecState, order: seq<TransferId>): ExecState {
    if order == [] then s else ForceOne(Force(s, order[..|order| - 1]), order[|order| - 1])
  }

  function ForceDone(s: ExecState, order: seq<TransferId>): seq<TransferId> {
    if order == [] then []
    else
      var id := order[|order| - 1];
      var prefix := order[..|order| - 1];
      var r := Force(s, prefix);
      ForceDone(s, prefix) + if id in r.transfers && Active(r.transfers[id]) then [id] else []
  }
}
