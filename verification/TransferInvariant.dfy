/** What every operation of the executor keeps: byte accounting, rail exclusivity, edge cover. */
module TransferInvariant {
  import opened Model
  import opened Sums
  import opened TransferSpec

  /** At most one chunk in flight per rail slot. */
  predicate RailExclusive(cs: seq<Chunk>) {
    forall i, j :: 0 <= i < j < |cs| && cs[i].state == InFlight && cs[j].state == InFlight
      ==> Slot(cs[i].rail) != Slot(cs[j].rail)
  }

  predicate Within(c: Chunk) { c.sent <= c.size }

  predicate WithinAll(cs: seq<Chunk>) { forall i :: 0 <= i < |cs| ==> Within(cs[i]) }

  predicate Unfinished(c: Chunk) { c.state != Completed }

  /** A transfer's edge list covers every chunk still to be sent. */
  predicate Covered(cs: seq<Chunk>, pathEdges: seq<nat>) {
    forall i, e :: 0 <= i < |cs| && Unfinished(cs[i]) && e in cs[i].edges ==> e in pathEdges
  }

  predicate OneRail(cs: seq<Chunk>) {
    forall i, j :: 0 <= i < |cs| && 0 <= j < |cs| && Unfinished(cs[i]) && Unfinished(cs[j])
      ==> cs[i].rail == cs[j].rail
  }

  /** The chunk states a transfer state allows; a chunk completed before its parent is full. */
  predicate Fits(st: TransferState, c: Chunk) {
    match st
    case InFlight => c.state in {Pending, InFlight, Completed} && (c.state == Completed ==> c.sent == c.size)
    case SuspendPending =>
      c.state in {Pending, InFlight, TransferState.Paused, Completed} && (c.state == Completed ==> c.sent == c.size)
    case Paused => c.state in {TransferState.Paused, Completed} && (c.state == Completed ==> c.sent == c.size)
    case Completed => true
    case Cancelled => true
    case _ => false
  }

  predicate FitsAll(st: TransferState, cs: seq<Chunk>) {
    forall i :: 0 <= i < |cs| ==> Fits(st, cs[i])
  }

  predicate Aggregated(t: Transfer) {
    && t.sent == SumBy(t.chunks, SentOf)
    && (t.state in {InFlight, SuspendPending, Paused} ==>
          t.remaining == if t.total > t.sent then t.total - t.sent else 0)
    && (Terminal(t) ==> t.remaining == 0)
  }

  predicate FlagOk(t: Transfer) {
    && (t.state == InFlight ==> !t.suspend)
    && (t.state == SuspendPending ==> t.suspend)
    && (t.state == Paused ==> !t.suspend && t.remaining > 0)
  }

  predicate HeaderOk(id: TransferId, t: Transfer) {
    && t.id == id
    && t.state !in {Pending, Rerouting}
    && t.total == t.request.size
    && (t.preemptible <==> t.request.cls == KVMigration)
  }

  /** The chunk list's own order, whatever the transfer's state. */
  predicate Shape(cs: seq<Chunk>, pathEdges: seq<nat>, rerouted: bool) {
    && WithinAll(cs)
    && RailExclusive(cs)
    && Covered(cs, pathEdges)
    && (rerouted ==> OneRail(cs))
  }

  predicate TransferOk(id: TransferId, t: Transfer) {
    && HeaderOk(id, t)
    && Shape(t.chunks, t.pathEdges, t.rerouteCount > 0)
    && FitsAll(t.state, t.chunks)
    && Aggregated(t)
    && FlagOk(t)
  }

  /** A chunk that only gains bytes, finishes or stops. */
  predicate Progress(c: Chunk, d: Chunk) {
    && d.edges == c.edges && d.rail == c.rail && d.size == c.size
    && Within(d)
    && (d.state == InFlight ==> c.state == InFlight)
    && (Unfinished(d) ==> Unfinished(c))
  }

  lemma ProgressShape(cs: seq<Chunk>, ds: seq<Chunk>, pathEdges: seq<nat>, rerouted: bool)
    requires |ds| == |cs| && forall i :: 0 <= i < |cs| ==> Progress(cs[i], ds[i])
    requires Shape(cs, pathEdges, rerouted)
    ensures Shape(ds, pathEdges, rerouted)
  {
  }

  function BytesOf(t: Transfer): nat { SumBy(t.chunks, SentOf) }

  function ReroutesOf(t: Transfer): nat { t.rerouteCount }

  /** Ids are handed out in order, every transfer is in order, and the two running
      counters are the sums they stand for. */
  ghost predicate ExecOk(s: ExecState) {
    && s.nextId >= 1
    && (forall id :: id in s.transfers <==> 1 <= id < s.nextId)
    && (forall id :: id in s.transfers ==> TransferOk(id, s.transfers[id]))
    && s.bytes == Total(s.transfers, s.nextId - 1, BytesOf)
    && s.reroutes == Total(s.transfers, s.nextId - 1, ReroutesOf)
  }

  // ------------------------------------------------------------ promotion

  /** Promotion only turns Pending chunks into InFlight ones, each on a slot that was free. */
  lemma {:induction false} PromoteAt(cs: seq<Chunk>, busy: set<nat>, i: nat)
    requires i < |cs|
    ensures Promote(cs, busy)[i] == cs[i]
         || (cs[i].state == Pending && Promote(cs, busy)[i] == cs[i].(state := InFlight)
             && Slot(cs[i].rail) !in busy)
  {
    if i > 0 {
      var busy' := if cs[0].state == Pending && Slot(cs[0].rail) !in busy
                   then busy + {Slot(cs[0].rail)} else busy;
      PromoteAt(cs[1..], busy', i - 1);
    }
  }

  lemma {:induction false} PromoteExclusive(cs: seq<Chunk>, busy: set<nat>)
    requires RailExclusive(cs)
    requires forall i :: 0 <= i < |cs| && cs[i].state == InFlight ==> Slot(cs[i].rail) in busy
    ensures RailExclusive(Promote(cs, busy))
  {
    if cs != [] {
      var start := cs[0].state == Pending && Slot(cs[0].rail) !in busy;
      var busy' := if start then busy + {Slot(cs[0].rail)} else busy;
      var r := Promote(cs, busy);
      var rest := Promote(cs[1..], busy');
      assert RailExclusive(cs[1..]);
      PromoteExclusive(cs[1..], busy');
      forall i, j | 0 <= i < j < |r| && r[i].state == InFlight && r[j].state == InFlight
        ensures Slot(r[i].rail) != Slot(r[j].rail)
      {
        assert r[j] == rest[j - 1];
        if i > 0 {
          assert r[i] == rest[i - 1];
        } else {
          PromoteAt(cs[1..], busy', j - 1);
        }
      }
    }
  }

  /** Promotion starts something whenever a Pending chunk waits and no chunk is in flight. */
  lemma {:induction false} PromoteStarts(cs: seq<Chunk>, busy: set<nat>, k: nat)
    requires k < |cs| && cs[k].state == Pending && Slot(cs[k].rail) !in busy
    ensures exists i :: 0 <= i < |cs| && Promote(cs, busy)[i].state == InFlight
  {
    var r := Promote(cs, busy);
    if cs[0].state == Pending && Slot(cs[0].rail) !in busy {
      assert r[0].state == InFlight;
    } else {
      PromoteStarts(cs[1..], busy, k - 1);
      var i :| 0 <= i < |cs[1..]| && Promote(cs[1..], busy)[i].state == InFlight;
      assert r[i + 1] == Promote(cs[1..], busy)[i];
    }
  }

  // ----------------------------------------------------------------- tick

  /** Staging changes only the waiting chunks' states. */
  lemma StagedAt(t: Transfer, i: nat)
    requires i < |t.chunks|
    ensures |Staged(t)| == |t.chunks|
    ensures Staged(t)[i] == t.chunks[i]
         || (t.chunks[i].state == Pending
             && Staged(t)[i] == t.chunks[i].(state := if t.suspend then TransferState.Paused else InFlight))
  {
    if !t.suspend { PromoteAt(t.chunks, BusySlots(t.chunks), i); }
  }

  lemma StagedExclusive(t: Transfer)
    requires RailExclusive(t.chunks)
    ensures RailExclusive(Staged(t))
  {
    if !t.suspend {
      PromoteExclusive(t.chunks, BusySlots(t.chunks));
    }
  }

  lemma StagedShape(t: Transfer, rerouted: bool)
    requires Shape(t.chunks, t.pathEdges, rerouted)
    ensures Shape(Staged(t), t.pathEdges, rerouted)
  {
    StagedExclusive(t);
    var st := Staged(t);
    forall i | 0 <= i < |t.chunks|
      ensures |st| == |t.chunks|
      ensures st[i].edges == t.chunks[i].edges && st[i].rail == t.chunks[i].rail && Within(st[i])
      ensures Unfinished(st[i]) ==> Unfinished(t.chunks[i])
    {
      StagedAt(t, i);
      assert Within(t.chunks[i]);
    }
  }

  lemma StagedFits(id: TransferId, t: Transfer, i: nat)
    requires FitsAll(t.state, t.chunks) && Active(t) && (t.suspend <==> t.state == SuspendPending)
    requires i < |t.chunks|
    ensures |Staged(t)| == |t.chunks| && Fits(t.state, Staged(t)[i])
    ensures Staged(t)[i].state != Pending || !t.suspend
  {
    StagedAt(t, i);
    assert Fits(t.state, t.chunks[i]);
  }

  lemma AdvancedOk(id: TransferId, t: Transfer, offer: Offer)
    requires TransferOk(id, t) && Active(t)
    ensures Shape(Advanced(t, offer), t.pathEdges, t.rerouteCount > 0)
    ensures FitsAll(t.state, Advanced(t, offer))
    ensures t.suspend ==> forall i :: 0 <= i < |Advanced(t, offer)| ==> Advanced(t, offer)[i].state != Pending
  {
    var st, cs := Staged(t), Advanced(t, offer);
    StagedShape(t, t.rerouteCount > 0);
    hide RailExclusive, OneRail, Covered;
    forall i | 0 <= i < |cs|
      ensures Progress(st[i], cs[i]) && Fits(t.state, cs[i]) && (t.suspend ==> cs[i].state != Pending)
    {
      StagedAt(t, i);
      StagedFits(id, t, i);
      AdvancedAt(t, offer, i);
      assert Within(st[i]);
    }
    ProgressShape(st, cs, t.pathEdges, t.rerouteCount > 0);
  }

  lemma StagedSums(t: Transfer)
    ensures |Staged(t)| == |t.chunks|
    ensures SumBy(Staged(t), SentOf) == SumBy(t.chunks, SentOf)
    ensures SumBy(Staged(t), SizeOf) == SumBy(t.chunks, SizeOf)
  {
    forall i | 0 <= i < |t.chunks|
      ensures |Staged(t)| == |t.chunks|
      ensures Staged(t)[i].sent == t.chunks[i].sent && Staged(t)[i].size == t.chunks[i].size
    {
      StagedAt(t, i);
    }
    SumByEq(Staged(t), t.chunks, SentOf, SentOf);
    SumByEq(Staged(t), t.chunks, SizeOf, SizeOf);
  }

  lemma AdvancedAt(t: Transfer, offer: Offer, i: nat)
    requires i < |Staged(t)|
    ensures |Advanced(t, offer)| == |Staged(t)|
    ensures Advanced(t, offer)[i] == AdvanceChunk(Staged(t)[i], offer(Staged(t)[i].edges))
  {
  }

  /** A tick's byte count is exactly what its chunks gained. */
  lemma AdvancedBytes(t: Transfer, offer: Offer)
    ensures SumBy(Advanced(t, offer), SentOf) == BytesOf(t) + TickBytes(t, offer)
    ensures SumBy(Advanced(t, offer), SizeOf) == SumBy(t.chunks, SizeOf)
  {
    StagedSums(t);
    var st, cs := Staged(t), Advanced(t, offer);
    var step := (c: Chunk) => StepBytes(c, offer(c.edges));
    forall i | 0 <= i < |st| ensures cs[i].sent == st[i].sent + step(st[i]) && cs[i].size == st[i].size {
      AdvancedAt(t, offer, i);
    }
    SumByEq(cs, st, SizeOf, SizeOf);
    SumByShift(st, cs, SentOf, step);
  }

  lemma FinishSums(cs: seq<Chunk>)
    ensures SumBy(MapChunks(cs, FinishChunk), SentOf) == SumBy(cs, SentOf)
    ensures SumBy(MapChunks(cs, CancelChunk), SentOf) == SumBy(cs, SentOf)
  {
    SumByEq(MapChunks(cs, FinishChunk), cs, SentOf, SentOf);
    SumByEq(MapChunks(cs, CancelChunk), cs, SentOf, SentOf);
  }

  /** What a tick hands to Settle: an active transfer whose aggregates are still stale. */
  predicate Advancing(id: TransferId, t: Transfer) {
    && HeaderOk(id, t)
    && Active(t)
    && (t.state == SuspendPending <==> t.suspend)
    && Shape(t.chunks, t.pathEdges, t.rerouteCount > 0)
    && FitsAll(t.state, t.chunks)
    && (t.suspend ==> forall i :: 0 <= i < |t.chunks| ==> t.chunks[i].state != Pending)
  }

  lemma SettleCompletes(id: TransferId, t: Transfer, elapsed: real)
    requires Advancing(id, t) && SumBy(t.chunks, SentOf) >= t.total
    ensures Settle(t, elapsed).state == Completed
    ensures TransferOk(id, Settle(t, elapsed))
    ensures BytesOf(Settle(t, elapsed)) == BytesOf(t)
  {
    hide RailExclusive, OneRail, Covered;
    FinishSums(t.chunks);
    var r := Settle(t, elapsed);
    assert r.chunks == MapChunks(t.chunks, FinishChunk);
    forall i | 0 <= i < |r.chunks| ensures Progress(t.chunks[i], r.chunks[i]) { assert Within(t.chunks[i]); }
    ProgressShape(t.chunks, r.chunks, t.pathEdges, t.rerouteCount > 0);
  }

  lemma SettlePauses(id: TransferId, t: Transfer, elapsed: real)
    requires Advancing(id, t) && SumBy(t.chunks, SentOf) < t.total && t.suspend
    requires !exists c :: c in t.chunks && c.state == InFlight
    ensures Settle(t, elapsed).state == Paused
    ensures TransferOk(id, Settle(t, elapsed))
    ensures Settle(t, elapsed).chunks == t.chunks
  {
    forall i | 0 <= i < |t.chunks| ensures Fits(Paused, t.chunks[i]) {
      assert t.chunks[i] in t.chunks;
      assert Fits(t.state, t.chunks[i]);
    }
  }

  lemma SettleGoesOn(id: TransferId, t: Transfer, elapsed: real)
    requires Advancing(id, t) && SumBy(t.chunks, SentOf) < t.total
    requires t.suspend ==> exists c :: c in t.chunks && c.state == InFlight
    ensures Settle(t, elapsed).state == t.state
    ensures TransferOk(id, Settle(t, elapsed))
    ensures Settle(t, elapsed).chunks == t.chunks
  {
  }

  /** One tick keeps a transfer in order and moves exactly TickBytes. */
  lemma TickTransferOk(id: TransferId, t: Transfer, offer: Offer, elapsed: real)
    requires TransferOk(id, t) && Active(t)
    ensures TransferOk(id, TickTransfer(t, offer, elapsed))
    ensures BytesOf(TickTransfer(t, offer, elapsed)) == BytesOf(t) + TickBytes(t, offer)
    ensures TickTransfer(t, offer, elapsed).state in {InFlight, SuspendPending, Paused, Completed}
  {
    AdvancedOk(id, t, offer);
    AdvancedBytes(t, offer);
    var a := t.(chunks := Advanced(t, offer));
    if SumBy(a.chunks, SentOf) >= a.total {
      SettleCompletes(id, a, elapsed);
    } else if a.suspend && !exists c :: c in a.chunks && c.state == InFlight {
      SettlePauses(id, a, elapsed);
    } else {
      SettleGoesOn(id, a, elapsed);
    }
  }

  // ----------------------------------------------------------- submission

  lemma {:induction false} LaidOutAt(paths: seq<ChunkPath>, offset: nat, rails: seq<int>, i: nat)
    requires i < |paths|
    ensures var c := LaidOut(paths, offset, rails)[i];
      c.edges == paths[i].edges && c.size == paths[i].size && c.sent == 0 && c.state == Pending
      && c.chunkSeq == paths[i].chunkSeq
  {
    if i > 0 { LaidOutAt(paths[1..], offset + paths[0].size, rails, i - 1); }
  }

  lemma {:induction false} AddEdgesHas(acc: seq<nat>, path: seq<nat>, e: nat)
    ensures e in AddEdges(acc, path) <==> e in acc || e in path
    decreases path
  {
    if path != [] {
      AddEdgesHas(if path[0] in acc then acc else acc + [path[0]], path[1..], e);
    }
  }

  /** path_edges of a striped transfer is exactly the union of the chunks' edges. */
  lemma {:induction false} UnionEdgesHas(acc: seq<nat>, paths: seq<ChunkPath>, e: nat)
    ensures e in UnionEdges(acc, paths) <==> e in acc || exists i :: 0 <= i < |paths| && e in paths[i].edges
    decreases paths
  {
    if paths != [] {
      var acc' := AddEdges(acc, paths[0].edges);
      var rest := paths[1..];
      AddEdgesHas(acc, paths[0].edges, e);
      UnionEdgesHas(acc', rest, e);
      assert (exists i :: 0 <= i < |paths| && e in paths[i].edges)
          ==> e in paths[0].edges || exists i :: 0 <= i < |rest| && e in rest[i].edges by {
        if i :| 0 <= i < |paths| && e in paths[i].edges && i > 0 { assert rest[i - 1] == paths[i]; }
      }
      assert forall i :: 0 <= i < |rest| ==> rest[i] == paths[i + 1];
    }
  }

  lemma SubmittedOk(id: TransferId, req: TransferRequest, path: PathCost, rails: seq<int>, bufs: Buffers)
    ensures TransferOk(id, SubmittedTransfer(id, req, path, rails, bufs))
    ensures BytesOf(SubmittedTransfer(id, req, path, rails, bufs)) == 0
  {
    SumByZero(SubmittedTransfer(id, req, path, rails, bufs).chunks);
  }

  lemma StripedOk(id: TransferId, req: TransferRequest, paths: seq<ChunkPath>, rails: seq<int>, bufs: Buffers)
    requires paths != []
    ensures TransferOk(id, StripedTransfer(id, req, paths, rails, bufs))
    ensures BytesOf(StripedTransfer(id, req, paths, rails, bufs)) == 0
  {
    var t := StripedTransfer(id, req, paths, rails, bufs);
    var laid := LaidOut(paths, 0, rails);
    forall i | 0 <= i < |laid|
      ensures laid[i].state == Pending && laid[i].sent == 0 && laid[i].edges == paths[i].edges
      ensures t.chunks[i].(state := Pending) == laid[i] && t.chunks[i].state in {Pending, InFlight}
    {
      LaidOutAt(paths, 0, rails, i);
      PromoteAt(laid, {}, i);
    }
    PromoteExclusive(laid, {});
    forall i, e | 0 <= i < |t.chunks| && e in t.chunks[i].edges ensures e in t.pathEdges {
      assert e in paths[i].edges;
      UnionEdgesHas([], paths, e);
    }
    SumByZero(t.chunks);
  }

  lemma {:induction false} SumByZero(cs: seq<Chunk>)
    requires forall i :: 0 <= i < |cs| ==> cs[i].sent == 0
    ensures SumBy(cs, SentOf) == 0
  {
    if cs != [] { SumByZero(cs[..|cs| - 1]); }
  }

  // --------------------------------------------- suspend, cancel, reroute, force

  lemma SuspendOk(id: TransferId, t: Transfer)
    requires TransferOk(id, t) && Active(t)
    ensures TransferOk(id, SuspendTransfer(t)) && BytesOf(SuspendTransfer(t)) == BytesOf(t)
  {
    forall i | 0 <= i < |t.chunks| ensures Fits(SuspendPending, t.chunks[i]) {
      assert Fits(t.state, t.chunks[i]);
    }
  }

  lemma CancelOk(id: TransferId, t: Transfer)
    requires TransferOk(id, t)
    ensures TransferOk(id, CancelTransfer(t)) && BytesOf(CancelTransfer(t)) == BytesOf(t)
  {
    hide RailExclusive, OneRail, Covered;
    FinishSums(t.chunks);
    var r := CancelTransfer(t);
    forall i | 0 <= i < |r.chunks|
      ensures r.chunks[i] == CancelChunk(t.chunks[i]) && Progress(t.chunks[i], r.chunks[i])
    {
      assert Within(t.chunks[i]);
    }
    ProgressShape(t.chunks, r.chunks, t.pathEdges, t.rerouteCount > 0);
  }

  lemma RedirectAt(t: Transfer, path: PathCost, rails: seq<int>, i: nat)
    requires i < |t.chunks| && t.state in {Paused, InFlight, SuspendPending} && FitsAll(t.state, t.chunks)
    ensures var c, r := t.chunks[i], RerouteTransfer(t, path, rails).chunks[i];
      if c.state == Completed then r == c
      else r.state in {Pending, InFlight}
           && r.(state := c.state) == c.(edges := path.edges, rail := RailOfPath(rails, path.edges))
  {
    var rail := RailOfPath(rails, path.edges);
    var redirected := MapChunks(t.chunks, (c: Chunk) => RedirectChunk(c, path.edges, rail));
    assert Fits(t.state, t.chunks[i]);
    assert redirected[i] == RedirectChunk(t.chunks[i], path.edges, rail);
    PromoteAt(redirected, {}, i);
  }

  lemma RerouteExclusive(t: Transfer, path: PathCost, rails: seq<int>)
    requires t.state in {Paused, InFlight, SuspendPending} && FitsAll(t.state, t.chunks)
    ensures RailExclusive(RerouteTransfer(t, path, rails).chunks)
  {
    var rail := RailOfPath(rails, path.edges);
    var redirected := MapChunks(t.chunks, (c: Chunk) => RedirectChunk(c, path.edges, rail));
    forall i | 0 <= i < |redirected| ensures redirected[i].state != InFlight {
      assert Fits(t.state, t.chunks[i]);
      assert redirected[i] == RedirectChunk(t.chunks[i], path.edges, rail);
    }
    PromoteExclusive(redirected, {});
  }

  lemma RerouteShape(t: Transfer, path: PathCost, rails: seq<int>)
    requires t.state in {Paused, InFlight, SuspendPending} && FitsAll(t.state, t.chunks) && WithinAll(t.chunks)
    ensures Shape(RerouteTransfer(t, path, rails).chunks, path.edges, true)
    ensures FitsAll(InFlight, RerouteTransfer(t, path, rails).chunks)
  {
    var r := RerouteTransfer(t, path, rails);
    RerouteExclusive(t, path, rails);
    hide RailExclusive;
    forall i | 0 <= i < |t.chunks|
      ensures Within(r.chunks[i]) && Fits(InFlight, r.chunks[i])
      ensures Unfinished(r.chunks[i]) ==>
        r.chunks[i].edges == path.edges && r.chunks[i].rail == RailOfPath(rails, path.edges)
    {
      RedirectAt(t, path, rails, i);
      assert Within(t.chunks[i]) && Fits(t.state, t.chunks[i]);
    }
  }

  lemma RerouteSums(t: Transfer, path: PathCost, rails: seq<int>)
    requires t.state in {Paused, InFlight, SuspendPending} && FitsAll(t.state, t.chunks)
    ensures BytesOf(RerouteTransfer(t, path, rails)) == BytesOf(t)
    ensures SumBy(RerouteTransfer(t, path, rails).chunks, SizeOf) == SumBy(t.chunks, SizeOf)
  {
    var r := RerouteTransfer(t, path, rails);
    forall i | 0 <= i < |t.chunks|
      ensures r.chunks[i].sent == t.chunks[i].sent && r.chunks[i].size == t.chunks[i].size
    {
      RedirectAt(t, path, rails, i);
    }
    SumByEq(r.chunks, t.chunks, SentOf, SentOf);
    SumByEq(r.chunks, t.chunks, SizeOf, SizeOf);
  }

  lemma RerouteOk(id: TransferId, t: Transfer, path: PathCost, rails: seq<int>)
    requires TransferOk(id, t) && t.state in {Paused, InFlight, SuspendPending}
    ensures TransferOk(id, RerouteTransfer(t, path, rails))
    ensures BytesOf(RerouteTransfer(t, path, rails)) == BytesOf(t)
  {
    RerouteShape(t, path, rails);
    RerouteSums(t, path, rails);
    hide Shape, FitsAll;
  }

  lemma ForceOk(id: TransferId, t: Transfer)
    requires TransferOk(id, t) && Active(t)
    ensures TransferOk(id, ForceTransfer(t))
    ensures BytesOf(ForceTransfer(t)) == BytesOf(t) + SumBy(t.chunks, ForceBytes)
  {
    hide RailExclusive, OneRail, Covered;
    var r := ForceTransfer(t);
    assert r.chunks == MapChunks(t.chunks, ForceChunk);
    forall i | 0 <= i < |t.chunks|
      ensures r.chunks[i] == ForceChunk(t.chunks[i]) && Progress(t.chunks[i], r.chunks[i])
      ensures r.chunks[i].sent == t.chunks[i].sent + ForceBytes(t.chunks[i])
    {
      assert Within(t.chunks[i]);
    }
    SumByShift(t.chunks, r.chunks, SentOf, ForceBytes);
    ProgressShape(t.chunks, r.chunks, t.pathEdges, t.rerouteCount > 0);
  }

  // ----------------------------------------------------------- whole state

  /** Replacing one transfer moves each running counter by that transfer's change. */
  lemma PutOk(s: ExecState, s': ExecState, id: TransferId, t: Transfer)
    requires ExecOk(s) && id in s.transfers && TransferOk(id, t)
    requires s'.transfers == s.transfers[id := t] && s'.nextId == s.nextId
    requires s'.bytes + BytesOf(s.transfers[id]) == s.bytes + BytesOf(t)
    requires s'.reroutes + s.transfers[id].rerouteCount == s.reroutes + t.rerouteCount
    ensures ExecOk(s')
  {
    hide TransferOk;
    TotalPut(s.transfers, s.nextId - 1, BytesOf, id, t);
    TotalPut(s.transfers, s.nextId - 1, ReroutesOf, id, t);
  }

  lemma AddOk(s: ExecState, t: Transfer)
    requires ExecOk(s) && TransferOk(s.nextId, t) && BytesOf(t) == 0 && t.rerouteCount == 0
    ensures ExecOk(AddTransfer(s, t))
  {
    hide TransferOk;
    TotalOutside(s.transfers, s.nextId - 1, BytesOf, s.nextId, t);
    TotalOutside(s.transfers, s.nextId - 1, ReroutesOf, s.nextId, t);
  }

  lemma SubmitKeepsOk(s: ExecState, req: TransferRequest, path: PathCost, bufs: Buffers)
    requires ExecOk(s)
    ensures ExecOk(Submit(s, req, path, bufs))
  {
    SubmittedOk(s.nextId, req, path, s.rails, bufs);
    AddOk(s, SubmittedTransfer(s.nextId, req, path, s.rails, bufs));
  }

  lemma SubmitStripedKeepsOk(s: ExecState, req: TransferRequest, paths: seq<ChunkPath>, bufs: Buffers)
    requires ExecOk(s)
    ensures ExecOk(SubmitStriped(s, req, paths, bufs))
  {
    if paths == [] {
      SubmitKeepsOk(s, req, PathCost([], 0.0), bufs);
    } else {
      StripedOk(s.nextId, req, paths, s.rails, bufs);
      AddOk(s, StripedTransfer(s.nextId, req, paths, s.rails, bufs));
    }
  }

  lemma SuspendOneKeepsOk(s: ExecState, id: TransferId)
    requires ExecOk(s) && id in s.transfers && Active(s.transfers[id])
    ensures ExecOk(SuspendOne(s, id))
  {
    SuspendOk(id, s.transfers[id]);
    PutOk(s, SuspendOne(s, id), id, SuspendTransfer(s.transfers[id]));
  }

  /** Suspending a list of distinct transfers suspends each of them and no other. */
  lemma {:induction false} SuspendAllAt(s: ExecState, picked: seq<TransferId>)
    requires forall i :: 0 <= i < |picked| ==> picked[i] in s.transfers
    ensures var r := SuspendAll(s, picked);
      && r == s.(transfers := r.transfers, preempts := s.preempts + |picked|)
      && r.transfers.Keys == s.transfers.Keys
      && (forall id :: id in s.transfers && id !in picked ==> r.transfers[id] == s.transfers[id])
      && (forall id :: id in s.transfers && id in picked ==>
            r.transfers[id] == SuspendTransfer(s.transfers[id]))
  {
    if picked != [] {
      var n := |picked| - 1;
      SuspendAllAt(s, picked[..n]);
      assert picked == picked[..n] + [picked[n]];
    }
  }

  lemma {:induction false} SuspendAllKeepsOk(s: ExecState, picked: seq<TransferId>)
    requires ExecOk(s)
    requires forall i :: 0 <= i < |picked| ==> picked[i] in s.transfers && Active(s.transfers[picked[i]])
    ensures ExecOk(SuspendAll(s, picked))
  {
    hide ExecOk;
    if picked != [] {
      var n := |picked| - 1;
      var r := SuspendAll(s, picked[..n]);
      SuspendAllKeepsOk(s, picked[..n]);
      SuspendAllAt(s, picked[..n]);
      assert r.transfers[picked[n]].state in {s.transfers[picked[n]].state, SuspendPending};
      SuspendOneKeepsOk(r, picked[n]);
    }
  }

  lemma CancelKeepsOk(s: ExecState, id: TransferId)
    requires ExecOk(s)
    ensures ExecOk(Cancel(s, id))
  {
    if id in s.transfers {
      CancelOk(id, s.transfers[id]);
      PutOk(s, Cancel(s, id), id, CancelTransfer(s.transfers[id]));
    }
  }

  lemma RerouteKeepsOk(s: ExecState, id: TransferId, path: PathCost)
    requires ExecOk(s)
    ensures ExecOk(Reroute(s, id, path))
  {
    if CanReroute(s, id) {
      var t := s.transfers[id];
      RerouteOk(id, t, path, s.rails);
      PutOk(s, Reroute(s, id, path), id, RerouteTransfer(t, path, s.rails));
    }
  }

  lemma TickOneKeepsOk(s: ExecState, id: TransferId, offer: Offer, elapsed: real)
    requires ExecOk(s)
    ensures ExecOk(TickOne(s, id, offer, elapsed))
    ensures TickOne(s, id, offer, elapsed).nextId == s.nextId
  {
    if id in s.transfers && Active(s.transfers[id]) {
      TickTransferOk(id, s.transfers[id], offer, elapsed);
      PutOk(s, TickOne(s, id, offer, elapsed), id, TickTransfer(s.transfers[id], offer, elapsed));
    }
  }

  lemma {:induction false} TickKeepsOk(s: ExecState, order: seq<TransferId>, offer: Offer, elapsed: Clock)
    requires ExecOk(s)
    ensures ExecOk(Tick(s, order, offer, elapsed))
    ensures Tick(s, order, offer, elapsed).nextId == s.nextId
  {
    if order != [] {
      var n := |order| - 1;
      TickKeepsOk(s, order[..n], offer, elapsed);
      TickOneKeepsOk(Tick(s, order[..n], offer, elapsed), order[n], offer, elapsed(order[n]));
    }
  }

  lemma {:induction false} ForceKeepsOk(s: ExecState, order: seq<TransferId>)
    requires ExecOk(s)
    ensures ExecOk(Force(s, order))
    ensures Force(s, order).nextId == s.nextId
  {
    if order != [] {
      var n := |order| - 1;
      ForceKeepsOk(s, order[..n]);
      var r := Force(s, order[..n]);
      if order[n] in r.transfers && Active(r.transfers[order[n]]) {
        ForceOk(order[n], r.transfers[order[n]]);
        PutOk(r, ForceOne(r, order[n]), order[n], ForceTransfer(r.transfers[order[n]]));
      }
    }
  }
}
