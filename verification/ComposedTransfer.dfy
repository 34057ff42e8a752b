/** One transfer as the shim's calls can shape it: suspended only at chunk boundaries. */
module ComposedTransfer {
  import opened Model
  import opened Arithmetic
  import opened Sums
  import opened TransferSpec
  import opened TransferInvariant
  import opened TransferDelivery
  import opened TransferPayload
  import opened EngineSpec

  predicate Waiting(c: Chunk) { c.state == Pending || c.state == TransferState.Paused }

  /** A chunk that waits has not been started. */
  predicate Untouched(cs: seq<Chunk>) {
    forall i :: 0 <= i < |cs| && Waiting(cs[i]) ==> cs[i].sent == 0
  }

  predicate ComposedOk(t: Transfer) {
    && t.state != Cancelled
    && SumBy(t.chunks, SizeOf) == t.total
    && Untouched(t.chunks)
    && (|t.chunks| == 1 ==> t.state != TransferState.Paused && (Active(t) ==> t.chunks[0].state == InFlight))
    && (t.state in {SuspendPending, TransferState.Paused} ==> t.preemptible && t.pathEdges != [])
  }

  // ------------------------------------------------------------ what it says

  function PausedSize(c: Chunk): nat { if c.state == TransferState.Paused then c.size else 0 }

  /** Chunk-boundary suspension: a paused transfer has only full completed chunks and untouched
      paused ones, at least one of those and two in all, and exactly those are still to send. */
  lemma PausedAtBoundary(id: TransferId, t: Transfer)
    requires TransferOk(id, t) && ComposedOk(t) && t.state == TransferState.Paused
    ensures forall i :: 0 <= i < |t.chunks| ==>
      (t.chunks[i].state == Completed && t.chunks[i].sent == t.chunks[i].size)
      || (t.chunks[i].state == TransferState.Paused && t.chunks[i].sent == 0)
    ensures t.remaining == SumBy(t.chunks, PausedSize)
    ensures exists i :: 0 <= i < |t.chunks| && t.chunks[i].state == TransferState.Paused
    ensures |t.chunks| >= 2
  {
    forall i | 0 <= i < |t.chunks|
      ensures (t.chunks[i].state == Completed && t.chunks[i].sent == t.chunks[i].size)
        || (t.chunks[i].state == TransferState.Paused && t.chunks[i].sent == 0)
      ensures t.chunks[i].size == t.chunks[i].sent + PausedSize(t.chunks[i])
    {
      assert Fits(TransferState.Paused, t.chunks[i]);
    }
    hide Shape, FitsAll;
    SizeSplits(t.chunks);
    if !exists i :: 0 <= i < |t.chunks| && t.chunks[i].state == TransferState.Paused {
      NonePaused(t.chunks);
    }
  }

  lemma {:induction false} SizeSplits(cs: seq<Chunk>)
    requires forall i :: 0 <= i < |cs| ==> cs[i].size == cs[i].sent + PausedSize(cs[i])
    ensures SumBy(cs, SizeOf) == SumBy(cs, SentOf) + SumBy(cs, PausedSize)
  {
    if cs != [] { SizeSplits(cs[..|cs| - 1]); }
  }

  lemma {:induction false} NonePaused(cs: seq<Chunk>)
    requires forall i :: 0 <= i < |cs| ==> cs[i].state != TransferState.Paused
    ensures SumBy(cs, PausedSize) == 0
  {
    if cs != [] { NonePaused(cs[..|cs| - 1]); }
  }

  /** A partly sent chunk of an unfinished transfer is on the wire. */
  lemma PartlySentIsInFlight(id: TransferId, t: Transfer, i: nat)
    requires TransferOk(id, t) && ComposedOk(t) && !Terminal(t)
    requires i < |t.chunks| && 0 < t.chunks[i].sent < t.chunks[i].size
    ensures t.chunks[i].state == InFlight
  {
    assert Fits(t.state, t.chunks[i]);
  }

  /** Once rerouted, at most one chunk is on the wire at all. */
  lemma ReroutedHasOneInFlight(id: TransferId, t: Transfer, i: nat, j: nat)
    requires TransferOk(id, t) && t.rerouteCount > 0
    requires i < j < |t.chunks| && t.chunks[i].state == InFlight
    ensures t.chunks[j].state != InFlight
  {
    assert Unfinished(t.chunks[i]);
  }

  // ------------------------------------------------------- what keeps it so

  lemma TickUntouched(t: Transfer, offer: Offer, elapsed: real)
    requires Untouched(t.chunks)
    ensures Untouched(TickTransfer(t, offer, elapsed).chunks)
  {
    var cs := TickTransfer(t, offer, elapsed).chunks;
    forall i | 0 <= i < |cs| && Waiting(cs[i]) ensures cs[i].sent == 0 {
      StagedAt(t, i);
      AdvancedAt(t, offer, i);
      assert Advanced(t, offer)[i] == cs[i];
    }
  }

  lemma TickSizes(t: Transfer, offer: Offer, elapsed: real)
    ensures SumBy(TickTransfer(t, offer, elapsed).chunks, SizeOf) == SumBy(t.chunks, SizeOf)
  {
    TickLayout(t, offer, elapsed);
    SumByEq(TickTransfer(t, offer, elapsed).chunks, t.chunks, SizeOf, SizeOf);
  }

  /** A single chunk on the wire stays there until the whole transfer completes. */
  lemma TickSingle(id: TransferId, t: Transfer, offer: Offer, elapsed: real)
    requires TransferOk(id, t) && Active(t) && |t.chunks| == 1 && t.chunks[0].state == InFlight
    requires SumBy(t.chunks, SizeOf) == t.total
    ensures var u := TickTransfer(t, offer, elapsed);
      u.state == Completed || (u.state == t.state && |u.chunks| == 1 && u.chunks[0].state == InFlight)
  {
    var a := Advanced(t, offer);
    StagedAt(t, 0);
    AdvancedAt(t, offer, 0);
    AdvancedOk(id, t, offer);
    assert Within(a[0]);
    SumOne(a);
    SumOne(t.chunks);
    assert a[0].state == InFlight ==> a[0] in a;
  }

  lemma SumOne(cs: seq<Chunk>)
    requires |cs| == 1
    ensures SumBy(cs, SentOf) == cs[0].sent && SumBy(cs, SizeOf) == cs[0].size
  {
    assert cs[..0] == [];
  }

  lemma TickStates(id: TransferId, t: Transfer, offer: Offer, elapsed: real)
    requires Active(t) && FlagOk(t)
    ensures t.state == InFlight ==> TickTransfer(t, offer, elapsed).state in {InFlight, Completed}
    ensures t.state == SuspendPending ==>
      TickTransfer(t, offer, elapsed).state in {SuspendPending, TransferState.Paused, Completed}
    ensures var u := TickTransfer(t, offer, elapsed);
      u == t.(state := u.state, sent := u.sent, remaining := u.remaining, slack := u.slack, chunks := u.chunks,
              suspend := u.suspend)
  {
    hide Advanced;
  }

  lemma TickComposed(id: TransferId, t: Transfer, offer: Offer, elapsed: real)
    requires TransferOk(id, t) && Active(t) && ComposedOk(t)
    ensures ComposedOk(TickTransfer(t, offer, elapsed))
  {
    TickUntouched(t, offer, elapsed);
    TickSizes(t, offer, elapsed);
    TickStates(id, t, offer, elapsed);
    TickLayout(t, offer, elapsed);
    if |t.chunks| == 1 { TickSingle(id, t, offer, elapsed); }
    hide TickTransfer, Staged, Untouched, Shape, FitsAll;
  }

  lemma SuspendComposed(t: Transfer)
    requires ComposedOk(t) && t.state == InFlight && t.preemptible && t.pathEdges != []
    ensures ComposedOk(SuspendTransfer(t))
  {
  }

  lemma RerouteComposed(id: TransferId, t: Transfer, path: PathCost, rails: seq<int>)
    requires TransferOk(id, t) && ComposedOk(t) && t.state == TransferState.Paused
    ensures ComposedOk(RerouteTransfer(t, path, rails))
  {
    PausedAtBoundary(id, t);
    RerouteSums(t, path, rails);
    var r := RerouteTransfer(t, path, rails);
    forall i | 0 <= i < |r.chunks| && Waiting(r.chunks[i]) ensures r.chunks[i].sent == 0 {
      RedirectAt(t, path, rails, i);
    }
  }

  lemma SubmittedComposed(id: TransferId, req: TransferRequest, path: PathCost, rails: seq<int>, bufs: Buffers)
    ensures ComposedOk(SubmittedTransfer(id, req, path, rails, bufs))
    ensures Tiles(SubmittedTransfer(id, req, path, rails, bufs))
    ensures InBounds(SubmittedTransfer(id, req, path, rails, bufs).chunks, req.size)
  {
    var t := SubmittedTransfer(id, req, path, rails, bufs);
    SumOne(t.chunks);
    forall x: nat | x < t.total ensures Reached(t.chunks, x) { assert Holds(t.chunks[0], x); }
  }

  /** The chunks of a striped transfer, as the stripe laid them out. */
  lemma StripedAt(id: TransferId, req: TransferRequest, paths: seq<ChunkPath>, rails: seq<int>, bufs: Buffers,
                  quantum: nat, i: nat)
    requires quantum > 0 && Layout(req.size, quantum, paths) && i < |paths|
    ensures var c := StripedTransfer(id, req, paths, rails, bufs).chunks[i];
      c.offset == i * quantum && c.size == paths[i].size && c.sent == 0 && c.edges == paths[i].edges
      && (i == 0 ==> c.state == InFlight)
    ensures |StripedTransfer(id, req, paths, rails, bufs).chunks| == |paths|
  {
    LaidOutRebuilds(req.size, quantum, paths, rails, 0, i);
    assert paths[0..] == paths;
    LaidOutAt(paths, 0, rails, 0);
    PromoteAt(LaidOut(paths, 0, rails), {}, i);
  }

  /** A stripe tiles its request. */
  lemma StripedComposed(id: TransferId, req: TransferRequest, paths: seq<ChunkPath>, rails: seq<int>, bufs: Buffers,
                        quantum: nat)
    requires quantum > 0 && Layout(req.size, quantum, paths) && paths != []
    ensures var t := StripedTransfer(id, req, paths, rails, bufs);
      ComposedOk(t) && Tiles(t) && InBounds(t.chunks, req.size)
  {
    var t := StripedTransfer(id, req, paths, rails, bufs);
    forall i | 0 <= i < |t.chunks|
      ensures |t.chunks| == |paths| && t.chunks[i].sent == 0 && t.chunks[i].offset == i * quantum
      ensures i * quantum < req.size && t.chunks[i].size == Min(req.size - i * quantum, quantum)
    {
      StripedAt(id, req, paths, rails, bufs, quantum, i);
      assert StripeChunk(req.size, quantum, i, paths[i]);
    }
    StripedAt(id, req, paths, rails, bufs, quantum, 0);
    assert t.total == req.size && t.state == InFlight;
    hide Layout, StripedTransfer;
    LayoutSums(req.size, quantum, t.chunks, |t.chunks|);
    assert t.chunks[..|t.chunks|] == t.chunks;
    forall x: nat | x < req.size ensures Reached(t.chunks, x) {
      InChunk(x, quantum, |t.chunks|);
      assert Holds(t.chunks[x / quantum], x);
    }
  }

  lemma InChunk(x: nat, quantum: nat, n: nat)
    requires quantum > 0 && x < n * quantum
    ensures x / quantum < n && (x / quantum) * quantum <= x < (x / quantum) * quantum + quantum
  {
    var d := x / quantum;
    assert x == d * quantum + x % quantum;
    if d >= n { MulOrder(d, n, quantum); }
  }
}
