/** How many ticks a transfer still needs when every tick offers each path at least q bytes. */
module BoundedCompletion {
  import opened Model
  import opened Arithmetic
  import opened Sums
  import opened TransferSpec
  import opened TransferInvariant
  import opened ComposedTransfer

  function CeilDiv(a: nat, q: nat): nat
    requires q > 0
  {
    (a + q - 1) / q
  }

  /** max(1, ceil(remaining / q)) for an unfinished chunk. */
  function ChunkWork(q: nat): Chunk -> nat
    requires q > 0
  {
    (c: Chunk) => if c.state == Completed then 0 else if CeilDiv(Remain(c), q) == 0 then 1 else CeilDiv(Remain(c), q)
  }

  predicate SomeInFlight(cs: seq<Chunk>) { exists i :: 0 <= i < |cs| && cs[i].state == InFlight }

  /** A suspended transfer with nothing on the wire spends one tick on pausing. */
  function Stall(t: Transfer): nat { if t.state == SuspendPending && !SomeInFlight(t.chunks) then 1 else 0 }

  function Work(t: Transfer, q: nat): nat
    requires q > 0
  {
    SumBy(t.chunks, ChunkWork(q)) + Stall(t)
  }

  lemma CeilFalls(a: nat, n: nat, q: nat)
    requires q > 0 && n >= q && a > n
    ensures CeilDiv(a - n, q) + 1 <= CeilDiv(a, q) && CeilDiv(a - n, q) >= 1
  {
    var x, y := a - n + q - 1, a + q - 1;
    assert x == (x / q) * q + x % q && y == (y / q) * q + y % q;
    if x / q >= y / q { MulOrder(x / q, y / q, q); }
  }

  /** A chunk on the wire comes at least one tick closer. */
  lemma AdvanceWork(c: Chunk, n: nat, q: nat)
    requires q > 0 && n >= q
    ensures ChunkWork(q)(AdvanceChunk(c, n)) <= ChunkWork(q)(c)
    ensures c.state == InFlight && Within(c) ==> ChunkWork(q)(AdvanceChunk(c, n)) < ChunkWork(q)(c)
  {
    if c.state == InFlight && Remain(c) > n { CeilFalls(Remain(c), n, q); }
  }

  lemma StagedWork(t: Transfer, q: nat)
    requires q > 0
    ensures SumBy(Staged(t), ChunkWork(q)) == SumBy(t.chunks, ChunkWork(q))
  {
    forall i | 0 <= i < |t.chunks|
      ensures |Staged(t)| == |t.chunks| && ChunkWork(q)(Staged(t)[i]) == ChunkWork(q)(t.chunks[i])
    {
      StagedAt(t, i);
    }
    SumByEq(Staged(t), t.chunks, ChunkWork(q), ChunkWork(q));
  }

  lemma AdvancedWork(t: Transfer, offer: Offer, q: nat)
    requires q > 0 && forall path :: offer(path) >= q
    requires WithinAll(Staged(t))
    ensures SumBy(Advanced(t, offer), ChunkWork(q)) <= SumBy(t.chunks, ChunkWork(q))
    ensures SomeInFlight(Staged(t)) ==> SumBy(Advanced(t, offer), ChunkWork(q)) < SumBy(t.chunks, ChunkWork(q))
  {
    var st, cs := Staged(t), Advanced(t, offer);
    StagedWork(t, q);
    forall i | 0 <= i < |st|
      ensures |cs| == |st| && ChunkWork(q)(cs[i]) <= ChunkWork(q)(st[i])
      ensures st[i].state == InFlight ==> ChunkWork(q)(cs[i]) < ChunkWork(q)(st[i])
    {
      AdvancedAt(t, offer, i);
      assert Within(st[i]);
      AdvanceWork(st[i], offer(st[i].edges), q);
    }
    hide Staged, Advanced;
    SumByLe(cs, st, ChunkWork(q), ChunkWork(q));
    if SomeInFlight(st) {
      var k :| 0 <= k < |st| && st[k].state == InFlight;
      SumByLt(cs, st, ChunkWork(q), k);
    }
  }

  /** Without suspension, a transfer with bytes to send has a chunk on the wire once staged. */
  lemma StagedMoves(id: TransferId, t: Transfer)
    requires TransferOk(id, t) && t.state == InFlight
    requires exists i :: 0 <= i < |t.chunks| && t.chunks[i].state != Completed
    ensures SomeInFlight(Staged(t))
  {
    var i :| 0 <= i < |t.chunks| && t.chunks[i].state != Completed;
    assert Fits(InFlight, t.chunks[i]);
    assert !t.suspend;
    if SomeInFlight(t.chunks) {
      var k :| 0 <= k < |t.chunks| && t.chunks[k].state == InFlight;
      StagedAt(t, k);
      assert Staged(t)[k].state == InFlight;
    } else {
      assert BusySlots(t.chunks) == {};
      PromoteStarts(t.chunks, {}, i);
    }
  }

  lemma {:induction false} AllCompletedFull(cs: seq<Chunk>)
    requires forall i :: 0 <= i < |cs| ==> cs[i].sent == cs[i].size
    ensures SumBy(cs, SentOf) == SumBy(cs, SizeOf)
  {
    if cs != [] { AllCompletedFull(cs[..|cs| - 1]); }
  }

  /** If nothing unfinished is left before a tick, the tick completes the transfer. */
  lemma FinishedCompletes(id: TransferId, t: Transfer, offer: Offer, elapsed: real)
    requires TransferOk(id, t) && Active(t) && SumBy(t.chunks, SizeOf) == t.total
    requires forall i :: 0 <= i < |t.chunks| ==> t.chunks[i].state == Completed
    ensures TickTransfer(t, offer, elapsed).state == Completed
  {
    forall i | 0 <= i < |t.chunks| ensures t.chunks[i].sent == t.chunks[i].size { assert Fits(t.state, t.chunks[i]); }
    AllCompletedFull(t.chunks);
    AdvancedBytes(t, offer);
    hide Advanced;
  }

  /** A tick that does not complete the transfer leaves it at least one tick less to do. */
  lemma TickWork(id: TransferId, t: Transfer, offer: Offer, elapsed: real, q: nat)
    requires TransferOk(id, t) && ComposedOk(t) && Active(t)
    requires q > 0 && forall path :: offer(path) >= q
    ensures var u := TickTransfer(t, offer, elapsed);
      u.state == Completed || (Work(u, q) < Work(t, q) && u.remaining > 0)
  {
    StagedShape(t, t.rerouteCount > 0);
    AdvancedWork(t, offer, q);
    var u := TickTransfer(t, offer, elapsed);
    if t.state == InFlight {
      if exists i :: 0 <= i < |t.chunks| && t.chunks[i].state != Completed {
        StagedMoves(id, t);
      } else {
        FinishedCompletes(id, t, offer, elapsed);
      }
    } else if SomeInFlight(t.chunks) {
      var k :| 0 <= k < |t.chunks| && t.chunks[k].state == InFlight;
      StagedAt(t, k);
      assert Staged(t)[k].state == InFlight;
    }
    TickShape(id, t, offer, elapsed);
  }

  /** Unless it completes, a tick leaves the advanced chunks, and no stall. */
  lemma TickShape(id: TransferId, t: Transfer, offer: Offer, elapsed: real)
    requires Active(t) && FlagOk(t)
    ensures var u := TickTransfer(t, offer, elapsed);
      u.state == Completed || (u.chunks == Advanced(t, offer) && Stall(u) == 0 && u.remaining > 0)
  {
    var u := TickTransfer(t, offer, elapsed);
    if u.state == SuspendPending {
      var c :| c in u.chunks && c.state == InFlight;
      var i :| 0 <= i < |u.chunks| && u.chunks[i] == c;
      assert SomeInFlight(u.chunks);
    }
    hide Advanced;
  }

  /** A reroute from Paused changes nothing about the work. */
  lemma RerouteWork(t: Transfer, path: PathCost, rails: seq<int>, q: nat)
    requires q > 0 && t.state == TransferState.Paused && FitsAll(t.state, t.chunks)
    ensures Work(RerouteTransfer(t, path, rails), q) == Work(t, q)
  {
    var r := RerouteTransfer(t, path, rails);
    forall i | 0 <= i < |t.chunks| ensures ChunkWork(q)(r.chunks[i]) == ChunkWork(q)(t.chunks[i]) {
      RedirectAt(t, path, rails, i);
    }
    SumByEq(r.chunks, t.chunks, ChunkWork(q), ChunkWork(q));
  }

  /** A preemption costs at most one tick. */
  lemma SuspendWork(t: Transfer, q: nat)
    requires q > 0 && t.state == InFlight
    ensures Work(t, q) <= Work(SuspendTransfer(t), q) <= Work(t, q) + 1
  {
  }

  /** An unfinished transfer has work left. */
  lemma UnfinishedWork(id: TransferId, t: Transfer, q: nat)
    requires q > 0 && TransferOk(id, t) && ComposedOk(t) && !Terminal(t) && t.remaining > 0
    ensures Work(t, q) >= 1
  {
    if forall i :: 0 <= i < |t.chunks| ==> t.chunks[i].state == Completed {
      forall i | 0 <= i < |t.chunks| ensures t.chunks[i].sent == t.chunks[i].size { assert Fits(t.state, t.chunks[i]); }
      AllCompletedFull(t.chunks);
      assert false;
    }
    var k :| 0 <= k < |t.chunks| && t.chunks[k].state != Completed;
    TermInSum(t.chunks, ChunkWork(q), k);
  }

  lemma {:induction false} TermInSum(cs: seq<Chunk>, f: Chunk -> nat, k: nat)
    requires k < |cs|
    ensures SumBy(cs, f) >= f(cs[k])
  {
    if k < |cs| - 1 { TermInSum(cs[..|cs| - 1], f, k); }
  }
}
