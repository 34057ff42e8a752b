/** std::sort by falling slack, as far as its callers may rely on it. */
module SlackOrder {
  import opened Model
  import opened TransferSpec
  import opened TransferRuns

  ghost predicate BySlack(r: seq<TransferId>, ts: map<TransferId, Transfer>) {
    && (forall i :: 0 <= i < |r| ==> r[i] in ts)
    && (forall i, j :: 0 <= i < j < |r| ==> ts[r[i]].slack >= ts[r[j]].slack)
  }

  /** Equal slacks keep no promised order. */
  method Sort(ids: seq<TransferId>, ts: map<TransferId, Transfer>) returns (r: seq<TransferId>)
    requires Distinct(ids) && forall id :: id in ids ==> id in ts
    ensures |r| == |ids| && Distinct(r) && BySlack(r, ts)
    ensures forall id :: id in r <==> id in ids
  {
    r := [];
    for k := 0 to |ids|
      invariant |r| == k && Distinct(r) && BySlack(r, ts)
      invariant forall id :: id in r <==> id in ids[..k]
    {
      var id := ids[k];
      assert ids[..k + 1] == ids[..k] + [id];
      assert id !in r;
      r := Insert(r, id, ts);
    }
    assert ids[..|ids|] == ids;
  }

  method Insert(r0: seq<TransferId>, id: TransferId, ts: map<TransferId, Transfer>) returns (r: seq<TransferId>)
    requires id in ts && id !in r0 && Distinct(r0) && BySlack(r0, ts)
    ensures |r| == |r0| + 1 && Distinct(r) && BySlack(r, ts)
    ensures forall jd :: jd in r <==> jd == id || jd in r0
  {
    var p: nat := 0;
    while p < |r0| && ts[r0[p]].slack >= ts[id].slack
      invariant p <= |r0|
      invariant forall i :: 0 <= i < p ==> ts[r0[i]].slack >= ts[id].slack
    {
      p := p + 1;
    }
    r := r0[..p] + [id] + r0[p..];
    assert r0 == r0[..p] + r0[p..];
    SortedInsert(r0, p, id, ts);
  }

  /** Inserting id at p keeps the ids distinct and the slacks falling. */
  lemma SortedInsert(r0: seq<TransferId>, p: nat, id: TransferId, ts: map<TransferId, Transfer>)
    requires p <= |r0| && id in ts && id !in r0 && Distinct(r0) && BySlack(r0, ts)
    requires forall i :: 0 <= i < p ==> ts[r0[i]].slack >= ts[id].slack
    requires p < |r0| ==> ts[r0[p]].slack < ts[id].slack
    ensures Distinct(r0[..p] + [id] + r0[p..]) && BySlack(r0[..p] + [id] + r0[p..], ts)
  {
    var r := r0[..p] + [id] + r0[p..];
    var at := (i: int) => if i < p then i else i - 1;
    forall i | 0 <= i < |r| ensures r[i] in ts && (i != p ==> r[i] == r0[at(i)]) {
    }
    forall i, j | 0 <= i < j < |r| ensures r[i] != r[j] && ts[r[i]].slack >= ts[r[j]].slack {
      if i == p {
        assert r0[at(j)] in r0;
        assert at(j) > p ==> ts[r0[p]].slack >= ts[r0[at(j)]].slack;
      } else if j == p {
        assert r0[at(i)] in r0;
      } else {
        assert at(i) < at(j);
      }
    }
  }

  /** The first n of the sorted candidates are an admissible choice. */
  lemma ChosenFirst(s: ExecState, busy: seq<nat>, max: nat, sorted: seq<TransferId>, n: nat)
    requires Distinct(sorted) && BySlack(sorted, s.transfers) && n == Min(|sorted|, max)
    requires forall id :: id in sorted <==> id in s.transfers && PreemptCandidate(s.transfers[id], busy)
    ensures PreemptChoice(s, busy, max, sorted[..n])
  {
    var picked := sorted[..n];
    DistinctCard(sorted);
    assert Candidates(s, busy) == IdSet(sorted);
    assert forall i :: 0 <= i < |picked| ==> picked[i] == sorted[i] && sorted[i] in sorted;
    forall i, id | 0 <= i < |picked| && id in s.transfers && id !in picked && PreemptCandidate(s.transfers[id], busy)
      ensures s.transfers[id].slack <= s.transfers[picked[i]].slack
    {
      var j :| 0 <= j < |sorted| && sorted[j] == id;
    }
  }
}

/** The executor itself: an object whose methods change its fields, each proved to be
    one operation of TransferSpec on the whole state. */
module Executor {
  import opened Model
  import opened Sums
  import opened TransferSpec
  import Runs = TransferRuns
  import SlackOrder

  class TransferExecutor {
    var rails: seq<int>
    var transfers: map<TransferId, Transfer>
    var nextId: TransferId
    var completed: nat
    var preempts: nat
    var reroutes: nat
    var bytes: nat
    var suspends: nat
    /** Host memory, reached through the transport's plain copy. */
    var mem: Memory

    ghost function State(): ExecState
      reads this
    {
      ExecState(rails, transfers, nextId, completed, preempts, reroutes, bytes, suspends, mem)
    }

    constructor (rails: seq<int>, mem: Memory)
      ensures State() == InitExec(rails, mem)
    {
      this.rails, this.mem, transfers, nextId := rails, mem, map[], 1;
      completed, preempts, reroutes, bytes, suspends := 0, 0, 0, 0, 0;
    }

    method RailOf(path: seq<nat>) returns (rail: int)
      ensures rail == RailOfPath(rails, path)
    {
      for k := 0 to |path|
        invariant RailOfPath(rails, path[k..]) == RailOfPath(rails, path)
      {
        if path[k] < |rails| && rails[path[k]] >= 0 { return rails[path[k]]; }
        assert path[k..][1..] == path[k + 1..];
      }
      rail := 0;
    }

    method Submit(req: TransferRequest, path: PathCost, bufs: Buffers) returns (id: TransferId)
      modifies this
      ensures id == old(nextId)
      ensures State() == TransferSpec.Submit(old(State()), req, path, bufs)
    {
      id := nextId;
      nextId := nextId + 1;
      var rail := RailOf(path.edges);
      var chunk := Chunk(0, path.edges, 0, req.size, 0, rail, InFlight);
      transfers := transfers[id := Transfer(
        id, InFlight, req, path.edges, req.size, 0, req.size, req.deadline - path.latency, 0,
        req.cls == KVMigration, bufs.src, bufs.dst, KV_CHUNK_BYTES, [chunk], false)];
    }

    method SubmitStriped(req: TransferRequest, paths: seq<ChunkPath>, bufs: Buffers) returns (id: TransferId)
      modifies this
      ensures id == old(nextId)
      ensures State() == TransferSpec.SubmitStriped(old(State()), req, paths, bufs)
    {
      if paths == [] {
        id := Submit(req, PathCost([], 0.0), bufs);
        return;
      }
      id := nextId;
      nextId := nextId + 1;
      var chunks, pathEdges := LayOut(paths);
      var started := PromoteLoop(chunks, {});
      transfers := transfers[id := Transfer(
        id, InFlight, req, pathEdges, req.size, 0, req.size, req.deadline, 0, req.cls == KVMigration,
        bufs.src, bufs.dst, if paths[0].size > 0 then paths[0].size else KV_CHUNK_BYTES, started, false)];
    }

    /** The chunk records and the edge union of a striped submission. */
    method LayOut(paths: seq<ChunkPath>) returns (chunks: seq<Chunk>, pathEdges: seq<nat>)
      ensures chunks == LaidOut(paths, 0, rails)
      ensures pathEdges == UnionEdges([], paths)
    {
      var offset: nat := 0;
      chunks, pathEdges := [], [];
      for k := 0 to |paths|
        invariant chunks + LaidOut(paths[k..], offset, rails) == LaidOut(paths, 0, rails)
        invariant UnionEdges(pathEdges, paths[k..]) == UnionEdges([], paths)
      {
        var p := paths[k];
        assert paths[k..][1..] == paths[k + 1..];
        ghost var rest := LaidOut(paths[k + 1..], offset + p.size, rails);
        var chunk := LayOne(p, offset);
        hide LaidChunk, AddEdges;
        assert LaidOut(paths[k..], offset, rails) == [chunk] + rest;
        assert chunks + ([chunk] + rest) == (chunks + [chunk]) + rest;
        pathEdges := AppendNew(pathEdges, p.edges);
        chunks := chunks + [chunk];
        offset := offset + p.size;
      }
    }

    method LayOne(p: ChunkPath, offset: nat) returns (chunk: Chunk)
      ensures chunk == LaidChunk(p, offset, rails)
    {
      var rail := p.rail;
      if p.rail < 0 { rail := RailOf(p.edges); }
      chunk := Chunk(p.chunkSeq, p.edges, if p.offset > 0 then p.offset else offset, p.size, 0, rail, Pending);
    }

    static method AppendNew(acc: seq<nat>, path: seq<nat>) returns (r: seq<nat>)
      ensures r == AddEdges(acc, path)
    {
      r := acc;
      for k := 0 to |path|
        invariant AddEdges(r, path[k..]) == AddEdges(acc, path)
      {
        assert path[k..][1..] == path[k + 1..];
        if path[k] !in r { r := r + [path[k]]; }
      }
    }

    /** The slot loop shared by submit_striped, reroute and tick. */
    static method PromoteLoop(cs: seq<Chunk>, taken: set<nat>) returns (r: seq<Chunk>)
      ensures r == Promote(cs, taken)
    {
      r := [];
      var busy := taken;
      for k := 0 to |cs|
        invariant r + Promote(cs[k..], busy) == Promote(cs, taken)
      {
        assert cs[k..][1..] == cs[k + 1..];
        ghost var rest := Promote(cs[k..], busy);
        var c := cs[k];
        if c.state == Pending && Slot(c.rail) !in busy {
          busy := busy + {Slot(c.rail)};
          c := c.(state := InFlight);
        }
        assert rest == [c] + Promote(cs[k + 1..], busy);
        assert r + rest == (r + [c]) + Promote(cs[k + 1..], busy);
        r := r + [c];
      }
    }

    method Pause(id: TransferId) returns (ok: bool)
      modifies this
      ensures ok == CanPause(old(State()), id)
      ensures State() == TransferSpec.Pause(old(State()), id)
    {
      if id !in transfers { return false; }
      var t := transfers[id];
      if !t.preemptible { return false; }
      if t.state != InFlight && t.state != SuspendPending { return false; }
      transfers := transfers[id := t.(suspend := true, state := SuspendPending)];
      preempts := preempts + 1;
      ok := true;
    }

    method Cancel(id: TransferId) returns (ok: bool)
      modifies this
      ensures ok == (id in old(transfers))
      ensures State() == TransferSpec.Cancel(old(State()), id)
    {
      if id !in transfers { return false; }
      var t := transfers[id];
      var chunks := t.chunks;
      for k := 0 to |chunks|
        invariant |chunks| == |t.chunks|
        invariant forall i :: 0 <= i < k ==> chunks[i] == CancelChunk(t.chunks[i])
        invariant forall i :: k <= i < |chunks| ==> chunks[i] == t.chunks[i]
      {
        if chunks[k].state != Completed { chunks := chunks[k := chunks[k].(state := Cancelled)]; }
      }
      assert chunks == MapChunks(t.chunks, CancelChunk);
      transfers := transfers[id := t.(state := Cancelled, remaining := 0, chunks := chunks)];
      ok := true;
    }

    method Reroute(id: TransferId, path: PathCost) returns (ok: bool)
      modifies this
      ensures ok == CanReroute(old(State()), id)
      ensures State() == TransferSpec.Reroute(old(State()), id, path)
    {
      if id !in transfers { return false; }
      var t := transfers[id];
      if t.state != Paused && t.state != Rerouting && t.state != InFlight && t.state != SuspendPending {
        return false;
      }
      hide Promote, RedirectChunk, RailOfPath;
      var rail := RailOf(path.edges);
      var redirected := Redirect(t.chunks, path.edges, rail);
      var started := PromoteLoop(redirected, {});
      var r := t.(chunks := started, pathEdges := path.edges, slack := t.request.deadline - path.latency,
                  rerouteCount := t.rerouteCount + 1, suspend := false, state := InFlight);
      assert r == RerouteTransfer(t, path, rails);
      transfers := transfers[id := r];
      reroutes := reroutes + 1;
      ok := true;
    }

    static method Redirect(cs: seq<Chunk>, path: seq<nat>, rail: int) returns (r: seq<Chunk>)
      ensures r == MapChunks(cs, (c: Chunk) => RedirectChunk(c, path, rail))
    {
      r := cs;
      for k := 0 to |cs|
        invariant |r| == |cs|
        invariant forall i :: 0 <= i < k ==> r[i] == RedirectChunk(cs[i], path, rail)
        invariant forall i :: k <= i < |cs| ==> r[i] == cs[i]
      {
        var c := cs[k];
        if c.state != Completed {
          var st := if c.state == Paused || c.state == Pending || c.state == InFlight then Pending else c.state;
          r := r[k := c.(edges := path, rail := rail, state := st)];
        }
      }
    }

    // ------------------------------------------------------------- preempt

    static method SharesEdge(path: seq<nat>, busy: seq<nat>) returns (hit: bool)
      ensures hit == Shares(path, busy)
    {
      for k := 0 to |path|
        invariant forall i :: 0 <= i < k ==> path[i] !in busy
      {
        if path[k] in busy { return true; }
      }
      hit := false;
    }

    static method IsCandidate(t: Transfer, busy: seq<nat>) returns (hit: bool)
      ensures hit == PreemptCandidate(t, busy)
    {
      if !t.preemptible || t.state != InFlight { return false; }
      hit := SharesEdge(t.pathEdges, busy);
      if hit { return; }
      for k := 0 to |t.chunks|
        invariant !hit
        invariant forall i :: 0 <= i < k ==> !(t.chunks[i].state == InFlight && Shares(t.chunks[i].edges, busy))
      {
        if t.chunks[k].state == InFlight {
          hit := SharesEdge(t.chunks[k].edges, busy);
          if hit { return; }
        }
      }
    }

    method PreemptSharing(busy: seq<nat>, max: nat := 8) returns (picked: seq<TransferId>)
      modifies this
      ensures PreemptChoice(old(State()), busy, max, picked)
      ensures State() == SuspendAll(old(State()), picked)
    {
      var candidates := Candidates(busy);
      var sorted := SlackOrder.Sort(candidates, transfers);
      SlackOrder.ChosenFirst(State(), busy, max, sorted, Min(|sorted|, max));
      picked := SuspendFirst(sorted, max);
    }

    method SuspendFirst(sorted: seq<TransferId>, max: nat) returns (picked: seq<TransferId>)
      requires forall i :: 0 <= i < |sorted| ==> sorted[i] in transfers
      modifies this
      ensures picked == sorted[..Min(|sorted|, max)]
      ensures State() == SuspendAll(old(State()), picked)
    {
      picked := [];
      for i := 0 to Min(|sorted|, max)
        invariant picked == sorted[..i]
        invariant State() == SuspendAll(old(State()), picked)
        invariant transfers.Keys == old(transfers).Keys
      {
        var id := sorted[i];
        assert sorted[..i + 1][..i] == sorted[..i];
        transfers := transfers[id := transfers[id].(suspend := true, state := SuspendPending)];
        preempts := preempts + 1;
        picked := picked + [id];
      }
    }

    method Candidates(busy: seq<nat>) returns (ids: seq<TransferId>)
      ensures Runs.Distinct(ids)
      ensures forall id :: id in ids <==> id in transfers && PreemptCandidate(transfers[id], busy)
    {
      ids := [];
      var todo := transfers.Keys;
      while todo != {}
        invariant todo <= transfers.Keys
        invariant Runs.Distinct(ids)
        invariant forall id :: id in ids <==> id in transfers && id !in todo && PreemptCandidate(transfers[id], busy)
        decreases todo
      {
        var id :| id in todo;
        todo := todo - {id};
        var hit := IsCandidate(transfers[id], busy);
        if hit { ids := ids + [id]; }
      }
    }

    // ---------------------------------------------------------------- tick

    /** refresh_aggregate_locked. */
    static method RefreshAggregate(t: Transfer) returns (r: Transfer)
      ensures r == Refresh(t)
    {
      var sent: nat := 0;
      for k := 0 to |t.chunks|
        invariant sent == SumBy(t.chunks[..k], SentOf)
      {
        assert t.chunks[..k + 1][..k] == t.chunks[..k];
        sent := sent + t.chunks[k].sent;
      }
      assert t.chunks[..|t.chunks|] == t.chunks;
      r := t.(sent := sent, remaining := if t.total > sent then t.total - sent else 0);
    }

    /** Park waiting chunks on suspend, otherwise fill free rail slots. */
    static method Stage(t: Transfer) returns (r: seq<Chunk>)
      ensures r == Staged(t)
    {
      r := t.chunks;
      if t.suspend {
        for k := 0 to |r|
          invariant |r| == |t.chunks|
          invariant forall i :: 0 <= i < k ==> r[i] == ParkChunk(t.chunks[i])
          invariant forall i :: k <= i < |r| ==> r[i] == t.chunks[i]
        {
          if r[k].state == Pending { r := r[k := r[k].(state := TransferState.Paused)]; }
        }
        assert r == MapChunks(t.chunks, ParkChunk);
      } else {
        var busy := {};
        for k := 0 to |r|
          invariant busy == BusySlots(t.chunks[..k])
        {
          assert t.chunks[..k + 1] == t.chunks[..k] + [t.chunks[k]];
          if r[k].state == InFlight { busy := busy + {Slot(r[k].rail)}; }
        }
        assert t.chunks[..|r|] == t.chunks;
        r := PromoteLoop(t.chunks, busy);
      }
    }

    method AdvanceOne(t: Transfer, c: Chunk, offered: nat) returns (d: Chunk)
      modifies this`mem, this`bytes
      ensures d == AdvanceChunk(c, offered)
      ensures mem == Wire(old(mem), t, c, StepBytes(c, offered))
      ensures bytes == old(bytes) + StepBytes(c, offered)
    {
      if c.state != InFlight { return c; }
      var remain := Remain(c);
      if remain == 0 { return c.(state := Completed); }
      var step := offered;
      if step > remain { step := remain; }
      mem := Wire(mem, t, c, step);
      bytes := bytes + step;
      var sent := c.sent + step;
      d := c.(sent := sent, state := if sent >= c.size then Completed else InFlight);
    }

    /** The in-flight loop of tick: send each active chunk's next bytes. */
    method AdvanceChunks(t: Transfer, staged: seq<Chunk>, offer: Offer) returns (r: seq<Chunk>)
      modifies this`mem, this`bytes
      ensures r == MapChunks(staged, (c: Chunk) => AdvanceChunk(c, offer(c.edges)))
      ensures mem == WireChunks(old(mem), t, staged, |staged|, (c: Chunk) => StepBytes(c, offer(c.edges)))
      ensures bytes == old(bytes) + SumBy(staged, (c: Chunk) => StepBytes(c, offer(c.edges)))
    {
      hide AdvanceChunk, StepBytes, Wire;
      ghost var step := (c: Chunk) => StepBytes(c, offer(c.edges));
      r := [];
      for k := 0 to |staged|
        invariant |r| == k
        invariant forall i :: 0 <= i < k ==> r[i] == AdvanceChunk(staged[i], offer(staged[i].edges))
        invariant mem == WireChunks(old(mem), t, staged, k, step)
        invariant bytes == old(bytes) + SumBy(staged[..k], step)
      {
        assert staged[..k + 1][..k] == staged[..k];
        var d := AdvanceOne(t, staged[k], offer(staged[k].edges));
        r := r + [d];
      }
      assert staged[..|staged|] == staged;
    }

    /** What tick does to a transfer once its chunks have advanced. */
    static method SettleTransfer(t: Transfer, elapsed: real) returns (r: Transfer)
      ensures r == Settle(t, elapsed)
    {
      r := RefreshAggregate(t);
      r := r.(slack := t.request.deadline - elapsed);
      if r.remaining == 0 {
        r := r.(chunks := MapChunks(r.chunks, FinishChunk), suspend := false, state := Completed);
      } else if r.suspend {
        var draining := exists c :: c in r.chunks && c.state == InFlight;
        r := if draining then r.(state := SuspendPending)
             else r.(state := TransferState.Paused, suspend := false);
      }
    }

    /** The body of tick's loop over transfers. */
    method TickTransferAt(id: TransferId, offer: Offer, elapsed: real) returns (finished: bool)
      modifies this
      ensures State() == TickOne(old(State()), id, offer, elapsed)
      ensures finished == Finishes(old(State()), id, offer, elapsed)
    {
      hide Settle, Staged, WireChunks, SumBy, AdvanceChunk, StepBytes;
      finished := false;
      if id !in transfers { return; }
      var t := transfers[id];
      if t.state != InFlight && t.state != SuspendPending { return; }
      var staged := Stage(t);
      var chunks := AdvanceChunks(t, staged, offer);
      var r := SettleTransfer(t.(chunks := chunks), elapsed);
      transfers := transfers[id := r];
      if r.state == Completed {
        completed := completed + 1;
        finished := true;
      }
      if r.state == TransferState.Paused { suspends := suspends + 1; }
    }

    /** One locked tick over the transfers, in the map's own order (returned as `order`). */
    method Tick(offer: Offer, elapsed: Clock) returns (done: seq<TransferId>, ghost order: seq<TransferId>)
      modifies this
      ensures Runs.IsOrder(order, old(transfers))
      ensures State() == TransferSpec.Tick(old(State()), order, offer, elapsed)
      ensures done == TickDone(old(State()), order, offer, elapsed)
    {
      done, order := [], [];
      var todo := transfers.Keys;
      while todo != {}
        invariant todo <= old(transfers).Keys && transfers.Keys == old(transfers).Keys
        invariant Runs.Distinct(order)
        invariant forall id :: id in order <==> id in old(transfers) && id !in todo
        invariant State() == TransferSpec.Tick(old(State()), order, offer, elapsed)
        invariant done == TickDone(old(State()), order, offer, elapsed)
        decreases todo
      {
        var id :| id in todo;
        todo := todo - {id};
        assert (order + [id])[..|order|] == order;
        var finished := TickTransferAt(id, offer, elapsed(id));
        if finished { done := done + [id]; }
        order := order + [id];
      }
    }

    // --------------------------------------------------------- drain_ready

    method ForceOneChunk(t: Transfer, c: Chunk) returns (d: Chunk)
      modifies this`mem, this`bytes
      ensures d == ForceChunk(c)
      ensures mem == Wire(old(mem), t, c, ForceBytes(c))
      ensures bytes == old(bytes) + ForceBytes(c)
    {
      if c.state != InFlight { return c; }
      var remain := Remain(c);
      mem := Wire(mem, t, c, remain);
      bytes := bytes + remain;
      d := c.(sent := c.size, state := Completed);
    }

    method ForceChunks(t: Transfer) returns (r: seq<Chunk>)
      modifies this`mem, this`bytes
      ensures r == MapChunks(t.chunks, ForceChunk)
      ensures mem == WireChunks(old(mem), t, t.chunks, |t.chunks|, ForceBytes)
      ensures bytes == old(bytes) + SumBy(t.chunks, ForceBytes)
    {
      hide ForceChunk, ForceBytes, Wire;
      r := [];
      for k := 0 to |t.chunks|
        invariant |r| == k
        invariant forall i :: 0 <= i < k ==> r[i] == ForceChunk(t.chunks[i])
        invariant mem == WireChunks(old(mem), t, t.chunks, k, ForceBytes)
        invariant bytes == old(bytes) + SumBy(t.chunks[..k], ForceBytes)
      {
        assert t.chunks[..k + 1][..k] == t.chunks[..k];
        var d := ForceOneChunk(t, t.chunks[k]);
        r := r + [d];
      }
      assert t.chunks[..|t.chunks|] == t.chunks;
    }

    method ForceTransferAt(id: TransferId) returns (forced: bool)
      modifies this
      ensures State() == ForceOne(old(State()), id)
      ensures forced == (id in old(transfers) && Active(old(transfers)[id]))
    {
      hide WireChunks, SumBy, ForceChunk, ForceBytes;
      forced := false;
      if id !in transfers { return; }
      var t := transfers[id];
      if t.state != InFlight && t.state != SuspendPending { return; }
      var chunks := ForceChunks(t);
      var r := RefreshAggregate(t.(chunks := chunks));
      transfers := transfers[id := r.(state := Completed, remaining := 0)];
      completed := completed + 1;
      forced := true;
    }

    method ForceActive() returns (done: seq<TransferId>, ghost order: seq<TransferId>)
      modifies this
      ensures Runs.IsOrder(order, old(transfers))
      ensures State() == Force(old(State()), order)
      ensures done == ForceDone(old(State()), order)
    {
      done, order := [], [];
      var todo := transfers.Keys;
      while todo != {}
        invariant todo <= old(transfers).Keys && transfers.Keys == old(transfers).Keys
        invariant Runs.Distinct(order)
        invariant forall id :: id in order <==> id in old(transfers) && id !in todo
        invariant State() == Force(old(State()), order)
        invariant done == ForceDone(old(State()), order)
        decreases todo
      {
        var id :| id in todo;
        todo := todo - {id};
        assert (order + [id])[..|order|] == order;
        var forced := ForceTransferAt(id);
        if forced { done := done + [id]; }
        order := order + [id];
      }
    }

    /** Ticks until nothing is active; a tick that completes nothing ends in forced completion. The
        call is such a run of steps, and returns what the run reports. */
    method DrainReady(offer: Offer, clocks: nat -> Clock)
      returns (allDone: seq<TransferId>, ghost ops: seq<Runs.Op>, ghost n: nat)
      modifies this
      ensures Runs.DrainRun(old(State()), ops, offer, clocks, n) && Runs.RunEnabled(old(State()), ops)
      ensures State() == Runs.Run(old(State()), ops)
      ensures allDone == Runs.Reports(old(State()), ops)
    {
      hide Runs.Run, Runs.RunEnabled, Runs.Reports, TransferSpec.Tick, Force, Runs.Draining,
           Runs.DrainEnd;
      ghost var s := State();
      allDone, ops, n := [], [], 0;
      var i: nat := 0;
      Runs.EmptyRun(s);
      NothingDrained(s, offer, clocks);
      while i < Runs.MAX_DRAIN_TICKS
        invariant i <= Runs.MAX_DRAIN_TICKS && |ops| == n == i
        invariant Runs.Draining(s, ops, offer, clocks) && Runs.RunEnabled(s, ops)
        invariant State() == Runs.Run(s, ops)
        invariant allDone == Runs.Reports(s, ops)
      {
        var done, order := Tick(offer, clocks(i));
        ghost var tick := Runs.DoTick(order, offer, clocks(i));
        allDone := allDone + done;
        Runs.RunSnoc(s, ops, tick);
        var any := exists id :: id in transfers && Active(transfers[id]);
        if !any {
          EndsQuiet(s, ops, tick, offer, clocks);
          ops := ops + [tick];
          return;
        }
        if done == [] {
          var forced, order' := ForceActive();
          allDone := allDone + forced;
          Runs.RunSnoc(s, ops + [tick], Runs.DoForce(order'));
          EndsForced(s, ops, tick, order', offer, clocks);
          ops := ops + [tick] + [Runs.DoForce(order')];
          return;
        }
        GoesOn(s, ops, tick, offer, clocks);
        ops := ops + [tick];
        i := i + 1;
        n := i;
      }
      assert ops[..n] == ops;
    }

    static lemma NothingDrained(s: ExecState, offer: Offer, clocks: nat -> Clock)
      ensures Runs.Draining(s, [], offer, clocks)
    {
    }

    static lemma GoesOn(s: ExecState, ops: seq<Runs.Op>, tick: Runs.Op, offer: Offer, clocks: nat -> Clock)
      requires Runs.Draining(s, ops, offer, clocks) && Runs.DrainTick(Runs.Run(s, ops), tick, offer, clocks, |ops|)
      requires Runs.Done(Runs.Run(s, ops), tick) != [] && Runs.SomeActive(Runs.Run(s, ops + [tick]))
      ensures Runs.Draining(s, ops + [tick], offer, clocks)
    {
      assert (ops + [tick])[..|ops|] == ops;
    }

    static lemma EndsQuiet(s: ExecState, ops: seq<Runs.Op>, tick: Runs.Op, offer: Offer, clocks: nat -> Clock)
      requires Runs.Draining(s, ops, offer, clocks) && |ops| < Runs.MAX_DRAIN_TICKS
      requires Runs.DrainTick(Runs.Run(s, ops), tick, offer, clocks, |ops|)
      requires !Runs.SomeActive(Runs.Apply(Runs.Run(s, ops), tick))
      ensures Runs.DrainRun(s, ops + [tick], offer, clocks, |ops|)
    {
      hide Runs.Draining, Runs.DrainTick, Runs.SomeActive, Runs.Run, Runs.Apply;
      assert (ops + [tick])[..|ops|] == ops && (ops + [tick])[|ops|..] == [tick];
    }

    static lemma EndsForced(s: ExecState, ops: seq<Runs.Op>, tick: Runs.Op, order: seq<TransferId>, offer: Offer,
                            clocks: nat -> Clock)
      requires Runs.Draining(s, ops, offer, clocks) && |ops| < Runs.MAX_DRAIN_TICKS
      requires Runs.DrainTick(Runs.Run(s, ops), tick, offer, clocks, |ops|)
      requires var after := Runs.Apply(Runs.Run(s, ops), tick);
        Runs.Done(Runs.Run(s, ops), tick) == [] && Runs.SomeActive(after) && Runs.IsOrder(order, after.transfers)
      ensures Runs.DrainRun(s, ops + [tick] + [Runs.DoForce(order)], offer, clocks, |ops|)
    {
      hide Runs.Draining, Runs.DrainTick, Runs.SomeActive, Runs.Run, Runs.Apply, Runs.Done, Runs.IsOrder;
      var all := ops + [tick] + [Runs.DoForce(order)];
      assert all[..|ops|] == ops && all[|ops|..] == [tick, Runs.DoForce(order)];
    }
  }
}
