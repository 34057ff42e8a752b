/** What the executor's bookkeeping means: slack, first come first served, whom it suspends, rails. */
module ExecutorLaws {
  import opened Model
  import opened Sums
  import opened PathSearch
  import opened TransferSpec
  import opened TransferInvariant
  import opened TransferRuns
  import opened EngineSpec

  // ------------------------------------------------------------------ slack

  /** Slack is what the deadline leaves once the path's latency is paid; a striped transfer starts
      with all of it, a reroute counts the new path, a tick the time gone by. */
  lemma SlackIs(s: ExecState, req: TransferRequest, path: PathCost, paths: seq<ChunkPath>, bufs: Buffers, t: Transfer,
                offer: Offer, elapsed: real)
    ensures s.nextId in Submit(s, req, path, bufs).transfers
    ensures Submit(s, req, path, bufs).transfers[s.nextId].slack + path.latency == req.deadline
    ensures s.nextId in SubmitStriped(s, req, paths, bufs).transfers
    ensures SubmitStriped(s, req, paths, bufs).transfers[s.nextId].slack == req.deadline
    ensures RerouteTransfer(t, path, s.rails).slack + path.latency == t.request.deadline
    ensures TickTransfer(t, offer, elapsed).slack + elapsed == t.request.deadline
  {
    hide Advanced, Promote, LaidOut, UnionEdges, SumBy;
  }

  // ------------------------------------------------- first come, first served

  /** Chunk i waits because its slot was busy, or went to an earlier chunk. */
  predicate Overtaken(cs: seq<Chunk>, busy: set<nat>, i: nat)
    requires i < |cs|
  {
    Slot(cs[i].rail) in busy
    || exists j :: 0 <= j < i && StartedOn(cs, Promote(cs, busy), j, Slot(cs[i].rail))
  }

  predicate StartedOn(cs: seq<Chunk>, r: seq<Chunk>, j: nat, slot: nat)
    requires j < |cs| == |r|
  {
    cs[j].state == Pending && r[j].state == InFlight && Slot(cs[j].rail) == slot
  }

  /** A chunk is left waiting only if its slot was busy or an earlier chunk was started on it. */
  lemma {:induction false} PromoteInOrder(cs: seq<Chunk>, busy: set<nat>, i: nat)
    requires i < |cs| && Promote(cs, busy)[i].state == Pending
    ensures Overtaken(cs, busy, i)
  {
    var first := cs[0].state == Pending && Slot(cs[0].rail) !in busy;
    var busy' := if first then busy + {Slot(cs[0].rail)} else busy;
    var r := Promote(cs, busy);
    if i > 0 {
      assert r[i] == Promote(cs[1..], busy')[i - 1];
      PromoteInOrder(cs[1..], busy', i - 1);
      if exists j :: 0 <= j < i - 1 && StartedOn(cs[1..], Promote(cs[1..], busy'), j, Slot(cs[i].rail)) {
        var j :| 0 <= j < i - 1 && StartedOn(cs[1..], Promote(cs[1..], busy'), j, Slot(cs[i].rail));
        assert StartedOn(cs, r, j + 1, Slot(cs[i].rail));
      } else if Slot(cs[i].rail) !in busy {
        assert StartedOn(cs, r, 0, Slot(cs[i].rail));
      }
    }
  }

  // -------------------------------------------------------------- preemption

  /** Whom a preemption spares: with the limit not reached nobody it could have suspended, and
      otherwise nobody with more slack than someone it suspended. */
  lemma SparesOnlyUrgent(s: ExecState, busy: seq<nat>, max: nat, picked: seq<TransferId>, id: TransferId)
    requires PreemptChoice(s, busy, max, picked)
    requires id in s.transfers && PreemptCandidate(s.transfers[id], busy) && id !in picked
    ensures |picked| == max
    ensures forall x :: x in picked ==> x in s.transfers && s.transfers[id].slack <= s.transfers[x].slack
  {
    var all := Candidates(s, busy);
    hide PreemptCandidate;
    DistinctCard(picked);
    forall x | x in picked ensures x in all {
      var i :| 0 <= i < |picked| && picked[i] == x;
    }
    assert IdSet(picked) <= all - {id};
    Subcard(IdSet(picked), all - {id});
    assert |all - {id}| == |all| - 1;
    forall x | x in picked ensures x in s.transfers && s.transfers[id].slack <= s.transfers[x].slack {
      var i :| 0 <= i < |picked| && picked[i] == x;
    }
  }

  /** Nobody is suspended who is not a running KV migration on one of the busy edges. */
  lemma SuspendsOnlySharing(s: ExecState, busy: seq<nat>, max: nat, picked: seq<TransferId>, id: TransferId)
    requires ExecOk(s) && PreemptChoice(s, busy, max, picked) && id in picked
    ensures |picked| <= max && id in s.transfers
    ensures s.transfers[id].request.cls == KVMigration && s.transfers[id].state == InFlight
    ensures Shares(s.transfers[id].pathEdges, busy)
      || exists c :: c in s.transfers[id].chunks && c.state == InFlight && Shares(c.edges, busy)
  {
    var i :| 0 <= i < |picked| && picked[i] == id;
    assert TransferOk(id, s.transfers[id]);
  }

  // ------------------------------------------------------------ cancellation

  /** A cancelled transfer stays as it is: no later call moves a byte of it. */
  lemma CancelledFrozen(s: ExecState, op: Op, id: TransferId)
    requires Enabled(s, op) && id in s.transfers && s.nextId !in s.transfers && s.transfers[id].state == Cancelled
    ensures id in Apply(s, op).transfers
    ensures !Cancels(op, id) ==> Apply(s, op).transfers[id] == s.transfers[id]
  {
    hide Tick, Force, SuspendAll, PreemptChoice, TickTransfer, ForceTransfer, RerouteTransfer, StripedTransfer,
         SubmittedTransfer;
    match op
    case DoTick(order, offer, elapsed) => TickAt(s, order, offer, elapsed);
    case DoForce(order) => ForceAt(s, order);
    case DoPreempt(busy, max, picked) =>
      PickedInFlight(s, busy, max, picked);
      SuspendAllAt(s, picked);
    case _ =>
  }

  /** And every chunk of it is either finished or cancelled, with the bytes it had sent. */
  lemma CancelChunks(s: ExecState, id: TransferId, i: nat)
    requires id in s.transfers && i < |s.transfers[id].chunks|
    ensures id in Cancel(s, id).transfers && |Cancel(s, id).transfers[id].chunks| == |s.transfers[id].chunks|
    ensures var c, d := s.transfers[id].chunks[i], Cancel(s, id).transfers[id].chunks[i];
      d.sent == c.sent && d.state == if c.state == Completed then Completed else Cancelled
  {
  }

  // ------------------------------------------------------------------- rails

  /** Engine and executor read the rail of a path off the same edge; where there is none the engine
      says -1 and the executor 0. */
  lemma {:induction false} RailsAgree(edges: seq<GraphEdge>, rails: seq<int>, path: seq<nat>)
    requires |rails| == |edges| && forall e :: 0 <= e < |edges| ==> rails[e] == edges[e].attrs.rail
    ensures RailOfPath(rails, path) == if PathRail(edges, path) >= 0 then PathRail(edges, path) else 0
    ensures PathRail(edges, path) >= -1
  {
    if path != [] { RailsAgree(edges, rails, path[1..]); }
  }

  /** The rail is that of the first edge that has one. */
  lemma {:induction false} RailIsFirst(edges: seq<GraphEdge>, path: seq<nat>, i: nat)
    requires i < |path| && path[i] < |edges| && edges[path[i]].attrs.rail >= 0
    requires forall j :: 0 <= j < i ==> path[j] >= |edges| || edges[path[j]].attrs.rail < 0
    ensures PathRail(edges, path) == edges[path[i]].attrs.rail
  {
    if i > 0 { RailIsFirst(edges, path[1..], i - 1); }
  }
}
