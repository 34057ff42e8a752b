/** The bytes: every chunk's sent prefix has reached the destination buffer. */
module TransferDelivery {
  import opened Model
  import opened Sums
  import opened TransferSpec
  import opened TransferInvariant

  predicate Live(t: Transfer) { Active(t) || t.state == Paused }

  predicate Apart(a: nat, n: nat, b: nat, m: nat) { a + n <= b || b + m <= a }

  predicate InBounds(cs: seq<Chunk>, total: nat) {
    forall i :: 0 <= i < |cs| ==> cs[i].offset + cs[i].size <= total
  }

  /** Byte x of the destination now holds what byte x of the source held. */
  ghost predicate Copied(now: Memory, then_: Memory, src: nat, dst: nat, x: nat) {
    now(dst + x) == then_(src + x)
  }

  ghost predicate Kept(now: Memory, then_: Memory, a: nat) { now(a) == then_(a) }

  /** Chunk c has delivered its first c.sent bytes. */
  ghost predicate ChunkDelivered(mem: Memory, src: nat, dst: nat, c: Chunk) {
    forall x: nat :: c.offset <= x < c.offset + c.sent ==> Copied(mem, mem, src, dst, x)
  }

  ghost predicate Delivered(mem: Memory, t: Transfer) {
    forall i :: 0 <= i < |t.chunks| ==> ChunkDelivered(mem, t.src, t.dst, t.chunks[i])
  }

  /** What the caller owes for a transfer with both buffers: room for it, and no overlap. */
  predicate BuffersOk(t: Transfer) {
    InBounds(t.chunks, t.total) && Apart(t.src, t.total, t.dst, t.total)
  }

  /** Neither transfer writes where the other reads or writes. */
  predicate Separate(t: Transfer, u: Transfer) {
    && Apart(t.dst, t.total, u.dst, u.total)
    && Apart(t.dst, t.total, u.src, u.total)
    && Apart(u.dst, u.total, t.src, t.total)
  }

  /** The transfers in `ids` keep to their own buffers and have delivered what they sent. */
  ghost predicate GroupOk(mem: Memory, ts: map<TransferId, Transfer>, ids: set<TransferId>) {
    && (forall id :: id in ids ==> id in ts)
    && (forall id :: id in ids && Bound(ts[id]) ==> BuffersOk(ts[id]) && Delivered(mem, ts[id]))
    && (forall id, jd :: id in ids && jd in ids && id != jd && Bound(ts[id]) && Bound(ts[jd])
          ==> Separate(ts[id], ts[jd]))
  }

  ghost function LiveIds(s: ExecState): set<TransferId> {
    set id | id in s.transfers && Live(s.transfers[id])
  }

  ghost predicate DeliveryOk(s: ExecState) { GroupOk(s.mem, s.transfers, LiveIds(s)) }

  /** Same request, same buffers, same chunk ranges. */
  predicate SameLayout(t: Transfer, u: Transfer) {
    && u.request == t.request && u.total == t.total && u.src == t.src && u.dst == t.dst
    && |u.chunks| == |t.chunks|
    && forall i :: 0 <= i < |t.chunks| ==>
         u.chunks[i].offset == t.chunks[i].offset && u.chunks[i].size == t.chunks[i].size
  }

  predicate SameSent(t: Transfer, u: Transfer) {
    |u.chunks| == |t.chunks| && forall i :: 0 <= i < |t.chunks| ==> u.chunks[i].sent == t.chunks[i].sent
  }

  // ------------------------------------------------------------- the wire

  /** m is mem after k chunks were wired: only the destination is written, only with source
      bytes, and the whole next step of every chunk is there. */
  ghost predicate Wired(mem: Memory, m: Memory, t: Transfer, cs: seq<Chunk>, k: nat, step: Chunk -> nat)
    requires k <= |cs|
  {
    && (forall a: nat :: !(t.dst <= a < t.dst + t.total) ==> Kept(m, mem, a))
    && (forall x: nat :: x < t.total ==> Kept(m, mem, t.dst + x) || Copied(m, mem, t.src, t.dst, x))
    && (forall i, x: nat :: 0 <= i < k
          && cs[i].offset + cs[i].sent <= x < cs[i].offset + cs[i].sent + step(cs[i])
          ==> Copied(m, mem, t.src, t.dst, x))
  }

  lemma {:induction false} WireEffect(mem: Memory, t: Transfer, cs: seq<Chunk>, k: nat, step: Chunk -> nat)
    requires k <= |cs| && Bound(t) && InBounds(cs, t.total) && Apart(t.src, t.total, t.dst, t.total)
    requires forall i :: 0 <= i < |cs| ==> cs[i].sent + step(cs[i]) <= cs[i].size
    ensures Wired(mem, WireChunks(mem, t, cs, k, step), t, cs, k, step)
  {
    if k > 0 {
      WireEffect(mem, t, cs, k - 1, step);
      WireOne(mem, WireChunks(mem, t, cs, k - 1, step), t, cs, k, step);
    }
  }

  lemma WireOne(mem: Memory, m0: Memory, t: Transfer, cs: seq<Chunk>, k: nat, step: Chunk -> nat)
    requires 0 < k <= |cs| && Bound(t) && InBounds(cs, t.total) && Apart(t.src, t.total, t.dst, t.total)
    requires forall i :: 0 <= i < |cs| ==> cs[i].sent + step(cs[i]) <= cs[i].size
    requires Wired(mem, m0, t, cs, k - 1, step)
    ensures Wired(mem, Wire(m0, t, cs[k - 1], step(cs[k - 1])), t, cs, k, step)
  {
    var c := cs[k - 1];
    var m := Wire(m0, t, c, step(c));
    var lo, hi := c.offset + c.sent, c.offset + c.sent + step(c);
    assert c.offset + c.size <= t.total;
    forall a: nat
      ensures if t.dst + lo <= a < t.dst + hi then m(a) == m0(a - t.dst + t.src) else Kept(m, m0, a)
    {
    }
    forall x: nat | x < t.total
      ensures lo <= x < hi ==> Copied(m, mem, t.src, t.dst, x)
      ensures !(lo <= x < hi) ==> Kept(m, m0, t.dst + x)
    {
      assert Kept(m0, mem, t.src + x);
    }
    forall a: nat | !(t.dst <= a < t.dst + t.total) ensures Kept(m, mem, a) {
      assert Kept(m0, mem, a);
    }
    forall x: nat | x < t.total ensures Kept(m, mem, t.dst + x) || Copied(m, mem, t.src, t.dst, x) {
      if !(lo <= x < hi) {
        assert Kept(m, m0, t.dst + x);
        assert Kept(m0, mem, t.dst + x) || Copied(m0, mem, t.src, t.dst, x);
      }
    }
    forall i, x: nat | 0 <= i < k && cs[i].offset + cs[i].sent <= x < cs[i].offset + cs[i].sent + step(cs[i])
      ensures Copied(m, mem, t.src, t.dst, x)
    {
      assert cs[i].offset + cs[i].size <= t.total;
      if !(lo <= x < hi) { assert Copied(m0, mem, t.src, t.dst, x); assert Kept(m, m0, t.dst + x); }
    }
  }

  /** Without buffers nothing is written. */
  lemma {:induction false} WireUnbound(mem: Memory, t: Transfer, cs: seq<Chunk>, k: nat, step: Chunk -> nat)
    requires k <= |cs| && !Bound(t)
    ensures WireChunks(mem, t, cs, k, step) == mem
  {
    if k > 0 { WireUnbound(mem, t, cs, k - 1, step); }
  }

  /** If u is t with each chunk `step` bytes further, u has delivered after the wiring. */
  lemma WireDelivers(mem: Memory, t: Transfer, cs: seq<Chunk>, step: Chunk -> nat, u: Transfer)
    requires Bound(t) && InBounds(cs, t.total) && Apart(t.src, t.total, t.dst, t.total)
    requires forall i :: 0 <= i < |cs| ==> cs[i].sent + step(cs[i]) <= cs[i].size
    requires forall i :: 0 <= i < |cs| ==> ChunkDelivered(mem, t.src, t.dst, cs[i])
    requires u.src == t.src && u.dst == t.dst && |u.chunks| == |cs|
    requires forall i :: 0 <= i < |cs| ==>
      u.chunks[i].offset == cs[i].offset && u.chunks[i].sent == cs[i].sent + step(cs[i])
    ensures Delivered(WireChunks(mem, t, cs, |cs|, step), u)
  {
    WireEffect(mem, t, cs, |cs|, step);
    var m := WireChunks(mem, t, cs, |cs|, step);
    forall i | 0 <= i < |u.chunks| ensures ChunkDelivered(m, u.src, u.dst, u.chunks[i]) {
      var c := cs[i];
      assert c.offset + c.sent + step(c) <= t.total;
      assert ChunkDelivered(mem, t.src, t.dst, c);
      forall x: nat | c.offset <= x < c.offset + c.sent + step(c)
        ensures Copied(m, m, t.src, t.dst, x)
      {
        assert Kept(m, mem, t.src + x);
        if x < c.offset + c.sent {
          assert Copied(mem, mem, t.src, t.dst, x);
          assert Kept(m, mem, t.dst + x) || Copied(m, mem, t.src, t.dst, x);
        } else {
          assert Copied(m, mem, t.src, t.dst, x);
        }
      }
    }
  }

  // ------------------------------------------------------ layouts are fixed

  lemma TickLayout(t: Transfer, offer: Offer, elapsed: real)
    ensures SameLayout(t, TickTransfer(t, offer, elapsed))
    ensures var u, st := TickTransfer(t, offer, elapsed), Staged(t);
      |st| == |u.chunks| && forall i :: 0 <= i < |st| ==>
        st[i].offset == u.chunks[i].offset && st[i].sent == t.chunks[i].sent && st[i].size == u.chunks[i].size
        && u.chunks[i].sent == st[i].sent + StepBytes(st[i], offer(st[i].edges))
  {
    var u, st := TickTransfer(t, offer, elapsed), Staged(t);
    forall i | 0 <= i < |t.chunks|
      ensures |st| == |t.chunks| == |u.chunks|
      ensures st[i].offset == t.chunks[i].offset && st[i].size == t.chunks[i].size && st[i].sent == t.chunks[i].sent
      ensures u.chunks[i].(state := Pending) == Advanced(t, offer)[i].(state := Pending)
    {
      StagedAt(t, i);
      AdvancedAt(t, offer, i);
    }
    forall i | 0 <= i < |st|
      ensures u.chunks[i].offset == st[i].offset && u.chunks[i].size == st[i].size
      ensures u.chunks[i].sent == st[i].sent + StepBytes(st[i], offer(st[i].edges))
    {
      AdvancedAt(t, offer, i);
    }
  }

  lemma RerouteLayout(t: Transfer, path: PathCost, rails: seq<int>)
    requires t.state in {Paused, InFlight, SuspendPending} && FitsAll(t.state, t.chunks)
    ensures SameLayout(t, RerouteTransfer(t, path, rails)) && SameSent(t, RerouteTransfer(t, path, rails))
  {
    var r := RerouteTransfer(t, path, rails);
    forall i | 0 <= i < |t.chunks|
      ensures r.chunks[i].offset == t.chunks[i].offset && r.chunks[i].size == t.chunks[i].size
              && r.chunks[i].sent == t.chunks[i].sent
    {
      RedirectAt(t, path, rails, i);
    }
  }

  lemma CancelLayout(t: Transfer)
    ensures SameLayout(t, CancelTransfer(t)) && SameSent(t, CancelTransfer(t))
  {
  }

  lemma ForceLayout(t: Transfer)
    requires WithinAll(t.chunks)
    ensures SameLayout(t, ForceTransfer(t))
    ensures forall i :: 0 <= i < |t.chunks| ==>
      ForceTransfer(t).chunks[i].sent == t.chunks[i].sent + ForceBytes(t.chunks[i])
  {
    var r := ForceTransfer(t);
    forall i | 0 <= i < |t.chunks| ensures r.chunks[i] == ForceChunk(t.chunks[i]) {
      assert Within(t.chunks[i]);
    }
    assert forall i :: 0 <= i < |t.chunks| ==> Within(t.chunks[i]);
  }

  // --------------------------------------------------- one transfer's step

  /** Memory outside u's destination is as it was. */
  ghost predicate OnlyInto(mem: Memory, mem': Memory, u: Transfer) {
    forall a: nat :: !(Bound(u) && u.dst <= a < u.dst + u.total) ==> Kept(mem', mem, a)
  }

  lemma StaysDelivered(mem: Memory, mem': Memory, t: Transfer, u: Transfer)
    requires InBounds(t.chunks, t.total) && WithinAll(t.chunks) && Delivered(mem, t)
    requires Bound(u) ==> Separate(t, u)
    requires OnlyInto(mem, mem', u)
    ensures Delivered(mem', t)
  {
    forall i | 0 <= i < |t.chunks| ensures ChunkDelivered(mem', t.src, t.dst, t.chunks[i]) {
      var c := t.chunks[i];
      assert ChunkDelivered(mem, t.src, t.dst, c) && Within(c);
      forall x: nat | c.offset <= x < c.offset + c.sent ensures Copied(mem', mem', t.src, t.dst, x) {
        assert Copied(mem, mem, t.src, t.dst, x);
        assert Kept(mem', mem, t.dst + x) && Kept(mem', mem, t.src + x);
      }
    }
  }

  /** Replacing one member by a further-delivered version of itself, with memory changed
      only in its own destination, keeps the whole group in order. */
  lemma GroupPut(mem: Memory, mem': Memory, ts: map<TransferId, Transfer>, ids: set<TransferId>,
                 id: TransferId, u: Transfer)
    requires GroupOk(mem, ts, ids) && id in ids && SameLayout(ts[id], u)
    requires forall jd :: jd in ids ==> WithinAll(ts[jd].chunks)
    requires Bound(u) ==> Delivered(mem', u)
    requires OnlyInto(mem, mem', u)
    ensures GroupOk(mem', ts[id := u], ids)
  {
    hide Delivered, OnlyInto;
    var ts' := ts[id := u];
    forall jd | jd in ids && Bound(ts'[jd]) ensures BuffersOk(ts'[jd]) && Delivered(mem', ts'[jd]) {
      if jd != id { StaysDelivered(mem, mem', ts[jd], u); }
    }
  }

  /** Members of a group that keep their layout and their sent counts stay delivered. */
  lemma GroupSame(mem: Memory, ts: map<TransferId, Transfer>, ids: set<TransferId>, id: TransferId, u: Transfer)
    requires GroupOk(mem, ts, ids) && (id in ids ==> SameLayout(ts[id], u) && SameSent(ts[id], u))
    ensures GroupOk(mem, ts[id := u], ids)
  {
    if id in ids && Bound(u) {
      forall i | 0 <= i < |u.chunks| ensures ChunkDelivered(mem, u.src, u.dst, u.chunks[i]) {
        assert ChunkDelivered(mem, ts[id].src, ts[id].dst, ts[id].chunks[i]);
      }
    }
  }

  lemma TickOneDelivers(s: ExecState, ids: set<TransferId>, id: TransferId, offer: Offer, elapsed: real)
    requires ExecOk(s) && GroupOk(s.mem, s.transfers, ids)
    requires id in s.transfers && Active(s.transfers[id]) ==> id in ids
    ensures var r := TickOne(s, id, offer, elapsed);
      && GroupOk(r.mem, r.transfers, ids)
      && (id in s.transfers ==> OnlyInto(s.mem, r.mem, s.transfers[id]))
      && (id !in s.transfers ==> r.mem == s.mem)
  {
    if id in s.transfers && Active(s.transfers[id]) {
      var t := s.transfers[id];
      var st, u := Staged(t), TickTransfer(t, offer, elapsed);
      var step := (c: Chunk) => StepBytes(c, offer(c.edges));
      var m := WireChunks(s.mem, t, st, |st|, step);
      assert TransferOk(id, t);
      TickLayout(t, offer, elapsed);
      TickWires(s.mem, t, offer, elapsed);
      GroupPut(s.mem, m, s.transfers, ids, id, u);
    }
  }

  /** The wire work of one transfer's tick. */
  lemma TickWires(mem: Memory, t: Transfer, offer: Offer, elapsed: real)
    requires WithinAll(t.chunks)
    requires Bound(t) ==> BuffersOk(t) && Delivered(mem, t)
    ensures var m := WireChunks(mem, t, Staged(t), |Staged(t)|, (c: Chunk) => StepBytes(c, offer(c.edges)));
      OnlyInto(mem, m, t) && (Bound(t) ==> Delivered(m, TickTransfer(t, offer, elapsed)))
  {
    var st, u := Staged(t), TickTransfer(t, offer, elapsed);
    var step := (c: Chunk) => StepBytes(c, offer(c.edges));
    TickLayout(t, offer, elapsed);
    if Bound(t) {
      forall i | 0 <= i < |st|
        ensures st[i].offset + st[i].size <= t.total && st[i].sent + step(st[i]) <= st[i].size
        ensures ChunkDelivered(mem, t.src, t.dst, st[i])
      {
        assert Within(t.chunks[i]) && ChunkDelivered(mem, t.src, t.dst, t.chunks[i]);
        StagedAt(t, i);
      }
      WireEffect(mem, t, st, |st|, step);
      WireDelivers(mem, t, st, step, u);
    } else {
      WireUnbound(mem, t, st, |st|, step);
    }
  }

  lemma ForceWires(mem: Memory, t: Transfer)
    requires WithinAll(t.chunks)
    requires Bound(t) ==> BuffersOk(t) && Delivered(mem, t)
    ensures var m := WireChunks(mem, t, t.chunks, |t.chunks|, ForceBytes);
      OnlyInto(mem, m, t) && (Bound(t) ==> Delivered(m, ForceTransfer(t)))
  {
    ForceLayout(t);
    if Bound(t) {
      forall i | 0 <= i < |t.chunks|
        ensures t.chunks[i].sent + ForceBytes(t.chunks[i]) <= t.chunks[i].size
        ensures ChunkDelivered(mem, t.src, t.dst, t.chunks[i])
      {
        assert Within(t.chunks[i]);
      }
      WireEffect(mem, t, t.chunks, |t.chunks|, ForceBytes);
      WireDelivers(mem, t, t.chunks, ForceBytes, ForceTransfer(t));
    } else {
      WireUnbound(mem, t, t.chunks, |t.chunks|, ForceBytes);
    }
  }

  lemma ForceOneDelivers(s: ExecState, ids: set<TransferId>, id: TransferId)
    requires ExecOk(s) && GroupOk(s.mem, s.transfers, ids)
    requires id in s.transfers && Active(s.transfers[id]) ==> id in ids
    ensures var r := ForceOne(s, id);
      && GroupOk(r.mem, r.transfers, ids)
      && (id in s.transfers ==> OnlyInto(s.mem, r.mem, s.transfers[id]))
      && (id !in s.transfers ==> r.mem == s.mem)
  {
    if id in s.transfers && Active(s.transfers[id]) {
      var t := s.transfers[id];
      var m := WireChunks(s.mem, t, t.chunks, |t.chunks|, ForceBytes);
      assert TransferOk(id, t);
      ForceLayout(t);
      ForceWires(s.mem, t);
      GroupPut(s.mem, m, s.transfers, ids, id, ForceTransfer(t));
    }
  }
}
