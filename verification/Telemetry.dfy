/** The 512-slot telemetry ring against an unbounded log of everything written. */
module Telemetry {
  import opened Arithmetic
  import Cluster

  const RING_SIZE: nat := 512

  /** The write index is a 32-bit counter and wraps. */
  const INDEX_WRAP: nat := 0x1_0000_0000

  datatype Sample = Sample(time: nat, edge: nat, util: real)

  datatype Reading = Absent | Read(util: real)

  function ValueOf(r: Reading): real { if r.Read? then r.util else 0.0 }

  // ------------------------------------------------------- specifications

  /** The last entries of the log, as many as the ring holds. */
  function Window(log: seq<Sample>): seq<Sample> { if |log| <= RING_SIZE then log else log[|log| - RING_SIZE..] }

  predicate Hit(s: Sample, edge: nat) { s.edge == edge && s.time != 0 }

  /** The newest timed value for the edge. */
  function Newest(log: seq<Sample>, edge: nat): Reading {
    if log == [] then Absent
    else if Hit(log[|log| - 1], edge) then Read(log[|log| - 1].util)
    else Newest(log[..|log| - 1], edge)
  }

  /** The newest nonzero value for the edge, 0 when there is none. */
  function NewestNonzero(log: seq<Sample>, edge: nat): real {
    if log == [] then 0.0
    else if log[|log| - 1].edge == edge && log[|log| - 1].util != 0.0 then log[|log| - 1].util
    else NewestNonzero(log[..|log| - 1], edge)
  }

  // ---------------------------------------------------------------- slots

  /** Reading i back from the write index finds the i-th newest entry, across index wrap. */
  lemma SlotBack(n: nat, i: nat)
    requires i < RING_SIZE
    ensures i < n ==> (n % INDEX_WRAP + RING_SIZE - 1 - i) % RING_SIZE == (n - 1 - i) % RING_SIZE
    ensures n <= i ==> n <= (n % INDEX_WRAP + RING_SIZE - 1 - i) % RING_SIZE
  {
    if n <= i { assert n % INDEX_WRAP == n; }
  }

  lemma SlotNext(n: nat)
    ensures (n % INDEX_WRAP) % RING_SIZE == n % RING_SIZE
    ensures (n % INDEX_WRAP + 1) % INDEX_WRAP == (n + 1) % INDEX_WRAP
  {
  }

  /** Entries of one window sit in different slots. */
  lemma SlotsApart(i: nat, n: nat)
    requires i < n < i + RING_SIZE
    ensures i % RING_SIZE != n % RING_SIZE
  {
  }

  class TelemetryRingBuffer {
    const buffer: array<Sample>
    var writeIdx: nat
    /** Everything ever written, oldest first. */
    ghost var log: seq<Sample>

    ghost predicate Valid()
      reads this, buffer
    {
      && buffer.Length == RING_SIZE
      && writeIdx == |log| % INDEX_WRAP
      && (forall i :: 0 <= i < |log| < i + 1 + RING_SIZE ==> buffer[i % RING_SIZE] == log[i])
      && (forall i :: |log| <= i < RING_SIZE ==> buffer[i] == Sample(0, 0, 0.0))
    }

    constructor ()
      ensures Valid() && fresh(buffer) && log == []
    {
      buffer := new Sample[RING_SIZE](_ => Sample(0, 0, 0.0));
      writeIdx, log := 0, [];
    }

    /** `now` is the clock's reading. */
    method Write(edge: nat, util: real, now: nat)
      requires Valid()
      modifies this, buffer
      ensures Valid() && log == old(log) + [Sample(now, edge, util)]
    {
      var n := |log|;
      SlotNext(n);
      var idx := writeIdx % RING_SIZE;
      writeIdx := (writeIdx + 1) % INDEX_WRAP;
      buffer[idx] := Sample(now, edge, util);
      log := log + [Sample(now, edge, util)];
      forall i | 0 <= i < |log| < i + 1 + RING_SIZE ensures buffer[i % RING_SIZE] == log[i] {
        if i < n { SlotsApart(i, n); }
      }
    }

    /** The i-th entry back from the write index; the blank sample when nothing was written there. */
    method Peek(i: nat) returns (s: Sample)
      requires Valid() && i < RING_SIZE
      ensures s == if i < |Window(log)| then Window(log)[|Window(log)| - 1 - i] else Sample(0, 0, 0.0)
    {
      SlotBack(|log|, i);
      s := buffer[(writeIdx + RING_SIZE - 1 - i) % RING_SIZE];
      if i < |Window(log)| { assert s == log[|log| - 1 - i]; }
    }

    /** The newest value for the edge among the last 512 written, even across index wrap. */
    method ReadLatest(edge: nat) returns (found: bool, util: real)
      requires Valid()
      ensures Newest(Window(log), edge) == if found then Read(util) else Absent
    {
      ghost var w := Window(log);
      hide Window, Newest, Valid;
      LatestBack(w, edge, 0);
      found, util := false, 0.0;
      for i := 0 to RING_SIZE
        invariant Newest(w, edge) == Newest(w[..Back(|w|, i)], edge)
      {
        var s := Peek(i);
        LatestBack(w, edge, i);
        if s.edge == edge && s.time != 0 { return true, s.util; }
      }
      WindowFits(log);
    }

    method Snapshot(edges: nat) returns (utils: seq<real>)
      requires Valid()
      ensures |utils| == edges && forall e :: 0 <= e < edges ==> utils[e] == ValueOf(Newest(Window(log), e))
    {
      utils := seq(edges, _ => 0.0);
      for e := 0 to edges
        invariant |utils| == edges
        invariant forall i :: 0 <= i < e ==> utils[i] == ValueOf(Newest(Window(log), i))
        invariant forall i :: e <= i < edges ==> utils[i] == 0.0
      {
        var found, util := ReadLatest(e);
        if found { utils := utils[e := util]; }
      }
    }

    /** The Rust ring's snapshot: one pass, with 0.0 standing for "not seen yet". */
    method SnapshotOnePass(edges: nat) returns (utils: seq<real>)
      requires Valid()
      ensures |utils| == edges && forall e :: 0 <= e < edges ==> utils[e] == NewestNonzero(Window(log), e)
    {
      ghost var w := Window(log);
      hide Window, NewestNonzero, Valid, Passed;
      utils := seq(edges, _ => 0.0);
      PassStart(w, utils);
      for i := 0 to RING_SIZE
        invariant |utils| == edges && Passed(w, i, utils)
      {
        var s := Peek(i);
        PassStep(w, i, utils, s);
        if s.edge < edges && utils[s.edge] == 0.0 { utils := utils[s.edge := s.util]; }
      }
      WindowFits(log);
      PassEnd(w, utils);
    }

    /** One sweep of collect_loop: every edge's utilization, in edge order. */
    method Collect(utils: seq<real>, clock: nat -> nat)
      requires Valid()
      modifies this, buffer
      ensures Valid() && log == old(log) + SweepOf(utils, clock)
      ensures old(WholeSweeps(log, |utils|)) && (forall i :: clock(i) != 0) ==> WholeSweeps(log, |utils|)
    {
      for e := 0 to |utils|
        invariant Valid() && log == old(log) + SweepOf(utils, clock)[..e]
      {
        Write(e, utils[e], clock(e));
        assert SweepOf(utils, clock)[..e + 1] == SweepOf(utils, clock)[..e] + [SweepOf(utils, clock)[e]];
      }
      assert SweepOf(utils, clock)[..|utils|] == SweepOf(utils, clock);
      if old(WholeSweeps(log, |utils|)) && (forall i :: clock(i) != 0) { OneMoreSweep(old(log), utils, clock); }
    }
  }

  function Back(n: nat, i: nat): nat { if i <= n then n - i else 0 }

  lemma WindowFits(log: seq<Sample>)
    ensures |Window(log)| <= RING_SIZE
    ensures Newest([], 0) == Absent && forall edge :: Newest([], edge) == Absent
  {
  }

  /** One step of reading back. */
  lemma LatestBack(w: seq<Sample>, edge: nat, i: nat)
    ensures i == 0 ==> w[..Back(|w|, i)] == w
    ensures i < |w| ==>
      Newest(w[..|w| - i], edge)
        == if Hit(w[|w| - 1 - i], edge) then Read(w[|w| - 1 - i].util) else Newest(w[..|w| - 1 - i], edge)
  {
    if i < |w| { assert w[..|w| - i][..|w| - 1 - i] == w[..|w| - 1 - i]; }
  }

  /** After the i newest entries: an edge's value is settled, or still to be found further back. */
  predicate Passed(w: seq<Sample>, i: nat, utils: seq<real>) {
    forall e :: 0 <= e < |utils| ==>
      NewestNonzero(w, e) == if utils[e] != 0.0 then utils[e] else NewestNonzero(w[..Back(|w|, i)], e)
  }

  lemma PassStart(w: seq<Sample>, utils: seq<real>)
    requires forall e :: 0 <= e < |utils| ==> utils[e] == 0.0
    ensures Passed(w, 0, utils)
  {
    assert w[..|w|] == w;
  }

  lemma PassStep(w: seq<Sample>, i: nat, utils: seq<real>, s: Sample)
    requires Passed(w, i, utils) && s == if i < |w| then w[|w| - 1 - i] else Sample(0, 0, 0.0)
    ensures Passed(w, i + 1, if s.edge < |utils| && utils[s.edge] == 0.0 then utils[s.edge := s.util] else utils)
  {
    if i < |w| { assert w[..|w| - i][..|w| - 1 - i] == w[..|w| - 1 - i]; }
  }

  lemma PassEnd(w: seq<Sample>, utils: seq<real>)
    requires |w| <= RING_SIZE && Passed(w, RING_SIZE, utils)
    ensures forall e :: 0 <= e < |utils| ==> utils[e] == NewestNonzero(w, e)
  {
  }

  function SweepOf(utils: seq<real>, clock: nat -> nat): (r: seq<Sample>)
    ensures |r| == |utils| && forall e :: 0 <= e < |r| ==> r[e] == Sample(clock(e), e, utils[e])
  {
    seq(|utils|, e requires 0 <= e < |utils| => Sample(clock(e), e, utils[e]))
  }

  // --------------------------------------------------------------- sweeps

  /** A log written in sweep order over n edges with a clock that is never 0. */
  predicate Swept(log: seq<Sample>, n: nat)
    requires n > 0
  {
    forall i :: 0 <= i < |log| ==> log[i].edge == i % n && log[i].time != 0
  }

  /** A log of whole sweeps. */
  predicate WholeSweeps(log: seq<Sample>, n: nat) { n > 0 && |log| % n == 0 && Swept(log, n) }

  lemma OneMoreSweep(log: seq<Sample>, utils: seq<real>, clock: nat -> nat)
    requires WholeSweeps(log, |utils|) && forall i :: clock(i) != 0
    ensures WholeSweeps(log + SweepOf(utils, clock), |utils|)
  {
    var n, q, more := |utils|, |log| / |utils|, log + SweepOf(utils, clock);
    assert |log| == q * n;
    forall i | 0 <= i < |more| ensures more[i].edge == i % n && more[i].time != 0 {
      if |log| <= i {
        assert more[i] == SweepOf(utils, clock)[i - |log|];
        ModIs(q, n, i - |log|);
      }
    }
    assert |more| == (q + 1) * n + 0;
    ModIs(q + 1, n, 0);
  }

  /** How many entries ago the edge was last written. */
  function Age(length: nat, n: nat, edge: nat): nat
    requires n > 0 && edge < n <= length
  {
    (length - 1 - edge) % n
  }

  lemma AgeIs(length: nat, n: nat, edge: nat, i: nat)
    requires n > 0 && edge < n <= length && i < length
    ensures Age(length, n, edge) < length && (length - 1 - Age(length, n, edge)) % n == edge
    ensures length - 1 - i < Age(length, n, edge) ==> i % n != edge
  {
    var a := Age(length, n, edge);
    var q := (length - 1 - edge) / n;
    assert length - 1 - a == q * n + edge;
    ModIs(q, n, edge);
    if i % n == edge && length - 1 - i < a {
      var p := i / n;
      assert i == p * n + edge;
      MulOrder(q, p, n);
    }
  }

  /** The last matching entry, at k, is the newest of every suffix that holds it. */
  lemma {:induction false} NewestAt(log: seq<Sample>, from: nat, edge: nat, k: nat)
    requires from <= k < |log| && Hit(log[k], edge) && forall i :: k < i < |log| ==> !Hit(log[i], edge)
    ensures Newest(log[from..], edge) == Read(log[k].util)
  {
    var n := |log| - 1;
    assert log[from..][..n - from] == log[..n][from..];
    if k < n { NewestAt(log[..n], from, edge, k); }
  }

  lemma {:induction false} NewestNone(log: seq<Sample>, from: nat, edge: nat)
    requires from <= |log| && forall i :: from <= i < |log| ==> !Hit(log[i], edge)
    ensures Newest(log[from..], edge) == Absent
  {
    if from < |log| {
      var n := |log| - 1;
      assert log[from..][..n - from] == log[..n][from..];
      NewestNone(log[..n], from, edge);
    }
  }

  /** Once a sweep is complete, the ring knows an edge's last value exactly when fewer than 512
      entries were written after it; otherwise it does not know the edge at all. */
  lemma KnownIffYoung(log: seq<Sample>, n: nat, edge: nat)
    requires n > 0 && Swept(log, n) && edge < n <= |log|
    ensures Newest(log, edge) == Read(log[|log| - 1 - Age(|log|, n, edge)].util)
    ensures Newest(Window(log), edge) == if Age(|log|, n, edge) < RING_SIZE then Newest(log, edge) else Absent
  {
    LastWrite(log, n, edge);
    hide Swept, Age, Hit, Window;
    WindowKnows(log, edge, |log| - 1 - Age(|log|, n, edge));
  }

  /** The ring knows what was written last at position k while k is within its window. */
  lemma WindowKnows(log: seq<Sample>, edge: nat, k: nat)
    requires k < |log| && Hit(log[k], edge) && forall i :: k < i < |log| ==> !Hit(log[i], edge)
    ensures Newest(log, edge) == Read(log[k].util)
    ensures Newest(Window(log), edge) == if |log| - k <= RING_SIZE then Newest(log, edge) else Absent
  {
    var from := |log| - |Window(log)|;
    assert log[0..] == log && Window(log) == log[from..];
    hide Hit, Window, Newest;
    NewestAt(log, 0, edge, k);
    if |log| - k <= RING_SIZE {
      NewestAt(log, from, edge, k);
    } else {
      NewestNone(log, from, edge);
    }
  }

  lemma LastWrite(log: seq<Sample>, n: nat, edge: nat)
    requires n > 0 && Swept(log, n) && edge < n <= |log|
    ensures Age(|log|, n, edge) < |log|
    ensures var k := |log| - 1 - Age(|log|, n, edge);
      Hit(log[k], edge) && forall i :: k < i < |log| ==> !Hit(log[i], edge)
  {
    var k := |log| - 1 - Age(|log|, n, edge);
    forall i | 0 <= i < |log| ensures (i == k ==> i % n == edge) && (i > k ==> i % n != edge) {
      AgeIs(|log|, n, edge, i);
    }
    AgeIs(|log|, n, edge, 0);
    hide Age;
  }

  /** Snapshots of a swept log give every edge's last value if and only if all edges fit the ring. */
  lemma SnapshotFaithfulIff(log: seq<Sample>, n: nat)
    requires n > 0 && Swept(log, n) && n <= |log|
    ensures (forall e :: 0 <= e < n ==> Newest(Window(log), e) == Newest(log, e)) <==> n <= 512
  {
    forall e | 0 <= e < n
      ensures Newest(Window(log), e) == Newest(log, e) <==> Age(|log|, n, e) < 512
      ensures Age(|log|, n, e) < n
    {
      KnownIffYoung(log, n, e);
    }
    hide Swept, Newest, Window, Age;
    if n > 512 {
      var oldest := |log| % n;
      OldestAge(|log|, n);
      assert Newest(Window(log), oldest) != Newest(log, oldest);
    }
  }

  /** The edge to be written next is the one written longest ago. */
  lemma OldestAge(length: nat, n: nat)
    requires n > 0 && n <= length
    ensures length % n < n && Age(length, n, length % n) == n - 1
  {
    var q := length / n;
    assert length == q * n + length % n;
    assert q >= 1;
    assert length - 1 - length % n == (q - 1) * n + (n - 1);
    ModIs(q - 1, n, n - 1);
  }

  /** The default cluster has more edges than the ring has slots: however long telemetry runs,
      some edge reads as unknown. */
  lemma DefaultClusterOverflows(log: seq<Sample>)
    requires Swept(log, 1104) && |log| >= 1104
    ensures Cluster.EdgeCount(8, 8) == 1104
    ensures exists e :: 0 <= e < 1104 && Newest(Window(log), e) == Absent
  {
    Cluster.DefaultEdgeCount();
    OldestAge(|log|, 1104);
    KnownIffYoung(log, 1104, |log| % 1104);
  }

  /** After a complete sweep over at most 512 edges a snapshot is exactly what the sweep wrote. */
  lemma SweepIsRead(before: seq<Sample>, utils: seq<real>, clock: nat -> nat, e: nat)
    requires |utils| <= RING_SIZE && e < |utils| && forall i :: clock(i) != 0
    ensures ValueOf(Newest(Window(before + SweepOf(utils, clock)), e)) == utils[e]
  {
    var log := before + SweepOf(utils, clock);
    WindowKnows(log, e, |before| + e);
  }

  // ---------------------------------------------------- the two snapshots

  lemma {:induction false} NonzeroSeen(log: seq<Sample>, edge: nat)
    ensures NewestNonzero(log, edge) != 0.0 <==> exists i :: 0 <= i < |log| && log[i].edge == edge && log[i].util != 0.0
  {
    if log != [] {
      var n := |log| - 1;
      NonzeroSeen(log[..n], edge);
      assert forall i :: 0 <= i < n ==> log[..n][i] == log[i];
    }
  }

  /** With a running clock the two snapshots of an edge agree unless its newest value is 0 while
      an older one in the window is not. */
  lemma {:induction false} SnapshotsAgreeIff(w: seq<Sample>, edge: nat)
    requires forall i :: 0 <= i < |w| ==> w[i].time != 0
    ensures NewestNonzero(w, edge) == ValueOf(Newest(w, edge))
      <==> !(Newest(w, edge) == Read(0.0) && exists i :: 0 <= i < |w| && w[i].edge == edge && w[i].util != 0.0)
  {
    NonzeroSeen(w, edge);
    if w != [] && w[|w| - 1].edge != edge {
      var init := w[..|w| - 1];
      SnapshotsAgreeIff(init, edge);
      NonzeroSeen(init, edge);
    }
  }

  /** Two writes to one edge on which they differ: the C++ snapshot reads the newer one, 0, and the
      Rust one the value before it. */
  method SnapshotsDiffer(util: real, now: nat) returns (cpp: seq<real>, rust: seq<real>)
    requires now != 0
    ensures cpp == [0.0] && rust == [util]
  {
    var ring := new TelemetryRingBuffer();
    ring.Write(0, util, now);
    ring.Write(0, 0.0, now);
    cpp := ring.Snapshot(1);
    rust := ring.SnapshotOnePass(1);
    var first, log := [Sample(now, 0, util)], [Sample(now, 0, util), Sample(now, 0, 0.0)];
    assert ring.log == log && Window(log) == log && log[..1] == first && first[..0] == [];
    assert NewestNonzero(first, 0) == util;
    assert NewestNonzero(log, 0) == NewestNonzero(log[..1], 0);
  }

  /** They agree when no value written is 0. */
  lemma NonzeroSnapshotsAgree(w: seq<Sample>, edge: nat)
    requires forall i :: 0 <= i < |w| ==> w[i].time != 0 && w[i].util != 0.0
    ensures NewestNonzero(w, edge) == ValueOf(Newest(w, edge))
  {
    SnapshotsAgreeIff(w, edge);
    NewestIsWritten(w, edge);
  }

  lemma {:induction false} NewestIsWritten(w: seq<Sample>, edge: nat)
    ensures Newest(w, edge).Read? ==> exists i :: 0 <= i < |w| && w[i].util == Newest(w, edge).util
  {
    if w != [] && !Hit(w[|w| - 1], edge) { NewestIsWritten(w[..|w| - 1], edge); }
  }
}
