/** What the search's check against cycles lets through: it compares edge heads, and the source is
    the head of no edge yet. */
module Revisits {
  import opened Model
  import opened PathSearch

  /** The walk is at some vertex twice. */
  predicate Repeats(q: Query, p: seq<nat>)
    requires Indexes(q.edges, p)
  {
    exists i: nat, j: nat :: i < j <= |p| && SameVertex(q, p, i, j)
  }

  predicate SameVertex(q: Query, p: seq<nat>, i: nat, j: nat)
    requires Indexes(q.edges, p) && i <= |p| && j <= |p|
  {
    VertexAt(q.edges, q.src, p, i) == VertexAt(q.edges, q.src, p, j)
  }

  /** Some edge of the walk leads back to where it started. */
  predicate ComesBack(q: Query, p: seq<nat>)
    requires Indexes(q.edges, p)
  {
    exists i :: 0 <= i < |p| && q.edges[p[i]].dst == q.src
  }

  /** A walk of the search is at a vertex twice if and only if it comes back to its source. */
  lemma RevisitsIff(q: Query, p: seq<nat>)
    requires Partial(q, p)
    ensures Repeats(q, p) <==> ComesBack(q, p)
  {
    if Repeats(q, p) {
      var i: nat, j: nat :| i < j <= |p| && SameVertex(q, p, i, j);
      assert q.edges[p[j - 1]].dst == VertexAt(q.edges, q.src, p, i);
    }
    if ComesBack(q, p) {
      var i :| 0 <= i < |p| && q.edges[p[i]].dst == q.src;
      assert SameVertex(q, p, 0, i + 1);
    }
  }

  /** So the paths of an answer are simple if and only if none of them comes back to the source. */
  lemma SimpleAnswerIff(q: Query, k: nat, m: Measure, res: seq<seq<nat>>)
    requires KBest(q, k, m, res)
    ensures AllAdmissible(q, res)
    ensures (forall i :: 0 <= i < |res| ==> !Repeats(q, res[i]))
      <==> (forall i :: 0 <= i < |res| ==> !ComesBack(q, res[i]))
  {
    forall i | 0 <= i < |res| ensures Repeats(q, res[i]) <==> ComesBack(q, res[i]) {
      assert Admissible(q, res[i]);
      RevisitsIff(q, res[i]);
    }
    hide Repeats, ComesBack, Admissible;
  }

  // ------------------------------------------- what an answer can hold

  /** k distinct admissible walks are strictly lighter than w. */
  ghost predicate Outdone(q: Query, k: nat, m: Measure, w: seq<nat>)
    requires Indexes(q.edges, w)
  {
    exists lighter :: Outdoes(q, k, m, w, lighter)
  }

  ghost predicate Outdoes(q: Query, k: nat, m: Measure, w: seq<nat>, lighter: seq<seq<nat>>)
    requires Indexes(q.edges, w)
  {
    && |lighter| == k && NoRepeats(lighter) && AllAdmissible(q, lighter)
    && forall i :: 0 <= i < k ==> Weight(q, m, lighter[i]) < Weight(q, m, w)
  }

  ghost predicate Answers(q: Query, k: nat, m: Measure, w: seq<nat>, res: seq<seq<nat>>) {
    KBest(q, k, m, res) && w in res
  }

  lemma AdmissibleIndexes(q: Query)
    ensures forall w: seq<nat> :: Admissible(q, w) ==> Indexes(q.edges, w)
  {
  }

  /** An answer that holds w holds everything lighter than it. */
  lemma LighterIsIn(q: Query, k: nat, m: Measure, res: seq<seq<nat>>, w: seq<nat>, l: seq<nat>)
    requires Monotone(q, m) && KBest(q, k, m, res) && w in res && Admissible(q, l) && Admissible(q, w)
    requires Weight(q, m, l) < Weight(q, m, w)
    ensures l in res && l != w
  {
    AdmissibleIndexes(q);
    hide Admissible, Weight, Monotone;
    var i :| 0 <= i < |res| && res[i] == w;
    assert i < |res| - 1 ==> Weight(q, m, res[i]) <= Weight(q, m, res[|res| - 1]);
  }

  /** So there is no room for a walk that is outdone. */
  lemma OutdoneIsOut(q: Query, k: nat, m: Measure, res: seq<seq<nat>>, w: seq<nat>)
    requires Monotone(q, m) && KBest(q, k, m, res) && Admissible(q, w) && Outdone(q, k, m, w)
    ensures w !in res
  {
    var lighter :| Outdoes(q, k, m, w, lighter);
    KBestFacts(q, k, m, res);
    if w in res {
      forall l | l in PathSet(lighter) ensures l in PathSet(res) - {w} {
        var i :| 0 <= i < k && lighter[i] == l;
        LighterIsIn(q, k, m, res, w, lighter[i]);
      }
      PathSetCard(lighter);
      PathSetCard(res);
      Subcard(PathSet(lighter), PathSet(res) - {w});
    }
  }

  /** A walk that is not outdone can stand for the last of any answer it is missing from. */
  lemma SwapLast(q: Query, k: nat, m: Measure, res: seq<seq<nat>>, w: seq<nat>)
    requires k > 0 && Monotone(q, m) && KBest(q, k, m, res) && Admissible(q, w) && w !in res
    requires !Outdone(q, k, m, w)
    ensures |res| == k && KBest(q, k, m, res[..k - 1] + [w])
  {
    AdmissibleIndexes(q);
    hide Admissible, Weight, Monotone;
    var last, swapped := res[k - 1], res[..k - 1] + [w];
    assert forall i :: 0 <= i < k - 1 ==> swapped[i] == res[i];
    assert Weight(q, m, last) <= Weight(q, m, w);
    assert forall i :: 0 <= i < k ==> Weight(q, m, res[i]) <= Weight(q, m, last);
    assert !Outdoes(q, k, m, w, res);
    assert Weight(q, m, last) == Weight(q, m, w);
    assert AllAdmissible(q, swapped) && NoRepeats(swapped) && Ordered(q, m, swapped);
    forall v: seq<nat> | Admissible(q, v) && v !in swapped ensures Weight(q, m, w) <= Weight(q, m, v) {
      if v in res {
        var i :| 0 <= i < k && res[i] == v;
        assert swapped[i] == v || v == last;
      }
    }
  }

  /** An admissible walk is in some answer if and only if it is not outdone. */
  lemma AnsweredIff(q: Query, k: nat, m: Measure, res: seq<seq<nat>>, w: seq<nat>)
    requires Monotone(q, m) && KBest(q, k, m, res) && Admissible(q, w)
    ensures (exists r :: Answers(q, k, m, w, r)) <==> !Outdone(q, k, m, w)
  {
    AdmissibleIndexes(q);
    hide KBest, Admissible, Monotone, Outdone;
    if Outdone(q, k, m, w) {
      forall r | KBest(q, k, m, r) ensures !Answers(q, k, m, w, r) { OutdoneIsOut(q, k, m, r, w); }
    } else if w in res {
      assert Answers(q, k, m, w, res);
    } else {
      if k == 0 { NothingAsked(q, m, w); }
      SwapLast(q, k, m, res, w);
      assert Answers(q, k, m, w, res[..k - 1] + [w]);
    }
  }

  lemma NothingAsked(q: Query, m: Measure, w: seq<nat>)
    requires Indexes(q.edges, w)
    ensures Outdone(q, 0, m, w)
  {
    assert Outdoes(q, 0, m, w, []);
  }

  ghost predicate AllSimple(q: Query, res: seq<seq<nat>>)
    requires AllAdmissible(q, res)
  {
    forall i :: 0 <= i < |res| ==> !Repeats(q, res[i])
  }

  /** When answers are simple, read off the query: every answer is, if and only if each admissible
      walk that comes back to its source is outdone by k lighter ones. */
  lemma SimpleIff(q: Query, k: nat, m: Measure, res: seq<seq<nat>>)
    requires Monotone(q, m) && KBest(q, k, m, res)
    ensures (forall r :: KBest(q, k, m, r) ==> AllAdmissible(q, r) && AllSimple(q, r))
      <==> (forall w: seq<nat> :: Admissible(q, w) && ComesBack(q, w) ==> Outdone(q, k, m, w))
  {
    AdmissibleIndexes(q);
    hide KBest, Monotone, Outdone, Admissible, Repeats, ComesBack;
    if forall w: seq<nat> :: Admissible(q, w) && ComesBack(q, w) ==> Outdone(q, k, m, w) {
      forall r | KBest(q, k, m, r) ensures AllAdmissible(q, r) && AllSimple(q, r) {
        SimpleAnswerIff(q, k, m, r);
        forall i | 0 <= i < |r| ensures !ComesBack(q, r[i]) {
          if ComesBack(q, r[i]) { OutdoneIsOut(q, k, m, r, r[i]); }
        }
      }
    } else {
      var w: seq<nat> :| Admissible(q, w) && ComesBack(q, w) && !Outdone(q, k, m, w);
      AnsweredIff(q, k, m, res, w);
      var r :| Answers(q, k, m, w, r);
      SimpleAnswerIff(q, k, m, r);
      var i :| 0 <= i < |r| && r[i] == w;
    }
  }

  // -------------------------------------------------- an answer that revisits

  /** There and back between 0 and 1, and from 0 on to 2. */
  function Detour(attrs: EdgeAttributes): Query {
    Query([GraphEdge(0, 1, attrs), GraphEdge(1, 0, attrs), GraphEdge(0, 2, attrs)], 0, 2, 3)
  }

  lemma DetourWalks(attrs: EdgeAttributes, w: seq<nat>)
    ensures Admissible(Detour(attrs), w) <==> w == [2] || w == [0, 1, 2]
  {
    var q := Detour(attrs);
    assert Admissible(q, [2]) by { assert VertexAt(q.edges, 0, [2], 1) == 2; }
    assert Admissible(q, [0, 1, 2]) by {
      assert VertexAt(q.edges, 0, [0, 1, 2], 1) == 1 && VertexAt(q.edges, 0, [0, 1, 2], 2) == 0;
      assert VertexAt(q.edges, 0, [0, 1, 2], 3) == 2;
    }
    if Admissible(q, w) { DetourOnly(attrs, w); }
  }

  lemma DetourOnly(attrs: EdgeAttributes, w: seq<nat>)
    requires Admissible(Detour(attrs), w)
    ensures w == [2] || w == [0, 1, 2]
  {
    var q := Detour(attrs);
    assert 1 <= |w| <= 3;
    assert q.edges[w[0]].src == VertexAt(q.edges, 0, w, 0) == 0;
    if w[0] == 2 {
      assert VertexAt(q.edges, 0, w, 1) == 2;
      assert w == [2];
    } else {
      assert VertexAt(q.edges, 0, w, 1) == 1 && |w| > 1;
      assert q.edges[w[1]].src == VertexAt(q.edges, 0, w, 1) && w[1] == 1;
      assert VertexAt(q.edges, 0, w, 2) == 0 && |w| > 2;
      assert q.edges[w[2]].src == VertexAt(q.edges, 0, w, 2);
      assert VertexAt(q.edges, 0, w, 3) == 2 && w[2] == 2;
      assert w == [0, 1, 2];
    }
  }

  /** Asked for two paths or more, the search answers with one that is at its source twice. */
  lemma AnswerRevisits(attrs: EdgeAttributes, k: nat, m: Measure, res: seq<seq<nat>>)
    requires k >= 2 && KBest(Detour(attrs), k, m, res)
    ensures [0, 1, 2] in res && Admissible(Detour(attrs), [0, 1, 2]) && Repeats(Detour(attrs), [0, 1, 2])
  {
    var q := Detour(attrs);
    DetourWalks(attrs, [0, 1, 2]);
    assert SameVertex(q, [0, 1, 2], 0, 2);
    hide Admissible, Detour;
    if [0, 1, 2] !in res {
      DetourWalks(attrs, res[0]);
      DetourWalks(attrs, res[1]);
    }
  }
}
