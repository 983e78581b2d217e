/**
 What a repair sequence owes to its edge list, in terms of the listed edges alone: an edge into a
 problem that no circle of edges reaches is respected, and whoever is ready is served by priority.
 */
module OrderLaws {
  import opened Sorting
  import opened Kahn
  import opened PriorityLoop

  /** Comes before: u stands at an earlier place of s than v. */
  ghost predicate Before(s: seq<int>, u: int, v: int) {
    exists i, j :: 0 <= i < j < |s| && s[i] == u && s[j] == v
  }

  /** The list asks for u before v, both being known; a pass may ignore edges from a problem to itself. */
  ghost predicate Asks(ids: set<int>, loops: bool, deps: seq<Edge>, u: int, v: int) {
    u in ids && v in ids && Edge(u, v) in deps && (loops || u != v)
  }

  ghost predicate IsChain(ids: set<int>, loops: bool, deps: seq<Edge>, p: seq<int>) {
    && p != [] && (forall i :: 0 <= i < |p| ==> p[i] in ids)
    && (forall i :: 0 <= i < |p| - 1 ==> Asks(ids, loops, deps, p[i], p[i + 1]))
  }

  ghost predicate RepeatsInto(ids: set<int>, loops: bool, deps: seq<Edge>, p: seq<int>, v: int) {
    IsChain(ids, loops, deps, p) && p[|p| - 1] == v && exists i, j :: 0 <= i < j < |p| && p[i] == p[j]
  }

  /** A chain of listed edges that meets some problem twice leads into v. */
  ghost predicate Circular(ids: set<int>, loops: bool, deps: seq<Edge>, v: int) {
    exists p :: RepeatsInto(ids, loops, deps, p, v)
  }

  ghost predicate RespectsEdges(ids: set<int>, loops: bool, deps: seq<Edge>, r: seq<int>) {
    forall u, v :: Asks(ids, loops, deps, u, v) && !Circular(ids, loops, deps, v) ==> Before(r, u, v)
  }

  /** u stands among the first i places. */
  ghost predicate Among(r: seq<int>, i: nat, u: int) {
    exists k :: 0 <= k < |r| && k < i && r[k] == u
  }

  /** All that v waits for stands among the first i places. */
  ghost predicate IsReady(ids: set<int>, loops: bool, deps: seq<Edge>, r: seq<int>, i: nat, v: int) {
    forall u :: Asks(ids, loops, deps, u, v) ==> Among(r, i, u)
  }

  lemma {:induction false} EdgesOfGraph(ids: set<int>, loops: bool, deps: seq<Edge>, u: int, v: int)
    ensures (u, v) in GraphOf(ids, loops, deps).edges <==> Asks(ids, loops, deps, u, v)
  {
    if Asks(ids, loops, deps, u, v) {
      assert Edge(u, v) in deps && Admitted(ids, loops, Edge(u, v));
    }
  }

  lemma {:induction false} CircularIffCycle(ids: set<int>, loops: bool, deps: seq<Edge>, v: int)
    ensures Circular(ids, loops, deps, v) <==> BehindCycle(GraphOf(ids, loops, deps), v)
  {
    var g := GraphOf(ids, loops, deps);
    forall p ensures IsChain(ids, loops, deps, p) <==> IsWalk(g, p) {
      forall i | 0 <= i < |p| - 1 ensures (p[i], p[i + 1]) in g.edges <==> Asks(ids, loops, deps, p[i], p[i + 1]) {
        EdgesOfGraph(ids, loops, deps, p[i], p[i + 1]);
      }
    }
    if Circular(ids, loops, deps, v) {
      var p :| RepeatsInto(ids, loops, deps, p, v);
      assert CyclicWalkInto(g, p, v);
    }
    if BehindCycle(g, v) {
      var p :| CyclicWalkInto(g, p, v);
      assert RepeatsInto(ids, loops, deps, p, v);
    }
  }

  /** Every listed edge into a problem that no circle reaches is respected, whatever the keys. */
  lemma {:induction false} ScheduleKeepsEdges(ids: set<int>, loops: bool, deps: seq<Edge>, keys: Keys, r: seq<int>)
    requires IsSchedule(GraphOf(ids, loops, deps), keys, r)
    ensures RespectsEdges(ids, loops, deps, r)
  {
    forall u, v | Asks(ids, loops, deps, u, v) && !Circular(ids, loops, deps, v) ensures Before(r, u, v) {
      EdgesOfGraph(ids, loops, deps, u, v);
      CircularIffCycle(ids, loops, deps, v);
      ScheduleRespectsEdges(GraphOf(ids, loops, deps), keys, r, u, v);
    }
  }

  /** Who is ready has no predecessor outside the first i places. */
  lemma {:induction false} ReadyIsEnabled(ids: set<int>, loops: bool, deps: seq<Edge>, r: seq<int>, i: nat, v: int)
    requires i <= |r| && v in ids && v !in r[..i] && IsReady(ids, loops, deps, r, i, v)
    ensures Enabled(GraphOf(ids, loops, deps), Elems(r[..i]), v)
  {
    forall u | u in Preds(GraphOf(ids, loops, deps), v) ensures u in r[..i] {
      EdgesOfGraph(ids, loops, deps, u, v);
      var m :| 0 <= m < i && r[m] == u;
      assert r[..i][m] == u;
    }
  }

  /** Nobody who is ready is passed over for somebody with a larger key. */
  lemma {:induction false} ScheduleServesReady(ids: set<int>, loops: bool, deps: seq<Edge>, keys: Keys, r: seq<int>,
                                               i: nat, j: nat)
    requires IsSchedule(GraphOf(ids, loops, deps), keys, r) && i < j < |r|
    requires IsReady(ids, loops, deps, r, i, r[j])
    ensures !At(keys, r[j]).Below(At(keys, r[i]))
  {
    var k: nat :| IsScheduleAt(GraphOf(ids, loops, deps), keys, r, k);
    if k <= i {
      assert r[k..][i - k] == r[i] && r[k..][j - k] == r[j];
    } else {
      assert r[j] in Elems(r) && r[j] !in r[..i];
      ReadyIsEnabled(ids, loops, deps, r, i, r[j]);
      GreedyPasses(GraphOf(ids, loops, deps), keys, r, k, i, r[j]);
    }
  }

  lemma {:induction false} GreedyPasses(g: Graph, keys: Keys, r: seq<int>, k: nat, i: nat, w: int)
    requires i < k <= |r| && IsGreedy(g, keys, r[..k]) && Enabled(g, Elems(r[..i]), w)
    ensures !At(keys, w).Below(At(keys, r[i]))
  {
    assert r[..k][..i] == r[..i] && r[..k][i] == r[i];
  }
}
