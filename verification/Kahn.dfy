/**
 Priority topological scheduling in the style of Kahn, on graphs that may contain cycles
 because their edges come from a language model.

 A run emits nodes whose predecessors have all been emitted. What a run can emit does not
 depend on how ties are broken; what it can never emit is exactly the part of the graph
 that a cycle reaches. A schedule is a greedy run followed by the nodes left over.
 */
module Kahn {
  import opened Sorting

  datatype Graph = Graph(nodes: set<int>, edges: set<(int, int)>)

  ghost function Preds(g: Graph, v: int): set<int> {
    set u | u in g.nodes && (u, v) in g.edges
  }

  ghost predicate Enabled(g: Graph, done: set<int>, v: int) {
    v in g.nodes && v !in done && Preds(g, v) <= done
  }

  /** s lists nodes in an order in which each one is enabled when its turn comes. */
  ghost predicate IsRun(g: Graph, s: seq<int>) {
    forall i :: 0 <= i < |s| ==> Enabled(g, Elems(s[..i]), s[i])
  }

  ghost predicate Stuck(g: Graph, done: set<int>) {
    forall v :: v in g.nodes ==> !Enabled(g, done, v)
  }

  /** A run that never passes over an enabled node with a smaller key. */
  ghost predicate IsGreedy(g: Graph, keys: Keys, s: seq<int>) {
    && IsRun(g, s)
    && forall i, w :: 0 <= i < |s| && w in g.nodes && Enabled(g, Elems(s[..i]), w)
                      ==> !At(keys, w).Below(At(keys, s[i]))
  }

  /** r is a greedy run of length k that got stuck, then the nodes left over in key order. */
  ghost predicate IsScheduleAt(g: Graph, keys: Keys, r: seq<int>, k: nat) {
    && k <= |r|
    && IsGreedy(g, keys, r[..k])
    && Stuck(g, Elems(r[..k]))
    && Ordered(keys, r[k..])
    && Distinct(r)
    && Elems(r) == g.nodes
  }

  ghost predicate IsSchedule(g: Graph, keys: Keys, r: seq<int>) {
    exists k: nat :: IsScheduleAt(g, keys, r, k)
  }

  // ---------- Runs ----------

  lemma {:induction false} RunPrefix(g: Graph, s: seq<int>, k: nat)
    requires IsRun(g, s) && k <= |s|
    ensures IsRun(g, s[..k])
  {
    forall i | 0 <= i < k ensures Enabled(g, Elems(s[..k][..i]), s[..k][i]) {
      assert s[..k][..i] == s[..i];
    }
  }

  lemma {:induction false} RunFacts(g: Graph, s: seq<int>)
    requires IsRun(g, s)
    ensures Distinct(s)
    ensures Elems(s) <= g.nodes
  {
    forall i, j | 0 <= i < j < |s| ensures s[i] != s[j] {
      assert s[i] in s[..j] by { assert s[..j][i] == s[i]; }
    }
  }

  /** Emitted nodes come after all their predecessors: every edge into a run is respected. */
  lemma {:induction false} RunRespectsEdges(g: Graph, s: seq<int>, u: int, j: nat)
    requires IsRun(g, s) && j < |s|
    requires u in g.nodes && (u, s[j]) in g.edges
    ensures exists i :: 0 <= i < j && s[i] == u
  {
    assert u in Preds(g, s[j]);
    assert u in s[..j];
  }

  lemma {:induction false} RunExtend(g: Graph, keys: Keys, s: seq<int>, v: int)
    requires IsGreedy(g, keys, s)
    requires Enabled(g, Elems(s), v)
    requires forall w :: w in g.nodes && Enabled(g, Elems(s), w) ==> !At(keys, w).Below(At(keys, v))
    ensures IsGreedy(g, keys, s + [v])
  {
    var t := s + [v];
    forall i | 0 <= i < |t| ensures Enabled(g, Elems(t[..i]), t[i]) {
      assert t[..i] == s[..i];
      if i == |s| { assert s[..i] == s; }
    }
    forall i, w | 0 <= i < |t| && w in g.nodes && Enabled(g, Elems(t[..i]), w)
      ensures !At(keys, w).Below(At(keys, t[i]))
    {
      assert t[..i] == s[..i];
      if i == |s| { assert s[..i] == s; }
    }
  }

  // ---------- What a run can emit ----------

  /** Every run, however it breaks ties, stays inside what a stuck run has emitted. */
  lemma {:induction false} RunInsideStuck(g: Graph, s: seq<int>, done: set<int>)
    requires IsRun(g, s) && Stuck(g, done)
    ensures Elems(s) <= done
  {
    if s != [] {
      var n := |s| - 1;
      RunPrefix(g, s, n);
      RunInsideStuck(g, s[..n], done);
      assert Enabled(g, Elems(s[..n]), s[n]);
      assert !Enabled(g, done, s[n]);
      assert s == s[..n] + [s[n]];
    }
  }

  /** Confluence: two runs that got stuck have emitted the same nodes. */
  lemma {:induction false} Confluence(g: Graph, s: seq<int>, t: seq<int>)
    requires IsRun(g, s) && Stuck(g, Elems(s))
    requires IsRun(g, t) && Stuck(g, Elems(t))
    ensures Elems(s) == Elems(t) && |s| == |t|
  {
    RunInsideStuck(g, s, Elems(t));
    RunInsideStuck(g, t, Elems(s));
    RunFacts(g, s);
    RunFacts(g, t);
    CountDistinct(s);
    CountDistinct(t);
  }

  /** A set of nodes each of which waits for another member of the set. */
  ghost predicate Deadlocked(g: Graph, waiting: set<int>) {
    && waiting <= g.nodes
    && forall v :: v in waiting ==> Preds(g, v) * waiting != {}
  }

  lemma {:induction false} RunAvoidsDeadlock(g: Graph, s: seq<int>, waiting: set<int>)
    requires IsRun(g, s) && Deadlocked(g, waiting)
    ensures Elems(s) !! waiting
  {
    if s != [] {
      var n := |s| - 1;
      RunPrefix(g, s, n);
      RunAvoidsDeadlock(g, s[..n], waiting);
      assert Enabled(g, Elems(s[..n]), s[n]);
      assert s == s[..n] + [s[n]];
    }
  }

  /** The nodes left over form the largest deadlocked set. */
  lemma {:induction false} LeftoverIsLargestDeadlock(g: Graph, s: seq<int>, waiting: set<int>)
    requires IsRun(g, s) && Stuck(g, Elems(s))
    ensures Deadlocked(g, g.nodes - Elems(s))
    ensures Deadlocked(g, waiting) ==> waiting <= g.nodes - Elems(s)
  {
    var left := g.nodes - Elems(s);
    forall v | v in left ensures Preds(g, v) * left != {} {
      assert !Enabled(g, Elems(s), v);
      var u := PickMissing(Preds(g, v), Elems(s));
      assert u in Preds(g, v) * left;
    }
    if Deadlocked(g, waiting) {
      RunAvoidsDeadlock(g, s, waiting);
    }
  }

  // ---------- Cycles ----------

  ghost predicate IsWalk(g: Graph, p: seq<int>) {
    && p != []
    && (forall i :: 0 <= i < |p| ==> p[i] in g.nodes)
    && (forall i :: 0 <= i < |p| - 1 ==> (p[i], p[i + 1]) in g.edges)
  }

  ghost predicate CyclicWalkInto(g: Graph, p: seq<int>, v: int) {
    IsWalk(g, p) && p[|p| - 1] == v && !Distinct(p)
  }

  /** Some walk into v passes twice through the same node: v lies on or behind a cycle. */
  ghost predicate BehindCycle(g: Graph, v: int) {
    exists p :: CyclicWalkInto(g, p, v)
  }

  ghost predicate Acyclic(g: Graph) {
    forall v :: v in g.nodes ==> !BehindCycle(g, v)
  }

  /** From the first of two visits to one node onwards, a walk is deadlocked. */
  lemma {:induction false} WalkDeadlocks(g: Graph, p: seq<int>, i: nat, j: nat)
    requires IsWalk(g, p) && i < j < |p| && p[i] == p[j]
    ensures Deadlocked(g, Elems(p[i..]))
  {
    var waiting := Elems(p[i..]);
    forall v | v in waiting ensures Preds(g, v) * waiting != {} {
      var k :| 0 <= k < |p[i..]| && p[i..][k] == v;
      var m := if k == 0 then j else i + k;
      assert p[m] == v && (p[m - 1], p[m]) in g.edges;
      assert p[m - 1] == p[i..][m - 1 - i];
      assert p[m - 1] in Preds(g, v) * waiting;
    }
  }

  /** Inside a deadlocked set one can walk backwards for as long as one likes. */
  lemma {:induction false} WalkBack(g: Graph, waiting: set<int>, v: int, n: nat) returns (p: seq<int>)
    requires Deadlocked(g, waiting) && v in waiting
    ensures |p| == n + 1 && IsWalk(g, p) && p[n] == v && Elems(p) <= waiting
    decreases n
  {
    if n == 0 {
      p := [v];
    } else {
      var u := Pick(Preds(g, v) * waiting);
      var q := WalkBack(g, waiting, u, n - 1);
      p := q + [v];
    }
  }

  /** A run that got stuck has emitted exactly the nodes that no cycle reaches. */
  lemma {:induction false} EmittedIffNoCycleBehind(g: Graph, s: seq<int>, v: int)
    requires IsRun(g, s) && Stuck(g, Elems(s)) && v in g.nodes
    ensures v in Elems(s) <==> !BehindCycle(g, v)
  {
    var left := g.nodes - Elems(s);
    LeftoverIsLargestDeadlock(g, s, left);
    if v in left {
      var p := WalkBack(g, left, v, |left|);
      if Distinct(p) {
        CountDistinct(p);
        SubsetSize(Elems(p), left);
      }
      assert CyclicWalkInto(g, p, v);
    } else if BehindCycle(g, v) {
      var p :| CyclicWalkInto(g, p, v);
      var i, j :| 0 <= i < j < |p| && p[i] == p[j];
      WalkDeadlocks(g, p, i, j);
      assert p[i..][|p| - 1 - i] == v;
      RunAvoidsDeadlock(g, s, Elems(p[i..]));
    }
  }

  // ---------- Schedules ----------

  /** How many nodes of a schedule the main loop emits: those that no cycle reaches. */
  ghost function Emittable(g: Graph): set<int> {
    set v | v in g.nodes && !BehindCycle(g, v)
  }

  lemma {:induction false} ScheduleSplit(g: Graph, keys: Keys, r: seq<int>, k: nat)
    requires IsScheduleAt(g, keys, r, k)
    ensures Elems(r[..k]) == Emittable(g)
    ensures k == |Emittable(g)|
    ensures Elems(r[k..]) == g.nodes - Emittable(g)
  {
    forall v | v in g.nodes ensures v in Elems(r[..k]) <==> v in Emittable(g) {
      EmittedIffNoCycleBehind(g, r[..k], v);
    }
    RunFacts(g, r[..k]);
    CountDistinct(r[..k]);
    assert r == r[..k] + r[k..];
    forall v ensures v in r[k..] <==> v in r && v !in r[..k] {
      assert forall i, j :: 0 <= i < k <= j < |r| ==> r[i] != r[j];
    }
  }

  /** In every schedule, a node that no cycle reaches comes after all its predecessors. */
  lemma {:induction false} ScheduleRespectsEdges(g: Graph, keys: Keys, r: seq<int>, u: int, v: int)
    requires IsSchedule(g, keys, r)
    requires u in g.nodes && v in Emittable(g) && (u, v) in g.edges
    ensures exists i, j :: 0 <= i < j < |r| && r[i] == u && r[j] == v
  {
    var k: nat :| IsScheduleAt(g, keys, r, k);
    ScheduleSplit(g, keys, r, k);
    var s := r[..k];
    assert v in Elems(s);
    var j :| 0 <= j < |s| && s[j] == v;
    RunRespectsEdges(g, s, u, j);
    var i :| 0 <= i < j && s[i] == u;
    assert r[i] == u && r[j] == v;
  }

  lemma {:induction false} GreedyAgree(g: Graph, keys: Keys, s: seq<int>, t: seq<int>, k: nat)
    requires NoTies(keys, g.nodes)
    requires IsGreedy(g, keys, s) && IsGreedy(g, keys, t)
    requires k <= |s| && k <= |t|
    ensures s[..k] == t[..k]
  {
    if k > 0 {
      GreedyAgree(g, keys, s, t, k - 1);
      assert Enabled(g, Elems(s[..k - 1]), s[k - 1]) && Enabled(g, Elems(t[..k - 1]), t[k - 1]);
      assert s[k - 1] == t[k - 1];
      assert s[..k] == s[..k - 1] + [s[k - 1]] && t[..k] == t[..k - 1] + [t[k - 1]];
    }
  }

  /** A graph and a key without ties have one schedule. */
  lemma {:induction false} ScheduleUnique(g: Graph, keys: Keys, r: seq<int>, r': seq<int>)
    requires NoTies(keys, g.nodes)
    requires IsSchedule(g, keys, r) && IsSchedule(g, keys, r')
    ensures r == r'
  {
    var k: nat :| IsScheduleAt(g, keys, r, k);
    var k': nat :| IsScheduleAt(g, keys, r', k');
    ScheduleSplit(g, keys, r, k);
    ScheduleSplit(g, keys, r', k');
    ScheduleUniqueAt(g, keys, r, r', k);
  }

  lemma {:induction false} ScheduleUniqueAt(g: Graph, keys: Keys, r: seq<int>, r': seq<int>, k: nat)
    requires NoTies(keys, g.nodes)
    requires IsScheduleAt(g, keys, r, k) && IsScheduleAt(g, keys, r', k)
    requires Elems(r[k..]) == Elems(r'[k..]) <= g.nodes
    ensures r == r'
  {
    assert r[..k] == r'[..k] by {
      GreedyAgree(g, keys, r[..k], r'[..k], k);
      assert r[..k][..k] == r[..k] && r'[..k][..k] == r'[..k];
    }
    assert r[k..] == r'[k..] by {
      OrderedUnique(keys, r[k..], r'[k..]);
    }
    assert r == r[..k] + r[k..] && r' == r'[..k] + r'[k..];
  }

  /** s comes before t when, at the first place where they differ, s has the smaller key. */
  ghost predicate LexBefore(keys: Keys, s: seq<int>, t: seq<int>) {
    exists i :: 0 <= i < |s| && i < |t| && s[..i] == t[..i] && At(keys, s[i]).Below(At(keys, t[i]))
  }

  lemma {:induction false} FirstDifference(s: seq<int>, t: seq<int>) returns (i: nat)
    requires |s| == |t| && s != t
    ensures i < |s| && s[..i] == t[..i] && s[i] != t[i]
  {
    i := 0;
    while i < |s| && s[i] == t[i]
      invariant i <= |s| && s[..i] == t[..i]
    {
      assert s[..i + 1] == s[..i] + [s[i]] && t[..i + 1] == t[..i] + [t[i]];
      i := i + 1;
    }
    assert s == s[..|s|] && t == t[..|t|];
  }

  /** On every graph a schedule's main loop is the least of all maximal runs. */
  lemma {:induction false} GreedyIsLeastRun(g: Graph, keys: Keys, r: seq<int>, k: nat, t: seq<int>)
    requires NoTies(keys, g.nodes)
    requires IsScheduleAt(g, keys, r, k)
    requires IsRun(g, t) && Stuck(g, Elems(t))
    ensures t == r[..k] || LexBefore(keys, r[..k], t)
  {
    var s := r[..k];
    Confluence(g, s, t);
    if t != s {
      var i := FirstDifference(s, t);
      assert Enabled(g, Elems(t[..i]), t[i]) && Enabled(g, Elems(s[..i]), s[i]);
      assert !At(keys, t[i]).Below(At(keys, s[i]));
      assert At(keys, s[i]) != At(keys, t[i]);
    }
  }

  /** A run through every node: a topological order. */
  ghost predicate IsTopologicalOrder(g: Graph, t: seq<int>) {
    IsRun(g, t) && Elems(t) == g.nodes
  }

  /** On an acyclic graph the schedule is the least topological order. */
  lemma {:induction false} LeastTopologicalOrder(g: Graph, keys: Keys, r: seq<int>, t: seq<int>)
    requires NoTies(keys, g.nodes) && Acyclic(g)
    requires IsSchedule(g, keys, r)
    ensures IsTopologicalOrder(g, r)
    ensures IsTopologicalOrder(g, t) ==> t == r || LexBefore(keys, r, t)
  {
    var k: nat :| IsScheduleAt(g, keys, r, k);
    ScheduleSplit(g, keys, r, k);
    assert Emittable(g) == g.nodes;
    assert |r| == k by { CountDistinct(r); }
    assert r == r[..k];
    if IsTopologicalOrder(g, t) {
      GreedyIsLeastRun(g, keys, r, k, t);
    }
  }

  /** Every topological order of a graph certifies that it has no cycle. */
  lemma {:induction false} TopologicalOrderIffAcyclic(g: Graph, keys: Keys, r: seq<int>)
    requires IsSchedule(g, keys, r)
    ensures IsTopologicalOrder(g, r) <==> Acyclic(g)
  {
    var k: nat :| IsScheduleAt(g, keys, r, k);
    ScheduleSplit(g, keys, r, k);
    if Acyclic(g) {
      assert Emittable(g) == g.nodes;
      CountDistinct(r);
      assert r == r[..k];
    } else if IsTopologicalOrder(g, r) {
      forall v | v in g.nodes ensures !BehindCycle(g, v) {
        assert Stuck(g, Elems(r));
        EmittedIffNoCycleBehind(g, r, v);
      }
    }
  }

  /** Edges that only ever lead from a smaller to a larger number cannot close a cycle. */
  lemma {:induction false} IncreasingIsAcyclic(g: Graph)
    requires forall u, v :: (u, v) in g.edges ==> u < v
    ensures Acyclic(g)
  {
    forall v | v in g.nodes ensures !BehindCycle(g, v) {
      if BehindCycle(g, v) {
        var p :| CyclicWalkInto(g, p, v);
        var i, j :| 0 <= i < j < |p| && p[i] == p[j];
        WalkIncreases(g, p, i, j);
        assert false;
      }
    }
  }

  lemma {:induction false} WalkIncreases(g: Graph, p: seq<int>, i: nat, j: nat)
    requires forall u, v :: (u, v) in g.edges ==> u < v
    requires IsWalk(g, p) && i < j < |p|
    ensures p[i] < p[j]
    decreases j
  {
    assert (p[j - 1], p[j]) in g.edges;
    if i < j - 1 {
      WalkIncreases(g, p, i, j - 1);
    }
  }
}
