/**
 Similarity clustering: a stack search that collects the connected components of the match
 relation. How two problems are judged to match is an arbitrary input.
 */
module Clusters {
  import opened Basics
  import opened Sorting

  /** Pairs are judged once, with the smaller index first. */
  predicate Linked(similar: (int, int) -> bool, u: int, v: int) {
    if u < v then similar(u, v) else u != v && similar(v, u)
  }

  ghost predicate IsWalk(n: nat, similar: (int, int) -> bool, p: seq<int>) {
    && p != []
    && (forall i :: 0 <= i < |p| ==> 0 <= p[i] < n)
    && (forall i :: 0 < i < |p| ==> Linked(similar, p[i - 1], p[i]))
  }

  ghost predicate Joins(n: nat, similar: (int, int) -> bool, p: seq<int>, u: int, v: int) {
    IsWalk(n, similar, p) && p[0] == u && p[|p| - 1] == v
  }

  /** Some chain of pairwise matches leads from u to v. */
  ghost predicate Connected(n: nat, similar: (int, int) -> bool, u: int, v: int) {
    exists p :: Joins(n, similar, p, u, v)
  }

  lemma {:induction false} ConnectedSelf(n: nat, similar: (int, int) -> bool, u: int)
    requires 0 <= u < n
    ensures Connected(n, similar, u, u)
  {
    assert Joins(n, similar, [u], u, u);
  }

  lemma {:induction false} ConnectedStep(n: nat, similar: (int, int) -> bool, u: int, v: int, w: int)
    requires Connected(n, similar, u, v) && 0 <= w < n && Linked(similar, v, w)
    ensures Connected(n, similar, u, w)
  {
    var p :| Joins(n, similar, p, u, v);
    assert Joins(n, similar, p + [w], u, w);
  }

  lemma {:induction false} ConnectedBack(n: nat, similar: (int, int) -> bool, u: int, v: int)
    requires Connected(n, similar, u, v)
    ensures Connected(n, similar, v, u)
  {
    var p :| Joins(n, similar, p, u, v);
    var q := seq(|p|, i requires 0 <= i < |p| => p[|p| - 1 - i]);
    forall i | 0 < i < |q| ensures Linked(similar, q[i - 1], q[i]) {
      var j := |p| - i;
      assert q[i - 1] == p[j] && q[i] == p[j - 1];
      assert Linked(similar, p[j - 1], p[j]);
    }
    assert Joins(n, similar, q, v, u);
  }

  lemma {:induction false} ConnectedJoin(n: nat, similar: (int, int) -> bool, u: int, v: int, q: seq<int>, w: int)
    requires Connected(n, similar, u, v) && Joins(n, similar, q, v, w)
    ensures Connected(n, similar, u, w)
    decreases |q|
  {
    if |q| > 1 {
      var k := |q| - 1;
      assert Joins(n, similar, q[..k], v, q[k - 1]);
      ConnectedJoin(n, similar, u, v, q[..k], q[k - 1]);
      assert Linked(similar, q[k - 1], q[k]);
      ConnectedStep(n, similar, u, q[k - 1], w);
    }
  }

  /** Two nodes reached from a common one are connected to each other. */
  lemma {:induction false} ConnectedThrough(n: nat, similar: (int, int) -> bool, s: int, u: int, v: int)
    requires Connected(n, similar, s, u) && Connected(n, similar, s, v)
    ensures Connected(n, similar, u, v)
  {
    ConnectedBack(n, similar, s, u);
    var q :| Joins(n, similar, q, s, v);
    ConnectedJoin(n, similar, u, s, q, v);
  }

  /** A set that holds every match of its members. */
  ghost predicate Closed(n: nat, similar: (int, int) -> bool, s: set<int>) {
    forall u, v :: u in s && 0 <= v < n && Linked(similar, u, v) ==> v in s
  }

  lemma {:induction false} WalkStaysInside(n: nat, similar: (int, int) -> bool, s: set<int>, p: seq<int>, i: nat)
    requires Closed(n, similar, s) && IsWalk(n, similar, p) && p[0] in s && i < |p|
    ensures p[i] in s
  {
    if i > 0 {
      WalkStaysInside(n, similar, s, p, i - 1);
      assert Linked(similar, p[i - 1], p[i]);
    }
  }

  lemma {:induction false} ConnectedInside(n: nat, similar: (int, int) -> bool, s: set<int>, u: int, v: int)
    requires Closed(n, similar, s) && u in s && Connected(n, similar, u, v)
    ensures v in s
  {
    var p :| Joins(n, similar, p, u, v);
    WalkStaysInside(n, similar, s, p, |p| - 1);
  }

  // ---------- Adjacency ----------

  ghost predicate Represents(n: nat, similar: (int, int) -> bool, adjacency: seq<set<int>>) {
    && |adjacency| == n
    && forall u, v :: 0 <= u < n ==> (v in adjacency[u] <==> 0 <= v < n && Linked(similar, u, v))
  }

  /** Pairs with left below `left`, or equal to it and right below `right`, have been judged. */
  ghost predicate Judged(u: int, v: int, left: int, right: int) {
    var a, b := if u < v then u else v, if u < v then v else u;
    a < left || (a == left && b < right)
  }

  method BuildAdjacency(n: nat, similar: (int, int) -> bool) returns (adjacency: seq<set<int>>)
    ensures Represents(n, similar, adjacency)
  {
    adjacency := seq(n, i => {});
    for left := 0 to n
      invariant |adjacency| == n
      invariant forall u, v :: 0 <= u < n ==>
                                 (v in adjacency[u] <==> 0 <= v < n && Linked(similar, u, v) && Judged(u, v, left, 0))
    {
      for right := left + 1 to n
        invariant |adjacency| == n
        invariant forall u, v :: 0 <= u < n ==>
                                   (v in adjacency[u] <==>
                                    0 <= v < n && Linked(similar, u, v) && Judged(u, v, left, right))
      {
        if similar(left, right) {
          adjacency := adjacency[left := adjacency[left] + {right}];
          adjacency := adjacency[right := adjacency[right] + {left}];
        }
      }
    }
  }

  // ---------- One component ----------

  function Range(n: nat): seq<int> {
    seq(n, i => i)
  }

  function Ascending(n: nat): Keys {
    map v | v in Range(n) :: Key(v, 0, 0)
  }

  function Falling(n: nat): Keys {
    map v | v in Range(n) :: Key(-v, 0, 0)
  }

  lemma {:induction false} InRange(n: nat, v: int)
    ensures v in Range(n) <==> 0 <= v < n
  {
    if 0 <= v < n {
      assert Range(n)[v] == v;
    }
  }

  /** Nodes found so far, matches of popped nodes still to be looked at, and what was seen. */
  ghost predicate Searching(n: nat, similar: (int, int) -> bool, start: int, before: set<int>,
                            component: seq<int>, stack: seq<int>, pending: seq<int>, visited: set<int>) {
    && Distinct(component + stack)
    && (forall v :: v in visited <==> v in before || v in component || v in stack)
    && (forall v :: v in before ==> v !in component && v !in stack)
    && (forall v :: v in component || v in stack ==> 0 <= v < n && Connected(n, similar, start, v))
    && (forall u, v :: u in component && 0 <= v < n && Linked(similar, u, v) ==> v in visited || v in pending)
  }

  lemma {:induction false} AfterPop(n: nat, similar: (int, int) -> bool, start: int, before: set<int>,
                 component: seq<int>, stack: seq<int>, visited: set<int>, neighbors: seq<int>)
    requires Searching(n, similar, start, before, component, stack, [], visited) && stack != []
    requires forall v :: v in neighbors <==> 0 <= v < n && Linked(similar, stack[|stack| - 1], v)
    ensures Searching(n, similar, start, before, component + [stack[|stack| - 1]], stack[..|stack| - 1],
                      neighbors, visited)
  {
    var k := |stack| - 1;
    var node, rest, found := stack[k], stack[..k], component + [stack[k]];
    assert stack == rest + [node];
    SwapLast(component, rest, node);
    MoveLast(component, stack);
    assert Distinct(found + rest);
    assert forall v :: v in visited <==> v in before || v in found || v in rest;
    assert forall v :: v in before ==> v !in found && v !in rest;
    assert forall v :: v in found || v in rest ==> 0 <= v < n && Connected(n, similar, start, v);
    forall u, v | u in found && 0 <= v < n && Linked(similar, u, v) ensures v in visited || v in neighbors {
      if u != node {
        assert u in component;
      }
    }
  }

  lemma {:induction false} MoveLast<T>(a: seq<T>, b: seq<T>)
    requires b != []
    ensures forall v :: v in a || v in b <==> v in a + [b[|b| - 1]] || v in b[..|b| - 1]
    ensures forall v :: v in a + [b[|b| - 1]] ==> v in a || v in b
    ensures forall v :: v in b[..|b| - 1] ==> v in b
  {
    var k := |b| - 1;
    assert b == b[..k] + [b[k]];
  }

  lemma {:induction false} SwapLast<T(!new)>(a: seq<T>, b: seq<T>, x: T)
    requires Distinct(a + (b + [x]))
    ensures Distinct((a + [x]) + b)
  {
    var s, t := a + (b + [x]), (a + [x]) + b;
    assert forall v :: multiset(s)[v] == multiset(t)[v];
    SameMembers(s, t);
  }

  lemma {:induction false} AfterPush(n: nat, similar: (int, int) -> bool, start: int, before: set<int>,
                  component: seq<int>, stack: seq<int>, visited: set<int>, node: int, v: int, rest: seq<int>)
    requires Searching(n, similar, start, before, component, stack, [v] + rest, visited)
    requires node in component && 0 <= v < n && Linked(similar, node, v)
    ensures if v in visited then Searching(n, similar, start, before, component, stack, rest, visited)
            else Searching(n, similar, start, before, component, stack + [v], rest, visited + {v})
  {
    assert forall w :: w in [v] + rest <==> w == v || w in rest;
    if v !in visited {
      ConnectedStep(n, similar, start, node, v);
      assert component + (stack + [v]) == (component + stack) + [v];
      assert v !in component + stack;
    }
  }

  lemma {:induction false} AfterSearch(n: nat, similar: (int, int) -> bool, start: int, before: set<int>,
                                       component: seq<int>,
                    visited: set<int>)
    requires Closed(n, similar, before) && start in component
    requires forall v :: v in before ==> 0 <= v < n
    requires Searching(n, similar, start, before, component, [], [], visited)
    ensures Closed(n, similar, visited) && visited == before + Elems(component)
    ensures forall v :: v in component <==> Connected(n, similar, start, v)
  {
    forall v ensures v in visited <==> v in before + Elems(component) {
      assert v in component <==> v in Elems(component);
    }
    forall u, v | u in Elems(component) && 0 <= v < n && Linked(similar, u, v) ensures v in Elems(component) {
      assert u in component;
      assert v in visited;
      assert Linked(similar, v, u);
    }
    forall v | Connected(n, similar, start, v) ensures v in component {
      ConnectedInside(n, similar, Elems(component), start, v);
    }
  }

  /** The inner loop: matches not seen before go onto the stack. */
  method PushNeighbors(n: nat, ghost similar: (int, int) -> bool, ghost start: int, ghost before: set<int>,
                       ghost component: seq<int>, ghost node: int, neighbors: seq<int>, stack0: seq<int>,
                       visited0: set<int>)
    returns (stack: seq<int>, visited: set<int>)
    requires Searching(n, similar, start, before, component, stack0, neighbors, visited0)
    requires node in component && forall v :: v in neighbors ==> 0 <= v < n && Linked(similar, node, v)
    ensures Searching(n, similar, start, before, component, stack, [], visited)
    ensures visited0 <= visited
  {
    stack, visited := stack0, visited0;
    assert neighbors[0..] == neighbors;
    for j := 0 to |neighbors|
      invariant Searching(n, similar, start, before, component, stack, neighbors[j..], visited)
      invariant visited0 <= visited
    {
      var v := neighbors[j];
      assert v in neighbors;
      assert neighbors[j..] == [v] + neighbors[j + 1..];
      AfterPush(n, similar, start, before, component, stack, visited, node, v, neighbors[j + 1..]);
      if v !in visited {
        visited, stack := visited + {v}, stack + [v];
      }
    }
    assert neighbors[|neighbors|..] == [];
  }

  method Neighbors(n: nat, ghost similar: (int, int) -> bool, adjacency: seq<set<int>>, node: int) returns (r: seq<int>)
    requires Represents(n, similar, adjacency) && 0 <= node < n
    ensures forall v :: v in r <==> 0 <= v < n && Linked(similar, node, v)
  {
    var listed := Select(Range(n), adjacency[node]);
    r := Sort(Falling(n), listed);
    SameMembers(listed, r);
    forall v ensures v in r <==> 0 <= v < n && Linked(similar, node, v) {
      InRange(n, v);
      assert v in r <==> v in Elems(r);
      assert v in listed <==> v in Elems(listed);
    }
  }

  method Explore(n: nat, ghost similar: (int, int) -> bool, adjacency: seq<set<int>>, start: int, before: set<int>)
    returns (component: seq<int>, visited: set<int>)
    requires Represents(n, similar, adjacency) && 0 <= start < n && start !in before
    requires Closed(n, similar, before) && forall v :: v in before ==> 0 <= v < n
    ensures Distinct(component)
    ensures forall v :: v in component <==> Connected(n, similar, start, v)
    ensures forall v :: v in component ==> 0 <= v < n && v !in before
    ensures visited == before + Elems(component) && Closed(n, similar, visited)
  {
    var stack := [start];
    component := [];
    visited := before + {start};
    ConnectedSelf(n, similar, start);
    while stack != []
      invariant Searching(n, similar, start, before, component, stack, [], visited)
      invariant start in visited
      decreases Elems(Range(n)) - Elems(component)
    {
      var k := |stack| - 1;
      var node := stack[k];
      assert node in stack;
      var neighbors := Neighbors(n, similar, adjacency, node);
      AfterPop(n, similar, start, before, component, stack, visited, neighbors);
      assert stack == stack[..k] + [node];
      Fresh(n, component, stack, node);
      ElemsAppend(component, node);
      component := component + [node];
      stack, visited := PushNeighbors(n, similar, start, before, component, node, neighbors, stack[..k], visited);
    }
    assert component + stack == component;
    AfterSearch(n, similar, start, before, component, visited);
  }

  /** A node on the stack is not in the component yet, so taking it shrinks what is left. */
  lemma {:induction false} Fresh(n: nat, component: seq<int>, stack: seq<int>, node: int)
    requires Distinct(component + stack) && node in stack && 0 <= node < n
    ensures node in Elems(Range(n)) && node !in Elems(component)
  {
    InRange(n, node);
    var j :| 0 <= j < |stack| && stack[j] == node;
    var all := component + stack;
    forall i | 0 <= i < |component| ensures component[i] != node {
      assert all[i] != all[|component| + j];
    }
  }

  // ---------- All components ----------

  ghost predicate Somewhere(clusters: seq<seq<int>>, v: int) {
    exists i :: 0 <= i < |clusters| && v in clusters[i]
  }

  /** Sorted inside, ordered by least index, one cluster per connected component. */
  ghost predicate IsClustering(n: nat, similar: (int, int) -> bool, clusters: seq<seq<int>>) {
    && (forall i :: 0 <= i < |clusters| ==> clusters[i] != [] && Increasing(clusters[i]))
    && (forall i, j :: 0 <= i < j < |clusters| ==> clusters[i][0] < clusters[j][0])
    && (forall v :: Somewhere(clusters, v) <==> 0 <= v < n)
    && (forall i, j, u, v :: 0 <= i < |clusters| && 0 <= j < |clusters| && u in clusters[i] && v in clusters[j] ==>
                               (i == j <==> Connected(n, similar, u, v)))
  }

  /** Clusters found before the search reaches `next`. */
  ghost predicate Collected(n: nat, similar: (int, int) -> bool, clusters: seq<seq<int>>, visited: set<int>,
                            next: int) {
    && (forall i :: 0 <= i < |clusters| ==>
                      && clusters[i] != [] && Increasing(clusters[i]) && 0 <= clusters[i][0] < next
                      && forall v :: v in clusters[i] <==> Connected(n, similar, clusters[i][0], v))
    && (forall i, j :: 0 <= i < j < |clusters| ==> clusters[i][0] < clusters[j][0])
    && (forall i, v :: 0 <= i < |clusters| && v in clusters[i] ==> v in visited)
    && (forall v :: v in visited ==> 0 <= v < n && Somewhere(clusters, v))
    && (forall v :: 0 <= v < next ==> v in visited)
    && Closed(n, similar, visited)
  }

  lemma {:induction false} SortedComponent(n: nat, component: seq<int>) returns (sorted: seq<int>)
    requires Distinct(component) && forall v :: v in component ==> 0 <= v < n
    ensures sorted == Sort(Ascending(n), component)
    ensures Increasing(sorted) && forall v :: v in sorted <==> v in component
  {
    sorted := Sort(Ascending(n), component);
    SameMembers(component, sorted);
    forall v ensures v in sorted <==> v in component {
      assert v in sorted <==> v in Elems(sorted);
      assert v in component <==> v in Elems(component);
    }
    forall i, j | 0 <= i < j < |sorted| ensures sorted[i] < sorted[j] {
      assert sorted[i] in sorted && sorted[j] in sorted;
      InRange(n, sorted[i]);
      InRange(n, sorted[j]);
      assert !At(Ascending(n), sorted[j]).Below(At(Ascending(n), sorted[i]));
    }
  }

  /** The least index of a component not seen before is the index the search started from. */
  lemma {:induction false} StartIsLeast(n: nat, similar: (int, int) -> bool, sorted: seq<int>, visited: set<int>,
                                        start: int)
    requires Increasing(sorted) && start in sorted
    requires forall v :: v in sorted ==> 0 <= v && v !in visited
    requires forall v :: 0 <= v < start ==> v in visited
    ensures sorted[0] == start
  {
    assert sorted[0] in sorted;
    var j :| 0 <= j < |sorted| && sorted[j] == start;
  }

  lemma {:induction false} AddCluster(n: nat, similar: (int, int) -> bool, clusters: seq<seq<int>>, visited: set<int>,
                                      start: int,
                   sorted: seq<int>, visited': set<int>)
    requires Collected(n, similar, clusters, visited, start) && 0 <= start < n
    requires sorted != [] && Increasing(sorted) && sorted[0] == start
    requires forall v :: v in sorted <==> Connected(n, similar, start, v)
    requires forall v :: v in sorted ==> 0 <= v < n
    requires (forall v :: v in visited' <==> v in visited || v in sorted) && Closed(n, similar, visited')
    ensures Collected(n, similar, clusters + [sorted], visited', start + 1)
  {
    var all := clusters + [sorted];
    forall v | v in visited' ensures 0 <= v < n && Somewhere(all, v) {
      if v in sorted {
        assert v in all[|clusters|];
      } else {
        var i :| 0 <= i < |clusters| && v in clusters[i];
        assert v in all[i];
      }
    }
  }

  lemma {:induction false} CollectedIsClustering(n: nat, similar: (int, int) -> bool, clusters: seq<seq<int>>,
                                                 visited: set<int>)
    requires Collected(n, similar, clusters, visited, n)
    ensures IsClustering(n, similar, clusters)
  {
    forall i, j, u, v | 0 <= i < |clusters| && 0 <= j < |clusters| && u in clusters[i] && v in clusters[j]
      ensures i == j <==> Connected(n, similar, u, v)
    {
      var a, b := clusters[i][0], clusters[j][0];
      if i == j {
        ConnectedThrough(n, similar, a, u, v);
      } else if Connected(n, similar, u, v) {
        SameHead(n, similar, a, u, v, b);
        assert b in clusters[i];
        assert false by { HeadsDiffer(n, similar, clusters, visited, i, j); }
      }
    }
  }

  lemma {:induction false} SameHead(n: nat, similar: (int, int) -> bool, a: int, u: int, v: int, b: int)
    requires Connected(n, similar, a, u) && Connected(n, similar, u, v) && Connected(n, similar, b, v)
    ensures Connected(n, similar, a, b) && Connected(n, similar, b, a)
  {
    var q :| Joins(n, similar, q, u, v);
    ConnectedJoin(n, similar, a, u, q, v);
    ConnectedBack(n, similar, b, v);
    var r :| Joins(n, similar, r, v, b);
    ConnectedJoin(n, similar, a, v, r, b);
    ConnectedBack(n, similar, a, b);
  }

  /** The head of one cluster never stands in another: it would be the smaller head of both. */
  lemma {:induction false} HeadsDiffer(n: nat, similar: (int, int) -> bool, clusters: seq<seq<int>>,
                                       visited: set<int>, i: nat, j: nat)
    requires Collected(n, similar, clusters, visited, n) && i < |clusters| && j < |clusters| && i != j
    ensures clusters[j][0] !in clusters[i]
  {
    var a, b := clusters[i][0], clusters[j][0];
    if b in clusters[i] {
      ConnectedBack(n, similar, a, b);
      assert a in clusters[j];
      LeastMember(clusters[i], b);
      LeastMember(clusters[j], a);
    }
  }

  lemma {:induction false} LeastMember(s: seq<int>, v: int)
    requires Increasing(s) && v in s
    ensures s[0] <= v
  {
    var i :| 0 <= i < |s| && s[i] == v;
  }

  /** `vectorized` is false when the text vectoriser rejects the documents. */
  method ClusterBySimilarity(n: nat, similar: (int, int) -> bool, vectorized: bool) returns (clusters: seq<seq<int>>)
    ensures vectorized || n <= 1 ==> IsClustering(n, similar, clusters)
    ensures !vectorized && n > 1 ==> clusters == seq(n, i => [i])
  {
    if n > 1 && !vectorized {
      return seq(n, i => [i]);
    }
    var adjacency := BuildAdjacency(n, similar);
    clusters := [];
    var visited: set<int> := {};
    for start := 0 to n
      invariant Collected(n, similar, clusters, visited, start)
    {
      if start !in visited {
        var component, seen := Explore(n, similar, adjacency, start, visited);
        ConnectedSelf(n, similar, start);
        ghost var sorted := SortedComponent(n, component);
        StartIsLeast(n, similar, sorted, visited, start);
        AddCluster(n, similar, clusters, visited, start, sorted, seen);
        clusters, visited := clusters + [Sort(Ascending(n), component)], seen;
      }
    }
    CollectedIsClustering(n, similar, clusters, visited);
  }
}
