/**
 The backward topological sort: edges counted with their multiplicity, and a queue sorted by
 validation order only, so that among equals the problem queued first goes first.
 */
module RepairOrder {
  import opened Sorting
  import opened Kahn
  import opened PriorityLoop
  import opened OrderLaws
  import opened Basics

  /** Problems are addressed by 1-based index. */
  datatype Problem = Problem(isPrimary: bool, validationOrder: Option<int>, validationCmd: string, files: seq<string>)

  const NO_ORDER := 999

  function SafeOrder(p: Problem): int {
    match p.validationOrder
    case Some(n) => n
    case None => NO_ORDER
  }

  function OrderKeys(problems: seq<Problem>): Keys {
    map i | i in OneTo(|problems|) :: Key(SafeOrder(problems[i - 1]), 0, 0)
  }

  // ---------- Counting edges with multiplicity ----------

  function Times(s: seq<int>, v: int): nat {
    if s == [] then 0 else (if s[0] == v then 1 else 0) + Times(s[1..], v)
  }

  lemma {:induction false} TimesZero(s: seq<int>, v: int)
    ensures Times(s, v) == 0 <==> v !in s
  {
    if s != [] { TimesZero(s[1..], v); }
  }

  /** Edges into v, among known nodes, whose source is not done yet. */
  function Pending(ids: set<int>, edges: seq<Edge>, done: set<int>, v: int): nat {
    if edges == [] then 0 else
      (if Admitted(ids, true, edges[0]) && edges[0].target == v && edges[0].source !in done then 1 else 0)
      + Pending(ids, edges[1..], done, v)
  }

  /** The adjacency list of c, repeated edges included. */
  function Neighbors(ids: set<int>, edges: seq<Edge>, c: int): seq<int> {
    if edges == [] then [] else
      (if Admitted(ids, true, edges[0]) && edges[0].source == c then [edges[0].target] else [])
      + Neighbors(ids, edges[1..], c)
  }

  lemma {:induction false} PendingZero(ids: set<int>, edges: seq<Edge>, done: set<int>, v: int)
    ensures Pending(ids, edges, done, v) == 0 <==> Preds(GraphOf(ids, true, edges), v) <= done
  {
    var g := GraphOf(ids, true, edges);
    if edges == [] {
      assert Preds(g, v) == {};
    } else {
      var e, h := edges[0], GraphOf(ids, true, edges[1..]);
      PendingZero(ids, edges[1..], done, v);
      assert edges == [e] + edges[1..];
      assert g.edges == h.edges + if Admitted(ids, true, e) then {(e.source, e.target)} else {};
      assert Preds(g, v) ==
             Preds(h, v) + if Admitted(ids, true, e) && e.target == v then {e.source} else {};
    }
  }

  lemma {:induction false} PendingAfter(ids: set<int>, edges: seq<Edge>, done: set<int>, c: int, v: int)
    requires c !in done
    ensures Pending(ids, edges, done, v) ==
            Pending(ids, edges, done + {c}, v) + Times(Neighbors(ids, edges, c), v)
  {
    if edges != [] {
      PendingAfter(ids, edges[1..], done, c, v);
      var rest := Neighbors(ids, edges[1..], c);
      if Admitted(ids, true, edges[0]) && edges[0].source == c {
        assert ([edges[0].target] + rest)[1..] == rest;
      } else {
        assert [] + rest == rest;
      }
    }
  }

  lemma {:induction false} NeighborsOfGraph(ids: set<int>, edges: seq<Edge>, c: int, v: int)
    ensures v in Neighbors(ids, edges, c) <==> (c, v) in GraphOf(ids, true, edges).edges
  {
    if edges != [] {
      NeighborsOfGraph(ids, edges[1..], c, v);
      assert edges == [edges[0]] + edges[1..];
      GraphSplit(ids, edges);
    }
  }

  lemma {:induction false} GraphSplit(ids: set<int>, edges: seq<Edge>)
    requires edges != []
    ensures GraphOf(ids, true, edges).edges == GraphOf(ids, true, edges[1..]).edges +
            if Admitted(ids, true, edges[0]) then {(edges[0].source, edges[0].target)} else {}
  {
    assert edges == [edges[0]] + edges[1..];
  }

  // ---------- Who was queued first ----------

  /** The last place of v in s. */
  function LastPlace(s: seq<int>, v: int): nat {
    if s == [] then 0 else if s[|s| - 1] == v then |s| - 1 else LastPlace(s[..|s| - 1], v)
  }

  lemma {:induction false} LastPlaceHas(s: seq<int>, v: int)
    requires v in s
    ensures LastPlace(s, v) < |s| && s[LastPlace(s, v)] == v
  {
    if s[|s| - 1] != v {
      assert s == s[..|s| - 1] + [s[|s| - 1]];
      LastPlaceHas(s[..|s| - 1], v);
    }
  }

  lemma {:induction false} LastPlaceIs(s: seq<int>, j: nat)
    requires j < |s| && s[j] !in s[j + 1..]
    ensures LastPlace(s, s[j]) == j
  {
    var n := |s| - 1;
    if j < n {
      assert s[j + 1..] == s[j + 1..n] + [s[n]];
      assert s[..n][j + 1..] == s[j + 1..n];
      LastPlaceIs(s[..n], j);
    }
  }

  /** How many nodes of run s were out when the last edge into v fell away. */
  function Freed(ids: set<int>, edges: seq<Edge>, s: seq<int>, v: int): (n: nat)
    ensures n <= |s|
  {
    if s == [] then 0
    else if v in Neighbors(ids, edges, s[|s| - 1]) then |s|
    else Freed(ids, edges, s[..|s| - 1], v)
  }

  /** The list walked after n nodes were out: the neighbours of the n-th, at the start all indices. */
  function Walked(indices: seq<int>, edges: seq<Edge>, s: seq<int>, n: nat): seq<int> {
    if 0 < n <= |s| then Neighbors(Elems(indices), edges, s[n - 1]) else indices
  }

  /** When v was queued: after which node, and there at which place of the list that was walked. */
  function Arrival(indices: seq<int>, edges: seq<Edge>, s: seq<int>, v: int): Key {
    var n := Freed(Elems(indices), edges, s, v);
    Key(n, LastPlace(Walked(indices, edges, s, n), v), 0)
  }

  function Arrivals(indices: seq<int>, edges: seq<Edge>, s: seq<int>): Keys {
    map v | v in indices :: Arrival(indices, edges, s, v)
  }

  lemma {:induction false} FreedBy(ids: set<int>, edges: seq<Edge>, s: seq<int>, v: int)
    requires Freed(ids, edges, s, v) > 0
    ensures v in Neighbors(ids, edges, s[Freed(ids, edges, s, v) - 1])
  {
    if v !in Neighbors(ids, edges, s[|s| - 1]) {
      FreedBy(ids, edges, s[..|s| - 1], v);
    }
  }

  /** v stands where its arrival says. */
  lemma {:induction false} ArrivalHas(indices: seq<int>, edges: seq<Edge>, s: seq<int>, v: int)
    requires v in indices
    ensures var n := Freed(Elems(indices), edges, s, v);
            var list := Walked(indices, edges, s, n);
            LastPlace(list, v) < |list| && list[LastPlace(list, v)] == v
  {
    var n := Freed(Elems(indices), edges, s, v);
    if n > 0 {
      FreedBy(Elems(indices), edges, s, v);
    }
    LastPlaceHas(Walked(indices, edges, s, n), v);
  }

  /** No two nodes are queued at the same time. */
  lemma {:induction false} ArrivalsDiffer(indices: seq<int>, edges: seq<Edge>, s: seq<int>, v: int, w: int)
    requires v in indices && w in indices && v != w
    ensures Arrival(indices, edges, s, v) != Arrival(indices, edges, s, w)
  {
    ArrivalHas(indices, edges, s, v);
    ArrivalHas(indices, edges, s, w);
  }

  /** Emitting c does not change when its non-neighbours were queued; its neighbours come now. */
  lemma {:induction false} ArrivalAfter(indices: seq<int>, edges: seq<Edge>, s: seq<int>, c: int, v: int)
    ensures var neighbors := Neighbors(Elems(indices), edges, c);
            Arrival(indices, edges, s + [c], v) ==
            if v in neighbors then Key(|s| + 1, LastPlace(neighbors, v), 0) else Arrival(indices, edges, s, v)
  {
    var t := s + [c];
    assert t[..|s|] == s;
  }

  /** Among enabled nodes with equal keys, s always takes the one that was queued first. */
  ghost predicate FirstQueued(indices: seq<int>, edges: seq<Edge>, keys: Keys, s: seq<int>) {
    forall i, w :: 0 <= i < |s| && Overtaken(indices, edges, keys, s[..i], s[i], w) ==>
                     Arrival(indices, edges, s[..i], s[i]).Below(Arrival(indices, edges, s[..i], w))
  }

  /** w was enabled as well and has the same key as v. */
  ghost predicate Overtaken(indices: seq<int>, edges: seq<Edge>, keys: Keys, s: seq<int>, v: int, w: int) {
    w != v && At(keys, w) == At(keys, v) && Enabled(GraphOf(Elems(indices), true, edges), Elems(s), w)
  }

  /** A schedule that breaks ties by the queue, and in its tail by the place among the indices. */
  ghost predicate IsQueueOrderAt(indices: seq<int>, edges: seq<Edge>, keys: Keys, r: seq<int>, k: nat) {
    && IsScheduleAt(GraphOf(Elems(indices), true, edges), keys, r, k)
    && FirstQueued(indices, edges, keys, r[..k])
    && TiesBy(keys, Arrivals(indices, edges, []), r[k..])
  }

  ghost predicate IsQueueOrder(indices: seq<int>, edges: seq<Edge>, keys: Keys, r: seq<int>) {
    exists k: nat :: IsQueueOrderAt(indices, edges, keys, r, k)
  }

  lemma {:induction false} QueueRunsAgree(indices: seq<int>, edges: seq<Edge>, keys: Keys, s: seq<int>, t: seq<int>,
                                          k: nat)
    requires var g := GraphOf(Elems(indices), true, edges); IsGreedy(g, keys, s) && IsGreedy(g, keys, t)
    requires FirstQueued(indices, edges, keys, s) && FirstQueued(indices, edges, keys, t)
    requires k <= |s| && k <= |t|
    ensures s[..k] == t[..k]
  {
    if k > 0 {
      var g, n := GraphOf(Elems(indices), true, edges), k - 1;
      QueueRunsAgree(indices, edges, keys, s, t, n);
      assert Enabled(g, Elems(s[..n]), s[n]) && Enabled(g, Elems(t[..n]), t[n]);
      if s[n] != t[n] {
        assert Overtaken(indices, edges, keys, s[..n], s[n], t[n]) &&
               Overtaken(indices, edges, keys, t[..n], t[n], s[n]);
      }
      assert s[..k] == s[..n] + [s[n]] && t[..k] == t[..n] + [t[n]];
    }
  }

  /** Graph, list of indices and keys determine the order, ties or not. */
  lemma {:induction false} QueueOrderUnique(indices: seq<int>, edges: seq<Edge>, keys: Keys, r: seq<int>, r': seq<int>)
    requires IsQueueOrder(indices, edges, keys, r) && IsQueueOrder(indices, edges, keys, r')
    ensures r == r'
  {
    var g := GraphOf(Elems(indices), true, edges);
    var k: nat :| IsQueueOrderAt(indices, edges, keys, r, k);
    var k': nat :| IsQueueOrderAt(indices, edges, keys, r', k');
    ScheduleSplit(g, keys, r, k);
    ScheduleSplit(g, keys, r', k');
    QueueOrderUniqueAt(indices, edges, keys, r, r', k);
  }

  lemma {:induction false} QueueOrderUniqueAt(indices: seq<int>, edges: seq<Edge>, keys: Keys, r: seq<int>,
                                              r': seq<int>, k: nat)
    requires IsQueueOrderAt(indices, edges, keys, r, k) && IsQueueOrderAt(indices, edges, keys, r', k)
    requires Elems(r[k..]) == Elems(r'[k..])
    ensures r == r'
  {
    assert r[..k] == r'[..k] by {
      QueueRunsAgree(indices, edges, keys, r[..k], r'[..k], k);
      TakeAll(r[..k]);
      TakeAll(r'[..k]);
    }
    assert r[k..] == r'[k..] by {
      ArrangementUnique(keys, Arrivals(indices, edges, []), r[k..], r'[k..]);
    }
    assert r == r[..k] + r[k..] && r' == r'[..k] + r'[k..];
  }

  /** Nobody who is ready is passed over for somebody with a larger key. */
  ghost predicate ServesByKey(ids: set<int>, edges: seq<Edge>, keys: Keys, r: seq<int>) {
    forall i, j :: 0 <= i < j < |r| && IsReady(ids, true, edges, r, i, r[j]) ==>
                     !At(keys, r[j]).Below(At(keys, r[i]))
  }

  lemma {:induction false} ReadyServed(indices: seq<int>, edges: seq<Edge>, keys: Keys, r: seq<int>, i: nat, j: nat)
    requires IsQueueOrder(indices, edges, keys, r) && i < j < |r|
    requires IsReady(Elems(indices), true, edges, r, i, r[j])
    ensures !At(keys, r[j]).Below(At(keys, r[i]))
  {
    var k: nat :| IsQueueOrderAt(indices, edges, keys, r, k);
    assert IsSchedule(GraphOf(Elems(indices), true, edges), keys, r);
    ScheduleServesReady(Elems(indices), true, edges, keys, r, i, j);
  }

  lemma {:induction false} QueueOrderLaws(indices: seq<int>, edges: seq<Edge>, keys: Keys, r: seq<int>)
    requires IsQueueOrder(indices, edges, keys, r)
    ensures Distinct(r) && forall v :: v in r <==> v in indices
    ensures RespectsEdges(Elems(indices), true, edges, r)
    ensures ServesByKey(Elems(indices), edges, keys, r)
  {
    var k: nat :| IsQueueOrderAt(indices, edges, keys, r, k);
    assert IsSchedule(GraphOf(Elems(indices), true, edges), keys, r);
    forall v ensures v in r <==> v in indices {
      assert v in r <==> v in Elems(r);
      assert v in indices <==> v in Elems(indices);
    }
    ScheduleKeepsEdges(Elems(indices), true, edges, keys, r);
    forall i, j | 0 <= i < j < |r| && IsReady(Elems(indices), true, edges, r, i, r[j])
      ensures !At(keys, r[j]).Below(At(keys, r[i]))
    {
      ReadyServed(indices, edges, keys, r, i, j);
    }
  }

  /** Everything in the queue arrived before `now`, and ties stand in the order of arrival. */
  ghost predicate InLine(keys: Keys, arrivals: Keys, now: Key, queue: seq<int>) {
    TiesBy(keys, arrivals, queue) && forall v :: v in queue ==> At(arrivals, v).Below(now)
  }

  lemma {:induction false} JoinLine(keys: Keys, arrivals: Keys, now: Key, queue: seq<int>, v: int, later: Key)
    requires InLine(keys, arrivals, now, queue) && At(arrivals, v) == now && now.Below(later)
    ensures InLine(keys, arrivals, later, queue + [v])
  {
    var all := queue + [v];
    forall i, j | 0 <= i < j < |all| && At(keys, all[i]) == At(keys, all[j])
      ensures At(arrivals, all[i]).Below(At(arrivals, all[j]))
    {
      assert all[i] == queue[i] && all[i] in queue;
    }
  }

  // ---------- The sort ----------

  ghost predicate Counted(ids: set<int>, edges: seq<Edge>, done: set<int>, open: seq<int>, inDegree: map<int, int>) {
    && inDegree.Keys == ids
    && forall v :: v in ids ==> inDegree[v] == Pending(ids, edges, done, v) + Times(open, v)
  }

  ghost predicate Waiting(g: Graph, done: set<int>, open: seq<int>, queue: seq<int>) {
    && Distinct(queue)
    && forall v :: v in queue <==> Enabled(g, done, v) && v !in open
  }

  /** Building the adjacency lists and counts, edge by edge. */
  method CountEdges(indices: seq<int>, edges: seq<Edge>) returns (graph: map<int, seq<int>>, inDegree: map<int, int>)
    ensures graph.Keys == inDegree.Keys == Elems(indices)
    ensures forall c :: c in Elems(indices) ==> graph[c] == Neighbors(Elems(indices), edges, c)
    ensures Counted(Elems(indices), edges, {}, [], inDegree)
  {
    ghost var ids := Elems(indices);
    graph := map v | v in indices :: [];
    inDegree := map v | v in indices :: 0;
    for k := 0 to |edges|
      invariant graph.Keys == inDegree.Keys == ids
      invariant forall c :: c in ids ==> graph[c] == Neighbors(ids, edges[..k], c)
      invariant forall v :: v in ids ==> inDegree[v] == Pending(ids, edges[..k], {}, v)
    {
      var e := edges[k];
      TakeNext(edges, k);
      forall v { PendingAppend(ids, edges[..k], e, v); }
      forall c { NeighborsAppend(ids, edges[..k], e, c); }
      if e.source in indices && e.target in indices {
        graph := graph[e.source := graph[e.source] + [e.target]];
        inDegree := inDegree[e.target := inDegree[e.target] + 1];
      }
    }
    TakeAll(edges);
  }

  lemma {:induction false} PendingAppend(ids: set<int>, edges: seq<Edge>, e: Edge, v: int)
    ensures Pending(ids, edges + [e], {}, v) ==
            Pending(ids, edges, {}, v) + if Admitted(ids, true, e) && e.target == v then 1 else 0
  {
    if edges != [] {
      TailOfJoin(edges, [e]);
      PendingAppend(ids, edges[1..], e, v);
    }
  }

  lemma {:induction false} NeighborsAppend(ids: set<int>, edges: seq<Edge>, e: Edge, c: int)
    ensures Neighbors(ids, edges + [e], c) ==
            Neighbors(ids, edges, c) + if Admitted(ids, true, e) && e.source == c then [e.target] else []
  {
    if edges != [] {
      TailOfJoin(edges, [e]);
      NeighborsAppend(ids, edges[1..], e, c);
    }
  }

  lemma {:induction false} CountedAfterPop(ids: set<int>, edges: seq<Edge>, done: set<int>, c: int, inDegree: map<int,
                                           int>)
    requires c !in done && Counted(ids, edges, done, [], inDegree)
    ensures Counted(ids, edges, done + {c}, Neighbors(ids, edges, c), inDegree)
  {
    forall v | v in ids
      ensures inDegree[v] == Pending(ids, edges, done + {c}, v) + Times(Neighbors(ids, edges, c), v)
    {
      PendingAfter(ids, edges, done, c, v);
    }
  }

  lemma {:induction false} WaitingAfterPop(g: Graph, done: set<int>, c: int, open: seq<int>, queue: seq<int>)
    requires Enabled(g, done, c) && forall v :: v in open <==> (c, v) in g.edges
    requires queue != [] && queue[0] == c && Waiting(g, done, [], queue)
    ensures Waiting(g, done + {c}, open, queue[1..])
  {
    var rest := queue[1..];
    assert queue == [c] + rest;
    forall v ensures v in rest <==> Enabled(g, done + {c}, v) && v !in open {
      EnabledAfterPop(g, done, c, v);
      assert v in rest <==> v in queue && v != c;
    }
  }

  /** One neighbour: its count falls by one, and at zero it joins the queue. */
  method Lower(ghost g: Graph, ghost edges: seq<Edge>, ghost done: set<int>, t: int, ghost rest: seq<int>,
               degrees: map<int, int>, waiting: seq<int>)
    returns (inDegree: map<int, int>, queue: seq<int>)
    requires g == GraphOf(g.nodes, true, edges)
    requires t in g.nodes && t !in done
    requires Counted(g.nodes, edges, done, [t] + rest, degrees) && Waiting(g, done, [t] + rest, waiting)
    ensures Counted(g.nodes, edges, done, rest, inDegree) && Waiting(g, done, rest, queue)
    ensures queue == waiting || (t !in rest && queue == waiting + [t])
  {
    var open := [t] + rest;
    assert open[1..] == rest;
    assert forall v :: v in open <==> v == t || v in rest;
    PendingZero(g.nodes, edges, done, t);
    TimesZero(rest, t);
    inDegree, queue := degrees[t := degrees[t] - 1], waiting;
    if inDegree[t] == 0 {
      queue := queue + [t];
    }
  }

  /** The neighbours of the node just emitted join the queue at their last occurrence. */
  ghost predicate ArriveNow(arrivals: Keys, n: nat, neighbors: seq<int>) {
    forall v :: v in neighbors ==> At(arrivals, v) == Key(n, LastPlace(neighbors, v), 0)
  }

  method ReleaseNeighbors(ghost g: Graph, ghost edges: seq<Edge>, ghost done: set<int>, neighbors: seq<int>,
                          degrees: map<int, int>, waiting: seq<int>, ghost keys: Keys, ghost arrivals: Keys,
                          ghost n: nat)
    returns (inDegree: map<int, int>, queue: seq<int>)
    requires g == GraphOf(g.nodes, true, edges)
    requires forall v :: v in neighbors ==> v in g.nodes && v !in done
    requires Counted(g.nodes, edges, done, neighbors, degrees) && Waiting(g, done, neighbors, waiting)
    requires ArriveNow(arrivals, n, neighbors) && InLine(keys, arrivals, Key(n, 0, 0), waiting)
    ensures Counted(g.nodes, edges, done, [], inDegree) && Waiting(g, done, [], queue)
    ensures TiesBy(keys, arrivals, queue)
  {
    inDegree, queue := degrees, waiting;
    assert neighbors[0..] == neighbors;
    for j := 0 to |neighbors|
      invariant Counted(g.nodes, edges, done, neighbors[j..], inDegree)
      invariant Waiting(g, done, neighbors[j..], queue)
      invariant InLine(keys, arrivals, Key(n, j, 0), queue)
    {
      var t := neighbors[j];
      ghost var before := queue;
      assert neighbors[j..] == [t] + neighbors[j + 1..];
      inDegree, queue := Lower(g, edges, done, t, neighbors[j + 1..], inDegree, queue);
      if t !in neighbors[j + 1..] {
        LastPlaceIs(neighbors, j);
        JoinLine(keys, arrivals, Key(n, j, 0), before, t, Key(n, j + 1, 0));
      }
    }
    assert neighbors[|neighbors|..] == [];
  }

  ghost predicate SortState(indices: seq<int>, edges: seq<Edge>, keys: Keys, result: seq<int>,
                            inDegree: map<int, int>, queue: seq<int>) {
    var g := GraphOf(Elems(indices), true, edges);
    && IsGreedy(g, keys, result) && FirstQueued(indices, edges, keys, result)
    && Counted(g.nodes, edges, Elems(result), [], inDegree)
    && Waiting(g, Elems(result), [], queue)
    && Ordered(keys, queue) && TiesBy(keys, Arrivals(indices, edges, result), queue)
  }

  lemma {:induction false} NeighborsOpen(ids: set<int>, edges: seq<Edge>, s: seq<int>, c: int)
    requires var g := GraphOf(ids, true, edges); IsRun(g, s) && Enabled(g, Elems(s), c)
    ensures forall v :: v in Neighbors(ids, edges, c) <==> (c, v) in GraphOf(ids, true, edges).edges
    ensures forall v :: v in Neighbors(ids, edges, c) ==> v in ids && v !in Elems(s) + {c}
  {
    var g := GraphOf(ids, true, edges);
    forall v ensures v in Neighbors(ids, edges, c) <==> (c, v) in g.edges { NeighborsOfGraph(ids, edges, c, v); }
    forall v | v in Neighbors(ids, edges, c) ensures v in ids && v !in Elems(s) + {c} {
      TargetIsOpen(g, s, c, v);
    }
  }

  lemma {:induction false} QueueIsQueued(g: Graph, done: set<int>, keys: Keys, queue: seq<int>)
    requires Waiting(g, done, [], queue) && Ordered(keys, queue)
    ensures Queued(g, done, [], keys, queue)
  {
  }

  lemma {:induction false} SortedWaiting(g: Graph, done: set<int>, keys: Keys, queue: seq<int>)
    requires Waiting(g, done, [], queue)
    ensures Waiting(g, done, [], Sort(keys, queue)) && Ordered(keys, Sort(keys, queue))
  {
    SameMembers(queue, Sort(keys, queue));
    assert forall v :: v in queue <==> v in Elems(queue);
    assert forall v :: v in Sort(keys, queue) <==> v in Elems(Sort(keys, queue));
  }

  /** The head of the queue was queued before every other enabled node with its key. */
  lemma {:induction false} HeadWasFirst(indices: seq<int>, edges: seq<Edge>, keys: Keys, s: seq<int>, queue: seq<int>)
    requires var g := GraphOf(Elems(indices), true, edges); Waiting(g, Elems(s), [], queue) && queue != []
    requires FirstQueued(indices, edges, keys, s) && TiesBy(keys, Arrivals(indices, edges, s), queue)
    ensures FirstQueued(indices, edges, keys, s + [queue[0]])
  {
    var c := queue[0];
    var t := s + [c];
    forall i, w | 0 <= i < |t| && Overtaken(indices, edges, keys, t[..i], t[i], w)
      ensures Arrival(indices, edges, t[..i], t[i]).Below(Arrival(indices, edges, t[..i], w))
    {
      if i < |s| {
        assert t[..i] == s[..i];
      } else {
        assert t[..i] == s;
        HeadBeats(indices, edges, keys, s, queue, w);
      }
    }
  }

  lemma {:induction false} HeadBeats(indices: seq<int>, edges: seq<Edge>, keys: Keys, s: seq<int>, queue: seq<int>,
                                     w: int)
    requires var g := GraphOf(Elems(indices), true, edges); Waiting(g, Elems(s), [], queue) && queue != []
    requires TiesBy(keys, Arrivals(indices, edges, s), queue)
    requires Overtaken(indices, edges, keys, s, queue[0], w)
    ensures Arrival(indices, edges, s, queue[0]).Below(Arrival(indices, edges, s, w))
  {
    assert w in queue && queue[0] in queue;
    var j :| 0 <= j < |queue| && queue[j] == w;
    assert At(Arrivals(indices, edges, s), queue[0]).Below(At(Arrivals(indices, edges, s), queue[j]));
    assert queue[0] in Elems(indices) && w in Elems(indices);
  }

  lemma {:induction false} StaysInLine(indices: seq<int>, edges: seq<Edge>, s: seq<int>, c: int, v: int)
    requires v in indices && v !in Neighbors(Elems(indices), edges, c)
    ensures At(Arrivals(indices, edges, s + [c]), v) == At(Arrivals(indices, edges, s), v)
    ensures At(Arrivals(indices, edges, s), v).Below(Key(|s| + 1, 0, 0))
  {
    ArrivalAfter(indices, edges, s, c, v);
  }

  /** After the head c is out, those still waiting keep their place in line. */
  lemma {:induction false} LineAfterPop(indices: seq<int>, edges: seq<Edge>, keys: Keys, s: seq<int>, queue: seq<int>)
    requires queue != [] && TiesBy(keys, Arrivals(indices, edges, s), queue)
    requires forall v :: v in queue ==> v in indices
    requires forall v :: v in queue[1..] ==> v !in Neighbors(Elems(indices), edges, queue[0])
    ensures InLine(keys, Arrivals(indices, edges, s + [queue[0]]), Key(|s| + 1, 0, 0), queue[1..])
  {
    var before, after := Arrivals(indices, edges, s), Arrivals(indices, edges, s + [queue[0]]);
    forall v | v in queue[1..] ensures At(after, v) == At(before, v) && At(after, v).Below(Key(|s| + 1, 0, 0)) {
      assert v in queue;
      StaysInLine(indices, edges, s, queue[0], v);
    }
    TiesTaken(keys, before, queue);
    TiesSame(keys, before, after, queue[1..]);
  }

  lemma {:induction false} NeighborsArrive(indices: seq<int>, edges: seq<Edge>, s: seq<int>, c: int)
    requires forall v :: v in Neighbors(Elems(indices), edges, c) ==> v in Elems(indices)
    ensures ArriveNow(Arrivals(indices, edges, s + [c]), |s| + 1, Neighbors(Elems(indices), edges, c))
  {
    var neighbors := Neighbors(Elems(indices), edges, c);
    forall v | v in neighbors
      ensures At(Arrivals(indices, edges, s + [c]), v) == Key(|s| + 1, LastPlace(neighbors, v), 0)
    {
      assert v in indices;
      ArrivalAfter(indices, edges, s, c, v);
    }
  }

  method EmitHead(ghost indices: seq<int>, ghost edges: seq<Edge>, keys: Keys, ghost result: seq<int>,
                  neighbors: seq<int>, degrees: map<int, int>, waiting: seq<int>)
    returns (inDegree: map<int, int>, queue: seq<int>)
    requires SortState(indices, edges, keys, result, degrees, waiting) && waiting != []
    requires neighbors == Neighbors(Elems(indices), edges, waiting[0])
    ensures waiting[0] in indices && waiting[0] !in Elems(result)
    ensures SortState(indices, edges, keys, result + [waiting[0]], inDegree, queue)
  {
    ghost var g := GraphOf(Elems(indices), true, edges);
    var current := waiting[0];
    ghost var done := Elems(result) + {current};
    ghost var arrivals := Arrivals(indices, edges, result + [current]);
    BeforeRelease(indices, edges, keys, result, degrees, waiting);
    inDegree, queue := ReleaseNeighbors(g, edges, done, neighbors, degrees, waiting[1..], keys, arrivals, |result| + 1);
    SortedWaiting(g, done, keys, queue);
    SortStable(keys, arrivals, queue);
    queue := Sort(keys, queue);
    ElemsAppend(result, current);
  }

  /** What holds between taking the head from the queue and releasing its neighbours. */
  lemma {:induction false} BeforeRelease(indices: seq<int>, edges: seq<Edge>, keys: Keys, s: seq<int>,
                                         degrees: map<int, int>,
                      queue: seq<int>)
    requires SortState(indices, edges, keys, s, degrees, queue) && queue != []
    ensures var g, c := GraphOf(Elems(indices), true, edges), queue[0];
            var neighbors, done := Neighbors(g.nodes, edges, c), Elems(s) + {c};
            && c in indices && c !in Elems(s)
            && IsGreedy(g, keys, s + [c]) && FirstQueued(indices, edges, keys, s + [c])
            && (forall v :: v in neighbors ==> v in g.nodes && v !in done)
            && Counted(g.nodes, edges, done, neighbors, degrees) && Waiting(g, done, neighbors, queue[1..])
            && ArriveNow(Arrivals(indices, edges, s + [c]), |s| + 1, neighbors)
            && InLine(keys, Arrivals(indices, edges, s + [c]), Key(|s| + 1, 0, 0), queue[1..])
  {
    var g, c := GraphOf(Elems(indices), true, edges), queue[0];
    assert c in queue && Enabled(g, Elems(s), c);
    NeighborsOpen(g.nodes, edges, s, c);
    CountedAfterPop(g.nodes, edges, Elems(s), c, degrees);
    WaitingAfterPop(g, Elems(s), c, Neighbors(g.nodes, edges, c), queue);
    QueueIsQueued(g, Elems(s), keys, queue);
    HeadIsLeast(g, keys, s, queue);
    HeadWasFirst(indices, edges, keys, s, queue);
    LineAfterPop(indices, edges, keys, s, queue);
    NeighborsArrive(indices, edges, s, c);
  }

  /** A list cut from the indices in their order is in line by place. */
  ghost predicate ByPlace(indices: seq<int>, edges: seq<Edge>, keys: Keys, i: nat, queue: seq<int>) {
    InLine(keys, Arrivals(indices, edges, []), Key(0, i, 0), queue)
  }

  lemma {:induction false} NextPlace(indices: seq<int>, edges: seq<Edge>, keys: Keys, i: nat, queue: seq<int>)
    requires Distinct(indices) && i < |indices| && ByPlace(indices, edges, keys, i, queue)
    ensures ByPlace(indices, edges, keys, i + 1, queue) && ByPlace(indices, edges, keys, i + 1, queue + [indices[i]])
  {
    LastPlaceIs(indices, i);
    JoinLine(keys, Arrivals(indices, edges, []), Key(0, i, 0), queue, indices[i], Key(0, i + 1, 0));
  }

  /** Start of the queue: the indices, in list order, that nothing points at. */
  method StartQueue(indices: seq<int>, ghost edges: seq<Edge>, inDegree: map<int, int>, ghost keys: Keys)
    returns (queue: seq<int>)
    requires Distinct(indices) && Counted(Elems(indices), edges, {}, [], inDegree)
    ensures Waiting(GraphOf(Elems(indices), true, edges), {}, [], queue)
    ensures TiesBy(keys, Arrivals(indices, edges, []), queue)
  {
    queue := [];
    for i := 0 to |indices|
      invariant Distinct(queue)
      invariant forall v :: v in queue <==> v in indices[..i] && inDegree[v] == 0
      invariant ByPlace(indices, edges, keys, i, queue)
    {
      assert indices[i] in Elems(indices);
      assert indices[i] !in indices[..i];
      NextPlace(indices, edges, keys, i, queue);
      if inDegree[indices[i]] == 0 {
        queue := queue + [indices[i]];
      }
      TakeNext(indices, i);
    }
    TakeAll(indices);
    forall v ensures v in queue <==> Enabled(GraphOf(Elems(indices), true, edges), {}, v) {
      assert v in indices <==> v in Elems(indices);
      PendingZero(Elems(indices), edges, {}, v);
    }
  }

  /** The comprehension over the indices that are not out yet. */
  method Remaining(indices: seq<int>, ghost edges: seq<Edge>, result: seq<int>, ghost keys: Keys)
    returns (remaining: seq<int>)
    requires Distinct(indices)
    ensures remaining == Select(indices, Elems(indices) - Elems(result))
    ensures TiesBy(keys, Arrivals(indices, edges, []), remaining)
  {
    ghost var left := Elems(indices) - Elems(result);
    remaining := [];
    for i := 0 to |indices|
      invariant remaining == Select(indices[..i], left)
      invariant ByPlace(indices, edges, keys, i, remaining)
    {
      TakeNext(indices, i);
      SelectAppend(indices[..i], left, indices[i]);
      NextPlace(indices, edges, keys, i, remaining);
      assert indices[i] in Elems(indices);
      if indices[i] !in result {
        remaining := remaining + [indices[i]];
      }
    }
    TakeAll(indices);
  }

  method TopologicalSort(indices: seq<int>, keys: Keys, edges: seq<Edge>) returns (result: seq<int>)
    requires Distinct(indices)
    ensures IsQueueOrder(indices, edges, keys, result)
    ensures Distinct(result) && forall v :: v in result <==> v in indices
    ensures RespectsEdges(Elems(indices), true, edges, result)
    ensures ServesByKey(Elems(indices), edges, keys, result)
  {
    ghost var g := GraphOf(Elems(indices), true, edges);
    var graph, inDegree := CountEdges(indices, edges);
    var queue := StartQueue(indices, edges, inDegree, keys);
    SortedWaiting(g, {}, keys, queue);
    SortStable(keys, Arrivals(indices, edges, []), queue);
    queue := Sort(keys, queue);
    result := [];
    assert Elems(result) == {};
    while queue != []
      invariant SortState(indices, edges, keys, result, inDegree, queue)
      decreases g.nodes - Elems(result)
    {
      var current := queue[0];
      assert current in queue;
      inDegree, queue := EmitHead(indices, edges, keys, result, graph[current], inDegree, queue);
      ElemsAppend(result, current);
      result := result + [current];
    }
    result := AppendRemaining(indices, keys, edges, result);
    QueueOrderLaws(indices, edges, keys, result);
  }

  /** If a cycle holds nodes back, they follow in sorted order. */
  method AppendRemaining(indices: seq<int>, keys: Keys, ghost edges: seq<Edge>, emitted: seq<int>)
    returns (result: seq<int>)
    requires Distinct(indices) && FirstQueued(indices, edges, keys, emitted)
    requires var g := GraphOf(Elems(indices), true, edges);
             IsGreedy(g, keys, emitted) && forall v :: !Enabled(g, Elems(emitted), v)
    ensures IsQueueOrder(indices, edges, keys, result)
  {
    ghost var g := GraphOf(Elems(indices), true, edges);
    var tail := [];
    if |emitted| < |indices| {
      var remaining := Remaining(indices, edges, emitted, keys);
      SortStable(keys, Arrivals(indices, edges, []), remaining);
      tail := Sort(keys, remaining);
    } else {
      NothingLeft(g, indices, emitted);
    }
    AppendTail(g, keys, indices, emitted, tail);
    result := emitted + tail;
    assert result[..|emitted|] == emitted && result[|emitted|..] == tail;
    assert IsQueueOrderAt(indices, edges, keys, result, |emitted|);
  }

  lemma {:induction false} NothingLeft(g: Graph, indices: seq<int>, s: seq<int>)
    requires Distinct(indices) && Elems(indices) == g.nodes && IsRun(g, s) && |s| >= |indices|
    ensures Select(indices, Elems(indices) - Elems(s)) == []
  {
    RunFacts(g, s);
    CountDistinct(s);
    CountDistinct(indices);
    SubsetSize(Elems(s), g.nodes);
    SameSizeSubset(Elems(s), g.nodes);
    var left := Select(indices, Elems(indices) - Elems(s));
    assert Elems(left) == {};
    CountDistinct(left);
  }
}
