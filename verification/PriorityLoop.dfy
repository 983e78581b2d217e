/**
 The loop shared by `dependency_order` and `_dependency_order`: in-degree counts, a ready
 list kept sorted by key, and a sorted tail for the problems that a cycle holds back.
 */
module PriorityLoop {
  import opened Basics
  import opened Sorting
  import opened Kahn

  datatype Edge = Edge(source: int, target: int)

  /** An edge counts when both ends are known problems; the second pass also drops self-loops. */
  predicate Admitted(ids: set<int>, keepLoops: bool, e: Edge) {
    e.source in ids && e.target in ids && (keepLoops || e.source != e.target)
  }

  ghost function GraphOf(ids: set<int>, keepLoops: bool, deps: seq<Edge>): Graph {
    Graph(ids, set e | e in deps && Admitted(ids, keepLoops, e) :: (e.source, e.target))
  }

  lemma {:induction false} GraphGrows(ids: set<int>, keepLoops: bool, deps: seq<Edge>, e: Edge)
    ensures GraphOf(ids, keepLoops, deps + [e]).edges ==
            GraphOf(ids, keepLoops, deps).edges +
            if Admitted(ids, keepLoops, e) then {(e.source, e.target)} else {}
  {
  }

  lemma {:induction false} PredsGrow(g: Graph, u: int, v: int, w: int)
    requires u in g.nodes
    ensures Preds(g.(edges := g.edges + {(u, v)}), w) == Preds(g, w) + if w == v then {u} else {}
  {
  }

  ghost predicate Represents(g: Graph, outgoing: map<int, set<int>>, indegree: map<int, int>) {
    && outgoing.Keys == g.nodes && indegree.Keys == g.nodes
    && (forall u, v :: u in g.nodes ==> (v in outgoing[u] <==> (u, v) in g.edges))
    && (forall v :: v in g.nodes ==> indegree[v] == |Preds(g, v)|)
  }

  lemma {:induction false} NoEdges(ids: set<int>, keepLoops: bool, outgoing: map<int, set<int>>, indegree: map<int,
                                   int>)
    requires outgoing.Keys == ids && indegree.Keys == ids
    requires forall u :: u in ids ==> outgoing[u] == {} && indegree[u] == 0
    ensures Represents(GraphOf(ids, keepLoops, []), outgoing, indegree)
  {
    var g := GraphOf(ids, keepLoops, []);
    assert g.edges == {};
    assert forall v :: Preds(g, v) == {};
  }

  /** Adjacency sets and in-degrees, as the two edge loops build them. */
  method BuildAdjacency(ids: set<int>, deps: seq<Edge>, keepLoops: bool)
    returns (outgoing: map<int, set<int>>, indegree: map<int, int>)
    ensures Represents(GraphOf(ids, keepLoops, deps), outgoing, indegree)
  {
    outgoing := map u | u in ids :: {};
    indegree := map u | u in ids :: 0;
    NoEdges(ids, keepLoops, outgoing, indegree);
    for i := 0 to |deps|
      invariant Represents(GraphOf(ids, keepLoops, deps[..i]), outgoing, indegree)
    {
      TakeNext(deps, i);
      outgoing, indegree := Count(ids, keepLoops, deps[..i], outgoing, indegree, deps[i]);
    }
    TakeAll(deps);
  }

  /** One edge: counted once, and only if it is admitted. */
  method Count(ids: set<int>, keepLoops: bool, ghost deps: seq<Edge>, outgoing: map<int, set<int>>,
               indegree: map<int, int>, e: Edge)
    returns (outgoing': map<int, set<int>>, indegree': map<int, int>)
    requires Represents(GraphOf(ids, keepLoops, deps), outgoing, indegree)
    ensures Represents(GraphOf(ids, keepLoops, deps + [e]), outgoing', indegree')
  {
    ghost var g := GraphOf(ids, keepLoops, deps);
    GraphGrows(ids, keepLoops, deps, e);
    if Admitted(ids, keepLoops, e) && e.target !in outgoing[e.source] {
      outgoing', indegree' := AddEdge(g, outgoing, indegree, e);
    } else {
      assert GraphOf(ids, keepLoops, deps + [e]) == g;
      outgoing', indegree' := outgoing, indegree;
    }
  }

  method AddEdge(ghost g: Graph, outgoing: map<int, set<int>>, indegree: map<int, int>, e: Edge)
    returns (outgoing': map<int, set<int>>, indegree': map<int, int>)
    requires Represents(g, outgoing, indegree)
    requires e.source in g.nodes && e.target in g.nodes && e.target !in outgoing[e.source]
    ensures Represents(g.(edges := g.edges + {(e.source, e.target)}), outgoing', indegree')
  {
    outgoing' := outgoing[e.source := outgoing[e.source] + {e.target}];
    indegree' := indegree[e.target := indegree[e.target] + 1];
    forall v { PredsGrow(g, e.source, e.target, v); }
    assert e.source !in Preds(g, e.target);
  }

  lemma {:induction false} RunClosed(g: Graph, s: seq<int>, v: int)
    requires IsRun(g, s) && v in Elems(s)
    ensures Preds(g, v) <= Elems(s)
  {
    var i :| 0 <= i < |s| && s[i] == v;
    assert Enabled(g, Elems(s[..i]), s[i]);
  }

  ghost function Owed(g: Graph, done: set<int>, v: int): nat {
    |Preds(g, v) - done|
  }

  /** Emitting c lowers the count of exactly its targets, by one. */
  lemma {:induction false} OwedAfter(g: Graph, done: set<int>, c: int, v: int)
    requires c in g.nodes && c !in done
    ensures Owed(g, done, v) == Owed(g, done + {c}, v) + if (c, v) in g.edges then 1 else 0
  {
    var before, after := Preds(g, v) - done, Preds(g, v) - (done + {c});
    if (c, v) in g.edges {
      assert before == after + {c};
    } else {
      assert before == after;
    }
  }

  lemma {:induction false} OwedNothing(g: Graph, done: set<int>, v: int)
    ensures Owed(g, done, v) == 0 <==> Preds(g, v) <= done
  {
    if !(Preds(g, v) <= done) {
      var u := PickMissing(Preds(g, v), done);
      assert u in Preds(g, v) - done;
    } else {
      assert Preds(g, v) - done == {};
    }
  }

  /** A target of a node just emitted has not been emitted itself. */
  lemma {:induction false} TargetIsOpen(g: Graph, s: seq<int>, c: int, v: int)
    requires IsRun(g, s) && Enabled(g, Elems(s), c) && (c, v) in g.edges
    ensures v !in Elems(s) + {c}
  {
    assert c in Preds(g, v);
    if v in Elems(s) {
      RunClosed(g, s, v);
    }
  }

  /** What the loop knows once `done` has been emitted and `open` targets are still to be lowered. */
  ghost predicate Counts(g: Graph, done: set<int>, open: seq<int>, indegree: map<int, int>) {
    && indegree.Keys == g.nodes
    && forall v :: v in g.nodes ==> indegree[v] == Owed(g, done, v) + if v in open then 1 else 0
  }

  ghost predicate Queued(g: Graph, done: set<int>, open: seq<int>, keys: Keys, ready: seq<int>) {
    && Distinct(ready) && Ordered(keys, ready)
    && forall v :: v in ready <==> Enabled(g, done, v) && v !in open
  }

  ghost predicate TargetsOf(g: Graph, c: int, targets: seq<int>) {
    && Distinct(targets)
    && forall v :: v in targets <==> v in g.nodes && (c, v) in g.edges
  }

  lemma {:induction false} CountsAfterPop(g: Graph, done: set<int>, c: int, targets: seq<int>, indegree: map<int, int>)
    requires c in g.nodes && c !in done && TargetsOf(g, c, targets)
    requires Counts(g, done, [], indegree)
    ensures Counts(g, done + {c}, targets, indegree)
  {
    forall v | v in g.nodes
      ensures indegree[v] == Owed(g, done + {c}, v) + if v in targets then 1 else 0
    {
      OwedAfter(g, done, c, v);
    }
  }

  /** Away from the targets of c, emitting c enables nothing new. */
  lemma {:induction false} EnabledAfterPop(g: Graph, done: set<int>, c: int, v: int)
    requires Enabled(g, done, c)
    ensures Enabled(g, done + {c}, v) && (c, v) !in g.edges <==> Enabled(g, done, v) && v != c
  {
    if v in g.nodes {
      assert (c, v) in g.edges <==> c in Preds(g, v);
      if (c, v) !in g.edges {
        assert Preds(g, v) <= done + {c} <==> Preds(g, v) <= done;
      }
    }
  }

  lemma {:induction false} QueuedAfterPop(g: Graph, done: set<int>, c: int, targets: seq<int>, keys: Keys,
                                          ready: seq<int>)
    requires Enabled(g, done, c) && TargetsOf(g, c, targets)
    requires ready != [] && ready[0] == c && Queued(g, done, [], keys, ready)
    ensures Queued(g, done + {c}, targets, keys, ready[1..])
  {
    var rest := ready[1..];
    assert ready == [c] + rest;
    forall v ensures v in rest <==> Enabled(g, done + {c}, v) && v !in targets {
      EnabledAfterPop(g, done, c, v);
      assert v in rest <==> v in ready && v != c;
    }
  }

  lemma {:induction false} EnabledWhenNothingOwed(g: Graph, done: set<int>, v: int)
    requires v in g.nodes && v !in done
    ensures Enabled(g, done, v) <==> Owed(g, done, v) == 0
  {
    OwedNothing(g, done, v);
  }

  /** One turn of the inner loop: the count of t falls, and at zero t joins the ready list. */
  method Lower(keys: Keys, t: int, degrees: map<int, int>, waiting: seq<int>)
    returns (indegree: map<int, int>, ready: seq<int>)
    requires t in degrees
    ensures indegree == degrees[t := degrees[t] - 1]
    ensures ready == if indegree[t] == 0 then Sort(keys, waiting + [t]) else waiting
  {
    indegree, ready := degrees[t := degrees[t] - 1], waiting;
    if indegree[t] == 0 {
      ready := Sort(keys, waiting + [t]);
    }
  }

  lemma {:induction false} AfterLower(g: Graph, keys: Keys, done: set<int>, t: int, open: seq<int>, degrees: map<int,
                                      int>,
                   waiting: seq<int>, indegree: map<int, int>, ready: seq<int>)
    requires t in g.nodes && t !in done && t !in open
    requires Counts(g, done, [t] + open, degrees) && Queued(g, done, [t] + open, keys, waiting)
    requires indegree == degrees[t := degrees[t] - 1]
    requires ready == if indegree[t] == 0 then Sort(keys, waiting + [t]) else waiting
    ensures Counts(g, done, open, indegree) && Queued(g, done, open, keys, ready)
  {
    assert forall v :: v in [t] + open <==> v == t || v in open;
    EnabledWhenNothingOwed(g, done, t);
    if indegree[t] == 0 {
      MembersAfterSort(keys, waiting, t);
    }
  }

  // ---------- What holds even if the ready list starts with repeats ----------

  ghost function Positive(degrees: map<int, int>): set<int> {
    set v | v in degrees && degrees[v] > 0
  }

  /** The loop keeps what is waiting, adds only known nodes, and every addition uses up a count. */
  ghost predicate Shrinks(degrees: map<int, int>, waiting: seq<int>, indegree: map<int, int>, ready: seq<int>) {
    && indegree.Keys == degrees.Keys
    && multiset(waiting) <= multiset(ready)
    && (forall v :: v in ready ==> v in waiting || v in degrees)
    && |Positive(indegree)| + |ready| <= |Positive(degrees)| + |waiting|
  }

  lemma {:induction false} PositiveFalls(t: int, degrees: map<int, int>)
    requires t in degrees
    ensures |Positive(degrees[t := degrees[t] - 1])| + (if degrees[t] == 1 then 1 else 0) == |Positive(degrees)|
  {
    var after := degrees[t := degrees[t] - 1];
    if degrees[t] == 1 {
      assert Positive(degrees) == Positive(after) + {t};
    } else {
      assert Positive(degrees) == Positive(after);
    }
  }

  lemma {:induction false} LowerShrinks(keys: Keys, t: int, degrees: map<int, int>, waiting: seq<int>,
                                        indegree: map<int, int>,
                     ready: seq<int>)
    requires t in degrees && indegree == degrees[t := degrees[t] - 1]
    requires ready == if indegree[t] == 0 then Sort(keys, waiting + [t]) else waiting
    ensures Shrinks(degrees, waiting, indegree, ready)
  {
    PositiveFalls(t, degrees);
    if indegree[t] == 0 {
      SameMembers(waiting + [t], ready);
      assert multiset(ready) == multiset(waiting) + multiset{t};
      forall v | v in ready ensures v in waiting || v == t {
        assert v in multiset(ready);
      }
    }
  }

  lemma {:induction false} ShrinksTwice(a: map<int, int>, p: seq<int>, b: map<int, int>, q: seq<int>, c: map<int,
                                        int>, r: seq<int>)
    requires Shrinks(a, p, b, q) && Shrinks(b, q, c, r)
    ensures Shrinks(a, p, c, r)
  {
  }

  lemma {:induction false} MembersAfterSort(keys: Keys, waiting: seq<int>, t: int)
    requires Distinct(waiting) && t !in waiting
    ensures Distinct(Sort(keys, waiting + [t]))
    ensures forall v :: v in Sort(keys, waiting + [t]) <==> v in waiting || v == t
  {
    var all := waiting + [t];
    SameMembers(all, Sort(keys, all));
    forall v ensures v in Sort(keys, all) <==> v in waiting || v == t {
      assert v in Sort(keys, all) <==> v in Elems(Sort(keys, all));
      assert v in all <==> v in Elems(all);
    }
  }

  /** What the inner loop starts from when nothing is queued twice. */
  ghost predicate Releasing(g: Graph, keys: Keys, done: set<int>, targets: seq<int>, degrees: map<int, int>,
                            waiting: seq<int>) {
    && Distinct(targets) && (forall v :: v in targets ==> v !in done)
    && Counts(g, done, targets, degrees) && Queued(g, done, targets, keys, waiting)
  }

  /** The inner loop: lower the in-degree of each target and queue those that reach zero. */
  method Release(ghost g: Graph, keys: Keys, ghost done: set<int>, targets: seq<int>,
                 degrees: map<int, int>, waiting: seq<int>)
    returns (indegree: map<int, int>, ready: seq<int>)
    requires degrees.Keys == g.nodes && forall v :: v in targets ==> v in g.nodes
    ensures Shrinks(degrees, waiting, indegree, ready)
    ensures Releasing(g, keys, done, targets, degrees, waiting) ==>
              Counts(g, done, [], indegree) && Queued(g, done, [], keys, ready)
  {
    indegree, ready := degrees, waiting;
    ghost var clean := Releasing(g, keys, done, targets, degrees, waiting);
    assert targets[0..] == targets;
    for j := 0 to |targets|
      invariant Shrinks(degrees, waiting, indegree, ready)
      invariant clean ==> Releasing(g, keys, done, targets[j..], indegree, ready)
    {
      ghost var before, queue := indegree, ready;
      assert targets[j] in targets;
      indegree, ready := Lower(keys, targets[j], indegree, ready);
      assert Shrinks(degrees, waiting, indegree, ready) by {
        LowerShrinks(keys, targets[j], before, queue, indegree, ready);
        ShrinksTwice(degrees, waiting, before, queue, indegree, ready);
      }
      if clean {
        ReleasedOne(g, keys, done, targets, j, before, queue, indegree, ready);
      }
    }
    assert targets[|targets|..] == [];
  }

  lemma {:induction false} ReleasedOne(g: Graph, keys: Keys, done: set<int>, targets: seq<int>, j: nat,
                                       degrees: map<int, int>,
                    waiting: seq<int>, indegree: map<int, int>, ready: seq<int>)
    requires j < |targets| && targets[j] in g.nodes && Releasing(g, keys, done, targets[j..], degrees, waiting)
    requires indegree == degrees[targets[j] := degrees[targets[j]] - 1]
    requires ready == if indegree[targets[j]] == 0 then Sort(keys, waiting + [targets[j]]) else waiting
    ensures Releasing(g, keys, done, targets[j + 1..], indegree, ready)
  {
    var rest, open := targets[j..], targets[j + 1..];
    assert rest == [targets[j]] + open;
    assert forall i :: 0 <= i < |open| ==> open[i] == rest[i + 1];
    assert targets[j] in rest && rest[0] == targets[j] && targets[j] !in open;
    AfterLower(g, keys, done, targets[j], open, degrees, waiting, indegree, ready);
  }

  /** The invariant of the main loop. */
  ghost predicate LoopState(g: Graph, keys: Keys, result: seq<int>, indegree: map<int, int>, ready: seq<int>) {
    && IsGreedy(g, keys, result)
    && Counts(g, Elems(result), [], indegree)
    && Queued(g, Elems(result), [], keys, ready)
  }

  /** One turn of the main loop: emit the head of the ready list, release its targets. */
  method EmitHead(ghost g: Graph, nodes: seq<int>, outgoing: map<int, set<int>>, keys: Keys,
                  ghost result: seq<int>, degrees: map<int, int>, waiting: seq<int>)
    returns (indegree: map<int, int>, ready: seq<int>)
    requires Distinct(nodes) && Elems(nodes) == g.nodes
    requires outgoing.Keys == degrees.Keys == g.nodes
    requires forall u, v :: u in g.nodes ==> (v in outgoing[u] <==> (u, v) in g.edges)
    requires waiting != [] && waiting[0] in g.nodes
    ensures Shrinks(degrees, waiting[1..], indegree, ready)
    ensures LoopState(g, keys, result, degrees, waiting) ==>
              LoopState(g, keys, result + [waiting[0]], indegree, ready)
  {
    var current := waiting[0];
    var targets := Sort(keys, Select(nodes, outgoing[current]));
    TargetsSorted(g, keys, nodes, current, outgoing[current], targets);
    ghost var done := Elems(result) + {current};
    indegree, ready := Release(g, keys, done, targets, degrees, waiting[1..]);
    if LoopState(g, keys, result, degrees, waiting) {
      HeadTaken(g, keys, result, degrees, waiting, targets);
      ElemsAppend(result, current);
    }
  }

  lemma {:induction false} HeadTaken(g: Graph, keys: Keys, result: seq<int>, degrees: map<int, int>,
                                     waiting: seq<int>, targets: seq<int>)
    requires LoopState(g, keys, result, degrees, waiting) && waiting != [] && TargetsOf(g, waiting[0], targets)
    ensures Releasing(g, keys, Elems(result) + {waiting[0]}, targets, degrees, waiting[1..])
    ensures IsGreedy(g, keys, result + [waiting[0]])
  {
    var current := waiting[0];
    assert current in waiting && Enabled(g, Elems(result), current);
    CountsAfterPop(g, Elems(result), current, targets, degrees);
    QueuedAfterPop(g, Elems(result), current, targets, keys, waiting);
    TargetsOpen(g, result, current, targets);
    HeadIsLeast(g, keys, result, waiting);
  }

  /** Everything that ever stood in the ready list is known, and what stood there first comes out. */
  ghost predicate Waits(nodes: set<int>, start: seq<int>, result: seq<int>, indegree: map<int, int>, ready: seq<int>) {
    && indegree.Keys == nodes
    && (forall v :: v in result || v in ready ==> v in nodes)
    && multiset(start) <= multiset(result) + multiset(ready)
  }

  lemma {:induction false} WaitsOn(nodes: set<int>, start: seq<int>, result: seq<int>, degrees: map<int, int>,
                                   waiting: seq<int>,
                indegree: map<int, int>, ready: seq<int>)
    requires Waits(nodes, start, result, degrees, waiting) && waiting != []
    requires Shrinks(degrees, waiting[1..], indegree, ready)
    ensures Waits(nodes, start, result + [waiting[0]], indegree, ready)
    ensures |Positive(indegree)| + |ready| < |Positive(degrees)| + |waiting|
  {
    assert waiting == [waiting[0]] + waiting[1..];
    assert forall v :: v in waiting[1..] ==> v in waiting;
  }

  /**
   The main loop and the sorted tail. From a ready list without repeats they produce a schedule; if
   a node stands there twice it comes out twice, and the result is none.
   */
  method EmitByPriority(ghost g: Graph, nodes: seq<int>, start: seq<int>, outgoing: map<int, set<int>>,
                        degrees: map<int, int>, keys: Keys)
    returns (result: seq<int>)
    requires Distinct(nodes) && Elems(nodes) == g.nodes
    requires Represents(g, outgoing, degrees)
    requires forall v :: v in start <==> v in g.nodes && degrees[v] == 0
    ensures Elems(result) == g.nodes
    ensures IsSchedule(g, keys, result) <==> Distinct(start)
  {
    var indegree, ready := degrees, Sort(keys, start);
    result := [];
    SameMembers(start, ready);
    StartQueue(g, keys, start, indegree, ready);
    while ready != []
      invariant Waits(g.nodes, start, result, indegree, ready)
      invariant Distinct(start) ==> LoopState(g, keys, result, indegree, ready)
      decreases |Positive(indegree)| + |ready|
    {
      var current := ready[0];
      assert current in ready;
      ghost var before, queue := indegree, ready;
      indegree, ready := EmitHead(g, nodes, outgoing, keys, result, indegree, ready);
      WaitsOn(g.nodes, start, result, before, queue, indegree, ready);
      result := result + [current];
    }
    var tail := Sort(keys, Select(nodes, Elems(nodes) - Elems(result)));
    FinishSchedule(g, keys, nodes, start, result, tail);
    result := result + tail;
  }

  lemma {:induction false} FinishSchedule(g: Graph, keys: Keys, nodes: seq<int>, start: seq<int>, s: seq<int>,
                                          tail: seq<int>)
    requires Distinct(nodes) && Elems(nodes) == g.nodes
    requires tail == Sort(keys, Select(nodes, Elems(nodes) - Elems(s)))
    requires (forall v :: v in s ==> v in g.nodes) && multiset(start) <= multiset(s)
    requires Distinct(start) ==> IsGreedy(g, keys, s) && forall v :: !Enabled(g, Elems(s), v)
    ensures Elems(s + tail) == g.nodes
    ensures IsSchedule(g, keys, s + tail) <==> Distinct(start)
  {
    var left := Select(nodes, Elems(nodes) - Elems(s));
    SameMembers(left, tail);
    forall v ensures v in s + tail <==> v in g.nodes {
      assert v in tail <==> v in Elems(tail);
      assert v in left <==> v in Elems(left);
      assert v in nodes <==> v in Elems(nodes);
    }
    if Distinct(start) {
      AppendTail(g, keys, nodes, s, tail);
    }
    if IsSchedule(g, keys, s + tail) {
      var k: nat :| IsScheduleAt(g, keys, s + tail, k);
      DistinctPart(start, s, tail);
    }
  }

  lemma {:induction false} DistinctPart(part: seq<int>, s: seq<int>, t: seq<int>)
    requires Distinct(s + t) && multiset(part) <= multiset(s)
    ensures Distinct(part)
  {
    DistinctByCount(s + t);
    DistinctByCount(part);
    assert forall x :: multiset(s + t)[x] == multiset(s)[x] + multiset(t)[x];
  }

  lemma {:induction false} StartQueue(g: Graph, keys: Keys, start: seq<int>, indegree: map<int, int>, ready: seq<int>)
    requires indegree.Keys == g.nodes && forall v :: v in g.nodes ==> indegree[v] == |Preds(g, v)|
    requires forall v :: v in start <==> v in g.nodes && indegree[v] == 0
    requires ready == Sort(keys, start)
    ensures Waits(g.nodes, start, [], indegree, ready)
    ensures Distinct(start) ==> LoopState(g, keys, [], indegree, ready)
  {
    SameMembers(start, ready);
    forall v | v in g.nodes ensures indegree[v] == Owed(g, Elems<int>([]), v) {
      assert Preds(g, v) - Elems<int>([]) == Preds(g, v);
    }
    forall v ensures v in ready <==> Enabled(g, Elems<int>([]), v) {
      assert v in ready <==> v in Elems(ready);
      assert v in start <==> v in Elems(start);
      OwedNothing(g, Elems<int>([]), v);
    }
  }

  lemma {:induction false} TargetsSorted(g: Graph, keys: Keys, nodes: seq<int>, c: int, out: set<int>,
                                         targets: seq<int>)
    requires Distinct(nodes) && Elems(nodes) == g.nodes
    requires forall v :: v in out <==> (c, v) in g.edges
    requires targets == Sort(keys, Select(nodes, out))
    ensures TargetsOf(g, c, targets)
  {
    SameMembers(Select(nodes, out), targets);
    forall v ensures v in targets <==> v in g.nodes && (c, v) in g.edges {
      assert v in targets <==> v in Elems(targets);
      assert v in Select(nodes, out) <==> v in Elems(Select(nodes, out));
      assert v in nodes <==> v in Elems(nodes);
    }
  }

  lemma {:induction false} TargetsOpen(g: Graph, s: seq<int>, c: int, targets: seq<int>)
    requires IsRun(g, s) && Enabled(g, Elems(s), c) && TargetsOf(g, c, targets)
    ensures forall v :: v in targets ==> v in g.nodes && v !in Elems(s) + {c}
  {
    forall v | v in targets ensures v !in Elems(s) + {c} {
      TargetIsOpen(g, s, c, v);
    }
  }

  lemma {:induction false} HeadIsLeast(g: Graph, keys: Keys, s: seq<int>, ready: seq<int>)
    requires IsGreedy(g, keys, s) && ready != [] && Queued(g, Elems(s), [], keys, ready)
    ensures IsGreedy(g, keys, s + [ready[0]])
  {
    forall w | w in g.nodes && Enabled(g, Elems(s), w)
      ensures !At(keys, w).Below(At(keys, ready[0]))
    {
      assert w in ready;
      var i :| 0 <= i < |ready| && ready[i] == w;
    }
    RunExtend(g, keys, s, ready[0]);
  }

  lemma {:induction false} AppendTail(g: Graph, keys: Keys, nodes: seq<int>, s: seq<int>, tail: seq<int>)
    requires Distinct(nodes) && Elems(nodes) == g.nodes
    requires IsGreedy(g, keys, s) && forall v :: !Enabled(g, Elems(s), v)
    requires tail == Sort(keys, Select(nodes, Elems(nodes) - Elems(s)))
    ensures IsScheduleAt(g, keys, s + tail, |s|)
  {
    var left := Select(nodes, Elems(nodes) - Elems(s));
    SameMembers(left, tail);
    RunFacts(g, s);
    var r, k := s + tail, |s|;
    assert r[..k] == s && r[k..] == tail;
    forall v ensures v in tail <==> v in g.nodes && v !in s {
      assert v in tail <==> v in Elems(tail);
      assert v in left <==> v in Elems(left);
      assert v in s <==> v in Elems(s);
    }
    forall i, j | 0 <= i < j < |r| ensures r[i] != r[j] {
      assert i < k <= j ==> r[i] in s && r[j] in tail;
    }
    assert Elems(r) == g.nodes by {
      assert forall v :: v in s ==> v in Elems(s);
    }
  }
}
