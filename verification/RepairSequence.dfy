/**
 The end of the bidirectional pipeline: identifiers are numbered, model-produced edges are
 normalised, `dependency_order` computes a repair sequence, and `_dependency_order` computes
 it again from that sequence when the output is normalised.
 */
module RepairSequence {
  import opened Sorting
  import opened Kahn
  import opened PriorityLoop
  import opened OrderLaws
  import opened Basics

  datatype Problem = Problem(id: int, isPrimary: bool, validationOrder: Option<int>)

  /** An edge as the model answered it; ends that are not integers are None. */
  datatype RawEdge = RawEdge(source: Option<int>, target: Option<int>, isCausal: bool)

  const MISSING_ORDER := 10_000

  // ---------- First pass: dependency_order ----------

  function PriorityKey(p: Problem): Key {
    Key(if p.isPrimary then 0 else 1,
        if p.validationOrder.Some? then p.validationOrder.value else MISSING_ORDER,
        p.id)
  }

  /** Keys by id; a later record with the same id replaces an earlier one. */
  ghost function PriorityKeys(problems: seq<Problem>): Keys {
    if problems == [] then map[] else
      var last := problems[|problems| - 1];
      PriorityKeys(problems[..|problems| - 1])[last.id := PriorityKey(last)]
  }

  ghost function Ids(problems: seq<Problem>): set<int> {
    set p | p in problems :: p.id
  }

  lemma {:induction false} PriorityKeysNameTheirId(problems: seq<Problem>)
    ensures PriorityKeys(problems).Keys == Ids(problems)
    ensures forall v :: v in PriorityKeys(problems) ==> PriorityKeys(problems)[v].third == v
  {
    if problems != [] {
      var n := |problems| - 1;
      PriorityKeysNameTheirId(problems[..n]);
      assert problems == problems[..n] + [problems[n]];
    }
  }

  lemma {:induction false} PriorityKeysNoTies(problems: seq<Problem>)
    ensures NoTies(PriorityKeys(problems), Ids(problems))
  {
    PriorityKeysNameTheirId(problems);
  }

  /** Record a is the one that counts for id v: the last one with that id. */
  ghost predicate IsRecord(problems: seq<Problem>, a: int, v: int) {
    0 <= a < |problems| && problems[a].id == v && forall c :: a < c < |problems| ==> problems[c].id != v
  }

  /** Primaries first, then the smaller validation order, 10000 if there is none, then the smaller id. */
  ghost predicate GoesBefore(p: Problem, u: int, q: Problem, v: int) {
    var m := match p.validationOrder case Some(n) => n case None => 10_000;
    var n := match q.validationOrder case Some(n) => n case None => 10_000;
    || (p.isPrimary && !q.isPrimary)
    || (p.isPrimary == q.isPrimary && (m < n || (m == n && u < v)))
  }

  /** If the problem at place j is ready at place i, it goes after the one that stands there. */
  ghost predicate ServedAt(problems: seq<Problem>, deps: seq<Edge>, r: seq<int>, i: nat, j: nat)
    requires i < |r| && j < |r|
  {
    IsReady(Ids(problems), true, deps, r, i, r[j]) ==>
      forall a, b :: IsRecord(problems, a, r[i]) && IsRecord(problems, b, r[j]) ==>
                       GoesBefore(problems[a], r[i], problems[b], r[j])
  }

  /** Whoever is ready is served in that order. */
  ghost predicate ServesByPriority(problems: seq<Problem>, deps: seq<Edge>, r: seq<int>) {
    forall i, j :: 0 <= i < j < |r| ==> ServedAt(problems, deps, r, i, j)
  }

  lemma {:induction false} KeyOfRecord(problems: seq<Problem>, a: int, v: int)
    requires IsRecord(problems, a, v)
    ensures At(PriorityKeys(problems), v) == PriorityKey(problems[a])
  {
    var n := |problems| - 1;
    if a < n {
      assert problems[..n][a] == problems[a];
      KeyOfRecord(problems[..n], a, v);
    }
  }

  lemma {:induction false} PriorityServedAt(problems: seq<Problem>, deps: seq<Edge>, r: seq<int>, i: nat, j: nat)
    requires IsSchedule(GraphOf(Ids(problems), true, deps), PriorityKeys(problems), r)
    requires i < j < |r| && r[i] != r[j]
    ensures ServedAt(problems, deps, r, i, j)
  {
    if IsReady(Ids(problems), true, deps, r, i, r[j]) {
      ScheduleServesReady(Ids(problems), true, deps, PriorityKeys(problems), r, i, j);
      forall a, b | IsRecord(problems, a, r[i]) && IsRecord(problems, b, r[j])
        ensures GoesBefore(problems[a], r[i], problems[b], r[j])
      {
        KeyOfRecord(problems, a, r[i]);
        KeyOfRecord(problems, b, r[j]);
      }
    }
  }

  lemma {:induction false} DependencyLaws(problems: seq<Problem>, deps: seq<Edge>, r: seq<int>)
    requires IsSchedule(GraphOf(Ids(problems), true, deps), PriorityKeys(problems), r)
    ensures Distinct(r) && forall v :: v in r <==> v in Ids(problems)
    ensures RespectsEdges(Ids(problems), true, deps, r)
    ensures ServesByPriority(problems, deps, r)
  {
    ScheduleIsPermutation(GraphOf(Ids(problems), true, deps), PriorityKeys(problems), r);
    assert forall v :: v in r <==> v in Elems(r);
    ScheduleKeepsEdges(Ids(problems), true, deps, PriorityKeys(problems), r);
    forall i, j | 0 <= i < j < |r| ensures ServedAt(problems, deps, r, i, j) {
      PriorityServedAt(problems, deps, r, i, j);
    }
  }

  method DependencyOrder(problems: seq<Problem>, deps: seq<Edge>) returns (result: seq<int>)
    ensures IsSchedule(GraphOf(Ids(problems), true, deps), PriorityKeys(problems), result)
    ensures Distinct(result) && forall v :: v in result <==> v in Ids(problems)
    ensures RespectsEdges(Ids(problems), true, deps, result)
    ensures ServesByPriority(problems, deps, result)
  {
    var keys: Keys, ids := map[], [];
    for i := 0 to |problems|
      invariant keys == PriorityKeys(problems[..i])
      invariant Distinct(ids) && Elems(ids) == Ids(problems[..i])
    {
      var p := problems[i];
      assert problems[..i + 1][..i] == problems[..i] && problems[..i + 1] == problems[..i] + [p];
      keys := keys[p.id := PriorityKey(p)];
      assert p.id in ids <==> p.id in Elems(ids);
      if p.id !in ids {
        ElemsAppend(ids, p.id);
        ids := ids + [p.id];
      }
    }
    TakeAll(problems);
    ghost var g := GraphOf(Ids(problems), true, deps);
    var outgoing, indegree := BuildAdjacency(Elems(ids), deps, true);
    var start := Select(ids, set v | v in ids && indegree[v] == 0);
    result := EmitByPriority(g, ids, start, outgoing, indegree, keys);
    DependencyLaws(problems, deps, result);
  }

  // ---------- Second pass: _dependency_order ----------

  /** The position a dict built with enumerate stores for x: its last one. */
  function Rank(s: seq<int>, x: int): int {
    if s == [] then MISSING_ORDER
    else if s[|s| - 1] == x then |s| - 1
    else Rank(s[..|s| - 1], x)
  }

  /** The last place of x, or 10000. */
  lemma {:induction false} RankIs(s: seq<int>, x: int)
    ensures x in s ==> 0 <= Rank(s, x) < |s| && s[Rank(s, x)] == x && x !in s[Rank(s, x) + 1..]
    ensures x !in s ==> Rank(s, x) == 10_000
  {
    if s != [] && s[|s| - 1] != x {
      var n := |s| - 1;
      assert s == s[..n] + [s[n]];
      RankIs(s[..n], x);
      if x in s[..n] {
        assert s[Rank(s, x) + 1..] == s[..n][Rank(s, x) + 1..] + [s[n]];
      }
    }
  }

  lemma {:induction false} RankOfDistinct(s: seq<int>, i: nat)
    requires Distinct(s) && i < |s|
    ensures Rank(s, s[i]) == i
  {
    if i < |s| - 1 {
      RankOfDistinct(s[..|s| - 1], i);
    }
  }

  function RankKeys(ids: seq<int>, request: seq<int>): Keys {
    map v | v in ids :: Key(Rank(request, v), Rank(ids, v), 0)
  }

  lemma {:induction false} RankKeysNoTies(ids: seq<int>, request: seq<int>)
    requires Distinct(ids)
    ensures NoTies(RankKeys(ids, request), Elems(ids))
  {
    var keys := RankKeys(ids, request);
    forall u, v | u in Elems(ids) && v in Elems(ids) && At(keys, u) == At(keys, v) ensures u == v {
      var i :| 0 <= i < |ids| && ids[i] == u;
      var j :| 0 <= j < |ids| && ids[j] == v;
      RankOfDistinct(ids, i);
      RankOfDistinct(ids, j);
    }
  }

  /** The members of a list, each once. */
  function Unique(ids: seq<int>): (r: seq<int>)
    ensures Distinct(r) && Elems(r) == Elems(ids)
  {
    if ids == [] then [] else
      var rest := Unique(ids[..|ids| - 1]);
      assert ids == ids[..|ids| - 1] + [ids[|ids| - 1]];
      ElemsAppend(ids[..|ids| - 1], ids[|ids| - 1]);
      ElemsAppend(rest, ids[|ids| - 1]);
      assert forall v :: v in rest <==> v in Elems(rest);
      if ids[|ids| - 1] in rest then rest else rest + [ids[|ids| - 1]]
  }

  /** No problem that waits for nothing is listed twice. */
  ghost predicate SourcesOnce(ids: seq<int>, deps: seq<Edge>) {
    forall i, j :: 0 <= i < j < |ids| && ids[i] == ids[j] ==> exists u :: Asks(Elems(ids), false, deps, u, ids[i])
  }

  /** Whoever is ready is served by place in the request, then by place in the list. */
  ghost predicate ServesByRequest(ids: seq<int>, deps: seq<Edge>, request: seq<int>, r: seq<int>) {
    forall i, j :: 0 <= i < j < |r| && IsReady(Elems(ids), false, deps, r, i, r[j]) ==>
                     || Rank(request, r[i]) < Rank(request, r[j])
                     || (Rank(request, r[i]) == Rank(request, r[j]) && Rank(ids, r[i]) < Rank(ids, r[j]))
  }

  lemma {:induction false} RequestServed(ids: seq<int>, deps: seq<Edge>, request: seq<int>, r: seq<int>)
    requires IsSchedule(GraphOf(Elems(ids), false, deps), RankKeys(ids, request), r)
    ensures ServesByRequest(ids, deps, request, r)
  {
    ScheduleIsPermutation(GraphOf(Elems(ids), false, deps), RankKeys(ids, request), r);
    forall i, j | 0 <= i < j < |r| && IsReady(Elems(ids), false, deps, r, i, r[j])
      ensures || Rank(request, r[i]) < Rank(request, r[j])
              || (Rank(request, r[i]) == Rank(request, r[j]) && Rank(ids, r[i]) < Rank(ids, r[j]))
    {
      assert r[i] in Elems(r) && r[j] in Elems(r);
      RankIs(ids, r[i]);
      RankIs(ids, r[j]);
      ScheduleServesReady(Elems(ids), false, deps, RankKeys(ids, request), r, i, j);
    }
  }

  /**
   The second pass. Every id comes out, and the result is the schedule exactly when no id without
   predecessors is listed twice; such an id would be queued and emitted twice.
   */
  method RequestedOrder(ids: seq<int>, deps: seq<Edge>, request: seq<int>) returns (result: seq<int>)
    ensures forall v :: v in result <==> v in ids
    ensures IsSchedule(GraphOf(Elems(ids), false, deps), RankKeys(ids, request), result) <==> SourcesOnce(ids, deps)
    ensures SourcesOnce(ids, deps) ==>
              && Distinct(result) && RespectsEdges(Elems(ids), false, deps, result)
              && ServesByRequest(ids, deps, request, result)
    ensures Distinct(ids) ==> SourcesOnce(ids, deps)
  {
    ghost var g := GraphOf(Elems(ids), false, deps);
    var outgoing, indegree := BuildAdjacency(Elems(ids), deps, false);
    var start := Select(ids, set v | v in ids && indegree[v] == 0);
    SelectedOnce(g, ids, deps, indegree, start);
    result := EmitByPriority(g, Unique(ids), start, outgoing, indegree, RankKeys(ids, request));
    assert forall v :: (v in result <==> v in Elems(result)) && (v in ids <==> v in Elems(ids));
    if SourcesOnce(ids, deps) {
      RequestLaws(ids, deps, request, result);
    }
  }

  lemma {:induction false} RequestLaws(ids: seq<int>, deps: seq<Edge>, request: seq<int>, r: seq<int>)
    requires IsSchedule(GraphOf(Elems(ids), false, deps), RankKeys(ids, request), r)
    ensures Distinct(r) && RespectsEdges(Elems(ids), false, deps, r) && ServesByRequest(ids, deps, request, r)
  {
    ScheduleIsPermutation(GraphOf(Elems(ids), false, deps), RankKeys(ids, request), r);
    ScheduleKeepsEdges(Elems(ids), false, deps, RankKeys(ids, request), r);
    RequestServed(ids, deps, request, r);
  }

  lemma {:induction false} SelectedOnce(g: Graph, ids: seq<int>, deps: seq<Edge>, indegree: map<int, int>,
                                        start: seq<int>)
    requires g == GraphOf(Elems(ids), false, deps) && indegree.Keys == Elems(ids)
    requires forall v :: v in ids ==> indegree[v] == |Preds(g, v)|
    requires start == Select(ids, set v | v in ids && indegree[v] == 0)
    ensures Distinct(start) <==> SourcesOnce(ids, deps)
  {
    var zero := set v | v in ids && indegree[v] == 0;
    SelectDistinctIff(ids, zero);
    forall v | v in ids ensures v in zero <==> !exists u :: Asks(Elems(ids), false, deps, u, v) {
      PredsAreAsked(ids, deps, v);
    }
  }

  lemma {:induction false} PredsAreAsked(ids: seq<int>, deps: seq<Edge>, v: int)
    ensures Preds(GraphOf(Elems(ids), false, deps), v) == {} <==> !exists u :: Asks(Elems(ids), false, deps, u, v)
  {
    forall u ensures u in Preds(GraphOf(Elems(ids), false, deps), v) <==> Asks(Elems(ids), false, deps, u, v) {
      EdgesOfGraph(Elems(ids), false, deps, u, v);
    }
  }

  ghost predicate IsPermutation(s: seq<int>, nodes: set<int>) {
    Distinct(s) && Elems(s) == nodes
  }

  /** When the request lists every problem once, keys follow its positions. */
  lemma {:induction false} RankKeysFollow(ids: seq<int>, request: seq<int>, i: nat, w: int)
    requires IsPermutation(request, Elems(ids)) && i < |request|
    requires w in ids && w !in Elems(request[..i])
    ensures !At(RankKeys(ids, request), w).Below(At(RankKeys(ids, request), request[i]))
  {
    assert w in Elems(request) && request[i] in Elems(request);
    var j :| 0 <= j < |request| && request[j] == w;
    RankOfDistinct(request, i);
    RankOfDistinct(request, j);
    assert request[i] in ids;
  }

  /** A run as long as a stuck run has emitted the same nodes, so it is stuck too. */
  lemma {:induction false} LongRunEmitsAll(g: Graph, front: seq<int>, stuck: seq<int>)
    requires IsRun(g, front) && IsRun(g, stuck) && Stuck(g, Elems(stuck)) && |front| == |stuck|
    ensures Elems(front) == Elems(stuck)
  {
    RunFacts(g, front);
    RunFacts(g, stuck);
    RunInsideStuck(g, front, Elems(stuck));
    CountDistinct(front);
    CountDistinct(stuck);
    SameSizeSubset(Elems(front), Elems(stuck));
  }

  lemma {:induction false} FrontIsGreedy(g: Graph, ids: seq<int>, request: seq<int>, k: nat)
    requires g.nodes == Elems(ids) && IsPermutation(request, g.nodes)
    requires k <= |request| && IsRun(g, request[..k])
    ensures IsGreedy(g, RankKeys(ids, request), request[..k])
  {
    var keys := RankKeys(ids, request);
    forall i, w | 0 <= i < k && w in g.nodes && Enabled(g, Elems(request[..k][..i]), w)
      ensures !At(keys, w).Below(At(keys, request[..k][i]))
    {
      assert request[..k][..i] == request[..i];
      RankKeysFollow(ids, request, i, w);
    }
  }

  lemma {:induction false} TailIsOrdered(ids: seq<int>, request: seq<int>, k: nat)
    requires IsPermutation(request, Elems(ids)) && k <= |request|
    ensures Ordered(RankKeys(ids, request), request[k..])
  {
    var keys, tail := RankKeys(ids, request), request[k..];
    forall i, j | 0 <= i < j < |tail| ensures !At(keys, tail[j]).Below(At(keys, tail[i])) {
      assert request[k + j] in Elems(request);
      RankKeysFollow(ids, request, k + i, request[k + j]);
    }
  }

  /** A request whose front is a complete run is already a schedule for its own ranks. */
  lemma {:induction false} RunnableRequestIsSchedule(g: Graph, ids: seq<int>, request: seq<int>, r: seq<int>, k: nat)
    requires Distinct(ids) && g.nodes == Elems(ids)
    requires IsScheduleAt(g, RankKeys(ids, request), r, k)
    requires IsPermutation(request, g.nodes)
    requires k <= |request| && IsRun(g, request[..k])
    ensures IsScheduleAt(g, RankKeys(ids, request), request, k)
  {
    LongRunEmitsAll(g, request[..k], r[..k]);
    FrontIsGreedy(g, ids, request, k);
    TailIsOrdered(ids, request, k);
  }

  /**
   The second pass gives a requested sequence back unchanged if and only if the request lists
   every problem once and its front, up to the number of problems no cycle reaches, is a run.
   */
  lemma {:induction false} RequestReproducedIff(ids: seq<int>, deps: seq<Edge>, request: seq<int>, r: seq<int>)
    requires Distinct(ids)
    requires IsSchedule(GraphOf(Elems(ids), false, deps), RankKeys(ids, request), r)
    ensures var g := GraphOf(Elems(ids), false, deps);
            r == request <==>
            && IsPermutation(request, g.nodes)
            && |Emittable(g)| <= |request|
            && IsRun(g, request[..|Emittable(g)|])
  {
    var g, keys := GraphOf(Elems(ids), false, deps), RankKeys(ids, request);
    var k: nat :| IsScheduleAt(g, keys, r, k);
    ScheduleSplit(g, keys, r, k);
    if IsPermutation(request, g.nodes) && k <= |request| && IsRun(g, request[..k]) {
      RunnableRequestIsSchedule(g, ids, request, r, k);
      RankKeysNoTies(ids, request);
      ScheduleUnique(g, keys, r, request);
    }
  }

  // ---------- The two passes together ----------

  ghost predicate NoSelfLoops(ids: set<int>, deps: seq<Edge>) {
    forall e :: e in deps && e.source in ids ==> e.source != e.target
  }

  lemma {:induction false} SameGraph(ids: set<int>, deps: seq<Edge>)
    requires NoSelfLoops(ids, deps)
    ensures GraphOf(ids, true, deps) == GraphOf(ids, false, deps)
  {
    assert forall e :: e in deps ==> Admitted(ids, true, e) == Admitted(ids, false, e);
  }

  /** Cycles or not, the second pass reproduces the sequence of the first. */
  lemma {:induction false} SecondPassAgrees(problems: seq<Problem>, deps: seq<Edge>, first: seq<int>, ids: seq<int>,
                                            second: seq<int>)
    requires Distinct(ids) && Elems(ids) == Ids(problems)
    requires NoSelfLoops(Ids(problems), deps)
    requires IsSchedule(GraphOf(Ids(problems), true, deps), PriorityKeys(problems), first)
    requires IsSchedule(GraphOf(Elems(ids), false, deps), RankKeys(ids, first), second)
    ensures second == first
  {
    SameGraph(Ids(problems), deps);
    var g := GraphOf(Elems(ids), false, deps);
    var k: nat :| IsScheduleAt(g, PriorityKeys(problems), first, k);
    ScheduleSplit(g, PriorityKeys(problems), first, k);
    RequestReproducedIff(ids, deps, first, second);
  }

  /** The second pass is idempotent, whatever was first requested. */
  lemma {:induction false} SecondPassIdempotent(ids: seq<int>, deps: seq<Edge>, request: seq<int>, r: seq<int>,
                                                again: seq<int>)
    requires Distinct(ids)
    requires IsSchedule(GraphOf(Elems(ids), false, deps), RankKeys(ids, request), r)
    requires IsSchedule(GraphOf(Elems(ids), false, deps), RankKeys(ids, r), again)
    ensures again == r
  {
    var g := GraphOf(Elems(ids), false, deps);
    var k: nat :| IsScheduleAt(g, RankKeys(ids, request), r, k);
    ScheduleSplit(g, RankKeys(ids, request), r, k);
    RequestReproducedIff(ids, deps, r, again);
  }

  /** With a self-loop the passes can disagree: only the first one counts the loop as a cycle. */
  lemma {:induction false} SelfLoopSplitsThePasses()
    ensures var problems := [Problem(1, false, None), Problem(2, true, None)];
            var deps := [Edge(1, 1), Edge(1, 2)];
            && IsSchedule(GraphOf({1, 2}, true, deps), PriorityKeys(problems), [2, 1])
            && IsSchedule(GraphOf({1, 2}, false, deps), RankKeys([1, 2], [2, 1]), [1, 2])
  {
    SelfLoopFirstPass();
    SelfLoopSecondPass();
  }

  lemma {:induction false} SelfLoopFirstPass()
    ensures IsScheduleAt(GraphOf({1, 2}, true, [Edge(1, 1), Edge(1, 2)]),
                         PriorityKeys([Problem(1, false, None), Problem(2, true, None)]), [2, 1], 0)
  {
    var problems := [Problem(1, false, None), Problem(2, true, None)];
    var deps := [Edge(1, 1), Edge(1, 2)];
    var g, keys := GraphOf({1, 2}, true, deps), PriorityKeys(problems);
    var one := [problems[0]];
    assert one[..0] == [] && problems[..1] == one;
    assert PriorityKeys(one) == map[1 := PriorityKey(problems[0])];
    assert keys == map[1 := PriorityKey(problems[0]), 2 := PriorityKey(problems[1])];
    assert deps[0] in deps && deps[1] in deps;
    assert 1 in Preds(g, 1) && 1 in Preds(g, 2);
    var r := [2, 1];
    assert r[..0] == [] && r[0..] == r;
    assert Elems(r) == {1, 2};
  }

  lemma {:induction false} SelfLoopSecondPass()
    ensures IsScheduleAt(GraphOf({1, 2}, false, [Edge(1, 1), Edge(1, 2)]), RankKeys([1, 2], [2, 1]), [1, 2], 2)
  {
    var deps := [Edge(1, 1), Edge(1, 2)];
    var h, keys := GraphOf({1, 2}, false, deps), RankKeys([1, 2], [2, 1]);
    assert deps[1] in deps;
    assert Preds(h, 1) == {} && Preds(h, 2) == {1};
    var t := [1, 2];
    assert t[..0] == [] && t[..1] == [1] && t[..2] == t && t[2..] == [];
    assert Elems(t) == {1, 2} && Elems(t[..1]) == {1};
  }

  // ---------- The pipeline ----------

  /** Problems are numbered 1, 2, ... in their current order. */
  method AssignProblemIds(problems: seq<Problem>) returns (numbered: seq<Problem>)
    ensures |numbered| == |problems|
    ensures forall i :: 0 <= i < |problems| ==> numbered[i] == problems[i].(id := i + 1)
  {
    numbered := [];
    for i := 0 to |problems|
      invariant |numbered| == i
      invariant forall j :: 0 <= j < i ==> numbered[j] == problems[j].(id := j + 1)
    {
      numbered := numbered + [problems[i].(id := i + 1)];
    }
  }

  predicate Names(rename: map<int, int>, end: Option<int>, id: int) {
    end.Some? && end.value in rename && rename[end.value] == id
  }

  /** What survives normalisation: causal edges between two different known problems. */
  ghost predicate Survives(rename: map<int, int>, raw: seq<RawEdge>, e: Edge) {
    && e.source != e.target
    && exists x :: x in raw && x.isCausal && Names(rename, x.source, e.source) && Names(rename, x.target, e.target)
  }

  method NormalizeDependencies(raw: seq<RawEdge>, rename: map<int, int>) returns (deps: seq<Edge>)
    ensures forall e :: e in deps <==> Survives(rename, raw, e)
    ensures Distinct(deps)
  {
    deps := [];
    for i := 0 to |raw|
      invariant forall e :: e in deps <==> Survives(rename, raw[..i], e)
      invariant Distinct(deps)
    {
      var x := raw[i];
      TakeNext(raw, i);
      assert forall e :: Survives(rename, raw[..i], e) ==> Survives(rename, raw[..i + 1], e);
      if x.isCausal && x.source.Some? && x.source.value in rename && x.target.Some? && x.target.value in rename
         && rename[x.source.value] != rename[x.target.value] {
        var e := Edge(rename[x.source.value], rename[x.target.value]);
        assert Survives(rename, raw[..i + 1], e);
        if e !in deps {
          deps := deps + [e];
        }
      }
    }
    TakeAll(raw);
  }

  /** Sorting a list of ids by their place in a permutation of it yields that permutation. */
  lemma {:induction false} SortBySequence(ids: seq<int>, sequence: seq<int>, keys: Keys)
    requires Distinct(ids) && IsPermutation(sequence, Elems(ids))
    requires forall v :: v in ids ==> At(keys, v) == Key(Rank(sequence, v) + 1, 0, 0)
    ensures Sort(keys, ids) == sequence
  {
    forall i | 0 <= i < |sequence| ensures At(keys, sequence[i]) == Key(i + 1, 0, 0) {
      assert sequence[i] in Elems(sequence);
      RankOfDistinct(sequence, i);
    }
    SameMembers(ids, Sort(keys, ids));
    forall u, v | u in Elems(ids) && v in Elems(ids) && At(keys, u) == At(keys, v) ensures u == v {
      assert u in Elems(sequence) && v in Elems(sequence);
      var i :| 0 <= i < |sequence| && sequence[i] == u;
      var j :| 0 <= j < |sequence| && sequence[j] == v;
    }
    OrderedUnique(keys, Sort(keys, ids), sequence);
  }

  /** The 1-based place of a problem; one that the sequence does not list goes to 10000. */
  function Place(sequence: seq<int>, v: int): int {
    if v in sequence then Rank(sequence, v) + 1 else MISSING_ORDER
  }

  function PlaceKeys(ids: seq<int>, sequence: seq<int>): Keys {
    map v | v in ids :: Key(Place(sequence, v), 0, 0)
  }

  /** The places of ids in their own list, to tell which of two comes first. */
  function ListKeys(ids: seq<int>): Keys {
    map v | v in ids :: Key(Rank(ids, v), 0, 0)
  }

  lemma {:induction false} ListedInOrder(ids: seq<int>, keys: Keys)
    requires Distinct(ids)
    ensures TiesBy(keys, ListKeys(ids), ids)
  {
    forall i, j | 0 <= i < j < |ids| ensures At(ListKeys(ids), ids[i]).Below(At(ListKeys(ids), ids[j])) {
      RankOfDistinct(ids, i);
      RankOfDistinct(ids, j);
    }
  }

  /**
   Give each problem its place in the sequence and sort the problems by place. Problems that the
   sequence does not list keep their order; a sequence that lists all of them is followed exactly.
   */
  method PlaceInSequence(ids: seq<int>, sequence: seq<int>) returns (order: seq<int>, places: seq<int>)
    ensures |places| == |order| && forall i :: 0 <= i < |order| ==> places[i] == Place(sequence, order[i])
    ensures forall i :: 0 <= i < |order| ==> IsPlace(sequence, order[i], places[i])
    ensures multiset(order) == multiset(ids) && forall i, j :: 0 <= i < j < |order| ==> places[i] <= places[j]
    ensures Ordered(PlaceKeys(ids, sequence), order)
    ensures Distinct(ids) ==> TiesBy(PlaceKeys(ids, sequence), ListKeys(ids), order)
    ensures Distinct(ids) && IsPermutation(sequence, Elems(ids)) ==> order == sequence && places == OneTo(|sequence|)
  {
    var keys := PlaceKeys(ids, sequence);
    order := Sort(keys, ids);
    places := [];
    for i := 0 to |order|
      invariant |places| == i
      invariant forall j :: 0 <= j < i ==> places[j] == Place(sequence, order[j])
    {
      places := places + [Place(sequence, order[i])];
    }
    PlacesRise(ids, sequence, order, places);
    if Distinct(ids) {
      ListedInOrder(ids, keys);
      SortStable(keys, ListKeys(ids), ids);
      if IsPermutation(sequence, Elems(ids)) {
        FollowsPermutation(ids, sequence);
        PlacesCount(sequence, places);
      }
    }
  }

  /** The 1-based place of the last occurrence of v, or 10000 if there is none. */
  ghost predicate IsPlace(sequence: seq<int>, v: int, place: int) {
    if v !in sequence then place == 10_000
    else 1 <= place <= |sequence| && sequence[place - 1] == v && v !in sequence[place..]
  }

  lemma {:induction false} PlacesRise(ids: seq<int>, sequence: seq<int>, order: seq<int>, places: seq<int>)
    requires multiset(order) == multiset(ids) && Ordered(PlaceKeys(ids, sequence), order) && |places| == |order|
    requires forall i :: 0 <= i < |order| ==> places[i] == Place(sequence, order[i])
    ensures forall i :: 0 <= i < |order| ==> IsPlace(sequence, order[i], places[i])
    ensures forall i, j :: 0 <= i < j < |order| ==> places[i] <= places[j]
  {
    forall i | 0 <= i < |order|
      ensures IsPlace(sequence, order[i], places[i]) && At(PlaceKeys(ids, sequence), order[i]) == Key(places[i], 0, 0)
    {
      RankIs(sequence, order[i]);
      assert order[i] in multiset(order);
      assert order[i] in ids;
    }
  }

  lemma {:induction false} FollowsPermutation(ids: seq<int>, sequence: seq<int>)
    requires Distinct(ids) && IsPermutation(sequence, Elems(ids))
    ensures Sort(PlaceKeys(ids, sequence), ids) == sequence
  {
    forall v | v in ids ensures At(PlaceKeys(ids, sequence), v) == Key(Rank(sequence, v) + 1, 0, 0) {
      assert v in Elems(sequence);
    }
    SortBySequence(ids, sequence, PlaceKeys(ids, sequence));
  }

  lemma {:induction false} PlacesCount(sequence: seq<int>, places: seq<int>)
    requires Distinct(sequence) && |places| == |sequence|
    requires forall i :: 0 <= i < |places| ==> places[i] == Place(sequence, sequence[i])
    ensures places == OneTo(|sequence|)
  {
    forall i | 0 <= i < |places| ensures places[i] == i + 1 {
      RankOfDistinct(sequence, i);
    }
  }

  lemma {:induction false} ScheduleIsPermutation(g: Graph, keys: Keys, r: seq<int>)
    requires IsSchedule(g, keys, r)
    ensures IsPermutation(r, g.nodes) && |r| == |g.nodes|
  {
    var k: nat :| IsScheduleAt(g, keys, r, k);
    CountDistinct(r);
  }

  /** Output normalisation: recompute the sequence, then list the problems by place. */
  method NormalizeOutput(ids: seq<int>, deps: seq<Edge>, request: seq<int>)
    returns (sequence: seq<int>, order: seq<int>, places: seq<int>)
    ensures forall v :: v in sequence <==> v in ids
    ensures IsSchedule(GraphOf(Elems(ids), false, deps), RankKeys(ids, request), sequence) <==> SourcesOnce(ids, deps)
    ensures multiset(order) == multiset(ids) && |places| == |order|
    ensures forall i :: 0 <= i < |order| ==> IsPlace(sequence, order[i], places[i])
    ensures forall i, j :: 0 <= i < j < |order| ==> places[i] <= places[j]
    ensures Distinct(ids) ==> SourcesOnce(ids, deps) && order == sequence && places == OneTo(|ids|)
  {
    sequence := RequestedOrder(ids, deps, request);
    order, places := PlaceInSequence(ids, sequence);
    if Distinct(ids) {
      ScheduleIsPermutation(GraphOf(Elems(ids), false, deps), RankKeys(ids, request), sequence);
      CountDistinct(ids);
    }
  }

  ghost function Numbered(problems: seq<Problem>): seq<Problem> {
    seq(|problems|, i requires 0 <= i < |problems| => problems[i].(id := i + 1))
  }

  function Identity(n: nat): map<int, int> {
    map v | v in OneTo(n) :: v
  }

  /** What the reconciliation stage promises about its edges and its sequence. */
  ghost predicate Reconciled(problems: seq<Problem>, raw: seq<RawEdge>, deps: seq<Edge>, sequence: seq<int>) {
    && (forall e :: e in deps <==> Survives(Identity(|problems|), raw, e))
    && IsSchedule(GraphOf(Ids(Numbered(problems)), true, deps), PriorityKeys(Numbered(problems)), sequence)
    && IsPermutation(sequence, Elems(OneTo(|problems|)))
  }

  // ---------- The laws over the model's own edges ----------

  /** Some causal edge of the answer leads from a to b, two different problems of the list. */
  ghost predicate RawAsks(raw: seq<RawEdge>, n: nat, a: int, b: int) {
    && 1 <= a <= n && 1 <= b <= n && a != b
    && exists x :: x in raw && x.isCausal && x.source == Some(a) && x.target == Some(b)
  }

  ghost predicate RawChain(raw: seq<RawEdge>, n: nat, p: seq<int>) {
    && p != [] && (forall i :: 0 <= i < |p| ==> 1 <= p[i] <= n)
    && (forall i :: 0 <= i < |p| - 1 ==> RawAsks(raw, n, p[i], p[i + 1]))
  }

  ghost predicate RawRepeatsInto(raw: seq<RawEdge>, n: nat, p: seq<int>, v: int) {
    RawChain(raw, n, p) && p[|p| - 1] == v && exists i, j :: 0 <= i < j < |p| && p[i] == p[j]
  }

  /** A chain of causal edges that meets some problem twice leads into v. */
  ghost predicate RawCircular(raw: seq<RawEdge>, n: nat, v: int) {
    exists p :: RawRepeatsInto(raw, n, p, v)
  }

  /** Every causal edge into a problem that no circle reaches is respected. */
  ghost predicate RespectsRaw(raw: seq<RawEdge>, n: nat, r: seq<int>) {
    forall a, b :: RawAsks(raw, n, a, b) && !RawCircular(raw, n, b) ==> Before(r, a, b)
  }

  /** All causal edges into v come from the first i places. */
  ghost predicate RawReady(raw: seq<RawEdge>, n: nat, r: seq<int>, i: nat, v: int) {
    forall u :: RawAsks(raw, n, u, v) ==> Among(r, i, u)
  }

  /** Whoever is ready is served primaries first, then by validation order, then by number. */
  ghost predicate ServesRaw(problems: seq<Problem>, raw: seq<RawEdge>, r: seq<int>) {
    forall i, j :: 0 <= i < j < |r| && RawReady(raw, |problems|, r, i, r[j]) ==>
                     && 1 <= r[i] <= |problems| && 1 <= r[j] <= |problems|
                     && GoesBefore(problems[r[i] - 1], r[i], problems[r[j] - 1], r[j])
  }

  lemma {:induction false} AsksIffRaw(problems: seq<Problem>, raw: seq<RawEdge>, deps: seq<Edge>, u: int, v: int)
    requires forall e :: e in deps <==> Survives(Identity(|problems|), raw, e)
    ensures Asks(Ids(Numbered(problems)), true, deps, u, v) <==> RawAsks(raw, |problems|, u, v)
  {
    var n := |problems|;
    NumberedIds(problems);
    InOneTo(n, u);
    InOneTo(n, v);
    if RawAsks(raw, n, u, v) {
      var x :| x in raw && x.isCausal && x.source == Some(u) && x.target == Some(v);
      assert Names(Identity(n), x.source, u) && Names(Identity(n), x.target, v);
      assert Survives(Identity(n), raw, Edge(u, v));
    }
    if Asks(Ids(Numbered(problems)), true, deps, u, v) {
      assert Survives(Identity(n), raw, Edge(u, v));
      var x :| x in raw && x.isCausal && Names(Identity(n), x.source, u) && Names(Identity(n), x.target, v);
      assert x.source == Some(u) && x.target == Some(v);
    }
  }

  lemma {:induction false} InOneTo(n: nat, v: int)
    ensures v in Elems(OneTo(n)) <==> 1 <= v <= n
    ensures v in Identity(n) <==> 1 <= v <= n
  {
    if 1 <= v <= n {
      assert OneTo(n)[v - 1] == v;
    }
  }

  lemma {:induction false} CircularIffRaw(problems: seq<Problem>, raw: seq<RawEdge>, deps: seq<Edge>, v: int)
    requires forall e :: e in deps <==> Survives(Identity(|problems|), raw, e)
    ensures Circular(Ids(Numbered(problems)), true, deps, v) ==> RawCircular(raw, |problems|, v)
  {
    if Circular(Ids(Numbered(problems)), true, deps, v) {
      var p :| RepeatsInto(Ids(Numbered(problems)), true, deps, p, v);
      NumberedIds(problems);
      forall i | 0 <= i < |p| ensures 1 <= p[i] <= |problems| {
        InOneTo(|problems|, p[i]);
      }
      forall i | 0 <= i < |p| - 1 ensures RawAsks(raw, |problems|, p[i], p[i + 1]) {
        AsksIffRaw(problems, raw, deps, p[i], p[i + 1]);
      }
      assert RawRepeatsInto(raw, |problems|, p, v);
    }
  }

  /** The sequence lists 1..n once each and keeps both laws over the answer. */
  ghost predicate KeepsRawLaws(problems: seq<Problem>, raw: seq<RawEdge>, r: seq<int>) {
    && Distinct(r) && (forall v :: v in r <==> 1 <= v <= |problems|)
    && RespectsRaw(raw, |problems|, r) && ServesRaw(problems, raw, r)
  }

  lemma {:induction false} RawEdgesKept(problems: seq<Problem>, raw: seq<RawEdge>, deps: seq<Edge>, r: seq<int>)
    requires forall e :: e in deps <==> Survives(Identity(|problems|), raw, e)
    requires RespectsEdges(Ids(Numbered(problems)), true, deps, r)
    ensures RespectsRaw(raw, |problems|, r)
  {
    forall a, b | RawAsks(raw, |problems|, a, b) && !RawCircular(raw, |problems|, b) ensures Before(r, a, b) {
      AsksIffRaw(problems, raw, deps, a, b);
      CircularIffRaw(problems, raw, deps, b);
    }
  }

  lemma {:induction false} RawPriorityKept(problems: seq<Problem>, raw: seq<RawEdge>, deps: seq<Edge>, r: seq<int>)
    requires forall e :: e in deps <==> Survives(Identity(|problems|), raw, e)
    requires ServesByPriority(Numbered(problems), deps, r) && forall v :: v in r <==> 1 <= v <= |problems|
    ensures ServesRaw(problems, raw, r)
  {
    forall i, j | 0 <= i < j < |r| && RawReady(raw, |problems|, r, i, r[j])
      ensures && 1 <= r[i] <= |problems| && 1 <= r[j] <= |problems|
              && GoesBefore(problems[r[i] - 1], r[i], problems[r[j] - 1], r[j])
    {
      assert r[i] in r && r[j] in r;
      ServedRaw(problems, raw, deps, r, i, j);
    }
  }

  lemma {:induction false} ReconciledLaws(problems: seq<Problem>, raw: seq<RawEdge>, deps: seq<Edge>, r: seq<int>)
    requires Reconciled(problems, raw, deps, r)
    ensures KeepsRawLaws(problems, raw, r)
  {
    DependencyLaws(Numbered(problems), deps, r);
    forall v ensures v in r <==> 1 <= v <= |problems| {
      assert v in r <==> v in Elems(r);
      InOneTo(|problems|, v);
    }
    RawEdgesKept(problems, raw, deps, r);
    RawPriorityKept(problems, raw, deps, r);
  }

  lemma {:induction false} ServedRaw(problems: seq<Problem>, raw: seq<RawEdge>, deps: seq<Edge>, r: seq<int>, i: nat,
                                     j: nat)
    requires forall e :: e in deps <==> Survives(Identity(|problems|), raw, e)
    requires ServesByPriority(Numbered(problems), deps, r)
    requires i < j < |r| && RawReady(raw, |problems|, r, i, r[j])
    requires 1 <= r[i] <= |problems| && 1 <= r[j] <= |problems|
    ensures GoesBefore(problems[r[i] - 1], r[i], problems[r[j] - 1], r[j])
  {
    var numbered := Numbered(problems);
    forall u | Asks(Ids(numbered), true, deps, u, r[j]) ensures Among(r, i, u) {
      AsksIffRaw(problems, raw, deps, u, r[j]);
    }
    assert ServedAt(numbered, deps, r, i, j);
    assert IsRecord(numbered, r[i] - 1, r[i]) && IsRecord(numbered, r[j] - 1, r[j]);
  }

  lemma {:induction false} SequenceOfNumbered(problems: seq<Problem>, raw: seq<RawEdge>, deps: seq<Edge>,
                                              sequence: seq<int>)
    requires forall e :: e in deps <==> Survives(Identity(|problems|), raw, e)
    requires IsSchedule(GraphOf(Ids(Numbered(problems)), true, deps), PriorityKeys(Numbered(problems)), sequence)
    ensures Reconciled(problems, raw, deps, sequence) && Distinct(OneTo(|problems|))
  {
    NumberedIds(problems);
    ScheduleIsPermutation(GraphOf(Ids(Numbered(problems)), true, deps), PriorityKeys(Numbered(problems)), sequence);
  }

  /** Assign ids, normalise edges, order the problems and sort them by their place. */
  method Reconcile(problems: seq<Problem>, raw: seq<RawEdge>)
    returns (deps: seq<Edge>, sequence: seq<int>, order: seq<int>, places: seq<int>)
    ensures Reconciled(problems, raw, deps, sequence)
    ensures KeepsRawLaws(problems, raw, sequence)
    ensures order == sequence && places == OneTo(|sequence|)
  {
    var selected := AssignProblemIds(problems);
    assert selected == Numbered(problems);
    deps := NormalizeDependencies(raw, Identity(|problems|));
    sequence := DependencyOrder(selected, deps);
    SequenceOfNumbered(problems, raw, deps, sequence);
    ReconciledLaws(problems, raw, deps, sequence);
    order, places := PlaceInSequence(OneTo(|problems|), sequence);
  }

  /** The second pass over what the first one left gives the same list again. */
  lemma {:induction false} SamePass(problems: seq<Problem>, raw: seq<RawEdge>, deps: seq<Edge>, first: seq<int>,
                                    second: seq<int>)
    requires Reconciled(problems, raw, deps, first)
    requires IsSchedule(GraphOf(Elems(first), false, deps), RankKeys(first, first), second)
    ensures second == first && |first| == |problems|
  {
    NumberedIds(problems);
    SecondPassAgrees(Numbered(problems), deps, first, first, second);
    CountDistinct(first);
    CountDistinct(OneTo(|problems|));
  }

  /** From selected problems and raw model edges to the normalised output. */
  method ReconcileAndNormalize(problems: seq<Problem>, raw: seq<RawEdge>)
    returns (sequence: seq<int>, deps: seq<Edge>, order: seq<int>, places: seq<int>)
    ensures Reconciled(problems, raw, deps, sequence)
    ensures KeepsRawLaws(problems, raw, sequence)
    ensures order == sequence && |places| == |order| == |problems|
    ensures forall i :: 0 <= i < |places| ==> places[i] == i + 1
  {
    var first, listed, before, second;
    deps, first, listed, before := Reconcile(problems, raw);
    second, order, places := NormalizeOutput(listed, deps, first);
    SamePass(problems, raw, deps, first, second);
    sequence := first;
  }

  lemma {:induction false} NumberedIds(problems: seq<Problem>)
    ensures Ids(Numbered(problems)) == Elems(OneTo(|problems|))
    ensures Distinct(OneTo(|problems|))
  {
    var ids, numbered := OneTo(|problems|), Numbered(problems);
    forall v ensures v in Ids(numbered) <==> v in ids {
      if v in ids {
        var i :| 0 <= i < |ids| && ids[i] == v;
        assert numbered[i] in numbered && numbered[i].id == v;
      }
      if v in Ids(numbered) {
        var p :| p in numbered && p.id == v;
        var i :| 0 <= i < |numbered| && numbered[i] == p;
        assert ids[i] == v;
      }
    }
  }
}
