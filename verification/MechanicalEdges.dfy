/**
 The fallback dependency stage that asks no model: problems grouped by validation command,
 mechanical edges inside each group, and the repair order computed from them.
 */
module MechanicalEdges {
  import opened Basics
  import opened Text
  import opened Sorting
  import opened Kahn
  import opened PriorityLoop
  import opened RepairOrder
  import opened OrderLaws

  // ---------- The heuristics ----------

  const CONFIG_PATTERNS := ["pyproject.toml", "setup.py", "setup.cfg", "requirements.txt", ".yml", ".yaml",
                            "Makefile", ".ini", ".cfg", "tox.ini"]

  /** The name or the ending of a configuration file occurs in f. */
  ghost predicate IsConfigFile(f: string) {
    exists c :: Contains(f, c)
                && c in {"pyproject.toml", "setup.py", "setup.cfg", "requirements.txt", ".yml", ".yaml", "Makefile",
                         ".ini", ".cfg", "tox.ini"}
  }

  ghost predicate IsConfig(p: Problem) {
    exists f :: f in p.files && IsConfigFile(f)
  }

  /** An edge is drawn from a to a later b: by configuration, by shared files, or by size. */
  ghost predicate Related(a: Problem, b: Problem) {
    var filesA, filesB := Elems(a.files), Elems(b.files);
    var shared := filesA * filesB;
    && a.files != [] && b.files != []
    && (|| (IsConfig(a) && !IsConfig(b))
        || (shared != {} && 5 * |shared| > |filesA|)
        || (shared != {} && 5 * |shared| > |filesB|)
        || (shared == {} && |filesA| < |filesB| && |filesA| <= 3))
  }

  method IsConfigProblem(p: Problem) returns (yes: bool)
    ensures yes <==> IsConfig(p)
  {
    for i := 0 to |p.files|
      invariant forall k :: 0 <= k < i ==> !IsConfigFile(p.files[k])
    {
      ConfigFileIff(p.files[i]);
      if ContainsAny(p.files[i], CONFIG_PATTERNS) {
        assert p.files[i] in p.files;
        return true;
      }
    }
    yes := false;
  }

  lemma {:induction false} ConfigFileIff(f: string)
    ensures ContainsAny(f, CONFIG_PATTERNS) <==> IsConfigFile(f)
  {
    ContainsAnyIff(f, CONFIG_PATTERNS);
    if c :| c in CONFIG_PATTERNS && Contains(f, c) {
      assert IsConfigFile(f);
    }
    if IsConfigFile(f) {
      var c :| Contains(f, c) && c in {"pyproject.toml", "setup.py", "setup.cfg", "requirements.txt", ".yml", ".yaml",
                                       "Makefile", ".ini", ".cfg", "tox.ini"};
      assert c in CONFIG_PATTERNS;
    }
  }

  /** The three rules, tried in turn on an earlier and a later problem of a group. */
  method DrawsEdge(a: Problem, b: Problem) returns (yes: bool)
    ensures yes <==> Related(a, b)
  {
    var filesA, filesB := Elems(a.files), Elems(b.files);
    EmptyElems(a.files);
    EmptyElems(b.files);
    if filesA == {} || filesB == {} {
      return false;
    }
    var configA := IsConfigProblem(a);
    var configB := IsConfigProblem(b);
    if configA && !configB {
      return true;
    }
    var overlap := filesA * filesB;
    if overlap != {} {
      // More than half of the smaller list is a strong edge, more than a fifth a weak one.
      yes := 2 * |overlap| > Min(|filesA|, |filesB|) || 5 * |overlap| > Min(|filesA|, |filesB|);
    } else {
      yes := |filesA| < |filesB| && |filesA| <= 3;
    }
  }

  lemma {:induction false} EmptyElems(s: seq<string>)
    ensures Elems(s) == {} <==> s == []
  {
    if s != [] {
      assert s[0] in Elems(s);
    }
  }

  ghost predicate PairEdge(problems: seq<Problem>, group: seq<int>, a: int, b: int, e: Edge) {
    && 0 <= a < b < |group|
    && 1 <= group[a] <= |problems| && 1 <= group[b] <= |problems|
    && e == Edge(group[a], group[b])
    && Related(problems[group[a] - 1], problems[group[b] - 1])
  }

  /** Every ordered pair of a group is compared once. */
  method Detect(problems: seq<Problem>, group: seq<int>) returns (edges: seq<Edge>)
    requires forall v :: v in group ==> 1 <= v <= |problems|
    ensures forall e :: e in edges <==> exists a, b :: PairEdge(problems, group, a, b, e)
  {
    edges := [];
    for i := 0 to |group|
      invariant forall e :: e in edges <==> exists a, b :: PairEdge(problems, group, a, b, e) && a < i
    {
      ghost var before := edges;
      for j := 0 to |group|
        invariant forall e :: e in edges <==> e in before || exists b :: PairEdge(problems, group, i, b, e) && b < j
      {
        assert group[i] in group && group[j] in group;
        var drawn := DrawsEdge(problems[group[i] - 1], problems[group[j] - 1]);
        if i < j && drawn {
          assert PairEdge(problems, group, i, j, Edge(group[i], group[j]));
          edges := edges + [Edge(group[i], group[j])];
        }
      }
    }
  }

  // ---------- Grouping ----------

  datatype Selector = WithCommand(cmd: string) | OfClass(primary: bool)

  predicate Picks(sel: Selector, p: Problem) {
    match sel
    case WithCommand(cmd) => p.validationCmd == cmd
    case OfClass(primary) => p.isPrimary == primary
  }

  /** The 1-based indices of the selected problems, in increasing order. */
  function Indices(problems: seq<Problem>, sel: Selector): seq<int> {
    if problems == [] then [] else
      var n := |problems|;
      Indices(problems[..n - 1], sel) + if Picks(sel, problems[n - 1]) then [n] else []
  }

  lemma {:induction false} IndicesFacts(problems: seq<Problem>, sel: Selector)
    ensures forall i :: i in Indices(problems, sel) <==> 1 <= i <= |problems| && Picks(sel, problems[i - 1])
    ensures Increasing(Indices(problems, sel))
  {
    if problems != [] {
      var n := |problems|;
      var rest := Indices(problems[..n - 1], sel);
      IndicesFacts(problems[..n - 1], sel);
      forall i ensures i in Indices(problems, sel) <==> 1 <= i <= n && Picks(sel, problems[i - 1]) {
        assert i in Indices(problems, sel) <==> i in rest || (i == n && Picks(sel, problems[n - 1]));
      }
      assert forall k :: 0 <= k < |rest| ==> rest[k] in rest;
    }
  }

  /** One more problem extends exactly the lists that select it. */
  lemma {:induction false} IndicesGrow(problems: seq<Problem>, i: nat, sel: Selector)
    requires i < |problems|
    ensures Indices(problems[..i + 1], sel) ==
            Indices(problems[..i], sel) + if Picks(sel, problems[i]) then [i + 1] else []
  {
    TakeNext(problems, i);
  }

  ghost predicate Grouped(problems: seq<Problem>, commands: seq<string>, groups: map<string, seq<int>>) {
    && Distinct(commands)
    && (forall cmd :: cmd in groups <==> cmd in commands)
    && (forall cmd :: Indices(problems, WithCommand(cmd)) == GroupAt(groups, cmd))
  }

  /** The indices filed under a command so far. */
  function GroupAt(groups: map<string, seq<int>>, cmd: string): seq<int> {
    if cmd in groups then groups[cmd] else []
  }

  lemma {:induction false} GroupedNext(problems: seq<Problem>, i: nat, commands: seq<string>, groups: map<string,
                                       seq<int>>)
    requires i < |problems| && Grouped(problems[..i], commands, groups)
    ensures var cmd := problems[i].validationCmd;
            Grouped(problems[..i + 1], if cmd in groups then commands else commands + [cmd],
                    groups[cmd := GroupAt(groups, cmd) + [i + 1]])
  {
    var cmd := problems[i].validationCmd;
    var after := groups[cmd := GroupAt(groups, cmd) + [i + 1]];
    forall c ensures Indices(problems[..i + 1], WithCommand(c)) == GroupAt(after, c) {
      IndicesGrow(problems, i, WithCommand(c));
      assert Indices(problems[..i], WithCommand(c)) == GroupAt(groups, c);
      JoinEmpty(GroupAt(groups, c));
    }
  }

  method GroupByCommand(problems: seq<Problem>) returns (commands: seq<string>, groups: map<string, seq<int>>)
    ensures Grouped(problems, commands, groups)
  {
    commands, groups := [], map[];
    for i := 0 to |problems|
      invariant Grouped(problems[..i], commands, groups)
    {
      var cmd := problems[i].validationCmd;
      GroupedNext(problems, i, commands, groups);
      commands := if cmd in groups then commands else commands + [cmd];
      groups := groups[cmd := GroupAt(groups, cmd) + [i + 1]];
    }
    TakeAll(problems);
  }

  // ---------- The repair order ----------

  function Class(problems: seq<Problem>, primary: bool): seq<int> {
    Indices(problems, OfClass(primary))
  }

  /** Primaries first, then hidden problems, each class scheduled on its own edges. */
  ghost predicate IsRepairOrder(problems: seq<Problem>, edges: seq<Edge>, order: seq<int>) {
    var primaries, hidden := Class(problems, true), Class(problems, false);
    && |order| == |problems| == |primaries| + |hidden|
    && IsQueueOrder(primaries, edges, OrderKeys(problems), order[..|primaries|])
    && IsQueueOrder(hidden, edges, OrderKeys(problems), order[|primaries|..])
  }

  /** Problems and edges determine the repair order, equal validation orders or not. */
  lemma {:induction false} RepairOrderUnique(problems: seq<Problem>, edges: seq<Edge>, order: seq<int>, other: seq<int>)
    requires IsRepairOrder(problems, edges, order) && IsRepairOrder(problems, edges, other)
    ensures order == other
  {
    var n, keys := |Class(problems, true)|, OrderKeys(problems);
    QueueOrderUnique(Class(problems, true), edges, keys, order[..n], other[..n]);
    QueueOrderUnique(Class(problems, false), edges, keys, order[n..], other[n..]);
    assert order == order[..n] + order[n..] && other == other[..n] + other[n..];
  }

  lemma {:induction false} ClassSizes(problems: seq<Problem>)
    ensures |Class(problems, true)| + |Class(problems, false)| == |problems|
  {
    if problems != [] {
      ClassSizes(problems[..|problems| - 1]);
    }
  }

  lemma {:induction false} ScheduleLength(indices: seq<int>, edges: seq<Edge>, keys: Keys, r: seq<int>)
    requires Distinct(indices) && IsQueueOrder(indices, edges, keys, r)
    ensures |r| == |indices| && Distinct(r) && Elems(r) == Elems(indices)
  {
    var k: nat :| IsQueueOrderAt(indices, edges, keys, r, k);
    CountDistinct(r);
    CountDistinct(indices);
  }

  /** The mechanical edges of the whole problem list. */
  ghost predicate InGroup(problems: seq<Problem>, cmd: string, e: Edge) {
    exists a, b :: PairEdge(problems, Indices(problems, WithCommand(cmd)), a, b, e)
  }

  /** A group of one problem has no edges. */
  method DetectGroup(problems: seq<Problem>, ghost cmd: string, group: seq<int>) returns (edges: seq<Edge>)
    requires group == Indices(problems, WithCommand(cmd))
    ensures forall e :: e in edges <==> InGroup(problems, cmd, e)
  {
    IndicesFacts(problems, WithCommand(cmd));
    edges := [];
    if |group| > 1 {
      edges := Detect(problems, group);
    }
  }

  method DetectAll(problems: seq<Problem>) returns (edges: seq<Edge>)
    ensures forall e :: e in edges <==> exists cmd :: InGroup(problems, cmd, e)
  {
    var commands, groups := GroupByCommand(problems);
    AreGroups(problems, commands, groups);
    edges := DetectGroups(problems, commands, groups);
    AllGroups(problems, commands, groups);
  }

  method DetectGroups(problems: seq<Problem>, commands: seq<string>, groups: map<string, seq<int>>)
    returns (edges: seq<Edge>)
    requires GroupsOf(problems, commands, groups)
    ensures forall e :: e in edges <==> InGroups(problems, commands, e)
  {
    edges := [];
    for i := 0 to |commands|
      invariant forall e :: e in edges <==> InGroups(problems, commands[..i], e)
    {
      edges := AddGroup(problems, commands, i, groups[commands[i]], edges);
    }
    TakeAll(commands);
  }

  ghost predicate GroupsOf(problems: seq<Problem>, commands: seq<string>, groups: map<string, seq<int>>) {
    forall i :: 0 <= i < |commands| ==>
                  commands[i] in groups && groups[commands[i]] == Indices(problems, WithCommand(commands[i]))
  }

  lemma {:induction false} AreGroups(problems: seq<Problem>, commands: seq<string>, groups: map<string, seq<int>>)
    requires Grouped(problems, commands, groups)
    ensures GroupsOf(problems, commands, groups)
  {
    assert forall i :: 0 <= i < |commands| ==> commands[i] in commands;
  }

  method AddGroup(problems: seq<Problem>, ghost commands: seq<string>, ghost i: nat, group: seq<int>, before: seq<Edge>)
    returns (edges: seq<Edge>)
    requires i < |commands| && group == Indices(problems, WithCommand(commands[i]))
    requires forall e :: e in before <==> InGroups(problems, commands[..i], e)
    ensures forall e :: e in edges <==> InGroups(problems, commands[..i + 1], e)
  {
    var more := DetectGroup(problems, commands[i], group);
    edges := before + more;
    forall e ensures e in edges <==> InGroups(problems, commands[..i + 1], e) {
      OneMoreGroup(problems, commands, i, e);
    }
  }

  ghost predicate InGroups(problems: seq<Problem>, commands: seq<string>, e: Edge) {
    exists k :: 0 <= k < |commands| && InGroup(problems, commands[k], e)
  }

  lemma {:induction false} OneMoreGroup(problems: seq<Problem>, commands: seq<string>, i: nat, e: Edge)
    requires i < |commands|
    ensures InGroups(problems, commands[..i + 1], e) <==>
            InGroups(problems, commands[..i], e) || InGroup(problems, commands[i], e)
  {
    var upTo := commands[..i + 1];
    if InGroups(problems, commands[..i], e) {
      var k :| 0 <= k < i && InGroup(problems, commands[..i][k], e);
      assert upTo[k] == commands[..i][k];
    }
    assert upTo[i] == commands[i];
    if k :| 0 <= k < i + 1 && InGroup(problems, upTo[k], e) {
      assert k < i ==> commands[..i][k] == upTo[k];
    }
  }

  lemma {:induction false} AllGroups(problems: seq<Problem>, commands: seq<string>, groups: map<string, seq<int>>)
    requires Grouped(problems, commands, groups)
    ensures forall e :: InGroups(problems, commands, e) <==> exists cmd :: InGroup(problems, cmd, e)
  {
    forall cmd, e | InGroup(problems, cmd, e) ensures InGroups(problems, commands, e) {
      EmptyGroup(problems, cmd, e);
      assert cmd in commands;
      var k :| 0 <= k < |commands| && commands[k] == cmd;
    }
  }

  lemma {:induction false} EmptyGroup(problems: seq<Problem>, cmd: string, e: Edge)
    requires InGroup(problems, cmd, e)
    ensures Indices(problems, WithCommand(cmd)) != []
  {
  }

  lemma {:induction false} BeforeInPart(s: seq<int>, from: nat, to: nat, u: int, v: int)
    requires from <= to <= |s| && Before(s[from..to], u, v)
    ensures Before(s, u, v)
  {
    var i, j :| 0 <= i < j < to - from && s[from..to][i] == u && s[from..to][j] == v;
    assert s[from + i] == u && s[from + j] == v;
  }

  /** One class under increasing edges: no cycle, so the sort never needs its fallback. */
  lemma {:induction false} ClassIsTopological(indices: seq<int>, edges: seq<Edge>, keys: Keys, r: seq<int>)
    requires forall e :: e in edges ==> e.source < e.target
    requires IsQueueOrder(indices, edges, keys, r)
    ensures IsTopologicalOrder(GraphOf(Elems(indices), true, edges), r)
    ensures forall e :: e in edges && e.source in indices && e.target in indices ==> Before(r, e.source, e.target)
  {
    var g := GraphOf(Elems(indices), true, edges);
    var k: nat :| IsQueueOrderAt(indices, edges, keys, r, k);
    assert IsSchedule(g, keys, r);
    IncreasingIsAcyclic(g);
    TopologicalOrderIffAcyclic(g, keys, r);
    forall e | e in edges && e.source in indices && e.target in indices ensures Before(r, e.source, e.target) {
      assert e.source in g.nodes && e.target in Emittable(g);
      ScheduleRespectsEdges(g, keys, r, e.source, e.target);
    }
  }

  /** order lists each of 1..n exactly once. */
  ghost predicate ListsOneTo(order: seq<int>, n: nat) {
    Distinct(order) && forall v :: v in order <==> 1 <= v <= n
  }

  ghost predicate PrimaryIndex(problems: seq<Problem>, v: int) {
    1 <= v <= |problems| && problems[v - 1].isPrimary
  }

  ghost predicate PrimariesFirst(problems: seq<Problem>, order: seq<int>) {
    forall i, j :: 0 <= i < j < |order| && PrimaryIndex(problems, order[j]) ==> PrimaryIndex(problems, order[i])
  }

  ghost predicate SameClass(problems: seq<Problem>, e: Edge) {
    && 1 <= e.source <= |problems| && 1 <= e.target <= |problems|
    && problems[e.source - 1].isPrimary == problems[e.target - 1].isPrimary
  }

  /** The indices of one class. */
  ghost function Members(problems: seq<Problem>, primary: bool): set<int> {
    set v | 1 <= v <= |problems| && InClass(problems, v, primary)
  }

  ghost predicate InClass(problems: seq<Problem>, v: int, primary: bool) {
    1 <= v <= |problems| && problems[v - 1].isPrimary == primary
  }

  /** Inside a class, every edge into a problem that no circle of the class reaches is respected. */
  ghost predicate RespectsClassEdges(problems: seq<Problem>, edges: seq<Edge>, order: seq<int>) {
    forall e :: e in edges && SameClass(problems, e)
                && !Circular(Members(problems, problems[e.target - 1].isPrimary), true, edges, e.target)
                ==> Before(order, e.source, e.target)
  }

  /** Inside a class, whoever is ready is served by validation order, 999 if there is none. */
  ghost predicate ServesByOrder(problems: seq<Problem>, edges: seq<Edge>, order: seq<int>) {
    forall i, j :: 0 <= i < j < |order| && SameClass(problems, Edge(order[i], order[j]))
                   && IsReady(Members(problems, problems[order[j] - 1].isPrimary), true, edges, order, i, order[j])
                   ==> NotLater(problems[order[i] - 1], problems[order[j] - 1])
  }

  ghost predicate NotLater(p: Problem, q: Problem) {
    var m := match p.validationOrder case Some(n) => n case None => 999;
    var n := match q.validationOrder case Some(n) => n case None => 999;
    m <= n
  }

  lemma {:induction false} MembersAre(problems: seq<Problem>, primary: bool)
    ensures Elems(Class(problems, primary)) == Members(problems, primary)
  {
    IndicesFacts(problems, OfClass(primary));
    assert forall v :: v in Elems(Class(problems, primary)) <==> v in Class(problems, primary);
  }

  /** The part of a repair order that lists one class. */
  ghost function PartFrom(problems: seq<Problem>, primary: bool): nat {
    if primary then 0 else |Class(problems, true)|
  }

  ghost function PartTo(problems: seq<Problem>, order: seq<int>, primary: bool): nat {
    if primary then |Class(problems, true)| else |order|
  }

  ghost function PartOf(problems: seq<Problem>, order: seq<int>, primary: bool): seq<int>
    requires |Class(problems, true)| <= |order|
  {
    order[PartFrom(problems, primary)..PartTo(problems, order, primary)]
  }

  /** What the part of a class keeps. */
  ghost predicate PartKeeps(problems: seq<Problem>, edges: seq<Edge>, order: seq<int>, primary: bool) {
    && |Class(problems, true)| <= |order|
    && PartLists(problems, order, primary)
    && RespectsEdges(Members(problems, primary), true, edges, PartOf(problems, order, primary))
    && ServesByKey(Members(problems, primary), edges, OrderKeys(problems), PartOf(problems, order, primary))
  }

  /** The part of a class lists exactly its members. */
  ghost predicate PartLists(problems: seq<Problem>, order: seq<int>, primary: bool) {
    && |Class(problems, true)| <= |order|
    && Distinct(PartOf(problems, order, primary))
    && forall v :: v in PartOf(problems, order, primary) <==> v in Members(problems, primary)
  }

  lemma {:induction false} RepairPart(problems: seq<Problem>, edges: seq<Edge>, order: seq<int>, primary: bool)
    requires IsRepairOrder(problems, edges, order)
    ensures PartKeeps(problems, edges, order, primary)
  {
    var n := |Class(problems, true)|;
    assert order[..n] == order[0..n] && order[n..] == order[n..|order|];
    MembersAre(problems, primary);
    assert forall v :: v in Class(problems, primary) <==> v in Elems(Class(problems, primary));
    QueueOrderLaws(Class(problems, primary), edges, OrderKeys(problems), PartOf(problems, order, primary));
  }

  lemma {:induction false} ClassEdgesKept(problems: seq<Problem>, edges: seq<Edge>, order: seq<int>)
    requires forall primary :: PartKeeps(problems, edges, order, primary)
    ensures RespectsClassEdges(problems, edges, order)
  {
    forall e | e in edges && SameClass(problems, e)
               && !Circular(Members(problems, problems[e.target - 1].isPrimary), true, edges, e.target)
      ensures Before(order, e.source, e.target)
    {
      var primary := problems[e.target - 1].isPrimary;
      assert PartKeeps(problems, edges, order, primary);
      assert e == Edge(e.source, e.target);
      assert Asks(Members(problems, primary), true, edges, e.source, e.target);
      BeforeInPart(order, PartFrom(problems, primary), PartTo(problems, order, primary), e.source, e.target);
    }
  }

  /** The place of a problem lies in the part of its class. */
  lemma {:induction false} PlaceInPart(problems: seq<Problem>, edges: seq<Edge>, order: seq<int>, i: nat)
    requires forall primary :: PartLists(problems, order, primary)
    requires i < |order|
    ensures 1 <= order[i] <= |problems|
    ensures var primary := problems[order[i] - 1].isPrimary;
            PartFrom(problems, primary) <= i < PartTo(problems, order, primary)
  {
    var first := i < |Class(problems, true)|;
    assert PartLists(problems, order, first);
    var part := PartOf(problems, order, first);
    assert part[i - PartFrom(problems, first)] == order[i] && order[i] in part;
    assert InClass(problems, order[i], first);
  }

  /** A member of the class that stands among the first i places does so in the part of its class. */
  lemma {:induction false} AmongPart(problems: seq<Problem>, edges: seq<Edge>, order: seq<int>, primary: bool, i: nat,
                                     u: int)
    requires forall primary :: PartLists(problems, order, primary)
    requires PartFrom(problems, primary) <= i <= |order| && Among(order, i, u) && InClass(problems, u, primary)
    ensures |Class(problems, true)| <= |order|
    ensures Among(PartOf(problems, order, primary), i - PartFrom(problems, primary), u)
  {
    var k :| 0 <= k < i && order[k] == u;
    PlaceInPart(problems, edges, order, k);
    assert PartLists(problems, order, primary);
    assert PartOf(problems, order, primary)[k - PartFrom(problems, primary)] == u;
  }

  /** Who is ready in the whole order is ready in the part of its class. */
  lemma {:induction false} ReadyInPart(problems: seq<Problem>, edges: seq<Edge>, order: seq<int>, primary: bool,
                                       i: nat, v: int,
                    part: seq<int>, from: nat)
    requires IsReady(Members(problems, primary), true, edges, order, i, v) && from <= i
    requires forall u :: Among(order, i, u) && InClass(problems, u, primary) ==> Among(part, i - from, u)
    ensures IsReady(Members(problems, primary), true, edges, part, i - from, v)
  {
    forall u | Asks(Members(problems, primary), true, edges, u, v) ensures Among(part, i - from, u) {
      assert InClass(problems, u, primary);
    }
  }

  lemma {:induction false} PartReady(problems: seq<Problem>, edges: seq<Edge>, order: seq<int>, primary: bool, i: nat,
                                     v: int)
    requires forall primary :: PartLists(problems, order, primary)
    requires PartFrom(problems, primary) <= i <= |order| && |Class(problems, true)| <= |order|
    requires IsReady(Members(problems, primary), true, edges, order, i, v)
    ensures IsReady(Members(problems, primary), true, edges, PartOf(problems, order, primary),
                    i - PartFrom(problems, primary), v)
  {
    var from, part := PartFrom(problems, primary), PartOf(problems, order, primary);
    forall u | Among(order, i, u) && InClass(problems, u, primary) ensures Among(part, i - from, u) {
      AmongPart(problems, edges, order, primary, i, u);
    }
    ReadyInPart(problems, edges, order, primary, i, v, part, from);
  }

  lemma {:induction false} PartServes(problems: seq<Problem>, edges: seq<Edge>, order: seq<int>, primary: bool,
                                      i: nat, j: nat)
    requires |Class(problems, true)| <= |order|
    requires ServesByKey(Members(problems, primary), edges, OrderKeys(problems), PartOf(problems, order, primary))
    requires PartFrom(problems, primary) <= i < j < PartTo(problems, order, primary)
    requires IsReady(Members(problems, primary), true, edges, PartOf(problems, order, primary),
                     i - PartFrom(problems, primary), order[j])
    ensures !At(OrderKeys(problems), order[j]).Below(At(OrderKeys(problems), order[i]))
  {
    var from, part := PartFrom(problems, primary), PartOf(problems, order, primary);
    assert part[i - from] == order[i] && part[j - from] == order[j];
  }

  lemma {:induction false} ReadyPlaces(problems: seq<Problem>, edges: seq<Edge>, order: seq<int>, i: nat, j: nat)
    requires forall primary :: PartLists(problems, order, primary)
    requires i < j < |order| && SameClass(problems, Edge(order[i], order[j])) && |Class(problems, true)| <= |order|
    requires IsReady(Members(problems, problems[order[j] - 1].isPrimary), true, edges, order, i, order[j])
    ensures var primary := problems[order[j] - 1].isPrimary;
            && PartFrom(problems, primary) <= i && j < PartTo(problems, order, primary)
            && IsReady(Members(problems, primary), true, edges, PartOf(problems, order, primary),
                       i - PartFrom(problems, primary), order[j])
  {
    PlaceInPart(problems, edges, order, i);
    PlaceInPart(problems, edges, order, j);
    PartReady(problems, edges, order, problems[order[j] - 1].isPrimary, i, order[j]);
  }

  lemma {:induction false} KeysNotLater(problems: seq<Problem>, u: int, v: int)
    requires 1 <= u <= |problems| && 1 <= v <= |problems|
    requires !At(OrderKeys(problems), v).Below(At(OrderKeys(problems), u))
    ensures NotLater(problems[u - 1], problems[v - 1])
  {
    InOrderKeys(problems, u);
    InOrderKeys(problems, v);
  }

  lemma {:induction false} InOrderKeys(problems: seq<Problem>, v: int)
    requires 1 <= v <= |problems|
    ensures At(OrderKeys(problems), v) == Key(SafeOrder(problems[v - 1]), 0, 0)
  {
    assert OneTo(|problems|)[v - 1] == v;
  }

  /** What a repair order keeps for every list of edges, cycles included. */
  lemma {:induction false} RepairOrderLaws(problems: seq<Problem>, edges: seq<Edge>, order: seq<int>)
    requires IsRepairOrder(problems, edges, order)
    ensures ListsOneTo(order, |problems|) && PrimariesFirst(problems, order)
    ensures RespectsClassEdges(problems, edges, order)
    ensures ServesByOrder(problems, edges, order)
  {
    ListsClasses(problems, edges, order);
    forall primary ensures PartKeeps(problems, edges, order, primary) {
      RepairPart(problems, edges, order, primary);
    }
    ClassEdgesKept(problems, edges, order);
    OrderServed(problems, edges, order);
  }

  lemma {:induction false} ListsClasses(problems: seq<Problem>, edges: seq<Edge>, order: seq<int>)
    requires IsRepairOrder(problems, edges, order)
    ensures ListsOneTo(order, |problems|) && PrimariesFirst(problems, order)
  {
    var n := |Class(problems, true)|;
    IndicesFacts(problems, OfClass(true));
    IndicesFacts(problems, OfClass(false));
    ScheduleLength(Class(problems, true), edges, OrderKeys(problems), order[..n]);
    ScheduleLength(Class(problems, false), edges, OrderKeys(problems), order[n..]);
    PartsMakeOrder(problems, order);
  }

  lemma {:induction false} OrderServed(problems: seq<Problem>, edges: seq<Edge>, order: seq<int>)
    requires forall primary :: PartKeeps(problems, edges, order, primary)
    ensures ServesByOrder(problems, edges, order)
  {
    assert forall primary :: PartKeeps(problems, edges, order, primary) ==> PartLists(problems, order, primary);
    forall i, j | 0 <= i < j < |order| && SameClass(problems, Edge(order[i], order[j]))
                  && IsReady(Members(problems, problems[order[j] - 1].isPrimary), true, edges, order, i, order[j])
      ensures NotLater(problems[order[i] - 1], problems[order[j] - 1])
    {
      assert PartKeeps(problems, edges, order, problems[order[j] - 1].isPrimary);
      ReadyPlaces(problems, edges, order, i, j);
      PartServes(problems, edges, order, problems[order[j] - 1].isPrimary, i, j);
      KeysNotLater(problems, order[i], order[j]);
    }
  }

  method ComputeRepairOrder(problems: seq<Problem>, edges: seq<Edge>) returns (order: seq<int>)
    ensures IsRepairOrder(problems, edges, order)
    ensures ListsOneTo(order, |problems|) && PrimariesFirst(problems, order)
    ensures RespectsClassEdges(problems, edges, order)
    ensures ServesByOrder(problems, edges, order)
  {
    var primaries, hidden := [], [];
    for i := 0 to |problems|
      invariant primaries == Class(problems[..i], true) && hidden == Class(problems[..i], false)
    {
      IndicesGrow(problems, i, OfClass(true));
      IndicesGrow(problems, i, OfClass(false));
      if problems[i].isPrimary {
        primaries := primaries + [i + 1];
      } else {
        hidden := hidden + [i + 1];
      }
    }
    TakeAll(problems);
    IndicesFacts(problems, OfClass(true));
    IndicesFacts(problems, OfClass(false));
    ClassSizes(problems);
    var keys := OrderKeys(problems);
    var first := TopologicalSort(primaries, keys, edges);
    var second := TopologicalSort(hidden, keys, edges);
    ScheduleLength(primaries, edges, keys, first);
    ScheduleLength(hidden, edges, keys, second);
    order := first + second;
    assert order[..|first|] == first && order[|first|..] == second;
    RepairOrderLaws(problems, edges, order);
  }

  /**
   What a repair order from increasing edges promises: a permutation of 1..n with every primary
   before every hidden problem and every edge inside a class respected.
   */
  lemma {:induction false} RepairOrderSound(problems: seq<Problem>, edges: seq<Edge>, order: seq<int>)
    requires forall e :: e in edges ==> e.source < e.target
    requires IsRepairOrder(problems, edges, order)
    ensures ListsOneTo(order, |problems|) && PrimariesFirst(problems, order)
    ensures forall e :: e in edges && SameClass(problems, e) ==> Before(order, e.source, e.target)
  {
    var keys := OrderKeys(problems);
    var primaries, hidden := Class(problems, true), Class(problems, false);
    var n := |primaries|;
    IndicesFacts(problems, OfClass(true));
    IndicesFacts(problems, OfClass(false));
    ScheduleLength(primaries, edges, keys, order[..n]);
    ScheduleLength(hidden, edges, keys, order[n..]);
    PartsMakeOrder(problems, order);
    forall e | e in edges && SameClass(problems, e) ensures Before(order, e.source, e.target) {
      EdgeRespected(problems, edges, order, e);
    }
  }

  lemma {:induction false} EdgeRespected(problems: seq<Problem>, edges: seq<Edge>, order: seq<int>, e: Edge)
    requires forall e :: e in edges ==> e.source < e.target
    requires IsRepairOrder(problems, edges, order)
    requires e in edges && SameClass(problems, e)
    ensures Before(order, e.source, e.target)
  {
    var primary := problems[e.source - 1].isPrimary;
    var n := |Class(problems, true)|;
    var from, to := if primary then 0 else n, if primary then n else |order|;
    IndicesFacts(problems, OfClass(primary));
    assert order[..n] == order[0..n] && order[n..] == order[n..|order|];
    ClassIsTopological(Class(problems, primary), edges, OrderKeys(problems), order[from..to]);
    BeforeInPart(order, from, to, e.source, e.target);
  }

  lemma {:induction false} PartsMakeOrder(problems: seq<Problem>, order: seq<int>)
    requires var n := |Class(problems, true)|;
             && n <= |order|
             && Distinct(order[..n]) && Elems(order[..n]) == Elems(Class(problems, true))
             && Distinct(order[n..]) && Elems(order[n..]) == Elems(Class(problems, false))
    ensures ListsOneTo(order, |problems|) && PrimariesFirst(problems, order)
  {
    var n := |Class(problems, true)|;
    IndicesFacts(problems, OfClass(true));
    IndicesFacts(problems, OfClass(false));
    assert order == order[..n] + order[n..];
    forall i | 0 <= i < |order|
      ensures 1 <= order[i] <= |problems| && problems[order[i] - 1].isPrimary == (i < n)
    {
      if i < n {
        assert order[..n][i] in Elems(Class(problems, true));
      } else {
        assert order[n..][i - n] in Elems(Class(problems, false));
      }
    }
    forall v | 1 <= v <= |problems| ensures v in order {
      assert v in Elems(Class(problems, true)) || v in Elems(Class(problems, false));
    }
    forall i, j | 0 <= i < j < |order| ensures order[i] != order[j] {
      assert j < n ==> order[..n][i] != order[..n][j];
      assert n <= i ==> order[n..][i - n] != order[n..][j - n];
    }
  }

  /** e leads from an earlier to a later problem with the same command, and the rules relate the two. */
  ghost predicate IsMechanical(problems: seq<Problem>, e: Edge) {
    && 1 <= e.source < e.target <= |problems|
    && problems[e.source - 1].validationCmd == problems[e.target - 1].validationCmd
    && Related(problems[e.source - 1], problems[e.target - 1])
  }

  lemma {:induction false} PairIsMechanical(problems: seq<Problem>, cmd: string, a: int, b: int, e: Edge)
    requires PairEdge(problems, Indices(problems, WithCommand(cmd)), a, b, e)
    ensures IsMechanical(problems, e)
  {
    var group := Indices(problems, WithCommand(cmd));
    IndicesFacts(problems, WithCommand(cmd));
    assert group[a] in group && group[b] in group;
  }

  lemma {:induction false} MechanicalIsPair(problems: seq<Problem>, e: Edge) returns (a: nat, b: nat)
    requires IsMechanical(problems, e)
    ensures PairEdge(problems, Indices(problems, WithCommand(problems[e.source - 1].validationCmd)), a, b, e)
  {
    var group := Indices(problems, WithCommand(problems[e.source - 1].validationCmd));
    IndicesFacts(problems, WithCommand(problems[e.source - 1].validationCmd));
    assert e.source in group && e.target in group;
    a :| 0 <= a < |group| && group[a] == e.source;
    b :| 0 <= b < |group| && group[b] == e.target;
    RisingPlaces(group, a, b);
  }

  lemma {:induction false} GroupEdgesAre(problems: seq<Problem>, e: Edge)
    ensures (exists cmd :: InGroup(problems, cmd, e)) <==> IsMechanical(problems, e)
  {
    if cmd :| InGroup(problems, cmd, e) {
      var a, b :| PairEdge(problems, Indices(problems, WithCommand(cmd)), a, b, e);
      PairIsMechanical(problems, cmd, a, b, e);
    }
    if IsMechanical(problems, e) {
      var a, b := MechanicalIsPair(problems, e);
      assert InGroup(problems, problems[e.source - 1].validationCmd, e);
    }
  }

  lemma {:induction false} RisingPlaces(s: seq<int>, a: nat, b: nat)
    requires Increasing(s) && a < |s| && b < |s| && s[a] < s[b]
    ensures a < b
  {
  }

  /** The stage as a whole when no group gets an answer from the model. */
  method MechanicalRepairOrder(problems: seq<Problem>) returns (edges: seq<Edge>, order: seq<int>)
    ensures forall e :: e in edges <==> IsMechanical(problems, e)
    ensures IsRepairOrder(problems, edges, order)
    ensures ListsOneTo(order, |problems|) && PrimariesFirst(problems, order)
    ensures forall e :: e in edges && SameClass(problems, e) ==> Before(order, e.source, e.target)
    ensures ServesByOrder(problems, edges, order)
  {
    edges := DetectAll(problems);
    order := ComputeRepairOrder(problems, edges);
    forall e ensures e in edges <==> IsMechanical(problems, e) {
      GroupEdgesAre(problems, e);
    }
    RepairOrderSound(problems, edges, order);
  }
}
